# Casino accounts: balances, rounds, jackpot and bonus

A Dafny model of the balance logic in `lab6.cpp`, a small casino simulation. It covers:

- a user account, with an unconditional credit (`addBalance`) and a guarded debit (`subtractBalance`);
- a premium user's separate bonus balance, with its own guarded debit (`useBonus`);
- a game's payout rule (`calculatePayout`);
- a round, which settles one bet against a borrowed user and game (`playRound`);
- a jackpot that pays once only (`tryWin`);
- a bonus that pays on every application (`apply`);
- the process-wide user counter, and `operator=`.

Money is `real`. The source's two `std::logic_error`s become the `Error` values `InsufficientFunds` and `InsufficientBonus`. A throwing `void` member returns an `Outcome` (`Pass` or `Fail(error)`).

Modules, one per component:

- `Outcomes`: the error, `Result` and `Outcome` datatypes.
- `Users`: the `User` class and the `UserCounter` class, which stands for `User::userCount`. `Users` also gives a value view of a user's money: `Purse`, with `Step` for one call and `Run` for a sequence of calls whose failures the caller catches. The lemmas about histories of calls are stated over that view, and every money method of `User` is tied to `Step` in its postcondition.
- `Games`: `Game` is a datatype, because a game never changes after construction. This module also has `Settle`, the value view of a round, and the `GameRound` class.
- `Awards`: the `Jackpot` and `Bonus` classes. `JackpotState` and `PaidOver` are the value view of repeated `tryWin` calls.
- `Scenarios`: client methods that drive the classes with concrete values. They show what a caller can conclude from the contracts alone: a round of 50 or 150 on multiplier 2 against a balance of 100; a jackpot of 5000 and a bonus of 20 against a balance of 200; counting across construction, assignment and destruction.

`PremiumUser` is folded into `User`:

- the constant `isPremium` says which kind of user it is;
- `bonusBalance` stays 0 for a plain user;
- `UseBonus` and `GetBonusBalance` require `isPremium`, which C++'s static types guarantee in the source.

`getBalance`, `getBonusBalance` and `getUserCount` are the reads `GetBalance`, `GetBonusBalance` and `UserCounter.GetUserCount`. `getGameName` is the datatype field `gameName`.

`UserCounter` stands for the single static `User::userCount`. A program is meant to create exactly one counter and pass it to every user constructor and `Destroy`. The model does not prevent a client from creating several counters.

## Model

| member | source | states |
|---|---|---|
| `Users.Debit` | lab6.cpp:54-58 | The guarded debit succeeds exactly when the amount is covered. On success, the new funds plus the amount equal the old funds, and the new funds are never negative. Otherwise it fails with the given error, and there is no partial debit. |
| `Users.Step` | lab6.cpp:50-89 | One call on a user's money. A credit adds exactly its amount. A debit subtracts exactly its amount, or fails with `InsufficientFunds` when it is not covered. A bonus spend does the same on the bonus balance, failing with `InsufficientBonus`. Each call leaves the other balance alone. A successful call keeps a non-negative purse non-negative unless it credits a negative amount. |
| `Users.RunKeepsNonNegative` | lab6.cpp:50-89 | Across any sequence of credits, debits and bonus spends, with failures caught, both balances stay non-negative if they start so and no credit is negative. |
| `Users.BonusCallsKeepBalance` | lab6.cpp:85-89 | Any sequence of bonus spends, successful or failed, leaves the main balance unchanged. |
| `Users.BalanceCallsKeepBonus` | lab6.cpp:50-58 | Any sequence of main-balance credits and debits leaves the bonus balance unchanged. |
| `Users.MainBalanceIgnoresBonusCalls` | lab6.cpp:50-89 | In any mixed sequence of calls, the final main balance equals what the credits and debits alone, in the same order, give from the same starting balance. Bonus spends, successful or failed, leave no trace on it, whatever the bonus balance. |
| `Users.BonusBalanceIgnoresMainCalls` | lab6.cpp:50-89 | In any mixed sequence of calls, the final bonus balance equals what the bonus spends alone, in the same order, give from the same starting bonus balance. Credits and debits leave no trace on it, whatever the main balance. |
| `Users.RepeatedCredit` | lab6.cpp:219-224 | `n` credits of `v` (for example `n` applications of a bonus) raise the balance by exactly `n * v` and leave the bonus balance alone. |
| `Users.UserCounter.constructor` | lab6.cpp:68 | The user counter starts at zero, with no live users. |
| `Users.User.constructor` | lab6.cpp:26-29 | Construction sets id, name, login and balance from the arguments. It adds the new user to the live set and raises `userCount` by exactly one, keeping `userCount` equal to the number of live users. |
| `Users.User.Premium` | lab6.cpp:76-77 | A premium user is constructed like a plain one, plus its bonus balance. It is counted once. |
| `Users.UserCounter.GetUserCount` | lab6.cpp:64-66 | `getUserCount` returns the counter, which is the number of live users while the counter is consistent. |
| `Users.User.Destroy` | lab6.cpp:37 | Destruction removes a live user from the live set and lowers `userCount` by exactly one. |
| `Users.User.Assign` | lab6.cpp:40-47 | Assignment copies id, name, login and balance from the source. It never changes the source, so self-assignment changes nothing. It does not touch the bonus balance, and cannot touch the counter (not in its frame). |
| `Users.User.AddBalance` | lab6.cpp:50-52 | `addBalance` raises the balance by exactly the amount. It cannot fail, and no other field changes. |
| `Users.User.SubtractBalance` | lab6.cpp:54-58 | `subtractBalance` succeeds exactly when the balance covers the amount, and then lowers it by exactly the amount. Otherwise it fails with `InsufficientFunds` and the balance is unchanged. It agrees with `Step`. |
| `Users.User.UseBonus` | lab6.cpp:85-89 | `useBonus` behaves the same way on the bonus balance, failing with `InsufficientBonus`. Either way the main balance is unchanged. |
| `Users.User.GetBalance` | lab6.cpp:60-62 | `getBalance` returns the main balance of the user's money, and reads nothing else. |
| `Users.User.GetBonusBalance` | lab6.cpp:91-93 | `getBonusBalance` returns the bonus balance of the user's money. It is callable only on a premium user, which C++'s static type `PremiumUser` guarantees in the source. |
| `Games.Game.CalculatePayout` | lab6.cpp:128-130 | A non-zero payout only comes from a win. The payout is non-negative for a non-negative bet and multiplier. |
| `Games.PayoutIgnoresBetLimits` | lab6.cpp:128-130 | Whatever the game's minimum and maximum bet, a win pays the bet times the multiplier and a loss pays 0. No bet is rejected. |
| `Games.Settle` | lab6.cpp:168-178 | Settling fails exactly on a loss the balance does not cover, and then with `InsufficientFunds`. A win adds the bet times the multiplier. A covered loss subtracts the bet. With non-negative balance, bet and multiplier, a settled balance is never negative. |
| `Games.GameRound.constructor` | lab6.cpp:165-166 | A round records its player, game, bet and predetermined outcome. |
| `Games.GameRound.PlayRound` | lab6.cpp:168-178 | A win credits `calculatePayout(bet, true)`. A covered loss debits the bet. An uncovered loss fails with `InsufficientFunds` and leaves the balance unchanged. The outcome and new balance are exactly those of `Settle`. |
| `Awards.WonJackpotPaysNothing` | lab6.cpp:195-204 | A jackpot that has been won pays nothing, however many times it is tried. |
| `Awards.JackpotPaysOnce` | lab6.cpp:195-204 | Over any number of tries, a jackpot pays its pool exactly once if it was fresh and tried at least once, and nothing otherwise. The total paid never exceeds a non-negative pool. |
| `Awards.Jackpot.constructor` | lab6.cpp:193 | A new jackpot holds the given pool and has not been won. |
| `Awards.Jackpot.TryWin` | lab6.cpp:195-204 | On a fresh jackpot, `tryWin` marks it won and credits the user with exactly the pool. On a won jackpot, the balance is unchanged and the jackpot stays won. The step agrees with `JackpotState.AfterTry` and `JackpotState.Prize`. |
| `Awards.Bonus.constructor` | lab6.cpp:219 | A bonus holds its kind and its value, both fixed. |
| `Awards.Bonus.Apply` | lab6.cpp:221-224 | Every application credits exactly the bonus value. The bonus has no mutable state, so applications repeat. |

## Left out

- Console output: every `displayInfo`/`displayResult` member and the printed win, loss, jackpot and bonus messages. The choice of message is visible in the returned `Outcome` or in the new state.
- `Transaction`: a display-only record linked to no balance change.
- `main` and `setlocale`: a fixed demo. Its values appear only as concrete cases in `Scenarios`.
- `AbstractUser`, `Admin` and virtual dispatch: `Admin` adds only a display string (`accessLevel`). The user variants are one class.
- IEEE `double` rounding: amounts are exact reals.
- C++ object lifetime: the destructor is the explicit `Destroy`, and nothing forces it to run once per user. `GameRound` holds a `User` reference and a `Game` value instead of raw pointers.
  - The compiler-generated copy constructor is not modelled. In C++ it does not increment `userCount`, but the copy's destructor still decrements it (lab6.cpp:28 against lab6.cpp:37). So in the source, `userCount` equals the number of live users only while no user is copy-constructed; `UserCounter.Valid()` states that equality for the modelled constructors.
  - `PremiumUser`'s implicitly generated `operator=` is not modelled. It would also copy `bonusBalance`; `Assign` models `User::operator=`, which does not. lab6.cpp reaches neither of these members.
- `Users.User.Assign`: does not return the reference that `operator=` returns for chaining.
- Validation the source does not do: credits may be negative, bets may fall outside `[minBet, maxBet]`, and a round may be played again. The class keeps no "balance is non-negative" invariant, because construction and `addBalance` accept negative values. Non-negativity is proved instead as a property of call sequences whose credits are non-negative (`RunKeepsNonNegative`).
