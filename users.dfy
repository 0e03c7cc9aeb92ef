/** Users, their balances and the process-wide user counter. */
module Users {
  import opened Outcomes

  /** The guarded debit shared by `subtractBalance` and `useBonus`: a debit of
      `amount` from `funds` either succeeds in full or fails with `shortfall`. */
  function Debit(funds: real, amount: real, shortfall: Error): (r: Result<real>)
    ensures r.Ok? <==> amount <= funds
    ensures r.Ok? ==> r.value + amount == funds
    ensures r.Ok? ==> 0.0 <= r.value
    ensures r.Err? ==> r.error == shortfall
  {
    if funds < amount then Err(shortfall) else Ok(funds - amount)
  }

  /** The money a user holds, as a value: the main balance and the bonus
      balance (zero and never used for a user that is not premium). */
  datatype Purse = Purse(balance: real, bonusBalance: real) {
    predicate NonNegative() {
      0.0 <= balance && 0.0 <= bonusBalance
    }
  }

  /** One call on a user's money. */
  datatype Call = Add(amount: real) | Subtract(amount: real) | SpendBonus(amount: real)

  /** What one call does to a purse: the new purse, or the error it throws. */
  function Step(p: Purse, c: Call): (r: Result<Purse>)
    ensures r.Err? <==> (c.Subtract? && p.balance < c.amount) || (c.SpendBonus? && p.bonusBalance < c.amount)
    ensures r.Err? ==> r.error == if c.Subtract? then InsufficientFunds else InsufficientBonus
    ensures r.Ok? && c.Add? ==> r.value == Purse(p.balance + c.amount, p.bonusBalance)
    ensures r.Ok? && c.Subtract? ==> r.value == Purse(p.balance - c.amount, p.bonusBalance)
    ensures r.Ok? && c.SpendBonus? ==> r.value == Purse(p.balance, p.bonusBalance - c.amount)
    ensures r.Ok? && p.NonNegative() && (c.Add? ==> 0.0 <= c.amount) ==> r.value.NonNegative()
  {
    match c
    case Add(a) => Ok(p.(balance := p.balance + a))
    case Subtract(a) =>
      var d := Debit(p.balance, a, InsufficientFunds);
      if d.Ok? then Ok(p.(balance := d.value)) else Err(d.error)
    case SpendBonus(a) =>
      var d := Debit(p.bonusBalance, a, InsufficientBonus);
      if d.Ok? then Ok(p.(bonusBalance := d.value)) else Err(d.error)
  }

  /** The purse after one call whose failure, if any, the caller catches. */
  function After(p: Purse, c: Call): Purse {
    var r := Step(p, c);
    if r.Ok? then r.value else p
  }

  /** The purse after a sequence of calls, each failure caught by the caller. */
  function Run(p: Purse, calls: seq<Call>): Purse
    decreases |calls|
  {
    if calls == [] then p else Run(After(p, calls[0]), calls[1..])
  }

  /** `n` copies of the same call. */
  function Repeat(c: Call, n: nat): (calls: seq<Call>)
    ensures |calls| == n
    ensures forall i :: 0 <= i < n ==> calls[i] == c
  {
    if n == 0 then [] else [c] + Repeat(c, n - 1)
  }

  /** A purse that starts non-negative stays non-negative under any calls,
      provided no credit is negative: no debit ever overdraws. */
  lemma {:induction false} RunKeepsNonNegative(p: Purse, calls: seq<Call>)
    requires p.NonNegative()
    requires forall i :: 0 <= i < |calls| && calls[i].Add? ==> 0.0 <= calls[i].amount
    ensures Run(p, calls).NonNegative()
    decreases |calls|
  {
    if calls != [] {
      RunKeepsNonNegative(After(p, calls[0]), calls[1..]);
    }
  }

  /** Bonus spending, successful or not, never touches the main balance. */
  lemma {:induction false} BonusCallsKeepBalance(p: Purse, calls: seq<Call>)
    requires forall i :: 0 <= i < |calls| ==> calls[i].SpendBonus?
    ensures Run(p, calls).balance == p.balance
    decreases |calls|
  {
    if calls != [] {
      BonusCallsKeepBalance(After(p, calls[0]), calls[1..]);
    }
  }

  /** Main-balance credits and debits never touch the bonus balance. */
  lemma {:induction false} BalanceCallsKeepBonus(p: Purse, calls: seq<Call>)
    requires forall i :: 0 <= i < |calls| ==> !calls[i].SpendBonus?
    ensures Run(p, calls).bonusBalance == p.bonusBalance
    decreases |calls|
  {
    if calls != [] {
      BalanceCallsKeepBonus(After(p, calls[0]), calls[1..]);
    }
  }

  /** The calls of a sequence that act on the main balance. */
  function MainCalls(calls: seq<Call>): (r: seq<Call>)
    ensures |r| <= |calls|
    ensures forall i :: 0 <= i < |r| ==> !r[i].SpendBonus?
  {
    if calls == [] then []
    else if calls[0].SpendBonus? then MainCalls(calls[1..])
    else [calls[0]] + MainCalls(calls[1..])
  }

  /** The calls of a sequence that act on the bonus balance. */
  function BonusCalls(calls: seq<Call>): (r: seq<Call>)
    ensures |r| <= |calls|
    ensures forall i :: 0 <= i < |r| ==> r[i].SpendBonus?
  {
    if calls == [] then []
    else if calls[0].SpendBonus? then [calls[0]] + BonusCalls(calls[1..])
    else BonusCalls(calls[1..])
  }

  /** In any mix of calls, the main balance depends only on the credits and
      debits, in order: bonus spends, successful or not, leave no trace on it. */
  lemma {:induction false} MainBalanceIgnoresBonusCalls(p: Purse, q: Purse, calls: seq<Call>)
    requires p.balance == q.balance
    ensures Run(p, calls).balance == Run(q, MainCalls(calls)).balance
    decreases |calls|
  {
    if calls != [] {
      if calls[0].SpendBonus? {
        MainBalanceIgnoresBonusCalls(After(p, calls[0]), q, calls[1..]);
      } else {
        var m := MainCalls(calls);
        assert m[0] == calls[0] && m[1..] == MainCalls(calls[1..]);
        MainBalanceIgnoresBonusCalls(After(p, calls[0]), After(q, calls[0]), calls[1..]);
      }
    }
  }

  /** In any mix of calls, the bonus balance depends only on the bonus
      spends, in order: credits and debits leave no trace on it. */
  lemma {:induction false} BonusBalanceIgnoresMainCalls(p: Purse, q: Purse, calls: seq<Call>)
    requires p.bonusBalance == q.bonusBalance
    ensures Run(p, calls).bonusBalance == Run(q, BonusCalls(calls)).bonusBalance
    decreases |calls|
  {
    if calls != [] {
      if !calls[0].SpendBonus? {
        BonusBalanceIgnoresMainCalls(After(p, calls[0]), q, calls[1..]);
      } else {
        var b := BonusCalls(calls);
        assert b[0] == calls[0] && b[1..] == BonusCalls(calls[1..]);
        BonusBalanceIgnoresMainCalls(After(p, calls[0]), After(q, calls[0]), calls[1..]);
      }
    }
  }

  /** `n` credits of `v` raise the balance by exactly `n * v`. */
  lemma {:induction false} RepeatedCredit(p: Purse, v: real, n: nat)
    ensures Run(p, Repeat(Add(v), n)) == Purse(p.balance + n as real * v, p.bonusBalance)
    decreases n
  {
    if n > 0 {
      var calls := Repeat(Add(v), n);
      assert calls[0] == Add(v) && calls[1..] == Repeat(Add(v), n - 1);
      RepeatedCredit(After(p, Add(v)), v, n - 1);
      assert (n - 1) as real * v + v == n as real * v;
    }
  }

  /** `User::userCount`, the one process-wide counter: the number of users
      made by the modelled constructors and not yet destroyed (`live` is the
      set of those users). A copy-constructed user is outside this model. */
  class UserCounter {
    var userCount: int
    ghost var live: set<User>

    ghost predicate Valid()
      reads this
    {
      userCount == |live|
    }

    /** The counter as it starts, at zero. */
    constructor ()
      ensures Valid() && userCount == 0 && live == {}
    {
      userCount := 0;
      live := {};
    }

    /** `getUserCount`: the number of live users, whenever the counter is
        consistent. */
    function GetUserCount(): (r: int)
      reads this
      ensures Valid() ==> r == |live|
    {
      userCount
    }
  }

  /** A user account. A `PremiumUser` is a user with `isPremium` set, whose
      `bonusBalance` is its own; for a plain user `bonusBalance` stays zero. */
  class User {
    var id: int
    var name: string
    var username: string
    var balance: real
    const isPremium: bool
    var bonusBalance: real

    /** The money this user holds, as a value. */
    ghost function Money(): Purse
      reads this
    {
      Purse(balance, bonusBalance)
    }

    /** Constructs a plain user and counts it. */
    constructor (userId: int, userName: string, userUsername: string, userBalance: real, counter: UserCounter)
      requires counter.Valid()
      modifies counter
      ensures id == userId && name == userName && username == userUsername && balance == userBalance
      ensures !isPremium && bonusBalance == 0.0
      ensures counter.Valid() && counter.live == old(counter.live) + {this}
      ensures counter.userCount == old(counter.userCount) + 1
    {
      id, name, username, balance := userId, userName, userUsername, userBalance;
      isPremium, bonusBalance := false, 0.0;
      new;
      counter.userCount := counter.userCount + 1;
      counter.live := counter.live + {this};
    }

    /** Constructs a premium user with a bonus balance and counts it. */
    constructor Premium(userId: int, userName: string, userUsername: string, userBalance: real, bonus: real,
                        counter: UserCounter)
      requires counter.Valid()
      modifies counter
      ensures id == userId && name == userName && username == userUsername && balance == userBalance
      ensures isPremium && bonusBalance == bonus
      ensures counter.Valid() && counter.live == old(counter.live) + {this}
      ensures counter.userCount == old(counter.userCount) + 1
    {
      id, name, username, balance := userId, userName, userUsername, userBalance;
      isPremium, bonusBalance := true, bonus;
      new;
      counter.userCount := counter.userCount + 1;
      counter.live := counter.live + {this};
    }

    /** The destructor: the user stops being counted. */
    method Destroy(counter: UserCounter)
      requires counter.Valid() && this in counter.live
      modifies counter
      ensures counter.Valid() && counter.live == old(counter.live) - {this}
      ensures counter.userCount == old(counter.userCount) - 1
    {
      counter.userCount := counter.userCount - 1;
      counter.live := counter.live - {this};
    }

    /** `operator=`: copies the four `User` fields of `other`; the premium
        part of the target is not assigned, and no counter changes. */
    method Assign(other: User)
      modifies this`id, this`name, this`username, this`balance
      ensures id == old(other.id) && name == old(other.name)
      ensures username == old(other.username) && balance == old(other.balance)
      ensures bonusBalance == old(bonusBalance)
      ensures unchanged(other)
    {
      if this == other {
        return;
      }
      id := other.id;
      name := other.name;
      username := other.username;
      balance := other.balance;
    }

    /** `addBalance`: an unconditional credit. */
    method AddBalance(amount: real)
      modifies this`balance
      ensures balance == old(balance) + amount
      ensures Step(old(Money()), Add(amount)) == Ok(Money())
    {
      balance := balance + amount;
    }

    /** `subtractBalance`: a debit that throws, changing nothing, when the
        balance does not cover it. */
    method SubtractBalance(amount: real) returns (o: Outcome)
      modifies this`balance
      ensures o.Pass? <==> amount <= old(balance)
      ensures o.Pass? ==> balance == old(balance) - amount
      ensures o.Fail? ==> o.error == InsufficientFunds && balance == old(balance)
      ensures Step(old(Money()), Subtract(amount)) == if o.Pass? then Ok(Money()) else Err(o.error)
    {
      var d := Debit(balance, amount, InsufficientFunds);
      if d.Err? {
        return Fail(d.error);
      }
      balance := d.value;
      o := Pass;
    }

    /** `getBalance`: the main balance of this user's money. */
    function GetBalance(): (r: real)
      reads this
      ensures r == Money().balance
    {
      balance
    }

    /** `PremiumUser::useBonus`: a debit of the bonus balance that throws,
        changing nothing, when it does not cover it; the main balance is
        never touched. */
    method UseBonus(amount: real) returns (o: Outcome)
      requires isPremium
      modifies this`bonusBalance
      ensures o.Pass? <==> amount <= old(bonusBalance)
      ensures o.Pass? ==> bonusBalance == old(bonusBalance) - amount
      ensures o.Fail? ==> o.error == InsufficientBonus && bonusBalance == old(bonusBalance)
      ensures balance == old(balance)
      ensures Step(old(Money()), SpendBonus(amount)) == if o.Pass? then Ok(Money()) else Err(o.error)
    {
      var d := Debit(bonusBalance, amount, InsufficientBonus);
      if d.Err? {
        return Fail(d.error);
      }
      bonusBalance := d.value;
      o := Pass;
    }

    /** `PremiumUser::getBonusBalance`: the bonus balance of this user's
        money; only a premium user has one. */
    function GetBonusBalance(): (r: real)
      requires isPremium
      reads this
      ensures r == Money().bonusBalance
    {
      bonusBalance
    }
  }
}
