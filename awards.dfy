/** One-off awards: the single-shot jackpot and the repeatable bonus. */
module Awards {
  import opened Outcomes
  import opened Users

  /** A jackpot as a value: its fixed pool and whether it has been won. */
  datatype JackpotState = JackpotState(currentAmount: real, isWon: bool) {

    /** What one `tryWin` credits. */
    function Prize(): real {
      if isWon then 0.0 else currentAmount
    }

    /** The jackpot after one `tryWin`. */
    function AfterTry(): JackpotState {
      this.(isWon := true)
    }
  }

  /** The total credited by `n` successive `tryWin` calls starting from `j`. */
  function PaidOver(j: JackpotState, n: nat): real
    decreases n
  {
    if n == 0 then 0.0 else j.Prize() + PaidOver(j.AfterTry(), n - 1)
  }

  /** A won jackpot pays nothing, however often it is tried. */
  lemma {:induction false} WonJackpotPaysNothing(j: JackpotState, n: nat)
    requires j.isWon
    ensures PaidOver(j, n) == 0.0
    decreases n
  {
    if n > 0 {
      WonJackpotPaysNothing(j.AfterTry(), n - 1);
    }
  }

  /** Any number of tries on a jackpot pays its pool once if it was fresh and
      tried at all, and nothing otherwise. */
  lemma {:induction false} JackpotPaysOnce(j: JackpotState, n: nat)
    ensures PaidOver(j, n) == if !j.isWon && 0 < n then j.currentAmount else 0.0
    ensures 0.0 <= j.currentAmount ==> PaidOver(j, n) <= j.currentAmount
  {
    if n > 0 {
      WonJackpotPaysNothing(j.AfterTry(), n - 1);
    }
  }

  /** The jackpot: a fixed pool paid to the first user who tries it. */
  class Jackpot {
    const currentAmount: real
    var isWon: bool

    ghost function State(): JackpotState
      reads this
    {
      JackpotState(currentAmount, isWon)
    }

    constructor (amount: real)
      ensures currentAmount == amount && !isWon
    {
      currentAmount, isWon := amount, false;
    }

    /** `tryWin`: on a fresh jackpot, marks it won and credits the pool; on a
        won one, changes nothing. */
    method TryWin(user: User)
      modifies this`isWon, user`balance
      ensures isWon
      ensures !old(isWon) ==> user.balance == old(user.balance) + currentAmount
      ensures old(isWon) ==> user.balance == old(user.balance)
      ensures State() == old(State()).AfterTry()
      ensures user.balance == old(user.balance) + old(State()).Prize()
    {
      if !isWon {
        isWon := true;
        user.AddBalance(currentAmount);
      }
    }
  }

  /** A bonus: a fixed amount credited on every application. */
  class Bonus {
    const kind: string
    const value: real

    constructor (t: string, v: real)
      ensures kind == t && value == v
    {
      kind, value := t, v;
    }

    /** `apply`: credits the bonus amount; the bonus itself has no state
        that changes, so it can be applied again and again. */
    method Apply(user: User)
      modifies user`balance
      ensures user.balance == old(user.balance) + value
      ensures Step(old(user.Money()), Add(value)) == Ok(user.Money())
    {
      user.AddBalance(value);
    }
  }
}
