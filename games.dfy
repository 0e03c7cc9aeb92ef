/** Games, their payout rule, and the settlement of one round. */
module Games {
  import opened Outcomes
  import opened Users

  /** A game. It never changes after construction; `minBet` and `maxBet` are
      descriptive only and no operation checks a bet against them. */
  datatype Game = Game(gameName: string, minBet: real, maxBet: real, payoutMultiplier: real) {

    /** `calculatePayout`: what a bet pays. */
    function CalculatePayout(betAmount: real, isWin: bool): (r: real)
      ensures r != 0.0 ==> isWin
      ensures 0.0 <= betAmount && 0.0 <= payoutMultiplier ==> 0.0 <= r
    {
      if isWin then betAmount * payoutMultiplier else 0.0
    }
  }

  /** The payout rule holds for every bet, whatever the game's bet limits:
      a win pays the bet times the multiplier, a loss pays nothing. */
  lemma PayoutIgnoresBetLimits(g: Game, minBet: real, maxBet: real, betAmount: real)
    ensures g.(minBet := minBet, maxBet := maxBet).CalculatePayout(betAmount, true) == betAmount * g.payoutMultiplier
    ensures g.(minBet := minBet, maxBet := maxBet).CalculatePayout(betAmount, false) == 0.0
  {
  }

  /** The balance after settling a round, or the error the settlement throws. */
  function Settle(balance: real, game: Game, betAmount: real, isWin: bool): (r: Result<real>)
    ensures r.Err? <==> !isWin && balance < betAmount
    ensures r.Err? ==> r.error == InsufficientFunds
    ensures r.Ok? && isWin ==> r.value == balance + betAmount * game.payoutMultiplier
    ensures r.Ok? && !isWin ==> r.value == balance - betAmount
    ensures r.Ok? && 0.0 <= balance && 0.0 <= betAmount && 0.0 <= game.payoutMultiplier ==> 0.0 <= r.value
  {
    if isWin then Ok(balance + game.CalculatePayout(betAmount, isWin))
    else Debit(balance, betAmount, InsufficientFunds)
  }

  /** A round: a bet by a borrowed player on a game, with its outcome decided
      beforehand by the caller. */
  class GameRound {
    const player: User
    const game: Game
    const betAmount: real
    const isWin: bool

    constructor (p: User, g: Game, bet: real, result: bool)
      ensures player == p && game == g && betAmount == bet && isWin == result
    {
      player, game, betAmount, isWin := p, g, bet, result;
    }

    /** `playRound`: a win credits the payout; a loss debits the bet, and a
        failed debit propagates to the caller with the balance unchanged. */
    method PlayRound() returns (o: Outcome)
      modifies player`balance
      ensures o.Pass? <==> isWin || betAmount <= old(player.balance)
      ensures isWin ==> player.balance == old(player.balance) + game.CalculatePayout(betAmount, true)
      ensures !isWin && o.Pass? ==> player.balance == old(player.balance) - betAmount
      ensures o.Fail? ==> o.error == InsufficientFunds && player.balance == old(player.balance)
      ensures Settle(old(player.balance), game, betAmount, isWin) == if o.Pass? then Ok(player.balance) else Err(o.error)
    {
      if isWin {
        var payout := game.CalculatePayout(betAmount, isWin);
        player.AddBalance(payout);
        o := Pass;
      } else {
        o := player.SubtractBalance(betAmount);
      }
    }
  }
}
