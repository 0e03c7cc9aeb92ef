/** Clients of the classes on concrete values: what a caller can conclude
    from the contracts alone. */
module Scenarios {
  import opened Outcomes
  import opened Users
  import opened Games
  import opened Awards

  /** A round on a game with multiplier 2 and a bet of 50 or 150 against a
      balance of 100: a win pays 100, a covered loss costs 50, an uncovered
      loss throws and leaves the balance at 100. */
  method RoundOutcomes(counter: UserCounter)
    requires counter.Valid()
    modifies counter
  {
    var game := Game("Roulette", 10.0, 500.0, 2.0);

    var winner := new User(1, "Ivan", "ivan123", 100.0, counter);
    var win := new GameRound(winner, game, 50.0, true);
    var o := win.PlayRound();
    assert o == Pass && winner.balance == 200.0;

    var loser := new User(2, "Ivan", "ivan123", 100.0, counter);
    var loss := new GameRound(loser, game, 50.0, false);
    o := loss.PlayRound();
    assert o == Pass && loser.balance == 50.0;

    var broke := new User(3, "Ivan", "ivan123", 100.0, counter);
    var bust := new GameRound(broke, game, 150.0, false);
    o := bust.PlayRound();
    assert o == Fail(InsufficientFunds) && broke.balance == 100.0;
  }

  /** A jackpot of 5000 pays a premium user with balance 200 once; a bonus
      of 20 pays every time; neither touches the bonus balance. */
  method AwardOutcomes(counter: UserCounter)
    requires counter.Valid()
    modifies counter
  {
    var maria := new User.Premium(2, "Maria", "maria456", 200.0, 50.0, counter);
    var bonus := new Bonus("Freespins", 20.0);
    bonus.Apply(maria);
    assert maria.balance == 220.0;
    bonus.Apply(maria);
    assert maria.balance == 240.0;

    var jackpot := new Jackpot(5000.0);
    jackpot.TryWin(maria);
    assert maria.balance == 5240.0 && jackpot.isWon;
    jackpot.TryWin(maria);
    assert maria.balance == 5240.0;

    var o := maria.UseBonus(80.0);
    assert o == Fail(InsufficientBonus) && maria.bonusBalance == 50.0 && maria.balance == 5240.0;
    o := maria.UseBonus(30.0);
    assert o == Pass && maria.bonusBalance == 20.0 && maria.balance == 5240.0;
  }

  /** Construction counts users, assignment does not, destruction uncounts. */
  method CounterOutcomes()
  {
    var counter := new UserCounter();
    var a := new User(1, "Ivan", "ivan123", 100.0, counter);
    var b := new User.Premium(2, "Maria", "maria456", 200.0, 50.0, counter);
    assert counter.userCount == 2;
    b.Assign(a);
    assert counter.userCount == 2;
    assert b.id == 1 && b.balance == 100.0 && b.bonusBalance == 50.0;
    a.Assign(a);
    assert a.id == 1 && a.balance == 100.0;
    b.Destroy(counter);
    assert counter.userCount == 1;
  }
}
