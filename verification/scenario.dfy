/** A worked session: one player buys in, rebuys, posts two small blinds,
    locks and tries to cash out. */
module Scenario {
  import opened Optional
  import opened Table
  import opened Ledger
  import opened TableActions
  import opened Session

  function Alice(buyIn: int, chips: int, locked: bool): Player {
    Player("a", "Alice", buyIn, chips, true, locked, "t1", None)
  }

  function Table1(money: int, players: seq<Player>): Game {
    Game("g", "Poker Game", 1, 2, 30, "t0", None, true, money, players)
  }

  lemma Start()
    ensures NewGame(GameSettings(None, Some(1), Some(2), Some(30)), "g", "t0") == Table1(0, [])
  {
  }

  lemma SeatAlice()
    ensures Step(Table1(0, []), AddPlayerForm("a", "Alice", 30, "t1")) == Table1(30, [Alice(30, 30, false)])
  {
    assert [] + [Alice(30, 30, false)] == [Alice(30, 30, false)];
  }

  lemma AliceRebuys()
    ensures Step(Table1(30, [Alice(30, 30, false)]), RebuySubmit("a", 30)) == Table1(60, [Alice(60, 60, false)])
  {
    var g := Table1(30, [Alice(30, 30, false)]);
    assert g.players[0] == Alice(30, 30, false);
    assert ControlsEnabled(g, "a");
    var r := Step(g, RebuySubmit("a", 30));
    assert r.players == [Alice(60, 60, false)];
  }

  lemma AlicePostsSmallBlind(chips: int)
    requires chips >= 1
    ensures Step(Table1(60, [Alice(60, chips, false)]), ChipButtonPress("a", MinusSmallBlind))
            == Table1(60, [Alice(60, chips - 1, false)])
  {
    var g := Table1(60, [Alice(60, chips, false)]);
    assert g.players[0] == Alice(60, chips, false);
    assert ControlsEnabled(g, "a");
    var r := Step(g, ChipButtonPress("a", MinusSmallBlind));
    assert r.players == [Alice(60, chips - 1, false)];
  }

  lemma AliceLocks()
    ensures Step(Table1(60, [Alice(60, 58, false)]), LockToggle("a")) == Table1(60, [Alice(60, 58, true)])
  {
    var g := Table1(60, [Alice(60, 58, false)]);
    assert g.players[0] == Alice(60, 58, false);
    assert SeatShown(g, "a");
    var r := Step(g, LockToggle("a"));
    assert r.players == [Alice(60, 58, true)];
  }

  /** The blinds moved Alice's stack but not the table counter, so the
      cash-out press only warns and Alice stays seated. */
  lemma CashOutWarns()
    ensures PressCashOut(Table1(60, [Alice(60, 58, true)]), "t2") == MismatchWarning
    ensures Step(Table1(60, [Alice(60, 58, true)]), CashOutPress("t2")) == Table1(60, [Alice(60, 58, true)])
  {
    var g := Table1(60, [Alice(60, 58, true)]);
    assert g.players[0] == Alice(60, 58, true);
    assert SumOf(g.players, ActiveChips) == 58 by {
      assert g.players[..0] == [];
    }
  }
}
