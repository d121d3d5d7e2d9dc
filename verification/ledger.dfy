/** The state transitions the game screen applies to the current game. Each
    one copies the game record, maps over the seats and returns the new
    game; how the new game reaches the application state is not modelled. */
module Ledger {
  import opened Optional
  import opened Table

  /** `Math.max(0, x)`: stacks are clamped at zero. */
  function ChipFloor(x: int): (r: int)
    ensures r >= 0 && r >= x
    ensures x >= 0 ==> r == x
    ensures x < 0 ==> r == 0
  {
    if x < 0 then 0 else x
  }

  /** `addPlayer`: seats a new player with their whole buy-in as stack. */
  function AddPlayer(g: Game, id: Id, name: string, buyIn: int, addedAt: Timestamp): (r: Game)
    ensures |r.players| == |g.players| + 1
    ensures r.players[..|g.players|] == g.players
    ensures var p := r.players[|g.players|];
      && p.id == id && p.name == name && p.addedAt == addedAt
      && p.buyIn == buyIn && p.currentChips == buyIn
      && p.isActive && !p.isLocked && p.cashOutTime == None
    ensures r.moneyOnTable == g.moneyOnTable + buyIn
    ensures r == g.(players := r.players, moneyOnTable := r.moneyOnTable)
  {
    var seat := Player(id, name, buyIn, buyIn, true, false, addedAt, None);
    var r := g.(players := g.players + [seat], moneyOnTable := g.moneyOnTable + buyIn);
    assert r.players[..|g.players|] == g.players;
    r
  }

  /** `updatePlayerChips`: moves a stack by `amount`, never below zero. */
  function UpdatePlayerChips(g: Game, playerId: Id, amount: int): (r: Game)
    ensures |r.players| == |g.players|
    ensures forall k :: 0 <= k < |g.players| && g.players[k].id != playerId ==> r.players[k] == g.players[k]
    ensures forall k :: 0 <= k < |g.players| && g.players[k].id == playerId ==>
      var before, after := g.players[k], r.players[k];
      && after == before.(currentChips := after.currentChips)
      && after.currentChips >= 0
      && after.currentChips >= before.currentChips + amount
      && (before.currentChips + amount >= 0 ==> after.currentChips == before.currentChips + amount)
      && (before.currentChips + amount <= 0 ==> after.currentChips == 0)
    ensures r == g.(players := r.players)
  {
    g.(players := MapWhereId(g.players, playerId,
                             (p: Player) => p.(currentChips := ChipFloor(p.currentChips + amount))))
  }

  /** `toggleLockPlayer`: flips the lock of the seat, nothing else. */
  function ToggleLockPlayer(g: Game, playerId: Id): (r: Game)
    ensures |r.players| == |g.players|
    ensures forall k :: 0 <= k < |g.players| ==>
      r.players[k] == g.players[k].(isLocked := r.players[k].isLocked)
      && (r.players[k].isLocked <==> (g.players[k].isLocked != (g.players[k].id == playerId)))
    ensures r == g.(players := r.players)
  {
    g.(players := MapWhereId(g.players, playerId, (p: Player) => p.(isLocked := !p.isLocked)))
  }

  /** `handleRebuy`: with a positive amount and a selected seat, adds the
      amount to the seat's buy-in and stack and to the money on the table.
      `None` means no game update is issued. */
  function HandleRebuy(g: Game, rebuyPlayerId: Option<Id>, rebuyAmount: int): (r: Option<Game>)
    ensures r.Some? <==> rebuyAmount > 0 && rebuyPlayerId != None && rebuyPlayerId != Some("")
    ensures r.Some? ==>
      var g' := r.value;
      && |g'.players| == |g.players|
      && g'.moneyOnTable == g.moneyOnTable + rebuyAmount
      && g' == g.(players := g'.players, moneyOnTable := g'.moneyOnTable)
      && (forall k :: 0 <= k < |g.players| && g.players[k].id != rebuyPlayerId.value ==>
            g'.players[k] == g.players[k])
      && (forall k :: 0 <= k < |g.players| && g.players[k].id == rebuyPlayerId.value ==>
            var before, after := g.players[k], g'.players[k];
            && after == before.(buyIn := after.buyIn, currentChips := after.currentChips)
            && after.buyIn == before.buyIn + rebuyAmount
            && after.currentChips - after.buyIn == before.currentChips - before.buyIn)
  {
    if rebuyAmount > 0 && rebuyPlayerId.Some? && |rebuyPlayerId.value| > 0 then
      Some(g.(players := MapWhereId(g.players, rebuyPlayerId.value,
                                    (p: Player) => p.(buyIn := p.buyIn + rebuyAmount,
                                            currentChips := p.currentChips + rebuyAmount)),
              moneyOnTable := g.moneyOnTable + rebuyAmount))
    else
      None
  }

  /** `cashOutLockedPlayers`: every seat that is locked and active leaves
      play, stamped with `now`; their chips come off the table. */
  function CashOutLockedPlayers(g: Game, now: Timestamp): (r: Game)
    ensures |r.players| == |g.players|
    ensures forall k :: 0 <= k < |g.players| && !(g.players[k].isLocked && g.players[k].isActive) ==>
      r.players[k] == g.players[k]
    ensures forall k :: 0 <= k < |g.players| && g.players[k].isLocked && g.players[k].isActive ==>
      r.players[k] == g.players[k].(isActive := false, cashOutTime := Some(now))
    ensures r.moneyOnTable == g.moneyOnTable - SumOf(g.players, CashingOutChips)
    ensures r == g.(players := r.players, moneyOnTable := r.moneyOnTable)
  {
    var total := CashOutTotal(g.players);
    g.(players := seq(|g.players|, k requires 0 <= k < |g.players| =>
                        var p := g.players[k];
                        if p.isLocked && p.isActive then p.(isActive := false, cashOutTime := Some(now)) else p),
       moneyOnTable := g.moneyOnTable - total)
  }

  /** `isOnePlayerLocked`: the cash-out button is enabled. */
  function IsOnePlayerLocked(g: Game): (b: bool)
    ensures b <==> exists k :: 0 <= k < |g.players| && g.players[k].isActive && g.players[k].isLocked
  {
    ActiveLockedWitness(g.players);
    |g.players| > 0 && exists p :: p in Filter(g.players, IsActive) && p.isLocked
  }

  /** `totalsMatch`: the player total agrees with the money on the table. */
  function TotalsMatch(g: Game): (b: bool)
    ensures b <==> SumOf(g.players, ActiveChips) == g.moneyOnTable
  {
    PlayerTotal(g.players) == g.moneyOnTable
  }

  /** What pressing "Cash Out" does. */
  datatype CashOutOutcome = ButtonDisabled | MismatchWarning | CashedOut(game: Game)

  /** The cash-out button: disabled unless some active seat is locked; on a
      total mismatch it only warns; otherwise it cashes out. */
  function PressCashOut(g: Game, now: Timestamp): (r: CashOutOutcome)
    ensures r.ButtonDisabled? <==> !(exists k :: 0 <= k < |g.players| && g.players[k].isActive && g.players[k].isLocked)
    ensures r.MismatchWarning? <==> IsOnePlayerLocked(g) && PlayerTotal(g.players) != g.moneyOnTable
    ensures r.CashedOut? <==> IsOnePlayerLocked(g) && PlayerTotal(g.players) == g.moneyOnTable
    ensures r.CashedOut? ==> r.game == CashOutLockedPlayers(g, now)
  {
    if !IsOnePlayerLocked(g) then ButtonDisabled
    else if !TotalsMatch(g) then MismatchWarning
    else CashedOut(CashOutLockedPlayers(g, now))
  }

  /** The game after a press of "Cash Out": unchanged unless it cashed out. */
  function AfterCashOut(g: Game, o: CashOutOutcome): Game {
    if o.CashedOut? then o.game else g
  }

  // ---------------------------------------------------------------------

  lemma {:induction false} InFilter(ps: seq<Player>, keep: Player -> bool, p: Player)
    ensures p in Filter(ps, keep) <==> p in ps && keep(p)
    decreases |ps|
  {
    if ps != [] {
      var n := |ps| - 1;
      InFilter(ps[..n], keep, p);
      assert ps == ps[..n] + [ps[n]];
    }
  }

  /** Some active seat is locked exactly when the filtered list of active
      seats holds a locked one. */
  lemma ActiveLockedWitness(ps: seq<Player>)
    ensures (exists p :: p in Filter(ps, IsActive) && p.isLocked) <==>
      exists k :: 0 <= k < |ps| && ps[k].isActive && ps[k].isLocked
  {
    if exists k :: 0 <= k < |ps| && ps[k].isActive && ps[k].isLocked {
      var k :| 0 <= k < |ps| && ps[k].isActive && ps[k].isLocked;
      InFilter(ps, IsActive, ps[k]);
    }
    if exists p :: p in Filter(ps, IsActive) && p.isLocked {
      var p :| p in Filter(ps, IsActive) && p.isLocked;
      InFilter(ps, IsActive, p);
      var k :| 0 <= k < |ps| && ps[k] == p;
    }
  }

  /** Locking the same seat twice gives back the original game. */
  lemma ToggleLockTwice(g: Game, playerId: Id)
    ensures ToggleLockPlayer(ToggleLockPlayer(g, playerId), playerId) == g
  {
    var r := ToggleLockPlayer(ToggleLockPlayer(g, playerId), playerId);
    assert r.players == g.players;
  }

  /** Cash-out leaves no locked active seat and never reactivates anyone. */
  lemma CashOutLeavesNoneLocked(g: Game, now: Timestamp)
    ensures var r := CashOutLockedPlayers(g, now);
      && (forall k :: 0 <= k < |r.players| ==> !(r.players[k].isLocked && r.players[k].isActive))
      && (forall k :: 0 <= k < |r.players| && r.players[k].isActive ==> g.players[k].isActive)
      && (forall k :: 0 <= k < |r.players| ==>
            r.players[k].currentChips == g.players[k].currentChips && r.players[k].buyIn == g.players[k].buyIn)
  {
  }

  /** A second cash-out, at any time, changes nothing. */
  lemma CashOutIdempotent(g: Game, now: Timestamp, later: Timestamp)
    ensures CashOutLockedPlayers(CashOutLockedPlayers(g, now), later) == CashOutLockedPlayers(g, now)
  {
    var r := CashOutLockedPlayers(g, now);
    var r2 := CashOutLockedPlayers(r, later);
    CashOutLeavesNoneLocked(g, now);
    SumOfPointwise(r.players, r.players, r.players, CashingOutChips, Zero, Zero);
    SumOfZero(r.players);
    assert r2.players == r.players;
  }
}
