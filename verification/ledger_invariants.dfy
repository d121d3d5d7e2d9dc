/** How each ledger operation moves the two reconciliation quantities: the
    player total against `moneyOnTable` (the check made before cash-out),
    and the buy-ins against the money on the table plus what was cashed out. */
module LedgerInvariants {
  import opened Optional
  import opened Table
  import opened Ledger

  /** Every unit bought in is either on the table or in a cashed-out stack. */
  predicate Balanced(g: Game) {
    TotalBuyIns(g.players) == g.moneyOnTable + CashedOutTotal(g.players)
  }

  /** Seating a player adds their buy-in to the player total, and keeps both
      reconciliations and the uniqueness of ids when the id is fresh. */
  lemma AddPlayerKeepsTotals(g: Game, id: Id, name: string, buyIn: int, addedAt: Timestamp)
    ensures var r := AddPlayer(g, id, name, buyIn, addedAt);
      && PlayerTotal(r.players) == PlayerTotal(g.players) + buyIn
      && (TotalsMatch(g) ==> TotalsMatch(r))
      && (Balanced(g) ==> Balanced(r))
      && (UniqueIds(g.players) && !HasId(g.players, id) ==> UniqueIds(r.players))
  {
    var r := AddPlayer(g, id, name, buyIn, addedAt);
    var seat := r.players[|g.players|];
    assert r.players == g.players + [seat];
    SumOfAppend(g.players, [seat], ActiveChips);
    SumOfAppend(g.players, [seat], BuyInOf);
    SumOfAppend(g.players, [seat], CashedOutChips);
    SumOfSingle(seat, ActiveChips);
    SumOfSingle(seat, BuyInOf);
    SumOfSingle(seat, CashedOutChips);
    if UniqueIds(g.players) && !HasId(g.players, id) {
      forall i, j | 0 <= i < |r.players| && 0 <= j < |r.players| && i != j
        ensures r.players[i].id != r.players[j].id
      {
        if i == |g.players| {
          assert r.players[j] == g.players[j];
        } else if j == |g.players| {
          assert r.players[i] == g.players[i];
        } else {
          assert r.players[i] == g.players[i] && r.players[j] == g.players[j];
        }
      }
    }
  }

  /** Adjusting an active seat moves the player total by exactly the change
      of that stack, leaves `moneyOnTable` alone, and keeps the buy-in
      balance and the ids. */
  lemma AdjustMovesPlayerTotal(g: Game, i: int, amount: int)
    requires UniqueIds(g.players)
    requires 0 <= i < |g.players| && g.players[i].isActive
    ensures var r := UpdatePlayerChips(g, g.players[i].id, amount);
      && PlayerTotal(r.players) == PlayerTotal(g.players) + r.players[i].currentChips - g.players[i].currentChips
      && r.moneyOnTable == g.moneyOnTable
      && (Balanced(g) ==> Balanced(r))
      && UniqueIds(r.players)
  {
    var id := g.players[i].id;
    var r := UpdatePlayerChips(g, id, amount);
    assert r.players == g.players[i := r.players[i]];
    SumOfUpdate(g.players, i, r.players[i], ActiveChips);
    SumOfUpdate(g.players, i, r.players[i], BuyInOf);
    SumOfUpdate(g.players, i, r.players[i], CashedOutChips);
  }

  /** A chip adjustment that actually moves an active stack breaks a
      matching total: `moneyOnTable` does not follow it. */
  lemma AdjustBreaksTotals(g: Game, i: int, amount: int)
    requires UniqueIds(g.players)
    requires 0 <= i < |g.players| && g.players[i].isActive
    requires ChipFloor(g.players[i].currentChips + amount) != g.players[i].currentChips
    requires TotalsMatch(g)
    ensures !TotalsMatch(UpdatePlayerChips(g, g.players[i].id, amount))
  {
    AdjustMovesPlayerTotal(g, i, amount);
  }

  /** A rebuy for the one active seat with its id raises the player total
      and the money on the table alike, so a matching total survives; with
      distinct ids the buy-in balance survives too. */
  lemma RebuyKeepsTotals(g: Game, i: int, amount: int)
    requires 0 <= i < |g.players| && g.players[i].isActive && g.players[i].id != ""
    requires forall j :: 0 <= j < |g.players| && g.players[j].isActive && g.players[j].id == g.players[i].id ==> j == i
    requires amount > 0
    ensures var r := HandleRebuy(g, Some(g.players[i].id), amount);
      && r.Some?
      && PlayerTotal(r.value.players) == PlayerTotal(g.players) + amount
      && (TotalsMatch(g) ==> TotalsMatch(r.value))
      && (UniqueIds(g.players) ==> UniqueIds(r.value.players))
      && (UniqueIds(g.players) && Balanced(g) ==> Balanced(r.value))
  {
    var id := g.players[i].id;
    var r := HandleRebuy(g, Some(id), amount).value;
    var one := g.players[i := r.players[i]];
    SumOfPointwise(r.players, one, g.players, ActiveChips, ActiveChips, Zero);
    SumOfZero(g.players);
    SumOfUpdate(g.players, i, r.players[i], ActiveChips);
    if UniqueIds(g.players) {
      assert r.players == one;
      SumOfUpdate(g.players, i, r.players[i], BuyInOf);
      SumOfUpdate(g.players, i, r.players[i], CashedOutChips);
    }
  }

  /** A rebuy naming no seat still raises `moneyOnTable`, so it breaks a
      matching total. */
  lemma RebuyWithoutSeatBreaksTotals(g: Game, id: Id, amount: int)
    requires !HasId(g.players, id) && id != ""
    requires amount > 0
    requires TotalsMatch(g)
    ensures var r := HandleRebuy(g, Some(id), amount);
      r.Some? && r.value.players == g.players && !TotalsMatch(r.value)
  {
  }

  /** Locking and unlocking move no money. */
  lemma ToggleKeepsTotals(g: Game, playerId: Id)
    ensures var r := ToggleLockPlayer(g, playerId);
      && PlayerTotal(r.players) == PlayerTotal(g.players)
      && r.moneyOnTable == g.moneyOnTable
      && (Balanced(g) <==> Balanced(r))
      && (UniqueIds(g.players) <==> UniqueIds(r.players))
  {
    var r := ToggleLockPlayer(g, playerId);
    SumOfPointwise(r.players, g.players, g.players, ActiveChips, ActiveChips, Zero);
    SumOfPointwise(r.players, g.players, g.players, BuyInOf, BuyInOf, Zero);
    SumOfPointwise(r.players, g.players, g.players, CashedOutChips, CashedOutChips, Zero);
    SumOfZero(g.players);
  }

  /** Cash-out takes the cashed-out stacks off both the player total and
      the money on the table, and moves them into the cashed-out total. */
  lemma CashOutKeepsTotals(g: Game, now: Timestamp)
    ensures var r := CashOutLockedPlayers(g, now);
      && PlayerTotal(r.players) == PlayerTotal(g.players) - CashOutTotal(g.players)
      && CashedOutTotal(r.players) == CashedOutTotal(g.players) + CashOutTotal(g.players)
      && (TotalsMatch(g) ==> TotalsMatch(r))
      && (Balanced(g) ==> Balanced(r))
      && (UniqueIds(g.players) ==> UniqueIds(r.players))
  {
    var r := CashOutLockedPlayers(g, now);
    SumOfPointwise(g.players, r.players, g.players, ActiveChips, ActiveChips, CashingOutChips);
    SumOfPointwise(r.players, g.players, g.players, CashedOutChips, CashedOutChips, CashingOutChips);
    SumOfPointwise(r.players, g.players, g.players, BuyInOf, BuyInOf, Zero);
    SumOfZero(g.players);
  }
}
