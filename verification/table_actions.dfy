/** The game screen as a state machine: the actions a host can take, with the
    guards the screen puts on them. Seat controls appear only for active
    seats; the chip and rebuy buttons of a locked seat are disabled; the
    cash-out button needs a locked active seat and a matching total. */
module TableActions {
  import opened Optional
  import opened Table
  import opened Ledger
  import opened LedgerInvariants

  /** The four chip buttons on each seat. */
  datatype ChipButton = MinusFive | MinusSmallBlind | PlusSmallBlind | PlusFive

  function ButtonAmount(g: Game, b: ChipButton): (r: int)
    ensures r == (if b == MinusFive || b == PlusFive then 5 else g.smallBlind)
               * (if b == MinusFive || b == MinusSmallBlind then -1 else 1)
  {
    match b
    case MinusFive => -5
    case MinusSmallBlind => -g.smallBlind
    case PlusSmallBlind => g.smallBlind
    case PlusFive => 5
  }

  datatype Action =
    | AddPlayerForm(newId: Id, name: string, buyIn: int, addedAt: Timestamp)
    | ChipButtonPress(playerId: Id, button: ChipButton)
    | RebuySubmit(playerId: Id, amount: int)
    | LockToggle(playerId: Id)
    | CashOutPress(now: Timestamp)

  /** A seat with this id is listed among the active players. */
  predicate SeatShown(g: Game, id: Id) {
    exists k :: 0 <= k < |g.players| && g.players[k].id == id && g.players[k].isActive
  }

  /** A seat with this id is listed and its chip and rebuy buttons are enabled. */
  predicate ControlsEnabled(g: Game, id: Id) {
    exists k :: 0 <= k < |g.players| && g.players[k].id == id && g.players[k].isActive && !g.players[k].isLocked
  }

  /** One host action on the current game. An action the screen does not
      offer leaves the game unchanged. */
  function Step(g: Game, a: Action): (r: Game)
    ensures |r.players| >= |g.players|
    ensures forall k :: 0 <= k < |g.players| ==> r.players[k].id == g.players[k].id
    ensures r.tableName == g.tableName && r.smallBlind == g.smallBlind && r.bigBlind == g.bigBlind
    ensures r.defaultBuyIn == g.defaultBuyIn && r.id == g.id && r.isActive == g.isActive
    ensures r.startTime == g.startTime && r.endTime == g.endTime
    ensures !a.AddPlayerForm? ==> |r.players| == |g.players|
  {
    match a
    case AddPlayerForm(id, name, buyIn, addedAt) =>
      if name != "" then AddPlayer(g, id, name, buyIn, addedAt) else g
    case ChipButtonPress(id, b) =>
      if ControlsEnabled(g, id) then UpdatePlayerChips(g, id, ButtonAmount(g, b)) else g
    case RebuySubmit(id, amount) =>
      if ControlsEnabled(g, id) then
        match HandleRebuy(g, Some(id), amount)
        case Some(done) => done
        case None => g
      else g
    case LockToggle(id) =>
      if SeatShown(g, id) then ToggleLockPlayer(g, id) else g
    case CashOutPress(now) =>
      AfterCashOut(g, PressCashOut(g, now))
  }

  function Run(g: Game, acts: seq<Action>): Game
    decreases |acts|
  {
    if acts == [] then g else Run(Step(g, acts[0]), acts[1..])
  }

  /** Every seat added along the way gets an id not already at the table.
      The source draws ids from the clock; this is the assumption that
      makes them distinct. */
  predicate FreshAdds(g: Game, acts: seq<Action>)
    decreases |acts|
  {
    acts == [] ||
    ((acts[0].AddPlayerForm? ==> !HasId(g.players, acts[0].newId)) && FreshAdds(Step(g, acts[0]), acts[1..]))
  }

  predicate ChipsNonNegative(g: Game) {
    forall k :: 0 <= k < |g.players| ==> g.players[k].currentChips >= 0
  }

  // ---------------------------------------------------------------------
  // One step.

  /** An add with a fresh id is the only action that seats anyone, so ids
      stay distinct. */
  lemma StepKeepsUniqueIds(g: Game, a: Action)
    requires UniqueIds(g.players)
    requires a.AddPlayerForm? ==> !HasId(g.players, a.newId)
    ensures UniqueIds(Step(g, a).players)
  {
    if a.AddPlayerForm? {
      AddPlayerKeepsTotals(g, a.newId, a.name, a.buyIn, a.addedAt);
    }
  }

  /** A chip button keeps the buy-in balance: it only moves an active stack. */
  lemma ChipStepKeepsBalanced(g: Game, id: Id, b: ChipButton)
    requires UniqueIds(g.players) && Balanced(g)
    ensures Balanced(Step(g, ChipButtonPress(id, b)))
  {
    if ControlsEnabled(g, id) {
      var k :| 0 <= k < |g.players| && g.players[k].id == id && g.players[k].isActive && !g.players[k].isLocked;
      AdjustMovesPlayerTotal(g, k, ButtonAmount(g, b));
    }
  }

  /** A submitted rebuy keeps both reconciliations. */
  lemma RebuyStepKeepsTotals(g: Game, id: Id, amount: int)
    requires UniqueIds(g.players)
    ensures var r := Step(g, RebuySubmit(id, amount));
      && (TotalsMatch(g) ==> TotalsMatch(r))
      && (Balanced(g) ==> Balanced(r))
  {
    if ControlsEnabled(g, id) && amount > 0 && id != "" {
      var k :| 0 <= k < |g.players| && g.players[k].id == id && g.players[k].isActive && !g.players[k].isLocked;
      RebuyKeepsTotals(g, k, amount);
    }
  }

  /** With distinct ids, every offered action keeps the buy-ins balanced
      against the table and the cashed-out stacks. */
  lemma StepKeepsBalanced(g: Game, a: Action)
    requires UniqueIds(g.players) && Balanced(g)
    requires a.AddPlayerForm? ==> !HasId(g.players, a.newId)
    ensures Balanced(Step(g, a))
  {
    match a
    case AddPlayerForm(id, name, buyIn, addedAt) =>
      AddPlayerKeepsTotals(g, id, name, buyIn, addedAt);
    case ChipButtonPress(id, b) =>
      ChipStepKeepsBalanced(g, id, b);
    case RebuySubmit(id, amount) =>
      RebuyStepKeepsTotals(g, id, amount);
    case LockToggle(id) =>
      ToggleKeepsTotals(g, id);
    case CashOutPress(now) =>
      CashOutKeepsTotals(g, now);
  }

  /** Every offered action except a chip button keeps a matching total. */
  lemma StepKeepsTotalsMatch(g: Game, a: Action)
    requires UniqueIds(g.players) && TotalsMatch(g)
    requires !a.ChipButtonPress?
    ensures TotalsMatch(Step(g, a))
  {
    match a
    case AddPlayerForm(id, name, buyIn, addedAt) =>
      AddPlayerKeepsTotals(g, id, name, buyIn, addedAt);
    case RebuySubmit(id, amount) =>
      RebuyStepKeepsTotals(g, id, amount);
    case LockToggle(id) =>
      ToggleKeepsTotals(g, id);
    case CashOutPress(now) =>
      CashOutKeepsTotals(g, now);
  }

  /** A locked seat's stack and buy-in stay put under every action other than
      unlocking it, and it stays locked. */
  lemma StepKeepsLockedSeat(g: Game, a: Action, i: int)
    requires UniqueIds(g.players)
    requires 0 <= i < |g.players| && g.players[i].isLocked
    requires !(a.LockToggle? && a.playerId == g.players[i].id)
    ensures var r := Step(g, a);
      && r.players[i].isLocked
      && r.players[i].currentChips == g.players[i].currentChips
      && r.players[i].buyIn == g.players[i].buyIn
  {
    var r := Step(g, a);
    match a
    case AddPlayerForm(id, name, buyIn, addedAt) =>
      if name != "" {
        assert r.players[..|g.players|] == g.players;
        assert r.players[i] == r.players[..|g.players|][i];
      }
    case ChipButtonPress(id, b) =>
      if ControlsEnabled(g, id) {
        var k :| 0 <= k < |g.players| && g.players[k].id == id && g.players[k].isActive && !g.players[k].isLocked;
        assert k != i;
      }
    case RebuySubmit(id, amount) =>
      if ControlsEnabled(g, id) && amount > 0 && id != "" {
        var k :| 0 <= k < |g.players| && g.players[k].id == id && g.players[k].isActive && !g.players[k].isLocked;
        assert k != i;
      }
    case LockToggle(id) =>
    case CashOutPress(now) =>
  }

  /** A cashed-out seat never changes again: cash-out is terminal. */
  lemma StepKeepsCashedOutSeat(g: Game, a: Action, i: int)
    requires UniqueIds(g.players)
    requires 0 <= i < |g.players| && !g.players[i].isActive
    ensures Step(g, a).players[i] == g.players[i]
  {
    var r := Step(g, a);
    match a
    case AddPlayerForm(id, name, buyIn, addedAt) =>
      if name != "" {
        assert r.players[..|g.players|] == g.players;
        assert r.players[i] == r.players[..|g.players|][i];
      }
    case ChipButtonPress(id, b) =>
      if ControlsEnabled(g, id) {
        var k :| 0 <= k < |g.players| && g.players[k].id == id && g.players[k].isActive && !g.players[k].isLocked;
        assert k != i;
      }
    case RebuySubmit(id, amount) =>
      if ControlsEnabled(g, id) && amount > 0 && id != "" {
        var k :| 0 <= k < |g.players| && g.players[k].id == id && g.players[k].isActive && !g.players[k].isLocked;
        assert k != i;
      }
    case LockToggle(id) =>
      if SeatShown(g, id) {
        var k :| 0 <= k < |g.players| && g.players[k].id == id && g.players[k].isActive;
        assert k != i;
      }
    case CashOutPress(now) =>
  }

  /** Stacks stay non-negative as long as nobody is seated with a negative
      buy-in. */
  lemma StepKeepsChipsNonNegative(g: Game, a: Action)
    requires ChipsNonNegative(g)
    requires a.AddPlayerForm? ==> a.buyIn >= 0
    ensures ChipsNonNegative(Step(g, a))
  {
    var r := Step(g, a);
    if a.AddPlayerForm? && a.name != "" {
      forall k | 0 <= k < |r.players|
        ensures r.players[k].currentChips >= 0
      {
        if k < |g.players| {
          assert r.players[k] == r.players[..|g.players|][k];
        }
      }
    }
  }

  /** The add form does not reject a negative buy-in, and the stack it
      seats is then negative. */
  lemma NegativeBuyInBreaksChipsNonNegative(g: Game, id: Id, name: string, buyIn: int, addedAt: Timestamp)
    requires name != "" && buyIn < 0
    ensures !ChipsNonNegative(Step(g, AddPlayerForm(id, name, buyIn, addedAt)))
  {
    var r := Step(g, AddPlayerForm(id, name, buyIn, addedAt));
    assert r.players[|g.players|].currentChips == buyIn;
  }

  // ---------------------------------------------------------------------
  // Whole runs.

  /** The buy-in balance holds after any run of fresh-id actions. */
  lemma {:induction false} RunKeepsBalanced(g: Game, acts: seq<Action>)
    requires UniqueIds(g.players) && Balanced(g)
    requires FreshAdds(g, acts)
    ensures UniqueIds(Run(g, acts).players) && Balanced(Run(g, acts))
    decreases |acts|
  {
    if acts != [] {
      StepKeepsUniqueIds(g, acts[0]);
      StepKeepsBalanced(g, acts[0]);
      RunKeepsBalanced(Step(g, acts[0]), acts[1..]);
    }
  }

  /** With no chip-button presses, a matching total stays matching. */
  lemma {:induction false} RunKeepsTotalsMatch(g: Game, acts: seq<Action>)
    requires UniqueIds(g.players) && TotalsMatch(g)
    requires FreshAdds(g, acts)
    requires forall k :: 0 <= k < |acts| ==> !acts[k].ChipButtonPress?
    ensures TotalsMatch(Run(g, acts))
    decreases |acts|
  {
    if acts != [] {
      StepKeepsUniqueIds(g, acts[0]);
      StepKeepsTotalsMatch(g, acts[0]);
      RunKeepsTotalsMatch(Step(g, acts[0]), acts[1..]);
    }
  }

  /** A locked seat keeps its stack and buy-in until it is unlocked. */
  lemma {:induction false} RunKeepsLockedSeat(g: Game, acts: seq<Action>, i: int)
    requires UniqueIds(g.players)
    requires FreshAdds(g, acts)
    requires 0 <= i < |g.players| && g.players[i].isLocked
    requires forall k :: 0 <= k < |acts| ==> !(acts[k].LockToggle? && acts[k].playerId == g.players[i].id)
    ensures var r := Run(g, acts);
      && i < |r.players|
      && r.players[i].currentChips == g.players[i].currentChips
      && r.players[i].buyIn == g.players[i].buyIn
    decreases |acts|
  {
    if acts != [] {
      var g' := Step(g, acts[0]);
      StepKeepsLockedSeat(g, acts[0], i);
      StepKeepsUniqueIds(g, acts[0]);
      RunKeepsLockedSeat(g', acts[1..], i);
    }
  }

  /** A cashed-out seat is never touched again by any run. */
  lemma {:induction false} RunKeepsCashedOutSeat(g: Game, acts: seq<Action>, i: int)
    requires UniqueIds(g.players)
    requires FreshAdds(g, acts)
    requires 0 <= i < |g.players| && !g.players[i].isActive
    ensures i < |Run(g, acts).players| && Run(g, acts).players[i] == g.players[i]
    decreases |acts|
  {
    if acts != [] {
      StepKeepsCashedOutSeat(g, acts[0], i);
      StepKeepsUniqueIds(g, acts[0]);
      RunKeepsCashedOutSeat(Step(g, acts[0]), acts[1..], i);
    }
  }
}
