# Poker cash-game ledger

A Dafny model of the ledger behind a single-table poker cash-game tracker.
A game holds an ordered list of seats. Each seat has a cumulative buy-in, a
current stack, and active and locked flags. The game also keeps a running
`moneyOnTable` counter. The game screen applies pure transitions to this
record: seat a player, move a stack, rebuy, lock or unlock a seat, and cash
out the locked seats. The application around it starts and ends games, keeps
the history of finished games (most recent first) and manages player
profiles.

The model is functional. Every operation takes a game (or the application
state) and returns a new one. Ids and timestamps are parameters.

- `optional.dfy` (module `Optional`): `Option`, for missing fields and for updates that are not issued.
- `table.dfy` (module `Table`): the `Player` and `Game` datatypes, and the sums
  the ledger is reconciled with. These are the player total, the cash-out
  total, the total buy-ins and the cashed-out stacks. The module also has the
  lemmas that move those sums across seat-by-seat changes.
- `ledger.dfy` (module `Ledger`): the game screen's operations and the guard
  of the cash-out button.
- `ledger_invariants.dfy` (module `LedgerInvariants`): how each operation moves
  the two reconciliations. One is `totalsMatch`: the player total equals
  `moneyOnTable`. The other is `Balanced`: the total bought in equals
  `moneyOnTable` plus the final stacks of cashed-out seats.
- `table_actions.dfy` (module `TableActions`): the screen as a state machine.
  Seat controls exist only for active seats. The chip and rebuy buttons of a
  locked seat are disabled. `Step` applies one host action, `Run` applies a
  sequence, and the lemmas hold for whole runs.
- `session.dfy` (module `Session`): starting and ending games, adding and
  deleting profiles.
- `scenario.dfy` (module `Scenario`): a worked session, one transition per lemma.

Three things the proofs show beyond the per-operation contracts:

- `Balanced` holds after every action the screen offers, chip adjustments
  included, as long as seat ids are distinct. Adjustments only touch active
  seats. A cashed-out seat never changes again.
- `totalsMatch` survives every offered action except the chip buttons. A chip
  button that really moves an active stack breaks it, because `moneyOnTable`
  does not follow the adjustment. In the worked session, two small blinds are
  posted and the later cash-out press only shows the mismatch warning. The
  seat is not cashed out.
- The add-player form accepts a negative buy-in. The stack it seats is then
  negative. Every other operation keeps stacks at or above zero.

Three facts about the code shape the model:

- Ending a game stamps it and archives it. Profile statistics and session
  records are not touched (`src/App.jsx:64-75`).
- Rebuy and chip updates do not check the lock. Only the disabled buttons
  do, so the lock is modelled at the action level (`TableActions.Step`).
- Posting a blind and then pressing cash-out only shows the mismatch warning
  (`Scenario.CashOutWarns`).

## Model

| member | source | states |
|---|---|---|
| Ledger.AddPlayer | src/components/GameView.jsx:34-49 | exactly one seat is appended; its stack equals its buy-in, it is active and unlocked; earlier seats are unchanged; `moneyOnTable` rises by the buy-in; nothing else in the game changes |
| Ledger.ChipFloor | src/components/GameView.jsx:59 | the clamped stack is `max(0, x)`: zero when the unclamped value is negative, that value otherwise |
| Ledger.UpdatePlayerChips | src/components/GameView.jsx:54-62 | only seats with the id change, and only in their stack; the new stack is `max(0, old + amount)` for every amount, so never negative; seat count and `moneyOnTable` are unchanged |
| Ledger.ToggleLockPlayer | src/components/GameView.jsx:67-75 | a seat's lock flips exactly when its id matches; no other field of any seat and nothing else in the game changes |
| Ledger.ToggleLockTwice | src/components/GameView.jsx:67-75 | toggling the same id twice gives back the original game |
| Ledger.HandleRebuy | src/components/GameView.jsx:80-97 | an update is issued exactly when the amount is positive and the selected seat id is neither `null` nor the empty string; it adds the amount to the buy-in and stack of matching seats, leaving their P&L unchanged, raises `moneyOnTable` by the amount and leaves other seats alone |
| Ledger.CashOutLockedPlayers | src/components/GameView.jsx:103-117 | exactly the locked active seats become inactive and are stamped; every other seat is untouched; `moneyOnTable` falls by the sum of the cashed-out stacks |
| Ledger.CashOutLeavesNoneLocked | src/components/GameView.jsx:103-117 | after cash-out no seat is both locked and active, no seat is reactivated, and no stack or buy-in moves |
| Ledger.CashOutIdempotent | src/components/GameView.jsx:103-117 | a second cash-out, at any time, leaves the game as the first left it |
| Ledger.IsOnePlayerLocked | src/components/GameView.jsx:134-135 | the cash-out button is enabled exactly when some active seat is locked; the length test adds nothing |
| Ledger.TotalsMatch | src/components/GameView.jsx:137 | the totals match exactly when the active seats' stacks sum to `moneyOnTable` |
| Ledger.PressCashOut | src/components/GameView.jsx:409-417 | the press is disabled unless an active seat is locked; with a locked seat it warns exactly when the player total differs from `moneyOnTable`, and cashes out exactly when they agree |
| Table.FilterThenSum | src/components/GameView.jsx:105-107 | filtering the seats and then summing stacks equals summing a contribution that is zero on the seats the filter drops |
| Table.Filter | src/components/GameView.jsx:123-124 | the filtered list is no longer than the original and holds only seats of the original that pass the test |
| Table.MapWhereId | src/components/GameView.jsx:57-61 | the mapped list has the same length; with distinct ids, mapping over an id that some seat has is a single-seat update of that seat; mapping over an id no seat has returns the list unchanged |
| Table.PlayerTotal | src/components/GameView.jsx:122-126 | the player total is the sum of the active seats' stacks, and is not negative when no stack is |
| Table.CashOutTotal | src/components/GameView.jsx:105-107 | the cash-out total is the sum of the locked active seats' stacks, and is not negative when no stack is |
| Table.TotalBuyIns | src/components/GameHistory.jsx:35 | with no negative buy-in, the total buy-ins are non-negative and at least each seat's buy-in |
| LedgerInvariants.AddPlayerKeepsTotals | src/components/GameView.jsx:34-49 | seating a player raises the player total by the buy-in, so a matching total and the buy-in balance both survive, and a fresh id keeps ids distinct |
| LedgerInvariants.AdjustMovesPlayerTotal | src/components/GameView.jsx:54-62 | adjusting an active seat moves the player total by exactly the change of its stack while `moneyOnTable` stays; the buy-in balance and distinct ids survive |
| LedgerInvariants.AdjustBreaksTotals | src/components/GameView.jsx:54-62 | an adjustment that really moves an active stack turns a matching total into a mismatch |
| LedgerInvariants.RebuyKeepsTotals | src/components/GameView.jsx:80-97 | a rebuy whose id names exactly one active seat raises the player total and `moneyOnTable` alike, so a matching total survives; with distinct ids the buy-in balance and distinctness survive too |
| LedgerInvariants.RebuyWithoutSeatBreaksTotals | src/components/GameView.jsx:80-97 | a rebuy whose id names no seat leaves the seats alone but still raises `moneyOnTable`, so it breaks a matching total |
| LedgerInvariants.ToggleKeepsTotals | src/components/GameView.jsx:67-75 | locking moves neither the player total nor `moneyOnTable`; the buy-in balance and distinct ids hold before exactly when they hold after |
| LedgerInvariants.CashOutKeepsTotals | src/components/GameView.jsx:103-126 | cash-out takes the cashed-out stacks off the player total and moves them into the cashed-out total; a matching total, the buy-in balance and distinct ids survive |
| TableActions.ButtonAmount | src/components/GameView.jsx:278-330 | the four buttons move a stack by -5, minus the small blind, plus the small blind and +5 respectively |
| TableActions.Step | src/components/GameView.jsx:230-417 | no host action removes or renumbers a seat or changes the game's settings, id, times or active flag; only the add form adds seats |
| TableActions.StepKeepsUniqueIds | src/components/GameView.jsx:34-49 | with a fresh id for each added seat, every action keeps seat ids distinct |
| TableActions.StepKeepsBalanced | src/components/GameView.jsx:34-117 | every action the screen offers keeps the buy-in balance, chip buttons included |
| TableActions.StepKeepsTotalsMatch | src/components/GameView.jsx:34-137 | every offered action except a chip button keeps a matching total |
| TableActions.StepKeepsLockedSeat | src/components/GameView.jsx:278-347 | a locked seat stays locked and keeps its stack and buy-in under every action except toggling its own lock |
| TableActions.StepKeepsCashedOutSeat | src/components/GameView.jsx:252-255 | a cashed-out seat is not changed by any action |
| TableActions.StepKeepsChipsNonNegative | src/components/GameView.jsx:54-117 | stacks stay non-negative under every action that does not seat a negative buy-in |
| TableActions.NegativeBuyInBreaksChipsNonNegative | src/components/GameView.jsx:211-237 | the add form seats a negative buy-in as a negative stack |
| TableActions.RunKeepsBalanced | src/components/GameView.jsx:34-117 | the buy-in balance and distinct ids hold after any run of actions that adds seats with fresh ids |
| TableActions.RunKeepsTotalsMatch | src/components/GameView.jsx:34-137 | a matching total stays matching through any run without a chip-button press |
| TableActions.RunKeepsLockedSeat | src/components/GameView.jsx:278-347 | a locked seat keeps its stack and buy-in through any run that does not toggle its lock |
| TableActions.RunKeepsCashedOutSeat | src/components/GameView.jsx:103-117 | a cashed-out seat is never changed again: cash-out is terminal |
| Session.NewGame | src/App.jsx:48-59 | a missing or falsy setting (empty name, zero number) becomes its default `'Poker Game'`, 1, 2 or 30, and a truthy one is kept; the game is active, empty, with `moneyOnTable` 0, and both reconciliations hold; its settings read back unchanged exactly when all four were truthy |
| Session.NewGameSettingsRoundTrip | src/App.jsx:51-54 | restarting from a new game's own settings rebuilds that game: the defaults are a fixed point |
| Session.StartNewGame | src/App.jsx:48-61 | the current-game slot holds the game `NewGame` builds from the settings, with its defaults, id and start time; it is empty and matching; history and profiles are unchanged, so a game already in the slot is dropped |
| Session.EndGame | src/App.jsx:64-72 | history grows by one; its head is the current game with an end time and inactive, differing from it in nothing else; its tail is the old history; the slot is emptied; profiles are unchanged |
| Session.EndGameKeepsLedger | src/App.jsx:65-69 | the archived game keeps the seats, stacks, buy-ins and `moneyOnTable` of the current game, and with them both reconciliations |
| Session.AddPlayerProfile | src/App.jsx:78-95 | one profile is appended with the given id, name and contact, no sessions and all six statistics at 0; earlier profiles, the current game and history are unchanged |
| Session.RemoveProfiles | src/App.jsx:99 | the kept profiles are exactly the original ones whose id differs |
| Session.DeletePlayerProfile | src/App.jsx:98-100 | no profile with the id remains, every other profile is kept, and the current game and history (with their profile references) are unchanged |
| Session.RemoveProfilesAppend | src/App.jsx:99 | deleting acts on each part of a list separately, so survivors keep their order |
| Session.RemoveAbsentProfile | src/App.jsx:99 | deleting an id that no profile has leaves the list unchanged |
| Session.AddThenDeleteProfile | src/App.jsx:78-100 | deleting a just-added profile by its fresh id gives back the state before the add |
| Session.DeleteProfileIdempotent | src/App.jsx:98-100 | deleting the same id twice is deleting it once |
| Scenario.CashOutWarns | src/components/GameView.jsx:409-417 | after a blind has moved a locked player's stack, pressing cash-out only warns and changes nothing |

## Left out

- Rendering, styling, navigation and form or modal state. This includes the
  rebuy modal's reset of its amount and seat after a submit, and the form
  inputs' local state.
- Persistence to local storage and JSON encoding. These are I/O and carry no
  ledger logic.
- Clock-derived ids and ISO timestamps. They are parameters. Distinct ids are
  not guaranteed by the source. Lemmas that need them assume them
  (`UniqueIds`, `FreshAdds`).
- Ledger.CashOutLockedPlayers: one `now` stands for the per-seat clock reads
  of `GameView.jsx:113`. The source reads the clock once for each seat it
  cashes out, so two seats cashed out by one press may get different
  `cashOutTime` values. The model gives them all the same stamp. No other
  property depends on the stamps.
- JavaScript number semantics. Amounts are unbounded integers, so `NaN`,
  fractions and the `isNaN` test of the rebuy do not arise.
- How an updated game is delivered to the application. The application passes
  the game screen a `setCurrentGame` prop (`src/App.jsx:125`), but the screen
  does not take it from its props (`src/components/GameView.jsx:4-9`). So the
  `setCurrentGame` that cash-out calls (`GameView.jsx:119`) is unbound. The
  `onUpdateGame` callback the other operations call (`GameView.jsx:6`) is
  never passed, so it is undefined. As written, each screen operation throws
  before any game update is delivered. The model assumes every returned game
  becomes the current game.
- Seating players from profiles, and the `profileId` back-reference. No code
  in the modelled files sets them.
- Profile statistics and session records. They are only created, with zeroed
  statistics and no sessions. No modelled code updates them, so ending a game
  leaves profiles unchanged.
- `getMoneyOnTable`. It computes the same sum as `getTotalPot` and is not
  used. `PlayerTotal` stands for both.
- Session.EndGame: requires a current game. The end-game button exists only on
  the game screen, which returns early when there is no game. With no game,
  the code would archive a record holding only an end time and
  `isActive: false`.
- Session.AddPlayerProfile: requires a non-blank name, as the profile form
  checks before calling it. `IsWhitespace` covers the common characters
  `trim` removes, not every Unicode space separator.
- LedgerInvariants.RebuyKeepsTotals: requires that the id names exactly one
  active seat, which the rebuy button guarantees when ids are distinct.
  Without the button's guard, a rebuy naming no seat breaks the total
  (`RebuyWithoutSeatBreaksTotals`).
- LedgerInvariants.AdjustMovesPlayerTotal: requires distinct seat ids. With
  two active seats sharing an id, one adjustment moves both stacks.
- TableActions.StepKeepsLockedSeat: requires distinct seat ids. With a
  duplicate id, adjusting an unlocked seat also moves a locked seat that
  shares its id.
