/** The data of one poker table: the seats and the game record that holds
    them, together with the sums the ledger is reconciled with. */
module Table {
  import opened Optional

  type Id = string
  type Timestamp = string

  /** One seat at the table. `buyIn` is the cumulative money the player has
      put in; `currentChips` is the stack in front of them now. */
  datatype Player = Player(
    id: Id,
    name: string,
    buyIn: int,
    currentChips: int,
    isActive: bool,
    isLocked: bool,
    addedAt: Timestamp,
    cashOutTime: Option<Timestamp>)

  /** One game, active or finished. `moneyOnTable` is the running counter the
      ledger keeps; it is meant to equal the chips of the active players. */
  datatype Game = Game(
    id: Id,
    tableName: string,
    smallBlind: int,
    bigBlind: int,
    defaultBuyIn: int,
    startTime: Timestamp,
    endTime: Option<Timestamp>,
    isActive: bool,
    moneyOnTable: int,
    players: seq<Player>)

  // Per-seat contributions to the sums below.

  function ChipsOf(p: Player): int { p.currentChips }

  function BuyInOf(p: Player): int { p.buyIn }

  function Zero(p: Player): int { 0 }

  /** Chips still in play: those of an active seat. */
  function ActiveChips(p: Player): int { if p.isActive then p.currentChips else 0 }

  /** Chips taken off the table: the final stack of a cashed-out seat. */
  function CashedOutChips(p: Player): int { if p.isActive then 0 else p.currentChips }

  /** Chips that the next cash-out takes off the table. */
  function CashingOutChips(p: Player): int { if p.isLocked && p.isActive then p.currentChips else 0 }

  predicate IsActive(p: Player) { p.isActive }

  predicate IsLockedActive(p: Player) { p.isLocked && p.isActive }

  /** `Array.prototype.filter`: the seats that satisfy `keep`, in order. */
  function Filter(ps: seq<Player>, keep: Player -> bool): (r: seq<Player>)
    ensures |r| <= |ps|
    ensures forall p :: p in r ==> p in ps && keep(p)
  {
    if ps == [] then []
    else
      var init := Filter(ps[..|ps| - 1], keep);
      if keep(ps[|ps| - 1]) then init + [ps[|ps| - 1]] else init
  }

  /** A left-to-right `reduce((sum, p) => sum + f(p), 0)`. */
  function SumOf(ps: seq<Player>, f: Player -> int): int {
    if ps == [] then 0 else SumOf(ps[..|ps| - 1], f) + f(ps[|ps| - 1])
  }

  /** `getTotalPot` (and the identical `getMoneyOnTable`): the chips of the
      active seats, filtered and then summed. */
  function PlayerTotal(ps: seq<Player>): (r: int)
    ensures r == SumOf(ps, ActiveChips)
    ensures (forall k :: 0 <= k < |ps| ==> ps[k].currentChips >= 0) ==> r >= 0
  {
    FilterThenSum(ps, IsActive, ActiveChips);
    SumOfNonNegative(ps, ActiveChips);
    SumOf(Filter(ps, IsActive), ChipsOf)
  }

  /** `totalCashOut`: the chips of the seats that are locked and active. */
  function CashOutTotal(ps: seq<Player>): (r: int)
    ensures r == SumOf(ps, CashingOutChips)
    ensures (forall k :: 0 <= k < |ps| ==> ps[k].currentChips >= 0) ==> r >= 0
  {
    FilterThenSum(ps, IsLockedActive, CashingOutChips);
    SumOfNonNegative(ps, CashingOutChips);
    SumOf(Filter(ps, IsLockedActive), ChipsOf)
  }

  /** The history screen's "Total Buy-ins". */
  function TotalBuyIns(ps: seq<Player>): (r: int)
    ensures (forall k :: 0 <= k < |ps| ==> ps[k].buyIn >= 0) ==>
      r >= 0 && forall k :: 0 <= k < |ps| ==> ps[k].buyIn <= r
  {
    SumOfNonNegative(ps, BuyInOf);
    SumOf(ps, BuyInOf)
  }

  /** The final stacks of all cashed-out seats. */
  function CashedOutTotal(ps: seq<Player>): int {
    SumOf(ps, CashedOutChips)
  }

  /** No two seats share an id. The source draws ids from the clock and does
      not guarantee this; lemmas that need it say so. */
  predicate UniqueIds(ps: seq<Player>) {
    forall i, j :: 0 <= i < |ps| && 0 <= j < |ps| && i != j ==> ps[i].id != ps[j].id
  }

  predicate HasId(ps: seq<Player>, id: Id) {
    exists k :: 0 <= k < |ps| && ps[k].id == id
  }

  /** Replaces every seat whose id is `id` by `h` of it; the `players.map`
      shared by the per-seat operations. When ids are distinct this is a
      single-seat update, and an id no seat has changes nothing. */
  function MapWhereId(ps: seq<Player>, id: Id, h: Player -> Player): (r: seq<Player>)
    ensures |r| == |ps|
    ensures UniqueIds(ps) ==> forall i :: 0 <= i < |ps| && ps[i].id == id ==> r == ps[i := h(ps[i])]
    ensures !HasId(ps, id) ==> r == ps
  {
    var r := seq(|ps|, k requires 0 <= k < |ps| => if ps[k].id == id then h(ps[k]) else ps[k]);
    assert UniqueIds(ps) ==> forall i :: 0 <= i < |ps| && ps[i].id == id ==> r == ps[i := h(ps[i])] by {
      if UniqueIds(ps) {
        forall i | 0 <= i < |ps| && ps[i].id == id
          ensures r == ps[i := h(ps[i])]
        {
          forall k | 0 <= k < |ps|
            ensures r[k] == ps[i := h(ps[i])][k]
          {
            if k != i {
              assert ps[k].id != ps[i].id;
            }
          }
        }
      }
    }
    assert !HasId(ps, id) ==> r == ps by {
      if !HasId(ps, id) {
        forall k | 0 <= k < |ps|
          ensures r[k] == ps[k]
        {
          assert ps[k].id != id;
        }
      }
    }
    r
  }

  // ---------------------------------------------------------------------
  // Facts about the sums.

  lemma {:induction false} SumOfAppend(a: seq<Player>, b: seq<Player>, f: Player -> int)
    ensures SumOf(a + b, f) == SumOf(a, f) + SumOf(b, f)
    decreases |b|
  {
    if b == [] {
      assert a + b == a;
    } else {
      var b' := b[..|b| - 1];
      assert (a + b)[..|a + b| - 1] == a + b';
      SumOfAppend(a, b', f);
    }
  }

  lemma SumOfSingle(p: Player, f: Player -> int)
    ensures SumOf([p], f) == f(p)
  {
    assert [p][..0] == [];
  }

  /** Changing one seat changes a sum by the difference of that seat's
      contributions. */
  lemma {:induction false} SumOfUpdate(ps: seq<Player>, i: int, q: Player, f: Player -> int)
    requires 0 <= i < |ps|
    ensures SumOf(ps[i := q], f) == SumOf(ps, f) - f(ps[i]) + f(q)
    decreases |ps|
  {
    var n := |ps| - 1;
    if i == n {
      assert ps[i := q][..n] == ps[..n];
    } else {
      assert ps[i := q][..n] == ps[..n][i := q];
      SumOfUpdate(ps[..n], i, q, f);
    }
  }

  /** Seat-by-seat `fa(a[k]) == fb(b[k]) + d(c[k])` lifts to the sums. */
  lemma {:induction false} SumOfPointwise(a: seq<Player>, b: seq<Player>, c: seq<Player>,
                                          fa: Player -> int, fb: Player -> int, d: Player -> int)
    requires |a| == |b| == |c|
    requires forall k :: 0 <= k < |a| ==> fa(a[k]) == fb(b[k]) + d(c[k])
    ensures SumOf(a, fa) == SumOf(b, fb) + SumOf(c, d)
    decreases |a|
  {
    if a != [] {
      var n := |a| - 1;
      SumOfPointwise(a[..n], b[..n], c[..n], fa, fb, d);
    }
  }

  lemma {:induction false} SumOfZero(ps: seq<Player>)
    ensures SumOf(ps, Zero) == 0
    decreases |ps|
  {
    if ps != [] {
      SumOfZero(ps[..|ps| - 1]);
    }
  }

  /** Summing the chips of a filtered list is summing a contribution that is
      zero on the seats the filter drops. */
  lemma {:induction false} FilterThenSum(ps: seq<Player>, keep: Player -> bool, f: Player -> int)
    requires forall p :: f(p) == (if keep(p) then p.currentChips else 0)
    ensures SumOf(Filter(ps, keep), ChipsOf) == SumOf(ps, f)
    decreases |ps|
  {
    if ps != [] {
      var n := |ps| - 1;
      var init := Filter(ps[..n], keep);
      FilterThenSum(ps[..n], keep, f);
      if keep(ps[n]) {
        SumOfAppend(init, [ps[n]], ChipsOf);
        SumOfSingle(ps[n], ChipsOf);
      }
    }
  }

  /** With no negative contribution, a sum is non-negative and no smaller
      than any one contribution. */
  lemma {:induction false} SumOfNonNegative(ps: seq<Player>, f: Player -> int)
    ensures (forall k :: 0 <= k < |ps| ==> f(ps[k]) >= 0) ==>
      SumOf(ps, f) >= 0 && forall k :: 0 <= k < |ps| ==> f(ps[k]) <= SumOf(ps, f)
    decreases |ps|
  {
    if ps != [] && forall k :: 0 <= k < |ps| ==> f(ps[k]) >= 0 {
      var n := |ps| - 1;
      assert forall k :: 0 <= k < n ==> ps[..n][k] == ps[k];
      SumOfNonNegative(ps[..n], f);
    }
  }
}
