/** What the approval path and the batch path share once they have reserved stock for an
    allocation: the allocation is recorded at zero value with the counter lowered and an
    outbound movement logged, then the lots are walked oldest first, the allocation is
    valued at what was taken, and that value is posted from the inventory account to farm
    expense. The invariants are proved here once, for both handlers. */
module Allocations {
  import opened Wrappers
  import opened Schema
  import opened LotAllocation
  import opened Ledger

  /** `r` is `t` with allocation `a` recorded at zero value and `q` of `code` reserved: the
      counter lowered by `q` and the outbound movement `m` logged. Lots, allocation lines,
      entries and balances are as in `t`. */
  ghost predicate ReservedFrom(t: Tables, r: Tables, a: int, code: string, q: real, m: Movement) {
    && r.lots == t.lots
    && code in t.inventory
    && r.inventory == t.inventory[code := t.inventory[code] - q]
    && m.itemCode == code && m.qtyChange == -q
    && r.movements == t.movements + [m]
    && a in r.allocations && r.allocations[a].allocatedValue == 0.0
    && r.allocations == t.allocations[a := r.allocations[a]]
    && r.allocationLines == t.allocationLines
    && r.entries == t.entries
    && r.accounts == t.accounts
  }

  /** The walk `w` applied for allocation `a`, then its value posted under group `g`. */
  function WalkedAndPosted(r: Tables, a: int, w: Walk, asset: int, g: int, table: string, ref: int): Tables
    requires a in r.allocations
  {
    AllocationPosted(Walked(r, a, w), asset, FarmExpenseAccount, Value(w.takes), g, table, ref)
  }

  /** The tables the walk and the posting write, read off the stages; every other table is
      as the reservation left it. */
  lemma PostedShape(r: Tables, a: int, w: Walk, asset: int, g: int, table: string, ref: int)
    requires a in r.allocations
    ensures var t' := WalkedAndPosted(r, a, w, asset, g, table, ref);
            && t'.lots == ApplyTakes(r.lots, w.takes)
            && t'.allocationLines == r.allocationLines + LinesOf(a, w.takes)
            && t'.allocations == r.allocations[a := r.allocations[a].(allocatedValue := Value(w.takes))]
            && t'.entries == r.entries + AllocationEntries(asset, FarmExpenseAccount, Value(w.takes), g, table, ref)
            && t'.accounts == AllocationBalances(r.accounts, asset, FarmExpenseAccount, Value(w.takes))
            && t'.inventory == r.inventory && t'.movements == r.movements
            && t'.items == r.items && t'.requirements == r.requirements && t'.batches == r.batches
            && t'.purchases == r.purchases && t'.birdCounts == r.birdCounts
            && t'.commissions == r.commissions && t'.closures == r.closures && t'.sales == r.sales
  {
  }

  /** The lot rows after the walk: each within bounds, with its id kept. */
  lemma PostedKeepsRows(t: Tables, r: Tables, a: int, code: string, q: real, m: Movement,
                        w: Walk, asset: int, g: int, table: string, ref: int, next: int)
    requires LotIdsIncreasing(t.lots) && LotsWithinBounds(t.lots)
    requires forall i | 0 <= i < |t.lots| :: t.lots[i].lotId < next
    requires ReservedFrom(t, r, a, code, q, m)
    requires DrawsFrom(t.lots, code, w.takes)
    ensures var t' := WalkedAndPosted(r, a, w, asset, g, table, ref);
            && LotsWithinBounds(t'.lots)
            && LotIdsIncreasing(t'.lots) && (forall i | 0 <= i < |t'.lots| :: t'.lots[i].lotId < next)
  {
    PostedShape(r, a, w, asset, g, table, ref);
    IncreasingIdsDistinct(t.lots);
    WalkKeepsLotIds(t.lots, w.takes, next);
    DrawKeepsLots(t.lots, code, w.takes);
  }

  /** The counter and the movement log move together: both by `-q` for `code`. */
  lemma PostedKeepsMovements(t: Tables, r: Tables, a: int, code: string, q: real, m: Movement,
                             w: Walk, asset: int, g: int, table: string, ref: int)
    requires InventoryTracksMovements(t)
    requires ReservedFrom(t, r, a, code, q, m)
    ensures InventoryTracksMovements(WalkedAndPosted(r, a, w, asset, g, table, ref))
  {
    var t' := WalkedAndPosted(r, a, w, asset, g, table, ref);
    PostedShape(r, a, w, asset, g, table, ref);
    CounterMoved(t, t', m);
  }

  /** A walk that took out of the lots exactly what the counter was lowered by keeps the
      counter matching the lots. */
  lemma PostedKeepsStock(t: Tables, r: Tables, a: int, code: string, q: real, m: Movement,
                         w: Walk, asset: int, g: int, table: string, ref: int)
    requires LotIdsIncreasing(t.lots) && LotsWithinBounds(t.lots) && InventoryMatchesLots(t)
    requires ReservedFrom(t, r, a, code, q, m)
    requires DrawsFrom(t.lots, code, w.takes) && Quantity(w.takes) == q
    ensures InventoryMatchesLots(WalkedAndPosted(r, a, w, asset, g, table, ref))
  {
    var t' := WalkedAndPosted(r, a, w, asset, g, table, ref);
    PostedShape(r, a, w, asset, g, table, ref);
    assert forall c :: LotStock(t'.lots, c) == LotStock(t.lots, c) + (if c == code then -q else 0.0) by {
      IncreasingIdsDistinct(t.lots);
      DrawKeepsLots(t.lots, code, w.takes);
    }
    assert forall c :: OnHand(t', c) == OnHand(t, c) + (if c == code then -q else 0.0);
    CounterFollowsLots(t, t', code, -q);
  }

  /** The allocation is valued at exactly the lines the walk wrote for it, since no earlier
      line named it; every other allocation keeps its value and its lines. */
  lemma PostedKeepsLines(t: Tables, r: Tables, a: int, code: string, q: real, m: Movement,
                         w: Walk, asset: int, g: int, table: string, ref: int)
    requires AllocationValuesMatchLines(t)
    requires forall i | 0 <= i < |t.allocationLines| :: t.allocationLines[i].allocationId != a
    requires ReservedFrom(t, r, a, code, q, m)
    ensures var t' := WalkedAndPosted(r, a, w, asset, g, table, ref);
            AllocationValuesMatchLines(t')
  {
    var t' := WalkedAndPosted(r, a, w, asset, g, table, ref);
    var lines := LinesOf(a, w.takes);
    PostedShape(r, a, w, asset, g, table, ref);
    LinesOfAllocation(a, w.takes);
    LineValueSumAbsent(t.allocationLines, a);
    forall b | b in t'.allocations
      ensures t'.allocations[b].allocatedValue == LineValueSum(t'.allocationLines, b)
    {
      LineValueSumAppend(t.allocationLines, lines, b);
      LinesCarryValue(a, w.takes, b);
    }
  }

  /** The walk adds lines only for allocation `a`, rewrites lot rows in place, and the
      posting adds entries only under group `g`: every id stays below a bound that `g` is
      below and the reserved tables already kept. */
  lemma PostedIdsBelow(r: Tables, a: int, w: Walk, asset: int, g: int, table: string, ref: int, bound: int)
    requires a in r.allocations && IdsBelow(r, bound) && g < bound
    ensures IdsBelow(WalkedAndPosted(r, a, w, asset, g, table, ref), bound)
  {
    var t' := WalkedAndPosted(r, a, w, asset, g, table, ref);
    var lines := LinesOf(a, w.takes);
    var es := AllocationEntries(asset, FarmExpenseAccount, Value(w.takes), g, table, ref);
    PostedShape(r, a, w, asset, g, table, ref);
    WalkKeepsLotIds(r.lots, w.takes, bound);
    LinesOfAllocation(a, w.takes);
    forall i | 0 <= i < |t'.allocationLines| ensures t'.allocationLines[i].allocationId < bound {
      if i < |r.allocationLines| {
        assert t'.allocationLines[i] == r.allocationLines[i];
      } else {
        assert t'.allocationLines[i] == lines[i - |r.allocationLines|];
      }
    }
    forall i | 0 <= i < |t'.entries| ensures t'.entries[i].groupId < bound {
      if i < |r.entries| {
        assert t'.entries[i] == r.entries[i];
      } else {
        assert t'.entries[i] == es[i - |r.entries|];
      }
    }
  }

  /** The posting is a balanced pair under group `g`, so every group stays balanced. */
  lemma PostedKeepsLedger(t: Tables, r: Tables, a: int, code: string, q: real, m: Movement,
                          w: Walk, asset: int, g: int, table: string, ref: int)
    requires GroupsBalanced(t.entries)
    requires ReservedFrom(t, r, a, code, q, m)
    ensures var t' := WalkedAndPosted(r, a, w, asset, g, table, ref);
            GroupsBalanced(t'.entries)
  {
    var t' := WalkedAndPosted(r, a, w, asset, g, table, ref);
    var es := AllocationEntries(asset, FarmExpenseAccount, Value(w.takes), g, table, ref);
    PostedShape(r, a, w, asset, g, table, ref);
    assert t'.entries == t.entries + [es[0], es[1]];
    PostingPairKeepsBalance(t.entries, es[0], es[1], g, Some(Value(w.takes)));
  }

  /** Reserving, walking a walk that draws from the item's lots, and posting keep every
      business invariant; the counter keeps matching the lots when the walk took exactly
      the quantity the counter was lowered by. */
  lemma PostedKeepsInvariants(t: Tables, r: Tables, a: int, code: string, q: real, m: Movement,
                              w: Walk, asset: int, g: int, table: string, ref: int)
    requires Consistent(t) && LotIdsIncreasing(t.lots)
    requires forall i | 0 <= i < |t.allocationLines| :: t.allocationLines[i].allocationId != a
    requires ReservedFrom(t, r, a, code, q, m)
    requires DrawsFrom(t.lots, code, w.takes)
    ensures var t' := WalkedAndPosted(r, a, w, asset, g, table, ref);
            && LotsWithinBounds(t'.lots)
            && InventoryTracksMovements(t')
            && AllocationValuesMatchLines(t')
            && GroupsBalanced(t'.entries)
            && (Quantity(w.takes) == q ==> InventoryMatchesLots(t'))
  {
    PostedShape(r, a, w, asset, g, table, ref);
    IncreasingIdsDistinct(t.lots);
    DrawKeepsLots(t.lots, code, w.takes);
    PostedKeepsMovements(t, r, a, code, q, m, w, asset, g, table, ref);
    PostedKeepsLines(t, r, a, code, q, m, w, asset, g, table, ref);
    PostedKeepsLedger(t, r, a, code, q, m, w, asset, g, table, ref);
    if Quantity(w.takes) == q {
      PostedKeepsStock(t, r, a, code, q, m, w, asset, g, table, ref);
    }
  }
}
