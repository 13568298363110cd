/** The oldest-first walk over an item's stock lots that both requirement approval and
    batch creation run: which lots are eligible and in which order, how much each lot
    gives, and how the lots table and the allocation lines change as the walk proceeds. */
module LotAllocation {
  import opened Wrappers
  import opened Schema
  import opened Decimals
  import Sequences

  // ---------------------------------------------------------------------------
  // The candidate lots

  /** The order of the lots query: received date first, then lot id. */
  predicate ReceivedNoLater(a: Lot, b: Lot) {
    a.receivedDate < b.receivedDate || (a.receivedDate == b.receivedDate && a.lotId <= b.lotId)
  }

  /** The filter of the lots query: the requested item, with stock left. */
  predicate Eligible(l: Lot, code: string) {
    l.itemCode == code && l.remainingQty > 0.0
  }

  lemma ReceivedNoLaterIsTotalPreorder(s: seq<Lot>)
    ensures Sequences.TotalPreorderOn(ReceivedNoLater, s)
  {
  }

  function EligibleFor(code: string): Lot -> bool {
    l => Eligible(l, code)
  }

  /** The lots the walk visits: every eligible lot and nothing else, oldest first. */
  function Candidates(lots: seq<Lot>, code: string): (r: seq<Lot>)
    ensures forall l :: l in r <==> l in lots && Eligible(l, code)
    ensures multiset(r) <= multiset(lots)
    ensures Sequences.Sorted(r, ReceivedNoLater)
  {
    var eligible := Sequences.Filter(lots, EligibleFor(code));
    ReceivedNoLaterIsTotalPreorder(eligible);
    Sequences.SortSorted(eligible, ReceivedNoLater);
    var r := Sequences.Sort(eligible, ReceivedNoLater);
    assert forall l :: l in r <==> l in multiset(r);
    assert forall l :: l in eligible <==> l in multiset(eligible);
    r
  }

  lemma {:induction false} DistinctAtMostOnce(s: seq<Lot>, x: Lot)
    requires DistinctLotIds(s)
    ensures multiset(s)[x] <= 1
  {
    if s != [] {
      assert s == [s[0]] + s[1..];
      assert DistinctLotIds(s[1..]) by {
        forall i, j | 0 <= i < |s[1..]| && 0 <= j < |s[1..]| && i != j
          ensures s[1..][i].lotId != s[1..][j].lotId
        {
          assert s[1..][i] == s[i + 1] && s[1..][j] == s[j + 1];
        }
      }
      DistinctAtMostOnce(s[1..], x);
      forall k | 0 <= k < |s[1..]| ensures s[1..][k] != s[0] {
        assert s[1..][k] == s[k + 1];
      }
    }
  }

  /** Lot ids are a primary key, so the candidates never name a lot twice. */
  lemma CandidatesDistinct(lots: seq<Lot>, code: string)
    requires DistinctLotIds(lots)
    ensures DistinctLotIds(Candidates(lots, code))
  {
    var r := Candidates(lots, code);
    forall i, j | 0 <= i < |r| && 0 <= j < |r| && i != j
      ensures r[i].lotId != r[j].lotId
    {
      if r[i].lotId == r[j].lotId {
        assert r[i] in lots && r[j] in lots;
        var a :| 0 <= a < |lots| && lots[a] == r[i];
        var b :| 0 <= b < |lots| && lots[b] == r[j];
        assert a == b;
        if i < j { Sequences.TwoCopies(r, i, j); } else { Sequences.TwoCopies(r, j, i); }
        DistinctAtMostOnce(lots, r[i]);
        assert false;
      }
    }
  }

  // ---------------------------------------------------------------------------
  // The walk, as a specification

  /** `qty` taken from `lot`, the lot as the query returned it. */
  datatype Take = Take(lot: Lot, qty: real)

  /** The takes in visiting order, and the quantity still needed afterwards. */
  datatype Walk = Walk(takes: seq<Take>, left: real)

  function Min(a: real, b: real): (m: real)
    ensures m <= a && m <= b && (m == a || m == b)
  {
    if a <= b then a else b
  }

  /** The walk of requirement approval: from each candidate in turn take the smaller of
      what it holds and what is still needed, until nothing more is needed. */
  function Fifo(cands: seq<Lot>, need: real): (w: Walk)
    ensures |w.takes| <= |cands|
  {
    if cands == [] || need <= 0.0 then Walk([], need)
    else
      var take := Min(cands[0].remainingQty, need);
      var rest := Fifo(cands[1..], need - take);
      Walk([Take(cands[0], take)] + rest.takes, rest.left)
  }

  /** The walk visits the candidates in their order, taking from a prefix of them. */
  lemma {:induction false} FifoInOrder(cands: seq<Lot>, need: real)
    ensures forall k | 0 <= k < |Fifo(cands, need).takes| :: Fifo(cands, need).takes[k].lot == cands[k]
  {
    if cands != [] && need > 0.0 {
      var take := Min(cands[0].remainingQty, need);
      FifoInOrder(cands[1..], need - take);
    }
  }

  /** Total quantity taken. */
  function Quantity(ts: seq<Take>): real
  {
    if ts == [] then 0.0 else Quantity(ts[..|ts| - 1]) + ts[|ts| - 1].qty
  }

  /** Total value taken, each take priced at its lot's unit cost. */
  function Value(ts: seq<Take>): real
  {
    if ts == [] then 0.0 else Value(ts[..|ts| - 1]) + ts[|ts| - 1].qty * ts[|ts| - 1].lot.unitCost
  }

  lemma {:induction false} TakeSumsAppend(a: seq<Take>, b: seq<Take>)
    ensures Quantity(a + b) == Quantity(a) + Quantity(b)
    ensures Value(a + b) == Value(a) + Value(b)
    decreases |b|
  {
    if b == [] {
      assert a + b == a;
    } else {
      assert (a + b)[..|a + b| - 1] == a + b[..|b| - 1];
      TakeSumsAppend(a, b[..|b| - 1]);
    }
  }

  /** Stock held by a sequence of lots. */
  function Stock(cands: seq<Lot>): real
  {
    if cands == [] then 0.0 else cands[0].remainingQty + Stock(cands[1..])
  }

  lemma {:induction false} StockNonNegative(cands: seq<Lot>)
    requires forall k | 0 <= k < |cands| :: cands[k].remainingQty >= 0.0
    ensures Stock(cands) >= 0.0
  {
    if cands != [] { StockNonNegative(cands[1..]); }
  }

  /** What is taken plus what is still needed is what was asked for. */
  lemma {:induction false} FifoConserves(cands: seq<Lot>, need: real)
    ensures Quantity(Fifo(cands, need).takes) + Fifo(cands, need).left == need
  {
    if cands != [] && need > 0.0 {
      var take := Min(cands[0].remainingQty, need);
      FifoConserves(cands[1..], need - take);
      TakeSumsAppend([Take(cands[0], take)], Fifo(cands[1..], need - take).takes);
      assert Quantity([Take(cands[0], take)]) == take by {
        assert [Take(cands[0], take)][..0] == [];
      }
    }
  }

  /** Each take is positive and at most what its lot held, so no lot goes negative. */
  lemma {:induction false} FifoTakeBounds(cands: seq<Lot>, need: real)
    requires forall k | 0 <= k < |cands| :: cands[k].remainingQty > 0.0
    ensures forall t | t in Fifo(cands, need).takes :: 0.0 < t.qty <= t.lot.remainingQty
  {
    if cands != [] && need > 0.0 {
      FifoTakeBounds(cands[1..], need - Min(cands[0].remainingQty, need));
    }
  }

  /** The walk ends short exactly when the candidates hold less than what is needed, and
      then it is short by the difference. */
  lemma {:induction false} FifoShortage(cands: seq<Lot>, need: real)
    requires need >= 0.0
    requires forall k | 0 <= k < |cands| :: cands[k].remainingQty >= 0.0
    ensures Fifo(cands, need).left == if need <= Stock(cands) then 0.0 else need - Stock(cands)
  {
    StockNonNegative(cands);
    if cands != [] && need > 0.0 {
      var take := Min(cands[0].remainingQty, need);
      FifoShortage(cands[1..], need - take);
      StockNonNegative(cands[1..]);
    }
  }

  /** Removing the lot at `i` takes exactly its remaining quantity out of the stock. */
  lemma {:induction false} StockRemove(s: seq<Lot>, i: int)
    requires 0 <= i < |s|
    ensures Stock(s) == s[i].remainingQty + Stock(s[..i] + s[i + 1..])
  {
    if i > 0 {
      var tail := s[1..];
      StockRemove(tail, i - 1);
      var without := s[..i] + s[i + 1..];
      var rest := tail[..i - 1] + tail[i..];
      assert without[0] == s[0] && without[1..] == rest;
      assert Stock(without) == s[0].remainingQty + Stock(rest);
    } else {
      assert s[..0] + s[1..] == s[1..];
    }
  }

  /** The stock of a set of lots does not depend on the order they are listed in. */
  lemma {:induction false} StockPermutation(a: seq<Lot>, b: seq<Lot>)
    requires multiset(a) == multiset(b)
    ensures Stock(a) == Stock(b)
    decreases |a|
  {
    if a == [] {
      assert |b| == |multiset(b)| == 0;
    } else {
      var i := Sequences.PermutationTail(a, b);
      StockRemove(b, i);
      StockPermutation(a[1..], b[..i] + b[i + 1..]);
    }
  }

  /** Over lots within bounds, the eligible lots of an item hold all of its stock: the lots
      left out hold nothing. */
  lemma {:induction false} StockFilter(lots: seq<Lot>, code: string)
    requires LotsWithinBounds(lots)
    ensures Stock(Sequences.Filter(lots, EligibleFor(code))) == LotStock(lots, code)
  {
    if lots != [] {
      assert LotsWithinBounds(lots[1..]) by {
        forall k | 0 <= k < |lots[1..]| ensures 0.0 <= lots[1..][k].remainingQty <= lots[1..][k].receivedQty {
          assert lots[1..][k] == lots[k + 1];
        }
      }
      StockFilter(lots[1..], code);
      assert 0.0 <= lots[0].remainingQty;
    }
  }

  /** The candidates hold exactly the stock left in the item's lots. */
  lemma CandidatesStock(lots: seq<Lot>, code: string)
    requires LotsWithinBounds(lots)
    ensures Stock(Candidates(lots, code)) == LotStock(lots, code)
  {
    var eligible := Sequences.Filter(lots, EligibleFor(code));
    assert Candidates(lots, code) == Sequences.Sort(eligible, ReceivedNoLater);
    StockPermutation(Candidates(lots, code), eligible);
    StockFilter(lots, code);
  }

  /** Over lots within bounds, the walk for an item comes up short exactly when the item's
      lots hold less than what is needed, and then by the difference. */
  lemma FifoShortageOfLots(lots: seq<Lot>, code: string, need: real)
    requires LotsWithinBounds(lots) && need >= 0.0
    ensures Fifo(Candidates(lots, code), need).left
            == if need <= LotStock(lots, code) then 0.0 else need - LotStock(lots, code)
  {
    var cands := Candidates(lots, code);
    assert forall k | 0 <= k < |cands| :: cands[k] in cands;
    FifoShortage(cands, need);
    CandidatesStock(lots, code);
  }

  // ---------------------------------------------------------------------------
  // The walk as batch creation writes it

  /** The walk of batch creation: the count still needed is an integer, and each step
      subtracts the take converted with `to_i32().unwrap_or(0)`, which drops any fraction. */
  function FifoTrunc(cands: seq<Lot>, need: int): (w: Walk)
    ensures |w.takes| <= |cands|
  {
    if cands == [] || need <= 0 then Walk([], need as real)
    else
      var take := Min(cands[0].remainingQty, need as real);
      var rest := FifoTrunc(cands[1..], need - ToI32(take).GetOr(0));
      Walk([Take(cands[0], take)] + rest.takes, rest.left)
  }

  /** The truncating walk visits the candidates in their order too. */
  lemma {:induction false} FifoTruncInOrder(cands: seq<Lot>, need: int)
    ensures forall k | 0 <= k < |FifoTrunc(cands, need).takes| :: FifoTrunc(cands, need).takes[k].lot == cands[k]
  {
    if cands != [] && need > 0 {
      var take := Min(cands[0].remainingQty, need as real);
      FifoTruncInOrder(cands[1..], need - ToI32(take).GetOr(0));
    }
  }

  /** With whole-number lots the truncating walk is the exact walk. */
  lemma {:induction false} FifoTruncWholeLots(cands: seq<Lot>, need: int)
    requires InI32(need)
    requires forall k | 0 <= k < |cands| :: cands[k].remainingQty >= 0.0 && IsWhole(cands[k].remainingQty)
    ensures FifoTrunc(cands, need) == Fifo(cands, need as real)
  {
    if cands != [] && need > 0 {
      var take := Min(cands[0].remainingQty, need as real);
      assert IsWhole(take);
      TruncWhole(take);
      var n := Trunc(take);
      assert 0 <= n <= need;
      assert ToI32(take) == Some(n);
      FifoTruncWholeLots(cands[1..], need - n);
    }
  }

  /** A lot of 2.5 chicks followed by one of 10, asked for 5: the truncating walk takes
      2.5 and then 3 more, because 2.5 counts as 2, so 5.5 chicks leave the lots for an
      allocation of 5, and no shortage is reported. The exact walk takes 2.5 + 2.5. */
  lemma FifoTruncOverdraws()
    ensures var cands := [Lot(1, None, "chicks", 2.5, 2.5, 40.0, 1),
                          Lot(2, None, "chicks", 10.0, 10.0, 40.0, 2)];
            && Quantity(FifoTrunc(cands, 5).takes) == 5.5
            && FifoTrunc(cands, 5).left == 0.0
            && Quantity(Fifo(cands, 5.0).takes) == 5.0
  {
    var l1 := Lot(1, None, "chicks", 2.5, 2.5, 40.0, 1);
    var l2 := Lot(2, None, "chicks", 10.0, 10.0, 40.0, 2);
    var cands := [l1, l2];
    assert cands[1..] == [l2];
    assert [l2][1..] == [];
    assert Trunc(2.5) == 2;
    assert ToI32(2.5) == Some(2);
    assert ToI32(3.0) == Some(3);
    var t1 := [Take(l1, 2.5)];
    var t2 := [Take(l2, 3.0)];
    assert FifoTrunc([], 0) == Walk([], 0.0);
    assert FifoTrunc([l2], 3) == Walk(t2, 0.0);
    assert FifoTrunc(cands, 5) == Walk(t1 + t2, 0.0);
    assert (t1 + t2)[..1] == t1 && t1[..0] == [];
    assert Quantity(t1) == 2.5;
    assert Quantity(t1 + t2) == 5.5;
    var e2 := [Take(l2, 2.5)];
    assert Fifo([], 0.0) == Walk([], 0.0);
    assert Fifo([l2], 2.5) == Walk(e2, 0.0);
    assert Fifo(cands, 5.0) == Walk(t1 + e2, 0.0);
    assert (t1 + e2)[..1] == t1;
    assert Quantity(t1 + e2) == 5.0;
  }

  /** Two lots of 2.5 chicks, asked for 5: the truncating walk takes both, but each counts
      as 2, so it ends still needing 1 and reports a shortage although the lots hold
      exactly 5. The exact walk is covered. */
  lemma FifoTruncFallsShort(code: string)
    ensures var cands := [Lot(1, None, code, 2.5, 2.5, 40.0, 1),
                          Lot(2, None, code, 2.5, 2.5, 40.0, 2)];
            && Stock(cands) == 5.0
            && FifoTrunc(cands, 5).left == 1.0
            && Fifo(cands, 5.0).left == 0.0
  {
    var l1 := Lot(1, None, code, 2.5, 2.5, 40.0, 1);
    var l2 := Lot(2, None, code, 2.5, 2.5, 40.0, 2);
    var cands := [l1, l2];
    assert cands[1..] == [l2];
    assert [l2][1..] == [];
    assert ToI32(2.5) == Some(2);
    assert FifoTrunc([], 1) == Walk([], 1.0);
    assert FifoTrunc([l2], 3) == Walk([Take(l2, 2.5)], 1.0);
    assert Fifo([], 0.0) == Walk([], 0.0);
    assert Fifo([l2], 2.5) == Walk([Take(l2, 2.5)], 0.0);
    assert Stock([l2]) == 2.5;
  }

  // ---------------------------------------------------------------------------
  // The effect of a walk on the tables

  /** The row update `UPDATE stock_receipts SET remaining_qty = q WHERE lot_id = id`. */
  function WithRemaining(lots: seq<Lot>, id: int, q: real): (r: seq<Lot>)
    ensures |r| == |lots|
  {
    seq(|lots|, k requires 0 <= k < |lots| =>
      if lots[k].lotId == id then lots[k].(remainingQty := q) else lots[k])
  }

  /** Each take writes its lot back as the query read it, less the take. */
  function ApplyTakes(lots: seq<Lot>, ts: seq<Take>): (r: seq<Lot>)
    ensures |r| == |lots|
  {
    if ts == [] then lots
    else
      var t := ts[|ts| - 1];
      WithRemaining(ApplyTakes(lots, ts[..|ts| - 1]), t.lot.lotId, t.lot.remainingQty - t.qty)
  }

  /** The allocation line a take writes. */
  function LineOf(allocationId: int, t: Take): AllocationLine {
    AllocationLine(allocationId, t.lot.lotId, t.qty, t.lot.unitCost, t.qty * t.lot.unitCost)
  }

  function LinesOf(allocationId: int, ts: seq<Take>): (r: seq<AllocationLine>)
    ensures |r| == |ts|
  {
    if ts == [] then []
    else LinesOf(allocationId, ts[..|ts| - 1]) + [LineOf(allocationId, ts[|ts| - 1])]
  }

  /** The lines of a walk add up to the walk's value under their allocation, and to
      nothing under any other. */
  lemma {:induction false} LinesCarryValue(allocationId: int, ts: seq<Take>, a: int)
    ensures LineValueSum(LinesOf(allocationId, ts), a) == if a == allocationId then Value(ts) else 0.0
  {
    if ts != [] {
      var ls := LinesOf(allocationId, ts);
      LinesCarryValue(allocationId, ts[..|ts| - 1], a);
      assert ls[..|ls| - 1] == LinesOf(allocationId, ts[..|ts| - 1]);
    }
  }

  /** Same rows, in the same order, differing at most in `remaining_qty`. */
  ghost predicate SameRows(r: seq<Lot>, lots: seq<Lot>) {
    |r| == |lots| && forall k | 0 <= k < |lots| :: r[k] == lots[k].(remainingQty := r[k].remainingQty)
  }

  lemma {:induction false} ApplyTakesSameRows(lots: seq<Lot>, ts: seq<Take>)
    ensures SameRows(ApplyTakes(lots, ts), lots)
  {
    if ts != [] { ApplyTakesSameRows(lots, ts[..|ts| - 1]); }
  }

  /** The walk rewrites rows in place: ids that increased and stayed below `next` still do. */
  lemma WalkKeepsLotIds(lots: seq<Lot>, ts: seq<Take>, next: int)
    requires LotIdsIncreasing(lots) && forall i | 0 <= i < |lots| :: lots[i].lotId < next
    ensures var r := ApplyTakes(lots, ts);
            LotIdsIncreasing(r) && forall i | 0 <= i < |r| :: r[i].lotId < next
  {
    var r := ApplyTakes(lots, ts);
    ApplyTakesSameRows(lots, ts);
    assert forall i | 0 <= i < |r| :: r[i].lotId == lots[i].lotId;
  }

  lemma SameRowsDistinct(r: seq<Lot>, lots: seq<Lot>)
    requires SameRows(r, lots) && DistinctLotIds(lots)
    ensures DistinctLotIds(r)
  {
    forall i, j | 0 <= i < |r| && 0 <= j < |r| && i != j ensures r[i].lotId != r[j].lotId {
      assert r[i].lotId == lots[i].lotId && r[j].lotId == lots[j].lotId;
    }
  }

  /** Rewriting one lot's remaining quantity moves its item's stock by the difference. */
  lemma {:induction false} WithRemainingStock(lots: seq<Lot>, p: int, q: real, code: string)
    requires DistinctLotIds(lots) && 0 <= p < |lots|
    ensures LotStock(WithRemaining(lots, lots[p].lotId, q), code)
            == LotStock(lots, code) + (if lots[p].itemCode == code then q - lots[p].remainingQty else 0.0)
  {
    var id := lots[p].lotId;
    var r := WithRemaining(lots, id, q);
    assert r[1..] == WithRemaining(lots[1..], id, q);
    if p == 0 {
      assert WithRemaining(lots[1..], id, q) == lots[1..] by {
        forall k | 0 <= k < |lots[1..]| ensures lots[1..][k].lotId != id {
          assert lots[1..][k] == lots[k + 1];
        }
      }
    } else {
      assert DistinctLotIds(lots[1..]) by {
        forall i, j | 0 <= i < |lots[1..]| && 0 <= j < |lots[1..]| && i != j
          ensures lots[1..][i].lotId != lots[1..][j].lotId
        {
          assert lots[1..][i] == lots[i + 1] && lots[1..][j] == lots[j + 1];
        }
      }
      assert lots[1..][p - 1] == lots[p];
      WithRemainingStock(lots[1..], p - 1, q, code);
    }
  }

  ghost predicate DistinctTakeLots(ts: seq<Take>) {
    forall i, j | 0 <= i < |ts| && 0 <= j < |ts| && i != j :: ts[i].lot.lotId != ts[j].lot.lotId
  }

  /** Some take of `ts` is of lot `id`. */
  ghost predicate Touches(ts: seq<Take>, id: int) {
    exists t | t in ts :: t.lot.lotId == id
  }

  /** Rows no take touches keep their values. */
  lemma {:induction false} ApplyTakesUntouched(lots: seq<Lot>, ts: seq<Take>, k: int)
    requires 0 <= k < |lots| && !Touches(ts, lots[k].lotId)
    ensures ApplyTakes(lots, ts)[k] == lots[k]
  {
    if ts != [] {
      var init := ts[..|ts| - 1];
      assert !Touches(init, lots[k].lotId) by {
        forall u | u in init ensures u.lot.lotId != lots[k].lotId {
          assert u in ts;
        }
      }
      ApplyTakesUntouched(lots, init, k);
      assert ts[|ts| - 1] in ts;
    }
  }

  /** Applying takes of distinct lots of one item, all read from `lots`, lowers that item's
      stock by the quantity taken and leaves every other item's stock alone. */
  lemma {:induction false} ApplyTakesStock(lots: seq<Lot>, ts: seq<Take>, item: string, code: string)
    requires DistinctLotIds(lots) && DistinctTakeLots(ts)
    requires forall t | t in ts :: t.lot in lots && t.lot.itemCode == item
    ensures LotStock(ApplyTakes(lots, ts), code)
            == LotStock(lots, code) - (if code == item then Quantity(ts) else 0.0)
  {
    if ts != [] {
      var init := ts[..|ts| - 1];
      var t := ts[|ts| - 1];
      assert forall u | u in init :: u in ts;
      DistinctTakeLotsPrefix(ts);
      ApplyTakesStock(lots, init, item, code);
      var p := LastTakeRow(lots, ts);
      WithRemainingStock(ApplyTakes(lots, init), p, t.lot.remainingQty - t.qty, code);
    }
  }

  lemma DistinctTakeLotsPrefix(ts: seq<Take>)
    requires DistinctTakeLots(ts) && ts != []
    ensures DistinctTakeLots(ts[..|ts| - 1])
  {
    var init := ts[..|ts| - 1];
    forall i, j | 0 <= i < |init| && 0 <= j < |init| && i != j
      ensures init[i].lot.lotId != init[j].lot.lotId
    {
      assert init[i] == ts[i] && init[j] == ts[j];
    }
  }

  /** Before the last of a set of distinct takes is applied, its lot's row still holds the
      lot as the query read it. */
  lemma LastTakeRow(lots: seq<Lot>, ts: seq<Take>) returns (p: int)
    requires DistinctLotIds(lots) && DistinctTakeLots(ts) && ts != []
    requires forall t | t in ts :: t.lot in lots
    ensures 0 <= p < |lots|
    ensures var before := ApplyTakes(lots, ts[..|ts| - 1]);
            before[p] == ts[|ts| - 1].lot && DistinctLotIds(before)
  {
    var init := ts[..|ts| - 1];
    var t := ts[|ts| - 1];
    assert t in ts;
    p :| 0 <= p < |lots| && lots[p] == t.lot;
    ApplyTakesSameRows(lots, init);
    SameRowsDistinct(ApplyTakes(lots, init), lots);
    assert !Touches(init, lots[p].lotId) by {
      forall u | u in init ensures u.lot.lotId != lots[p].lotId {
        var j :| 0 <= j < |init| && init[j] == u;
        assert ts[j] == u;
      }
    }
    ApplyTakesUntouched(lots, init, p);
  }

  /** Applying takes that each stay within what their lot held keeps every lot within bounds. */
  lemma {:induction false} ApplyTakesBounds(lots: seq<Lot>, ts: seq<Take>)
    requires DistinctLotIds(lots) && LotsWithinBounds(lots)
    requires forall t | t in ts :: t.lot in lots && 0.0 <= t.qty <= t.lot.remainingQty
    ensures LotsWithinBounds(ApplyTakes(lots, ts))
  {
    if ts != [] {
      var init := ts[..|ts| - 1];
      var t := ts[|ts| - 1];
      assert forall u | u in init :: u in ts;
      ApplyTakesBounds(lots, init);
      ApplyTakesSameRows(lots, init);
      var before := ApplyTakes(lots, init);
      var p :| 0 <= p < |lots| && lots[p] == t.lot;
      forall k | 0 <= k < |before| && before[k].lotId == t.lot.lotId
        ensures before[k].receivedQty == t.lot.receivedQty
      {
        assert lots[k].lotId == lots[p].lotId;
      }
    }
  }

  /** Every line written for an allocation carries that allocation's id. */
  lemma {:induction false} LinesOfAllocation(allocationId: int, ts: seq<Take>)
    ensures forall k | 0 <= k < |LinesOf(allocationId, ts)| :: LinesOf(allocationId, ts)[k].allocationId == allocationId
  {
    if ts != [] {
      LinesOfAllocation(allocationId, ts[..|ts| - 1]);
    }
  }

  /** The takes `ts` draw from the lots of `item` in `lots`: each names a distinct lot of
      the item as the table holds it, and takes a positive amount no larger than what that
      lot held. */
  ghost predicate DrawsFrom(lots: seq<Lot>, item: string, ts: seq<Take>) {
    && DistinctTakeLots(ts)
    && forall t | t in ts :: t.lot in lots && t.lot.itemCode == item && 0.0 < t.qty <= t.lot.remainingQty
  }

  /** Takes that visit distinct candidates in their order name distinct lots, each one a
      candidate. */
  lemma InOrderTakesDistinct(cands: seq<Lot>, ts: seq<Take>)
    requires DistinctLotIds(cands) && |ts| <= |cands|
    requires forall k | 0 <= k < |ts| :: ts[k].lot == cands[k]
    ensures DistinctTakeLots(ts) && forall t | t in ts :: t.lot in cands
  {
    forall t | t in ts ensures t.lot in cands {
      var k :| 0 <= k < |ts| && ts[k] == t;
    }
  }

  /** The takes of the walk of requirement approval draw from the item's lots. */
  lemma FifoTakesFromLots(lots: seq<Lot>, item: string, need: real)
    requires DistinctLotIds(lots)
    ensures DrawsFrom(lots, item, Fifo(Candidates(lots, item), need).takes)
  {
    var cands := Candidates(lots, item);
    CandidatesDistinct(lots, item);
    assert forall k | 0 <= k < |cands| :: cands[k] in cands;
    FifoInOrder(cands, need);
    FifoTakeBounds(cands, need);
    InOrderTakesDistinct(cands, Fifo(cands, need).takes);
  }

  /** Each take of the truncating walk is positive and at most what its lot held. */
  lemma {:induction false} FifoTruncTakeBounds(cands: seq<Lot>, need: int)
    requires forall k | 0 <= k < |cands| :: cands[k].remainingQty > 0.0
    ensures forall t | t in FifoTrunc(cands, need).takes :: 0.0 < t.qty <= t.lot.remainingQty
  {
    if cands != [] && need > 0 {
      var take := Min(cands[0].remainingQty, need as real);
      var rest := FifoTrunc(cands[1..], need - ToI32(take).GetOr(0));
      assert forall k | 0 <= k < |cands[1..]| :: cands[1..][k].remainingQty > 0.0 by {
        forall k | 0 <= k < |cands[1..]| ensures cands[1..][k].remainingQty > 0.0 {
          assert cands[1..][k] == cands[k + 1];
        }
      }
      FifoTruncTakeBounds(cands[1..], need - ToI32(take).GetOr(0));
      var ts := FifoTrunc(cands, need).takes;
      assert ts == [Take(cands[0], take)] + rest.takes;
      forall t | t in ts ensures 0.0 < t.qty <= t.lot.remainingQty {
        if t != Take(cands[0], take) {
          assert t in rest.takes;
        }
      }
    } else {
      assert FifoTrunc(cands, need).takes == [];
    }
  }

  /** The takes of the walk of batch creation draw from the item's lots too. */
  lemma FifoTruncTakesFromLots(lots: seq<Lot>, item: string, need: int)
    requires DistinctLotIds(lots)
    ensures DrawsFrom(lots, item, FifoTrunc(Candidates(lots, item), need).takes)
  {
    var cands := Candidates(lots, item);
    CandidatesDistinct(lots, item);
    assert forall k | 0 <= k < |cands| :: cands[k] in cands;
    FifoTruncInOrder(cands, need);
    FifoTruncTakeBounds(cands, need);
    InOrderTakesDistinct(cands, FifoTrunc(cands, need).takes);
  }

  /** Takes that draw from an item's lots keep a lots table within bounds, and lower that
      item's stock by exactly the quantity taken, the stock of every other item untouched. */
  lemma DrawKeepsLots(lots: seq<Lot>, item: string, ts: seq<Take>)
    requires DistinctLotIds(lots) && LotsWithinBounds(lots)
    requires DrawsFrom(lots, item, ts)
    ensures LotsWithinBounds(ApplyTakes(lots, ts))
    ensures forall code :: LotStock(ApplyTakes(lots, ts), code)
                           == LotStock(lots, code) - (if code == item then Quantity(ts) else 0.0)
  {
    ApplyTakesBounds(lots, ts);
    forall code
      ensures LotStock(ApplyTakes(lots, ts), code)
              == LotStock(lots, code) - (if code == item then Quantity(ts) else 0.0)
    {
      ApplyTakesStock(lots, ts, item, code);
    }
  }

  /** A walk of approval that covers a need that is not negative takes exactly that need. */
  lemma CoveredWalkQuantity(lots: seq<Lot>, item: string, need: real)
    requires LotsWithinBounds(lots) && need >= 0.0
    requires Fifo(Candidates(lots, item), need).left <= 0.0
    ensures Quantity(Fifo(Candidates(lots, item), need).takes) == need
  {
    FifoShortageOfLots(lots, item, need);
    FifoConserves(Candidates(lots, item), need);
  }

  /** The walk of requirement approval over a lots table whose rows are within bounds keeps
      them within bounds, and lowers the item's stock by exactly what was taken, the stock
      of every other item untouched. */
  lemma FifoKeepsLots(lots: seq<Lot>, item: string, need: real)
    requires DistinctLotIds(lots) && LotsWithinBounds(lots)
    ensures var w := Fifo(Candidates(lots, item), need);
            && LotsWithinBounds(ApplyTakes(lots, w.takes))
            && forall code :: LotStock(ApplyTakes(lots, w.takes), code)
                              == LotStock(lots, code) - (if code == item then need - w.left else 0.0)
  {
    var w := Fifo(Candidates(lots, item), need);
    FifoTakesFromLots(lots, item, need);
    FifoConserves(Candidates(lots, item), need);
    DrawKeepsLots(lots, item, w.takes);
  }

  // ---------------------------------------------------------------------------
  // The walk as the handlers run it

  /** One step of the walk, seen from candidate `i` on. */
  lemma FifoStep(cands: seq<Lot>, i: int, qty: real)
    requires 0 <= i < |cands| && qty > 0.0
    ensures var take := Min(cands[i].remainingQty, qty);
            var rest := Fifo(cands[i + 1..], qty - take);
            Fifo(cands[i..], qty) == Walk([Take(cands[i], take)] + rest.takes, rest.left)
  {
    assert cands[i..][1..] == cands[i + 1..];
  }

  /** The takes `done` followed by the walk from candidate `i` on, still needing `qty`,
      make up the whole walk. */
  ghost predicate WalkSoFar(cands: seq<Lot>, need: real, i: int, qty: real, done: seq<Take>) {
    && 0 <= i <= |cands|
    && Fifo(cands, need) == Walk(done + Fifo(cands[i..], qty).takes, Fifo(cands[i..], qty).left)
  }

  /** Taking from candidate `i` moves the split point one candidate on. */
  lemma WalkAdvance(cands: seq<Lot>, need: real, i: int, qty: real, done: seq<Take>)
    requires WalkSoFar(cands, need, i, qty, done)
    requires i < |cands| && qty > 0.0
    ensures var take := Min(cands[i].remainingQty, qty);
            WalkSoFar(cands, need, i + 1, qty - take, done + [Take(cands[i], take)])
  {
    var take := Min(cands[i].remainingQty, qty);
    FifoStep(cands, i, qty);
    var rest := Fifo(cands[i + 1..], qty - take);
    assert done + ([Take(cands[i], take)] + rest.takes) == (done + [Take(cands[i], take)]) + rest.takes;
  }

  /** Once the candidates run out or nothing more is needed, the takes done are the walk. */
  lemma WalkFinished(cands: seq<Lot>, need: real, i: int, qty: real, done: seq<Take>)
    requires WalkSoFar(cands, need, i, qty, done)
    requires i == |cands| || qty <= 0.0
    ensures Fifo(cands, need) == Walk(done, qty)
  {
    assert Fifo(cands[i..], qty) == Walk([], qty);
    assert done + [] == done;
  }

  /** The truncating walk split at candidate `i`, still needing the whole count `qty`. */
  ghost predicate TruncSoFar(cands: seq<Lot>, need: int, i: int, qty: int, done: seq<Take>) {
    && 0 <= i <= |cands|
    && FifoTrunc(cands, need) == Walk(done + FifoTrunc(cands[i..], qty).takes, FifoTrunc(cands[i..], qty).left)
  }

  /** A step of the truncating walk lowers the count by the take cut to an integer. */
  lemma TruncAdvance(cands: seq<Lot>, need: int, i: int, qty: int, done: seq<Take>, take: real, counted: int)
    requires TruncSoFar(cands, need, i, qty, done)
    requires i < |cands| && qty > 0
    requires take == Min(cands[i].remainingQty, qty as real) && counted == ToI32(take).GetOr(0)
    ensures TruncSoFar(cands, need, i + 1, qty - counted, done + [Take(cands[i], take)])
  {
    assert cands[i..][1..] == cands[i + 1..];
    var rest := FifoTrunc(cands[i + 1..], qty - counted);
    assert done + ([Take(cands[i], take)] + rest.takes) == (done + [Take(cands[i], take)]) + rest.takes;
  }

  lemma TruncFinished(cands: seq<Lot>, need: int, i: int, qty: int, done: seq<Take>)
    requires TruncSoFar(cands, need, i, qty, done)
    requires i == |cands| || qty <= 0
    ensures FifoTrunc(cands, need) == Walk(done, qty as real)
  {
    assert FifoTrunc(cands[i..], qty) == Walk([], qty as real);
    assert done + [] == done;
  }

  /** Appending one take to the ones done so far. */
  lemma TakesSnoc(lots: seq<Lot>, allocationId: int, done: seq<Take>, t: Take)
    ensures ApplyTakes(lots, done + [t]) == WithRemaining(ApplyTakes(lots, done), t.lot.lotId, t.lot.remainingQty - t.qty)
    ensures LinesOf(allocationId, done + [t]) == LinesOf(allocationId, done) + [LineOf(allocationId, t)]
    ensures Value(done + [t]) == Value(done) + t.qty * t.lot.unitCost
  {
    assert (done + [t])[..|done + [t]| - 1] == done;
  }

  /** The tables after the takes `ts` for allocation `a`: the lots drawn down and a line
      per take. */
  function Consumed(t: Tables, a: int, ts: seq<Take>): Tables {
    t.(lots := ApplyTakes(t.lots, ts), allocationLines := t.allocationLines + LinesOf(a, ts))
  }

  /** One more take of `q` from lot `r` writes its line and its lot's row, and nothing else. */
  lemma ConsumedSnoc(t: Tables, a: int, done: seq<Take>, r: Lot, q: real)
    ensures Consumed(t, a, done + [Take(r, q)])
            == Consumed(t, a, done).(
                 lots := WithRemaining(ApplyTakes(t.lots, done), r.lotId, r.remainingQty - q),
                 allocationLines := t.allocationLines + LinesOf(a, done) + [AllocationLine(a, r.lotId, q, r.unitCost, q * r.unitCost)])
    ensures Value(done + [Take(r, q)]) == Value(done) + q * r.unitCost
  {
    TakesSnoc(t.lots, a, done, Take(r, q));
    var c := Consumed(t, a, done + [Take(r, q)]);
    var d := Consumed(t, a, done).(
                 lots := WithRemaining(ApplyTakes(t.lots, done), r.lotId, r.remainingQty - q),
                 allocationLines := t.allocationLines + LinesOf(a, done) + [AllocationLine(a, r.lotId, q, r.unitCost, q * r.unitCost)]);
    assert LineOf(a, Take(r, q)) == AllocationLine(a, r.lotId, q, r.unitCost, q * r.unitCost);
    assert t.allocationLines + (LinesOf(a, done) + [LineOf(a, Take(r, q))])
           == t.allocationLines + LinesOf(a, done) + [LineOf(a, Take(r, q))];
  }

  /** The lots loop of the handlers over the lots the query returned: for each one, while
      something is still needed, writes an allocation line for `allocationId`, writes the
      lot back less the take, and accumulates the value. Returns the accumulated value and
      the quantity still needed. */
  method ConsumeLots(db: Db, allocationId: int, cands: seq<Lot>, need: real) returns (total: real, left: real)
    modifies db
    ensures var w := Fifo(cands, need);
            && left == w.left && total == Value(w.takes)
            && db.tables == Consumed(old(db.tables), allocationId, w.takes)
    ensures db.nextId == old(db.nextId)
  {
    ghost var t0 := db.tables;
    ghost var done: seq<Take> := [];
    var qty := need;
    total := 0.0;
    var i := 0;
    assert cands[0..] == cands;
    while i < |cands|
      invariant WalkSoFar(cands, need, i, qty, done)
      invariant db.tables == Consumed(t0, allocationId, done)
      invariant total == Value(done)
      invariant db.nextId == old(db.nextId)
    {
      if qty <= 0.0 {
        break;
      }
      var r := cands[i];
      var take := Min(r.remainingQty, qty);
      ConsumedSnoc(t0, allocationId, done, r, take);
      var lineValue := TakeFromLot(db, allocationId, r, take);
      WalkAdvance(cands, need, i, qty, done);
      done := done + [Take(r, take)];
      total := total + lineValue;
      qty := qty - take;
      i := i + 1;
    }
    WalkFinished(cands, need, i, qty, done);
    left := qty;
  }

  /** One take inside the lots loop: the allocation line for `q` of lot `r` is written,
      then the lot's row is written back less `q`. Returns the line's value. */
  method TakeFromLot(db: Db, allocationId: int, r: Lot, q: real) returns (lineValue: real)
    modifies db
    ensures lineValue == q * r.unitCost
    ensures db.tables == old(db.tables).(
              lots := WithRemaining(old(db.tables.lots), r.lotId, r.remainingQty - q),
              allocationLines := old(db.tables.allocationLines) + [AllocationLine(allocationId, r.lotId, q, r.unitCost, q * r.unitCost)])
    ensures db.nextId == old(db.nextId)
  {
    lineValue := q * r.unitCost;
    db.tables := db.tables.(allocationLines := db.tables.allocationLines
                              + [AllocationLine(allocationId, r.lotId, q, r.unitCost, lineValue)]);
    db.tables := db.tables.(lots := WithRemaining(db.tables.lots, r.lotId, r.remainingQty - q));
  }

  /** The lots query followed by the lots loop. */
  method AllocateLots(db: Db, allocationId: int, code: string, need: real) returns (total: real, left: real)
    modifies db
    ensures var w := Fifo(Candidates(old(db.tables.lots), code), need);
            && left == w.left && total == Value(w.takes)
            && db.tables == old(db.tables).(
                 lots := ApplyTakes(old(db.tables.lots), w.takes),
                 allocationLines := old(db.tables.allocationLines) + LinesOf(allocationId, w.takes))
    ensures db.nextId == old(db.nextId)
  {
    var cands := Candidates(db.tables.lots, code);
    total, left := ConsumeLots(db, allocationId, cands, need);
  }

  /** The tables after walk `w` for allocation `a`: the lots drawn down, a line per take,
      and the allocation valued at what was taken. */
  function Walked(t: Tables, a: int, w: Walk): Tables
    requires a in t.allocations
  {
    Consumed(t, a, w.takes).(allocations := t.allocations[a := t.allocations[a].(allocatedValue := Value(w.takes))])
  }

  /** The lots walk for allocation `a`, then the allocation's value set to what was taken. */
  method AllocateAndValue(db: Db, a: int, code: string, need: real) returns (total: real, left: real)
    requires a in db.tables.allocations
    modifies db
    ensures var w := Fifo(Candidates(old(db.tables.lots), code), need);
            && left == w.left && total == Value(w.takes)
            && db.tables == Walked(old(db.tables), a, w)
    ensures db.nextId == old(db.nextId)
  {
    total, left := AllocateLots(db, a, code, need);
    var allocation := db.tables.allocations[a];
    db.tables := db.tables.(allocations := db.tables.allocations[a := allocation.(allocatedValue := total)]);
  }
}
