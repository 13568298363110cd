/** Creating a batch of chicks in one transaction: the chick item and its stock are checked,
    then the batch, an accepted requirement for the whole flock and its allocation are
    recorded, the chick counter is lowered with an outbound movement, the chicks are drawn
    from the lots oldest first, and their value is posted from the chicks inventory account
    to farm expense. */
module Batches {
  import opened Wrappers
  import opened Schema
  import opened Decimals
  import opened LotAllocation
  import opened Ledger
  import opened Allocations

  /** The batch request as the handler reads it; the first of `chickItemCodes` names the
      chick item. */
  datatype CreateBatchPayload = CreateBatchPayload(
    lineId: int, supervisorId: int, farmerId: int, initialBirdCount: int,
    chickItemCodes: seq<string>, createdBy: int)

  /** Why creating a batch fails; each one rolls the whole transaction back. */
  datatype BatchError =
    | NoChickItem
    | ItemMissing
    | NotChicks
    | NoInventoryRow
    | NotEnoughStock
    | Shortage(left: real)

  // ---------------------------------------------------------------------------
  // The stock check

  /** The check as the handler makes it: the counter cut to an `i32`, or 0 when it does
      not fit, must reach the initial bird count. */
  predicate StockSuffices(current: real, count: int) {
    ToI32(current).GetOr(0) >= count
  }

  /** For a counter that is not negative, the check passes exactly when the counter holds
      the count, except that a counter too large for an `i32` reads as zero and passes only
      an empty flock. */
  lemma StockCheckIff(current: real, count: int)
    requires 0.0 <= current && 0 <= count
    ensures StockSuffices(current, count)
            <==> count as real <= current && (current < (I32Max + 1) as real || count == 0)
  {
    var n := Trunc(current);
    if current < (I32Max + 1) as real {
      assert InI32(n);
      assert n >= count <==> count as real <= current;
    } else {
      assert n > I32Max;
    }
  }

  // ---------------------------------------------------------------------------
  // Creating a batch, as a specification

  function BatchRow(p: CreateBatchPayload): Batch {
    Batch(p.lineId, p.supervisorId, p.farmerId, p.initialBirdCount, Some(p.initialBirdCount), Open)
  }

  function RequirementRow(p: CreateBatchPayload, batchId: int, code: string): Requirement {
    Requirement(batchId, p.lineId, p.supervisorId, code, p.initialBirdCount as real, Accept)
  }

  /** The tables once the batch (id `next`), its accepted requirement (`next + 1`) and its
      allocation (`next + 2`, at zero value) are recorded, the chick counter is lowered by
      the bird count and the outbound movement is logged against the batch. */
  function Opened(t: Tables, next: int, p: CreateBatchPayload, code: string): (t': Tables)
    requires code in t.inventory
    ensures next + 2 in t'.allocations
  {
    var count := p.initialBirdCount as real;
    t.(batches := t.batches[next := BatchRow(p)],
       requirements := t.requirements[next + 1 := RequirementRow(p, next, code)],
       allocations := t.allocations[next + 2 := Allocation(Some(next + 1), count, p.createdBy, 0.0)],
       inventory := t.inventory[code := t.inventory[code] - count],
       movements := t.movements + [Movement(code, AllocationOut, -count, Some(next))])
  }

  /** The rows opening a batch adds: the batch, open with its current count at the initial
      count; an accepted requirement of the chick item for the whole flock; and an
      allocation for that requirement, not yet valued. */
  lemma OpenedRecords(t: Tables, next: int, p: CreateBatchPayload, code: string)
    requires code in t.inventory
    ensures var t' := Opened(t, next, p, code);
            && t'.batches.Keys == t.batches.Keys + {next}
            && t'.batches[next].initialBirdCount == p.initialBirdCount
            && t'.batches[next].currentBirdCount == Some(p.initialBirdCount)
            && t'.batches[next].status == Open
            && t'.requirements.Keys == t.requirements.Keys + {next + 1}
            && t'.requirements[next + 1].batchId == next && t'.requirements[next + 1].itemCode == code
            && t'.requirements[next + 1].quantity == p.initialBirdCount as real
            && t'.requirements[next + 1].status == Accept
            && t'.allocations[next + 2].requirementId == Some(next + 1)
            && t'.allocations[next + 2].allocatedQty == p.initialBirdCount as real
            && t'.allocations[next + 2].allocatedValue == 0.0
  {
  }

  /** The tables a created batch commits once the walk `w` over the chick lots is known:
      opened, walked, then posted from account 104 to account 107 under group `next + 3`. */
  function BatchCreated(t: Tables, next: int, p: CreateBatchPayload, code: string, w: Walk): Tables
    requires code in t.inventory
  {
    WalkedAndPosted(Opened(t, next, p, code), next + 2, w, ChicksInventoryAccount, next + 3, "batches", next)
  }

  /** What `create_batch` commits, from tables `t` with the id sequence at `next`. The walk
      over the chick lots is the truncating one the handler runs; any failure commits
      nothing. */
  function BatchOutcome(t: Tables, next: int, p: CreateBatchPayload): (o: (Result<int, BatchError>, Tables))
    ensures o.0.Err? ==> o.1 == t
    ensures o.0.Ok? ==>
              && o.0.value == next
              && p.chickItemCodes != []
              && var code := p.chickItemCodes[0];
                 && code in t.items && t.items[code].category == Chicks
                 && code in t.inventory && StockSuffices(t.inventory[code], p.initialBirdCount)
  {
    if p.chickItemCodes == [] then (Err(NoChickItem), t)
    else
      var code := p.chickItemCodes[0];
      if code !in t.items then (Err(ItemMissing), t)
      else if t.items[code].category != Chicks then (Err(NotChicks), t)
      else if code !in t.inventory then (Err(NoInventoryRow), t)
      else if !StockSuffices(t.inventory[code], p.initialBirdCount) then (Err(NotEnoughStock), t)
      else
        var w := FifoTrunc(Candidates(t.lots, code), p.initialBirdCount);
        if w.left > 0.0 then (Err(Shortage(w.left)), t)
        else (Ok(next), BatchCreated(t, next, p, code, w))
  }

  /** A created batch passed every check, and what it commits is the staged batch with the
      truncating walk over the chick lots. */
  lemma BatchCommitted(t: Tables, next: int, p: CreateBatchPayload) returns (w: Walk)
    requires BatchOutcome(t, next, p).0.Ok?
    ensures p.chickItemCodes != []
    ensures var code := p.chickItemCodes[0];
            && code in t.items && code in t.inventory
            && w == FifoTrunc(Candidates(t.lots, code), p.initialBirdCount) && w.left <= 0.0
            && BatchOutcome(t, next, p).1 == BatchCreated(t, next, p, code, w)
  {
    w := FifoTrunc(Candidates(t.lots, p.chickItemCodes[0]), p.initialBirdCount);
  }

  /** A request that passes every check and whose walk ends with nothing still needed
      commits: the batch is stored open with its current count at the initial count, with
      an accepted requirement for the whole flock. */
  lemma BatchSucceeds(t: Tables, next: int, p: CreateBatchPayload)
    requires p.chickItemCodes != []
    requires var code := p.chickItemCodes[0];
             && code in t.items && t.items[code].category == Chicks
             && code in t.inventory && StockSuffices(t.inventory[code], p.initialBirdCount)
             && FifoTrunc(Candidates(t.lots, code), p.initialBirdCount).left <= 0.0
    ensures var code := p.chickItemCodes[0];
            var o := BatchOutcome(t, next, p);
            && o.0 == Ok(next)
            && o.1 == BatchCreated(t, next, p, code, FifoTrunc(Candidates(t.lots, code), p.initialBirdCount))
            && next in o.1.batches && o.1.batches[next].status == Open
            && o.1.batches[next].currentBirdCount == Some(p.initialBirdCount)
            && next + 1 in o.1.requirements && o.1.requirements[next + 1].status == Accept
            && o.1.requirements[next + 1].quantity == p.initialBirdCount as real
  {
    var code := p.chickItemCodes[0];
    var w := FifoTrunc(Candidates(t.lots, code), p.initialBirdCount);
    OpenedRecords(t, next, p, code);
    PostedShape(Opened(t, next, p, code), next + 2, w, ChicksInventoryAccount, next + 3, "batches", next);
  }

  /** Every lot of `code` holds a whole number of units. */
  ghost predicate WholeLots(lots: seq<Lot>, code: string) {
    forall l | l in lots && l.itemCode == code :: IsWhole(l.remainingQty)
  }

  /** Over whole chick lots the truncating walk of a count that fits in an `i32` is the
      exact walk. */
  lemma WholeCandidates(lots: seq<Lot>, code: string, count: int)
    requires WholeLots(lots, code) && 0 <= count <= I32Max
    ensures FifoTrunc(Candidates(lots, code), count) == Fifo(Candidates(lots, code), count as real)
  {
    var cands := Candidates(lots, code);
    forall k | 0 <= k < |cands| ensures cands[k].remainingQty >= 0.0 && IsWhole(cands[k].remainingQty) {
      assert cands[k] in cands;
    }
    FifoTruncWholeLots(cands, count);
  }

  /** The truncating walk of a batch that passed the stock check, over whole chick lots
      within bounds, takes exactly the bird count when it is covered. */
  lemma WholeWalkQuantity(t: Tables, p: CreateBatchPayload, code: string)
    requires code in t.inventory && StockSuffices(t.inventory[code], p.initialBirdCount)
    requires LotsWithinBounds(t.lots) && WholeLots(t.lots, code) && p.initialBirdCount >= 0
    ensures var w := FifoTrunc(Candidates(t.lots, code), p.initialBirdCount);
            w.left <= 0.0 ==> Quantity(w.takes) == p.initialBirdCount as real
  {
    assert p.initialBirdCount <= I32Max;
    WholeCandidates(t.lots, code, p.initialBirdCount);
    if FifoTrunc(Candidates(t.lots, code), p.initialBirdCount).left <= 0.0 {
      CoveredWalkQuantity(t.lots, code, p.initialBirdCount as real);
    }
  }

  /** Opening a batch reserves in the shared way: the allocation takes id `next + 2`, which
      no line names yet, and the outbound movement references the batch. */
  lemma OpenedReserves(t: Tables, next: int, p: CreateBatchPayload, code: string) returns (m: Movement)
    requires IdsBelow(t, next) && code in t.inventory
    ensures ReservedFrom(t, Opened(t, next, p, code), next + 2, code, p.initialBirdCount as real, m)
    ensures m == Movement(code, AllocationOut, -(p.initialBirdCount as real), Some(next))
    ensures forall i | 0 <= i < |t.allocationLines| :: t.allocationLines[i].allocationId != next + 2
  {
    var count := p.initialBirdCount as real;
    m := Movement(code, AllocationOut, -count, Some(next));
    var r := Opened(t, next, p, code);
    assert r.allocations == t.allocations[next + 2 := r.allocations[next + 2]];
  }

  lemma OpenedIdsBelow(t: Tables, next: int, p: CreateBatchPayload, code: string)
    requires IdsBelow(t, next) && code in t.inventory
    ensures IdsBelow(Opened(t, next, p, code), next + 4)
  {
    IdsBelowMonotone(t, next, next + 4);
  }

  /** A created batch keeps every business invariant and keeps all ids below the sequence
      advanced by four (batch, requirement, allocation, ledger group). The counter keeps
      matching the lots when the chick lots hold whole numbers and the bird count is not
      negative: only then does the truncating walk take exactly the count. */
  lemma BatchKeepsInvariants(t: Tables, next: int, p: CreateBatchPayload)
    requires IdsBelow(t, next) && Consistent(t)
    ensures var t' := BatchOutcome(t, next, p).1;
            && IdsBelow(t', next + 4)
            && LotsWithinBounds(t'.lots)
            && InventoryTracksMovements(t')
            && AllocationValuesMatchLines(t')
            && GroupsBalanced(t'.entries)
            && (p.initialBirdCount >= 0 && (p.chickItemCodes != [] ==> WholeLots(t.lots, p.chickItemCodes[0]))
                ==> InventoryMatchesLots(t'))
  {
    if BatchOutcome(t, next, p).0.Ok? {
      var w := BatchCommitted(t, next, p);
      CreatedKeepsInvariants(t, next, p, p.chickItemCodes[0], w);
      CreatedKeepsIds(t, next, p, p.chickItemCodes[0], w);
    } else {
      IdsBelowMonotone(t, next, next + 4);
    }
  }

  /** The same, for the staged batch with the truncating walk over the chick lots. */
  lemma CreatedKeepsInvariants(t: Tables, next: int, p: CreateBatchPayload, code: string, w: Walk)
    requires IdsBelow(t, next) && Consistent(t)
    requires code in t.inventory && StockSuffices(t.inventory[code], p.initialBirdCount)
    requires w == FifoTrunc(Candidates(t.lots, code), p.initialBirdCount) && w.left <= 0.0
    ensures var t' := BatchCreated(t, next, p, code, w);
            && LotsWithinBounds(t'.lots)
            && InventoryTracksMovements(t')
            && AllocationValuesMatchLines(t')
            && GroupsBalanced(t'.entries)
            && (p.initialBirdCount >= 0 && WholeLots(t.lots, code) ==> InventoryMatchesLots(t'))
  {
    var count := p.initialBirdCount as real;
    var m := OpenedReserves(t, next, p, code);
    IncreasingIdsDistinct(t.lots);
    FifoTruncTakesFromLots(t.lots, code, p.initialBirdCount);
    if p.initialBirdCount >= 0 && WholeLots(t.lots, code) {
      WholeWalkQuantity(t, p, code);
    }
    PostedKeepsInvariants(t, Opened(t, next, p, code), next + 2, code, count, m, w,
      ChicksInventoryAccount, next + 3, "batches", next);
  }

  /** The batch, the requirement, the allocation and the ledger group take the next four
      ids. */
  lemma CreatedKeepsIds(t: Tables, next: int, p: CreateBatchPayload, code: string, w: Walk)
    requires IdsBelow(t, next) && code in t.inventory
    ensures IdsBelow(BatchCreated(t, next, p, code, w), next + 4)
  {
    OpenedIdsBelow(t, next, p, code);
    PostedIdsBelow(Opened(t, next, p, code), next + 2, w, ChicksInventoryAccount, next + 3, "batches", next, next + 4);
  }

  /** Under the invariants, over whole chick lots, a bird count that passes the stock check
      is always covered by the walk, so the shortage failure cannot happen. */
  lemma BatchNeverShort(t: Tables, next: int, p: CreateBatchPayload)
    requires Consistent(t)
    requires p.initialBirdCount >= 0
    requires p.chickItemCodes != [] ==> WholeLots(t.lots, p.chickItemCodes[0])
    ensures var r := BatchOutcome(t, next, p).0;
            !(r.Err? && r.error.Shortage?)
  {
    if p.chickItemCodes != [] {
      var code := p.chickItemCodes[0];
      if code in t.inventory && StockSuffices(t.inventory[code], p.initialBirdCount) {
        assert t.inventory[code] == LotStock(t.lots, code);
        LotStockNonNegative(t.lots, code);
        StockCheckIff(t.inventory[code], p.initialBirdCount);
        WholeCandidates(t.lots, code, p.initialBirdCount);
        FifoShortageOfLots(t.lots, code, p.initialBirdCount as real);
      }
    }
  }

  /** As written, the truncating walk can refuse a batch the lots cover: when the chick
      lots the query returns are two lots of 2.5 birds and the counter reads 5, a batch of
      5 birds passes the stock check and then fails with a shortage of 1. */
  lemma BatchFallsShort(t: Tables, next: int, p: CreateBatchPayload)
    requires p.chickItemCodes != [] && p.initialBirdCount == 5
    requires var code := p.chickItemCodes[0];
             && code in t.items && t.items[code].category == Chicks
             && code in t.inventory && t.inventory[code] == 5.0
             && Candidates(t.lots, code) == [Lot(1, None, code, 2.5, 2.5, 40.0, 1), Lot(2, None, code, 2.5, 2.5, 40.0, 2)]
    ensures BatchOutcome(t, next, p) == (Err(Shortage(1.0)), t)
  {
    var code := p.chickItemCodes[0];
    assert ToI32(5.0) == Some(5);
    FifoTruncFallsShort(code);
  }

  /** A created batch draws out of the chick lots exactly what the walk took, and nothing
      out of any other item's lots; over whole chick lots and a count that is not negative,
      what it took is the initial bird count. */
  lemma BatchDrawsExactly(t: Tables, next: int, p: CreateBatchPayload)
    requires Consistent(t) && LotIdsIncreasing(t.lots)
    requires BatchOutcome(t, next, p).0.Ok?
    ensures p.chickItemCodes != []
    ensures var code := p.chickItemCodes[0];
            var w := FifoTrunc(Candidates(t.lots, code), p.initialBirdCount);
            && (forall c :: LotStock(BatchOutcome(t, next, p).1.lots, c)
                            == LotStock(t.lots, c) - (if c == code then Quantity(w.takes) else 0.0))
            && (p.initialBirdCount >= 0 && WholeLots(t.lots, code) ==> Quantity(w.takes) == p.initialBirdCount as real)
  {
    var w := BatchCommitted(t, next, p);
    var code := p.chickItemCodes[0];
    PostedShape(Opened(t, next, p, code), next + 2, w, ChicksInventoryAccount, next + 3, "batches", next);
    IncreasingIdsDistinct(t.lots);
    FifoTruncTakesFromLots(t.lots, code, p.initialBirdCount);
    DrawKeepsLots(t.lots, code, w.takes);
    if p.initialBirdCount >= 0 && WholeLots(t.lots, code) {
      WholeWalkQuantity(t, p, code);
    }
  }

  /** On the standard chart of accounts, each balance a created batch changes moves by
      exactly the signed effect of the two entries it posts. */
  lemma BatchBalancesFollowEntries(t: Tables, next: int, p: CreateBatchPayload)
    requires StandardChart(t.accounts)
    requires BatchOutcome(t, next, p).0.Ok?
    ensures var t' := BatchOutcome(t, next, p).1;
            BalancesFollowEntries(t.accounts, t'.accounts, t'.entries[|t.entries|..])
  {
    var w := BatchCommitted(t, next, p);
    var code := p.chickItemCodes[0];
    var total := Value(w.takes);
    var es := AllocationEntries(ChicksInventoryAccount, FarmExpenseAccount, total, next + 3, "batches", next);
    var opn := Opened(t, next, p, code);
    PostedShape(opn, next + 2, w, ChicksInventoryAccount, next + 3, "batches", next);
    var t' := BatchOutcome(t, next, p).1;
    assert t'.entries == t.entries + es
        && t'.accounts == AllocationBalances(t.accounts, ChicksInventoryAccount, FarmExpenseAccount, total) by {
      assert t' == WalkedAndPosted(opn, next + 2, w, ChicksInventoryAccount, next + 3, "batches", next);
    }
    assert t'.entries[|t.entries|..] == es;
    AllocationBalancesFollowEntries(t.accounts, Chicks, total, next + 3, "batches", next);
    assert InventoryAccountFor(Chicks) == ChicksInventoryAccount;
  }

  // ---------------------------------------------------------------------------
  // Creating a batch, step by step inside one transaction

  /** The batch, its requirement and its allocation inserted, the counter lowered and the
      movement logged. */
  method OpenBatch(db: Db, p: CreateBatchPayload, code: string) returns (batchId: int)
    requires code in db.tables.inventory
    modifies db
    ensures batchId == old(db.nextId) && db.nextId == batchId + 3
    ensures db.tables == Opened(old(db.tables), batchId, p, code)
  {
    var count := p.initialBirdCount as real;
    batchId := db.NewId();
    db.tables := db.tables.(batches := db.tables.batches[batchId := BatchRow(p)]);
    var requirementId := db.NewId();
    db.tables := db.tables.(requirements := db.tables.requirements[requirementId := RequirementRow(p, batchId, code)]);
    var allocationId := db.NewId();
    db.tables := db.tables.(allocations := db.tables.allocations[allocationId := Allocation(Some(requirementId), count, p.createdBy, 0.0)]);
    var current := db.tables.inventory[code];
    db.tables := db.tables.(inventory := db.tables.inventory[code := current - count]);
    db.tables := db.tables.(movements := db.tables.movements + [Movement(code, AllocationOut, -count, Some(batchId))]);
  }

  /** The lots loop of batch creation over the lots the query returned: for each one, while
      birds are still needed, writes an allocation line, writes the lot back less the take,
      accumulates the value, and lowers the count still needed by the take cut to an
      integer. Returns the accumulated value and the count still needed. */
  method DrawChickLots(db: Db, allocationId: int, cands: seq<Lot>, count: int) returns (total: real, left: int)
    modifies db
    ensures var w := FifoTrunc(cands, count);
            && left as real == w.left && total == Value(w.takes)
            && db.tables == Consumed(old(db.tables), allocationId, w.takes)
    ensures db.nextId == old(db.nextId)
  {
    ghost var t0 := db.tables;
    ghost var done: seq<Take> := [];
    var qty := count;
    total := 0.0;
    var i := 0;
    assert cands[0..] == cands;
    while i < |cands|
      invariant TruncSoFar(cands, count, i, qty, done)
      invariant db.tables == Consumed(t0, allocationId, done)
      invariant total == Value(done)
      invariant db.nextId == old(db.nextId)
    {
      if qty <= 0 {
        break;
      }
      var r := cands[i];
      var take := Min(r.remainingQty, qty as real);
      ConsumedSnoc(t0, allocationId, done, r, take);
      var lineValue := TakeFromLot(db, allocationId, r, take);
      var counted := ToI32(take).GetOr(0);
      TruncAdvance(cands, count, i, qty, done, take, counted);
      done := done + [Take(r, take)];
      total := total + lineValue;
      qty := qty - counted;
      i := i + 1;
    }
    TruncFinished(cands, count, i, qty, done);
    left := qty;
  }

  /** The chick lots query, the lots loop, then the allocation valued at what was taken,
      which the handler writes before it looks for a shortage. */
  method AllocateChicks(db: Db, a: int, code: string, count: int) returns (total: real, left: int)
    requires a in db.tables.allocations
    modifies db
    ensures var w := FifoTrunc(Candidates(old(db.tables.lots), code), count);
            && left as real == w.left && total == Value(w.takes)
            && db.tables == Walked(old(db.tables), a, w)
    ensures db.nextId == old(db.nextId)
  {
    var cands := Candidates(db.tables.lots, code);
    total, left := DrawChickLots(db, a, cands, count);
    var allocation := db.tables.allocations[a];
    db.tables := db.tables.(allocations := db.tables.allocations[a := allocation.(allocatedValue := total)]);
  }

  /** The body of the batch transaction. On success the tables are what `BatchOutcome`
      commits; on failure it reports the same error, leaving whatever it wrote for the
      caller to roll back. */
  method CreateBatchWithTransaction(db: Db, p: CreateBatchPayload) returns (r: Result<int, BatchError>)
    modifies db
    ensures var o := BatchOutcome(old(db.tables), old(db.nextId), p);
            r == o.0 && (r.Ok? ==> db.tables == o.1)
    ensures db.nextId >= old(db.nextId)
  {
    if |p.chickItemCodes| == 0 {
      return Err(NoChickItem);
    }
    var code := p.chickItemCodes[0];
    if code !in db.tables.items {
      return Err(ItemMissing);
    }
    if db.tables.items[code].category != Chicks {
      return Err(NotChicks);
    }
    if code !in db.tables.inventory {
      return Err(NoInventoryRow);
    }
    if ToI32(db.tables.inventory[code]).GetOr(0) < p.initialBirdCount {
      return Err(NotEnoughStock);
    }
    var batchId := OpenBatch(db, p, code);
    var total, left := AllocateChicks(db, batchId + 2, code, p.initialBirdCount);
    if left > 0 {
      return Err(Shortage(left as real));
    }
    var g := PostAllocation(db, ChicksInventoryAccount, FarmExpenseAccount, total, "batches", batchId);
    r := Ok(batchId);
  }

  /** The batch handler: runs the transaction and rolls it back on any failure, which it
      reports as a bad request. An empty item list makes the handler panic; that is
      reported here as an internal server error, with nothing committed. */
  method CreateBatch(db: Db, p: CreateBatchPayload) returns (r: Result<int, Status>)
    modifies db
    ensures var o := BatchOutcome(old(db.tables), old(db.nextId), p);
            && db.tables == o.1
            && (r.Ok? <==> o.0.Ok?)
            && (r.Ok? ==> r.value == o.0.value)
            && (r.Err? ==> r.error == if o.0.error == NoChickItem then InternalServerError else BadRequest)
    ensures db.nextId >= old(db.nextId)
  {
    var saved := db.tables;
    var result := CreateBatchWithTransaction(db, p);
    if result.Err? {
      db.tables := saved;
      if result.error == NoChickItem {
        return Err(InternalServerError);
      }
      return Err(BadRequest);
    }
    r := Ok(result.value);
  }
}
