/** The relational schema the handlers work on (one datatype per table row, after the
    entity definitions and the migrations) and the database itself: a `Db` object whose
    fields are the tables, updated in place by the handlers inside a transaction. */
module Schema {
  import opened Wrappers

  datatype ItemCategory = Medicine | Feed | Chicks
  datatype Item = Item(name: string, category: ItemCategory)

  datatype RequirementStatus = Pending | Accept | Decline
  datatype Requirement = Requirement(
    batchId: int, lineId: int, supervisorId: int,
    itemCode: string, quantity: real, status: RequirementStatus)

  /** A batch allocation; `allocatedValue` is filled in after the FIFO walk. */
  datatype Allocation = Allocation(
    requirementId: Option<int>, allocatedQty: real, allocatedBy: int, allocatedValue: real)

  /** A stock lot (`stock_receipts` row). `receivedDate` is a day number. */
  datatype Lot = Lot(
    lotId: int, purchaseId: Option<int>, itemCode: string,
    receivedQty: real, remainingQty: real, unitCost: real, receivedDate: int)

  datatype AllocationLine = AllocationLine(
    allocationId: int, lotId: int, qty: real, unitCost: real, lineValue: real)

  datatype MovementType = PurchaseIn | AllocationOut
  datatype Movement = Movement(
    itemCode: string, kind: MovementType, qtyChange: real, referenceId: Option<int>)

  datatype AccountType = Asset | Liability | Equity | Revenue | Expense
  datatype Account = Account(name: string, accountType: AccountType, balance: real)

  /** One side of a ledger transaction; `groupId` pairs it with its opposite side. */
  datatype Entry = Entry(
    accountId: int, debit: Option<real>, credit: Option<real>, groupId: int,
    referenceTable: Option<string>, referenceId: Option<int>)

  datatype BatchStatus = Open | Closed
  datatype Batch = Batch(
    lineId: int, supervisorId: int, farmerId: int,
    initialBirdCount: int, currentBirdCount: Option<int>, status: BatchStatus)

  datatype Purchase = Purchase(
    itemCode: string, costPerUnit: real, totalCost: Option<real>, quantity: real,
    purchaseDate: int, supplier: Option<string>, createdBy: Option<int>)

  /** `recordDate` is the date as the backend prints it. */
  datatype BirdCount = BirdCount(
    batchId: int, recordDate: string, deaths: int, additions: int, notes: string)

  datatype Commission = Commission(farmerId: int, amount: real, description: Option<string>)

  datatype ClosureSummary = ClosureSummary(
    batchId: int, initialChickenCount: int, availableChickenCount: int,
    revenue: real, grossProfit: real)

  datatype Sale = Sale(
    itemCode: string, batchId: int, traderId: int,
    avgWeight: real, rate: real, quantity: real, value: real)

  /** Every table at one moment: what a transaction rolls back to. */
  datatype Tables = Tables(
    items: map<string, Item>,
    inventory: map<string, real>,
    lots: seq<Lot>,
    movements: seq<Movement>,
    requirements: map<int, Requirement>,
    allocations: map<int, Allocation>,
    allocationLines: seq<AllocationLine>,
    accounts: map<int, Account>,
    entries: seq<Entry>,
    batches: map<int, Batch>,
    purchases: map<int, Purchase>,
    birdCounts: seq<BirdCount>,
    commissions: map<int, Commission>,
    closures: seq<ClosureSummary>,
    sales: map<int, Sale>)

  /** The database: the tables, updated in place by the handlers, and `nextId`, which
      stands for the id sequences and the UUID generator. A transaction that fails puts
      `tables` back as they were when it began; `nextId` only grows and is not rolled back,
      as database sequences are not. */
  class Db {
    var tables: Tables
    var nextId: int

    ghost predicate Valid()
      reads this
    {
      IdsBelow(tables, nextId)
    }

    constructor Empty()
      ensures Valid() && nextId == 0
      ensures tables == Tables(map[], map[], [], [], map[], map[], [], map[], [], map[], map[], [], map[], [], map[])
    {
      tables := Tables(map[], map[], [], [], map[], map[], [], map[], [], map[], map[], [], map[], [], map[]);
      nextId := 0;
    }

    /** A fresh id from the sequence; no table changes. */
    method NewId() returns (id: int)
      modifies this
      ensures id == old(nextId) && nextId == id + 1
      ensures tables == old(tables)
    {
      id := nextId;
      nextId := nextId + 1;
    }
  }

  /** Keys and group ids were all drawn from the id sequence before `next`, and lot ids
      grow with insertion order (the lots table's auto-increment key). */
  ghost predicate IdsBelow(t: Tables, next: int) {
    && (forall k | k in t.requirements :: k < next)
    && (forall k | k in t.allocations :: k < next)
    && (forall k | k in t.batches :: k < next)
    && (forall k | k in t.purchases :: k < next)
    && (forall k | k in t.commissions :: k < next)
    && (forall k | k in t.sales :: k < next)
    && (forall k | k in t.accounts :: k < next)
    && (forall i | 0 <= i < |t.entries| :: t.entries[i].groupId < next)
    && (forall i | 0 <= i < |t.allocationLines| :: t.allocationLines[i].allocationId < next)
    && LotIdsIncreasing(t.lots)
    && (forall i | 0 <= i < |t.lots| :: t.lots[i].lotId < next)
  }

  /** The bound only loosens as the sequence advances. */
  lemma IdsBelowMonotone(t: Tables, next: int, next': int)
    requires IdsBelow(t, next) && next <= next'
    ensures IdsBelow(t, next')
  {
  }

  ghost predicate LotIdsIncreasing(lots: seq<Lot>) {
    forall i, j | 0 <= i < j < |lots| :: lots[i].lotId < lots[j].lotId
  }

  /** `lot_id` is the lots table's primary key: no two rows share one. */
  ghost predicate DistinctLotIds(lots: seq<Lot>) {
    forall i, j | 0 <= i < |lots| && 0 <= j < |lots| && i != j :: lots[i].lotId != lots[j].lotId
  }

  lemma IncreasingIdsDistinct(lots: seq<Lot>)
    requires LotIdsIncreasing(lots)
    ensures DistinctLotIds(lots)
  {
    forall i, j | 0 <= i < |lots| && 0 <= j < |lots| && i != j
      ensures lots[i].lotId != lots[j].lotId
    {
      if i > j { assert lots[j].lotId < lots[i].lotId; }
    }
  }

  /** Sums of optional amounts treat a missing amount as zero, as `unwrap_or_default` does. */
  function Amount(a: Option<real>): real {
    a.GetOr(0.0)
  }

  // ---------------------------------------------------------------------------
  // Business invariants: what a committed state should satisfy. Each handler
  // states which of them it preserves.

  /** Every lot holds `0 <= remaining_qty <= received_qty`. */
  ghost predicate LotsWithinBounds(lots: seq<Lot>) {
    forall i | 0 <= i < |lots| :: 0.0 <= lots[i].remainingQty <= lots[i].receivedQty
  }

  /** Stock left in the lots of one item: the sum of their remaining quantities. */
  function LotStock(lots: seq<Lot>, code: string): real
  {
    if lots == [] then 0.0
    else (if lots[0].itemCode == code then lots[0].remainingQty else 0.0) + LotStock(lots[1..], code)
  }

  lemma {:induction false} LotStockAppend(lots: seq<Lot>, l: Lot, code: string)
    ensures LotStock(lots + [l], code) == LotStock(lots, code) + (if l.itemCode == code then l.remainingQty else 0.0)
  {
    if lots != [] {
      assert (lots + [l])[1..] == lots[1..] + [l];
      LotStockAppend(lots[1..], l, code);
    }
  }

  /** Lots within bounds never hold a negative stock. */
  lemma {:induction false} LotStockNonNegative(lots: seq<Lot>, code: string)
    requires LotsWithinBounds(lots)
    ensures LotStock(lots, code) >= 0.0
  {
    if lots != [] {
      assert LotsWithinBounds(lots[1..]) by {
        forall i | 0 <= i < |lots[1..]| ensures 0.0 <= lots[1..][i].remainingQty <= lots[1..][i].receivedQty {
          assert lots[1..][i] == lots[i + 1];
        }
      }
      LotStockNonNegative(lots[1..], code);
    }
  }

  /** The inventory counter of an item, zero when the item has no counter row. */
  function OnHand(t: Tables, code: string): real {
    if code in t.inventory then t.inventory[code] else 0.0
  }

  /** Each item's inventory counter equals the stock left in its lots. */
  ghost predicate InventoryMatchesLots(t: Tables) {
    forall code :: LotStock(t.lots, code) == OnHand(t, code)
  }

  /** Total value of the allocation lines written for allocation `a`. */
  function LineValueSum(lines: seq<AllocationLine>, a: int): real
  {
    if lines == [] then 0.0
    else LineValueSum(lines[..|lines| - 1], a)
         + (if lines[|lines| - 1].allocationId == a then lines[|lines| - 1].lineValue else 0.0)
  }

  lemma LineValueSumAppend(lines: seq<AllocationLine>, more: seq<AllocationLine>, a: int)
    ensures LineValueSum(lines + more, a) == LineValueSum(lines, a) + LineValueSum(more, a)
    decreases |more|
  {
    if more == [] {
      assert lines + more == lines;
    } else {
      var last := more[|more| - 1];
      assert (lines + more)[..|lines + more| - 1] == lines + more[..|more| - 1];
      LineValueSumAppend(lines, more[..|more| - 1], a);
    }
  }

  /** An allocation no line names has no value in the lines. */
  lemma {:induction false} LineValueSumAbsent(lines: seq<AllocationLine>, a: int)
    requires forall i | 0 <= i < |lines| :: lines[i].allocationId != a
    ensures LineValueSum(lines, a) == 0.0
  {
    if lines != [] {
      LineValueSumAbsent(lines[..|lines| - 1], a);
    }
  }

  /** Every allocation's recorded value is the total of its lines. */
  ghost predicate AllocationValuesMatchLines(t: Tables) {
    forall a | a in t.allocations :: t.allocations[a].allocatedValue == LineValueSum(t.allocationLines, a)
  }

  /** Net quantity moved for one item, summed over the movement log. */
  function MovementSum(ms: seq<Movement>, code: string): real
  {
    if ms == [] then 0.0
    else MovementSum(ms[..|ms| - 1], code)
         + (if ms[|ms| - 1].itemCode == code then ms[|ms| - 1].qtyChange else 0.0)
  }

  lemma MovementSumAppend(ms: seq<Movement>, m: Movement, code: string)
    ensures MovementSum(ms + [m], code)
            == MovementSum(ms, code) + (if m.itemCode == code then m.qtyChange else 0.0)
  {
    assert (ms + [m])[..|ms|] == ms;
  }

  /** Each inventory counter equals the net of its movement log; items with no counter
      have a net movement of zero. */
  ghost predicate InventoryTracksMovements(t: Tables) {
    forall code :: MovementSum(t.movements, code) == OnHand(t, code)
  }

  /** A counter moved together with a movement recording the same change keeps the log
      in step with the counters. */
  lemma CounterMoved(t: Tables, t': Tables, m: Movement)
    requires InventoryTracksMovements(t)
    requires t'.movements == t.movements + [m]
    requires forall c :: OnHand(t', c) == OnHand(t, c) + (if c == m.itemCode then m.qtyChange else 0.0)
    ensures InventoryTracksMovements(t')
  {
    forall c ensures MovementSum(t'.movements, c) == OnHand(t', c) {
      MovementSumAppend(t.movements, m, c);
    }
  }

  /** A counter moved by the same amount as its item's lots keeps matching them. */
  lemma CounterFollowsLots(t: Tables, t': Tables, code: string, delta: real)
    requires InventoryMatchesLots(t)
    requires forall c :: OnHand(t', c) == OnHand(t, c) + (if c == code then delta else 0.0)
    requires forall c :: LotStock(t'.lots, c) == LotStock(t.lots, c) + (if c == code then delta else 0.0)
    ensures InventoryMatchesLots(t')
  {
    forall c ensures LotStock(t'.lots, c) == OnHand(t', c) {
      assert LotStock(t.lots, c) == OnHand(t, c);
    }
  }

  /** Total debits and credits posted under one transaction group. */
  function DebitSum(es: seq<Entry>, g: int): real
  {
    if es == [] then 0.0
    else DebitSum(es[..|es| - 1], g)
         + (if es[|es| - 1].groupId == g then Amount(es[|es| - 1].debit) else 0.0)
  }

  function CreditSum(es: seq<Entry>, g: int): real
  {
    if es == [] then 0.0
    else CreditSum(es[..|es| - 1], g)
         + (if es[|es| - 1].groupId == g then Amount(es[|es| - 1].credit) else 0.0)
  }

  lemma EntrySumsAppend(es: seq<Entry>, e: Entry, g: int)
    ensures DebitSum(es + [e], g) == DebitSum(es, g) + (if e.groupId == g then Amount(e.debit) else 0.0)
    ensures CreditSum(es + [e], g) == CreditSum(es, g) + (if e.groupId == g then Amount(e.credit) else 0.0)
  {
    assert (es + [e])[..|es|] == es;
  }

  /** Every transaction group balances: its debits add up to its credits. */
  ghost predicate GroupsBalanced(es: seq<Entry>) {
    forall g :: DebitSum(es, g) == CreditSum(es, g)
  }

  /** All the business invariants together: what every committed state should satisfy. */
  ghost predicate Consistent(t: Tables) {
    && LotsWithinBounds(t.lots)
    && InventoryMatchesLots(t)
    && InventoryTracksMovements(t)
    && AllocationValuesMatchLines(t)
    && GroupsBalanced(t.entries)
  }

  /** A debit of `amount` on one account and a credit of the same `amount` on another,
      sharing group `g`: the shape of every posting the engine makes. */
  ghost predicate IsPostingPair(d: Entry, c: Entry, g: int, amount: Option<real>) {
    && d.groupId == g && c.groupId == g
    && d.debit == amount && d.credit == None
    && c.credit == amount && c.debit == None
  }

  /** Appending a posting pair (in either order) keeps every group balanced. */
  lemma {:induction false} PostingPairKeepsBalance(es: seq<Entry>, first: Entry, second: Entry, g: int, amount: Option<real>)
    requires GroupsBalanced(es)
    requires IsPostingPair(first, second, g, amount) || IsPostingPair(second, first, g, amount)
    ensures GroupsBalanced(es + [first, second])
  {
    forall h ensures DebitSum(es + [first, second], h) == CreditSum(es + [first, second], h) {
      EntrySumsAppend(es, first, h);
      assert es + [first, second] == (es + [first]) + [second];
      EntrySumsAppend(es + [first], second, h);
    }
  }

  /** A change that appends one posting pair to the ledger and leaves the stock tables
      alone keeps every invariant. */
  lemma PostingKeepsConsistent(t: Tables, t': Tables, first: Entry, second: Entry, g: int, amount: Option<real>)
    requires Consistent(t)
    requires IsPostingPair(first, second, g, amount) || IsPostingPair(second, first, g, amount)
    requires t'.entries == t.entries + [first, second]
    requires t'.lots == t.lots && t'.inventory == t.inventory && t'.movements == t.movements
    requires t'.allocations == t.allocations && t'.allocationLines == t.allocationLines
    ensures Consistent(t')
  {
    PostingPairKeepsBalance(t.entries, first, second, g, amount);
  }

  /** Entries appended under groups below `next` keep every group id below `next`. */
  lemma {:induction false} EntriesBelow(es: seq<Entry>, more: seq<Entry>, next: int)
    requires forall i | 0 <= i < |es| :: es[i].groupId < next
    requires forall i | 0 <= i < |more| :: more[i].groupId < next
    ensures forall i | 0 <= i < |es + more| :: (es + more)[i].groupId < next
  {
    forall i | 0 <= i < |es + more| ensures (es + more)[i].groupId < next {
      if i < |es| { assert (es + more)[i] == es[i]; } else { assert (es + more)[i] == more[i - |es|]; }
    }
  }
}
