/** The smaller handlers that write more than one row or validate what they write: a new
    batch requirement, a bird count record that moves the batch's current count, a ledger
    account, a farmer commission with its posting, a batch closure, and a manual ledger
    entry with its balance update. */
module Inserts {
  import opened Wrappers
  import opened Schema
  import opened Text
  import opened Ledger

  // ---------------------------------------------------------------------------
  // create_batch_requirement

  datatype RequirementPayload = RequirementPayload(
    batchId: int, lineId: int, supervisorId: int, itemCode: string, quantity: real)

  /** The tables once a requirement is stored under id `next`, always as pending. */
  function RequirementAdded(t: Tables, next: int, p: RequirementPayload): Tables {
    t.(requirements := t.requirements[next := Requirement(p.batchId, p.lineId, p.supervisorId, p.itemCode, p.quantity, Pending)])
  }

  /** A new requirement is pending whatever the request says, carries the requested item
      and quantity, leaves every other requirement as it was, and keeps every invariant and
      every id below the advanced sequence. */
  lemma RequirementAddedPending(t: Tables, next: int, p: RequirementPayload)
    requires IdsBelow(t, next) && Consistent(t)
    ensures var t' := RequirementAdded(t, next, p);
            && next !in t.requirements
            && t'.requirements[next].status == Pending
            && t'.requirements[next].itemCode == p.itemCode && t'.requirements[next].quantity == p.quantity
            && (forall k | k in t.requirements :: k in t'.requirements && t'.requirements[k] == t.requirements[k])
            && Consistent(t') && IdsBelow(t', next + 1)
  {
    var t' := RequirementAdded(t, next, p);
    assert next !in t.requirements;
    assert InventoryMatchesLots(t') by { assert t'.lots == t.lots && t'.inventory == t.inventory; }
    assert InventoryTracksMovements(t') by { assert t'.movements == t.movements; }
    assert AllocationValuesMatchLines(t') by { assert t'.allocations == t.allocations && t'.allocationLines == t.allocationLines; }
  }

  method CreateBatchRequirement(db: Db, p: RequirementPayload) returns (id: int)
    modifies db
    ensures id == old(db.nextId) && db.nextId == id + 1
    ensures db.tables == RequirementAdded(old(db.tables), id, p)
  {
    id := db.NewId();
    var row := Requirement(p.batchId, p.lineId, p.supervisorId, p.itemCode, p.quantity, Pending);
    db.tables := db.tables.(requirements := db.tables.requirements[id := row]);
  }

  // ---------------------------------------------------------------------------
  // create_bird_count_history

  /** The request; `notes` may be left out, and `recordDate` is the date as printed. */
  datatype BirdCountPayload = BirdCountPayload(
    batchId: int, recordDate: string, deaths: int, additions: int, notes: Option<string>)

  /** The note stored when the request gives none: additions win over deaths, and a record
      with neither says that nothing changed. Every such note ends with the record date. */
  function DefaultNotes(additions: int, deaths: int, date: string): (s: string)
    ensures EndsWith(s, " on " + date)
    ensures additions > 0 ==> IsPrefix(IntToString(additions) + " birds added", s)
    ensures additions <= 0 && deaths > 0 ==> IsPrefix(IntToString(deaths) + " birds died", s)
    ensures additions <= 0 && deaths <= 0 ==> IsPrefix("No change", s)
  {
    var suffix := " on " + date;
    if additions > 0 then
      var n := IntToString(additions);
      var s := n + " birds added" + suffix;
      EndsWithAppended(n + " birds added", suffix);
      assert s[..|n + " birds added"|] == n + " birds added";
      s
    else if deaths > 0 then
      var n := IntToString(deaths);
      var s := n + " birds died" + suffix;
      EndsWithAppended(n + " birds died", suffix);
      assert s[..|n + " birds died"|] == n + " birds died";
      s
    else
      var s := "No change" + suffix;
      EndsWithAppended("No change", suffix);
      assert s[..|"No change"|] == "No change";
      s
  }

  /** `pre` is a prefix of `s`. */
  predicate IsPrefix(pre: string, s: string) {
    |pre| <= |s| && s[..|pre|] == pre
  }

  function BirdCountRow(p: BirdCountPayload): BirdCount {
    BirdCount(p.batchId, p.recordDate, p.deaths, p.additions,
      if p.notes.Some? then p.notes.value else DefaultNotes(p.additions, p.deaths, p.recordDate))
  }

  /** What `create_bird_count_history` commits: the record, and the batch's current count
      moved by the additions less the deaths, a missing count read as zero. An unknown batch
      is `NotFound`, and the record inserted before the lookup is rolled back. */
  function BirdCountOutcome(t: Tables, p: BirdCountPayload): (o: (Result<BirdCount, Status>, Tables))
    ensures o.0.Err? <==> p.batchId !in t.batches
    ensures o.0.Err? ==> o.0.error == NotFound && o.1 == t
    ensures o.0.Ok? ==>
              && o.0.value == BirdCountRow(p)
              && o.1.birdCounts == t.birdCounts + [BirdCountRow(p)]
              && o.1.batches.Keys == t.batches.Keys
              && o.1.batches[p.batchId].currentBirdCount.Some?
              && o.1.batches[p.batchId].currentBirdCount.value
                 == t.batches[p.batchId].currentBirdCount.GetOr(0) + p.additions - p.deaths
              && (forall b | b in t.batches && b != p.batchId :: o.1.batches[b] == t.batches[b])
  {
    if p.batchId !in t.batches then (Err(NotFound), t)
    else
      var batch := t.batches[p.batchId];
      var count := batch.currentBirdCount.GetOr(0) + p.additions - p.deaths;
      (Ok(BirdCountRow(p)),
       t.(birdCounts := t.birdCounts + [BirdCountRow(p)],
          batches := t.batches[p.batchId := batch.(currentBirdCount := Some(count))]))
  }

  /** The tables after a series of bird count requests, each in its own transaction. */
  function AfterBirdCounts(t: Tables, ps: seq<BirdCountPayload>): Tables
    decreases |ps|
  {
    if ps == [] then t else AfterBirdCounts(BirdCountOutcome(t, ps[0]).1, ps[1..])
  }

  /** Net growth recorded by a series of requests: additions less deaths. */
  function NetGrowth(ps: seq<BirdCountPayload>): int {
    if ps == [] then 0 else ps[0].additions - ps[0].deaths + NetGrowth(ps[1..])
  }

  /** Over any series of records for one existing batch, the batch's count ends at its
      starting count (zero when unset) plus every addition less every death, and every
      record is kept. */
  lemma {:induction false} BirdCountsAccumulate(t: Tables, ps: seq<BirdCountPayload>, id: int)
    requires id in t.batches
    requires forall i | 0 <= i < |ps| :: ps[i].batchId == id
    ensures var t' := AfterBirdCounts(t, ps);
            && id in t'.batches
            && t'.batches[id].currentBirdCount.GetOr(0) == t.batches[id].currentBirdCount.GetOr(0) + NetGrowth(ps)
            && |t'.birdCounts| == |t.birdCounts| + |ps|
    decreases |ps|
  {
    if ps != [] {
      var t1 := BirdCountOutcome(t, ps[0]).1;
      BirdCountsAccumulate(t1, ps[1..], id);
    }
  }

  /** The handler: the record goes in first, then the batch is looked up and updated. */
  method CreateBirdCountHistory(db: Db, p: BirdCountPayload) returns (r: Result<BirdCount, Status>)
    modifies db
    ensures (r, db.tables) == BirdCountOutcome(old(db.tables), p)
    ensures db.nextId == old(db.nextId)
  {
    var saved := db.tables;
    var notes := if p.notes.Some? then p.notes.value else DefaultNotes(p.additions, p.deaths, p.recordDate);
    var record := BirdCount(p.batchId, p.recordDate, p.deaths, p.additions, notes);
    db.tables := db.tables.(birdCounts := db.tables.birdCounts + [record]);
    if p.batchId !in db.tables.batches {
      db.tables := saved;
      return Err(NotFound);
    }
    var batch := db.tables.batches[p.batchId];
    var newCount := batch.currentBirdCount.GetOr(0) + p.additions - p.deaths;
    db.tables := db.tables.(batches := db.tables.batches[p.batchId := batch.(currentBirdCount := Some(newCount))]);
    r := Ok(record);
  }

  // ---------------------------------------------------------------------------
  // create_ledger_account

  datatype LedgerAccountPayload = LedgerAccountPayload(name: string, accountType: AccountType, balance: real)

  function AccountRow(p: LedgerAccountPayload): Account {
    Account(Lower(p.name), p.accountType, p.balance)
  }

  /** Account names are stored in lower case: the stored name has no capital letter and
      re-storing it changes nothing, and two names that differ only in case are stored
      the same. */
  lemma AccountNamesLowerCased(p: LedgerAccountPayload, q: LedgerAccountPayload)
    ensures forall i | 0 <= i < |AccountRow(p).name| :: !('A' <= AccountRow(p).name[i] <= 'Z')
    ensures AccountRow(p.(name := AccountRow(p).name)) == AccountRow(p)
    ensures Lower(p.name) == Lower(q.name) ==> AccountRow(p).name == AccountRow(q).name
  {
    LowerIdempotent(p.name);
  }

  method CreateLedgerAccount(db: Db, p: LedgerAccountPayload) returns (id: int)
    modifies db
    ensures id == old(db.nextId) && db.nextId == id + 1
    ensures db.tables == old(db.tables).(accounts := old(db.tables.accounts)[id := AccountRow(p)])
  {
    id := db.NewId();
    db.tables := db.tables.(accounts := db.tables.accounts[id := Account(Lower(p.name), p.accountType, p.balance)]);
  }

  // ---------------------------------------------------------------------------
  // create_farmer_commission

  datatype CommissionPayload = CommissionPayload(
    farmerId: int, amount: real, description: Option<string>, createdBy: Option<int>)

  /** The commission expense account debited, cash credited, under group `g`. */
  function CommissionEntries(amount: real, g: int, ref: int): seq<Entry> {
    [ DebitEntry(CommissionExpenseAccount, Some(amount), g, "farmer_commission_history", ref),
      CreditEntry(CashAccount, Some(amount), g, "farmer_commission_history", ref) ]
  }

  /** What `create_farmer_commission` commits: the commission under id `next`, its posting
      under group `next + 1`, account 106 raised and account 101 lowered by the amount. A
      missing account fails the whole transaction. */
  function CommissionOutcome(t: Tables, next: int, p: CommissionPayload): (o: (Result<int, Status>, Tables))
    ensures o.0.Err? <==> CommissionExpenseAccount !in t.accounts || CashAccount !in t.accounts
    ensures o.0.Err? ==> o.0.error == InternalServerError && o.1 == t
    ensures o.0.Ok? ==>
              && o.0.value == next
              && o.1.commissions == t.commissions[next := Commission(p.farmerId, p.amount, p.description)]
              && o.1.accounts.Keys == t.accounts.Keys
              && o.1.accounts[CommissionExpenseAccount].balance == t.accounts[CommissionExpenseAccount].balance + p.amount
              && o.1.accounts[CashAccount].balance == t.accounts[CashAccount].balance - p.amount
  {
    if CommissionExpenseAccount !in t.accounts || CashAccount !in t.accounts then (Err(InternalServerError), t)
    else
      (Ok(next),
       t.(commissions := t.commissions[next := Commission(p.farmerId, p.amount, p.description)],
          entries := t.entries + CommissionEntries(p.amount, next + 1, next),
          accounts := Adjusted(Adjusted(t.accounts, CommissionExpenseAccount, p.amount), CashAccount, -p.amount)))
  }

  /** A committed commission keeps every invariant (its posting is a balanced pair under a
      fresh group) and keeps every id below the sequence advanced by two. */
  lemma CommissionKeepsInvariants(t: Tables, next: int, p: CommissionPayload)
    requires IdsBelow(t, next) && Consistent(t)
    ensures var t' := CommissionOutcome(t, next, p).1;
            Consistent(t') && IdsBelow(t', next + 2)
  {
    var o := CommissionOutcome(t, next, p);
    if o.0.Ok? {
      var t' := o.1;
      var es := CommissionEntries(p.amount, next + 1, next);
      assert t'.entries == t.entries + [es[0], es[1]];
      PostingKeepsConsistent(t, t', es[0], es[1], next + 1, Some(p.amount));
      IdsBelowMonotone(t, next, next + 2);
      EntriesBelow(t.entries, es, next + 2);
    }
  }


  /** On the standard chart the hard-coded adjustments (106 up, 101 down) are exactly what
      the sign convention gives for the two entries posted. */
  lemma CommissionBalancesFollowEntries(t: Tables, next: int, p: CommissionPayload)
    requires StandardChart(t.accounts)
    requires CommissionOutcome(t, next, p).0.Ok?
    ensures BalancesFollowEntries(t.accounts, CommissionOutcome(t, next, p).1.accounts,
              CommissionEntries(p.amount, next + 1, next))
  {
    var es := CommissionEntries(p.amount, next + 1, next);
    var after := CommissionOutcome(t, next, p).1.accounts;
    forall id | id in t.accounts
      ensures after[id].balance == t.accounts[id].balance + EntriesEffect(t.accounts, es, id)
    {
      TwoEntriesEffect(t.accounts, es[0], es[1], id);
      if id == CommissionExpenseAccount { assert t.accounts[id].accountType == Expense; }
      if id == CashAccount { assert t.accounts[id].accountType == Asset; }
    }
  }

  /** The handler: the commission row, both entries, then each balance after looking its
      account up; a failed lookup rolls everything back. */
  method CreateFarmerCommission(db: Db, p: CommissionPayload) returns (r: Result<int, Status>)
    modifies db
    ensures (r, db.tables) == CommissionOutcome(old(db.tables), old(db.nextId), p)
    ensures db.nextId == old(db.nextId) + 2
  {
    var saved := db.tables;
    var id := db.NewId();
    db.tables := db.tables.(commissions := db.tables.commissions[id := Commission(p.farmerId, p.amount, p.description)]);
    var g := db.NewId();
    db.tables := db.tables.(entries := db.tables.entries
                  + [DebitEntry(CommissionExpenseAccount, Some(p.amount), g, "farmer_commission_history", id)]);
    db.tables := db.tables.(entries := db.tables.entries
                  + [CreditEntry(CashAccount, Some(p.amount), g, "farmer_commission_history", id)]);
    if CommissionExpenseAccount !in db.tables.accounts {
      db.tables := saved;
      return Err(InternalServerError);
    }
    var expense := db.tables.accounts[CommissionExpenseAccount];
    db.tables := db.tables.(accounts := db.tables.accounts[CommissionExpenseAccount := expense.(balance := expense.balance + p.amount)]);
    if CashAccount !in db.tables.accounts {
      db.tables := saved;
      return Err(InternalServerError);
    }
    var cash := db.tables.accounts[CashAccount];
    db.tables := db.tables.(accounts := db.tables.accounts[CashAccount := cash.(balance := cash.balance - p.amount)]);
    r := Ok(id);
    assert db.tables.entries == saved.entries + CommissionEntries(p.amount, g, id);
    assert db.tables.accounts == Adjusted(Adjusted(saved.accounts, CommissionExpenseAccount, p.amount), CashAccount, -p.amount);
  }

  // ---------------------------------------------------------------------------
  // create_batch_closure_summary

  datatype ClosurePayload = ClosurePayload(
    batchId: int, initialChickenCount: int, availableChickenCount: int, revenue: real, grossProfit: real)

  function ClosureRow(p: ClosurePayload): ClosureSummary {
    ClosureSummary(p.batchId, p.initialChickenCount, p.availableChickenCount, p.revenue, p.grossProfit)
  }

  /** What `create_batch_closure_summary` commits: the summary, and the batch marked
      closed with nothing else about it changed. An unknown batch is `NotFound` and the
      summary inserted before the lookup is rolled back. */
  function ClosureOutcome(t: Tables, p: ClosurePayload): (o: (Result<ClosureSummary, Status>, Tables))
    ensures o.0.Err? <==> p.batchId !in t.batches
    ensures o.0.Err? ==> o.0.error == NotFound && o.1 == t
    ensures o.0.Ok? ==>
              && o.1.closures == t.closures + [ClosureRow(p)]
              && o.1.batches.Keys == t.batches.Keys
              && o.1.batches[p.batchId] == t.batches[p.batchId].(status := Closed)
              && (forall b | b in t.batches && b != p.batchId :: o.1.batches[b] == t.batches[b])
  {
    if p.batchId !in t.batches then (Err(NotFound), t)
    else
      (Ok(ClosureRow(p)),
       t.(closures := t.closures + [ClosureRow(p)],
          batches := t.batches[p.batchId := t.batches[p.batchId].(status := Closed)]))
  }

  /** Closing a batch that is already closed leaves the batches as they are: only another
      summary is added. */
  lemma CloseClosedBatch(t: Tables, p: ClosurePayload)
    requires p.batchId in t.batches && t.batches[p.batchId].status == Closed
    ensures ClosureOutcome(t, p).1.batches == t.batches
  {
  }

  method CreateBatchClosureSummary(db: Db, p: ClosurePayload) returns (r: Result<ClosureSummary, Status>)
    modifies db
    ensures (r, db.tables) == ClosureOutcome(old(db.tables), p)
    ensures db.nextId == old(db.nextId)
  {
    var saved := db.tables;
    var row := ClosureRow(p);
    db.tables := db.tables.(closures := db.tables.closures + [row]);
    if p.batchId !in db.tables.batches {
      db.tables := saved;
      return Err(NotFound);
    }
    var batch := db.tables.batches[p.batchId];
    db.tables := db.tables.(batches := db.tables.batches[p.batchId := batch.(status := Closed)]);
    r := Ok(row);
  }

  // ---------------------------------------------------------------------------
  // create_ledger_entry

  datatype EntryPayload = EntryPayload(
    accountId: int, debit: Option<real>, credit: Option<real>,
    referenceTable: Option<string>, referenceId: Option<int>, createdBy: Option<int>)

  /** The validation of a manual entry: amounts default to zero, they may not both be zero
      and neither may be negative. */
  predicate AmountsAccepted(p: EntryPayload) {
    var d := Amount(p.debit);
    var c := Amount(p.credit);
    !(d == 0.0 && c == 0.0) && !(d < 0.0 || c < 0.0)
  }

  /** An entry is accepted exactly when both amounts are non-negative and together
      positive. */
  lemma AmountsAcceptedIff(p: EntryPayload)
    ensures AmountsAccepted(p) <==> Amount(p.debit) >= 0.0 && Amount(p.credit) >= 0.0 && Amount(p.debit) + Amount(p.credit) > 0.0
  {
  }

  /** The entry stored, under the fresh group `g`; the amounts are kept as given. */
  function ManualEntry(p: EntryPayload, g: int): Entry {
    Entry(p.accountId, p.debit, p.credit, g, p.referenceTable, p.referenceId)
  }

  /** What `create_ledger_entry` commits, from tables `t` with the sequence at `next`:
      rejected amounts are a bad request and an unknown account is not found, both
      without any change; otherwise the entry goes in under group `next` and the account's
      balance moves by the manual delta of its type. */
  function ManualEntryOutcome(t: Tables, next: int, p: EntryPayload): (o: (Result<Entry, Status>, Tables))
    ensures o.0.Err? ==> o.1 == t
    ensures o.0 == Err(BadRequest) <==> !AmountsAccepted(p)
    ensures o.0 == Err(NotFound) <==> AmountsAccepted(p) && p.accountId !in t.accounts
    ensures o.0.Ok? ==>
              && o.0.value == ManualEntry(p, next)
              && o.1.entries == t.entries + [ManualEntry(p, next)]
              && o.1.accounts.Keys == t.accounts.Keys
              && o.1.accounts[p.accountId].balance == t.accounts[p.accountId].balance
                   + ManualDelta(t.accounts[p.accountId].accountType, Amount(p.debit), Amount(p.credit))
  {
    if !AmountsAccepted(p) then (Err(BadRequest), t)
    else if p.accountId !in t.accounts then (Err(NotFound), t)
    else
      var account := t.accounts[p.accountId];
      var delta := ManualDelta(account.accountType, Amount(p.debit), Amount(p.credit));
      (Ok(ManualEntry(p, next)),
       t.(entries := t.entries + [ManualEntry(p, next)],
          accounts := t.accounts[p.accountId := account.(balance := account.balance + delta)]))
  }

  /** The balance a manual entry sets is exactly the signed effect of the entry it stores. */
  lemma ManualEntryBalanceFollowsEntry(t: Tables, next: int, p: EntryPayload)
    requires ManualEntryOutcome(t, next, p).0.Ok?
    ensures BalancesFollowEntries(t.accounts, ManualEntryOutcome(t, next, p).1.accounts, [ManualEntry(p, next)])
  {
    var e := ManualEntry(p, next);
    forall id | id in t.accounts
      ensures EntriesEffect(t.accounts, [e], id) == EntryEffect(t.accounts, e, id)
    {
      assert [e][..0] == [];
    }
  }

  /** A manual entry is a single side under a group of its own, so the books stay balanced
      exactly when its debit equals its credit; a one-sided entry leaves its group
      unbalanced. Every other invariant and every id bound is kept. */
  lemma ManualEntryBalancedIff(t: Tables, next: int, p: EntryPayload)
    requires IdsBelow(t, next) && Consistent(t)
    requires ManualEntryOutcome(t, next, p).0.Ok?
    ensures var t' := ManualEntryOutcome(t, next, p).1;
            && (GroupsBalanced(t'.entries) <==> Amount(p.debit) == Amount(p.credit))
            && LotsWithinBounds(t'.lots) && InventoryMatchesLots(t') && InventoryTracksMovements(t')
            && AllocationValuesMatchLines(t') && IdsBelow(t', next + 1)
  {
    var t' := ManualEntryOutcome(t, next, p).1;
    SingleEntryBalancedIff(t.entries, ManualEntry(p, next));
    assert InventoryMatchesLots(t') by { assert t'.lots == t.lots && t'.inventory == t.inventory; }
    assert InventoryTracksMovements(t') by { assert t'.movements == t.movements; }
    assert AllocationValuesMatchLines(t') by { assert t'.allocations == t.allocations && t'.allocationLines == t.allocationLines; }
    forall i | 0 <= i < |t'.entries| ensures t'.entries[i].groupId < next + 1 {
      if i < |t.entries| { assert t'.entries[i] == t.entries[i]; }
    }
  }

  /** The handler: validation before the transaction, then the account lookup, the entry
      and the balance; a group id is drawn only once the account is found. */
  method CreateLedgerEntry(db: Db, p: EntryPayload) returns (r: Result<Entry, Status>)
    modifies db
    ensures (r, db.tables) == ManualEntryOutcome(old(db.tables), old(db.nextId), p)
    ensures db.nextId == old(db.nextId) + (if r.Ok? then 1 else 0)
  {
    var debit := p.debit.GetOr(0.0);
    var credit := p.credit.GetOr(0.0);
    if debit == 0.0 && credit == 0.0 {
      return Err(BadRequest);
    }
    if debit < 0.0 || credit < 0.0 {
      return Err(BadRequest);
    }
    if p.accountId !in db.tables.accounts {
      return Err(NotFound);
    }
    var account := db.tables.accounts[p.accountId];
    var delta := match account.accountType
      case Asset | Expense => debit - credit
      case Liability | Equity | Revenue => credit - debit;
    var newBalance := account.balance + delta;
    var g := db.NewId();
    var entry := Entry(p.accountId, p.debit, p.credit, g, p.referenceTable, p.referenceId);
    db.tables := db.tables.(entries := db.tables.entries + [entry]);
    db.tables := db.tables.(accounts := db.tables.accounts[p.accountId := account.(balance := newBalance)]);
    r := Ok(entry);
  }
}
