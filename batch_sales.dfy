/** Selling birds from a batch: the sale row, a debit of cash against a credit of revenue
    with both balances raised, and the batch's closure summary (when there is one) credited
    with the sale value and debited with the birds sold, all in one transaction. */
module BatchSales {
  import opened Wrappers
  import opened Schema
  import opened Decimals
  import opened Ledger

  datatype SalePayload = SalePayload(
    itemCode: string, batchId: int, traderId: int,
    avgWeight: real, rate: real, quantity: real, value: real, createdBy: int)

  function SaleRow(p: SalePayload): Sale {
    Sale(p.itemCode, p.batchId, p.traderId, p.avgWeight, p.rate, p.quantity, p.value)
  }

  // ---------------------------------------------------------------------------
  // insert_batch_sales_ledger_entries

  /** Cash debited and revenue credited with the sale value under group `g`. */
  function SaleEntries(value: real, g: int, saleId: int): seq<Entry> {
    [ DebitEntry(CashAccount, Some(value), g, "batch_sales", saleId),
      CreditEntry(RevenueAccount, Some(value), g, "batch_sales", saleId) ]
  }

  /** The two balance updates, in order: cash on its debit side, then revenue on its
      credit side; a missing account stops them. */
  function SaleBalances(accounts: map<int, Account>, value: real): (r: Result<map<int, Account>, Status>)
    ensures r.Err? <==> CashAccount !in accounts || RevenueAccount !in accounts
    ensures r.Ok? ==> r.value.Keys == accounts.Keys
  {
    PairUpdated(accounts, CashAccount, RevenueAccount, Some(value))
  }


  /** On the standard chart a sale raises both the cash balance and the revenue balance by
      the sale value, and these are exactly the signed effects of its two entries. */
  lemma SaleBalancesFollowEntries(accounts: map<int, Account>, value: real, g: int, saleId: int)
    requires StandardChart(accounts)
    requires SaleBalances(accounts, value).Ok?
    ensures var after := SaleBalances(accounts, value).value;
            && BalancesFollowEntries(accounts, after, SaleEntries(value, g, saleId))
            && after[CashAccount].balance == accounts[CashAccount].balance + value
            && after[RevenueAccount].balance == accounts[RevenueAccount].balance + value
  {
    PairUpdatedFollowsEntries(accounts, CashAccount, RevenueAccount, Some(value), g, "batch_sales", saleId);
    var es := SaleEntries(value, g, saleId);
    TwoEntriesEffect(accounts, es[0], es[1], CashAccount);
    TwoEntriesEffect(accounts, es[0], es[1], RevenueAccount);
  }

  // ---------------------------------------------------------------------------
  // update_batch_financials

  /** Why the closure summary cannot take the sale: the quantity does not fit an `i32`
      (the handler panics on it), or the birds sold exceed the birds available. */
  datatype FinancialsError = QuantityOutOfRange | NotEnoughBirds

  /** The position of the first closure summary of `batchId`, if any: the row the
      handler's query returns. */
  function FirstClosure(closures: seq<ClosureSummary>, batchId: int): (r: Option<int>)
    ensures r.Some? ==> 0 <= r.value < |closures| && closures[r.value].batchId == batchId
                        && forall j | 0 <= j < r.value :: closures[j].batchId != batchId
    ensures r.None? ==> forall j | 0 <= j < |closures| :: closures[j].batchId != batchId
  {
    if closures == [] then None
    else if closures[0].batchId == batchId then Some(0)
    else
      var r := FirstClosure(closures[1..], batchId);
      if r.Some? then Some(r.value + 1) else None
  }

  /** The closure summary credited with a sale of `quantity` birds worth `value`: revenue
      and gross profit up by the value, available birds down by the quantity cut to an
      integer. */
  function Credited(c: ClosureSummary, value: real, sold: int): ClosureSummary {
    c.(revenue := c.revenue + value, grossProfit := c.grossProfit + value,
       availableChickenCount := c.availableChickenCount - sold)
  }

  /** What `update_batch_financials` does to the closure summaries. With no summary for the
      batch nothing changes. */
  function Financials(closures: seq<ClosureSummary>, batchId: int, value: real, quantity: real)
    : (r: Result<seq<ClosureSummary>, FinancialsError>)
    ensures FirstClosure(closures, batchId).None? ==> r == Ok(closures)
    ensures r.Ok? ==> |r.value| == |closures|
    ensures r.Err? ==> FirstClosure(closures, batchId).Some?
  {
    var i := FirstClosure(closures, batchId);
    if i.None? then Ok(closures)
    else
      var c := closures[i.value];
      var q := ToI32(quantity);
      if q.None? then Err(QuantityOutOfRange)
      else if c.availableChickenCount < q.value then Err(NotEnoughBirds)
      else Ok(closures[i.value := Credited(c, value, q.value)])
  }

  /** The update touches only the batch's first summary; it fails exactly when that
      summary exists and the quantity, cut to an integer, does not fit an `i32` or exceeds
      the birds available. On success the summary gains the value in revenue and in gross
      profit, so their difference stays put, and loses the birds sold. */
  lemma FinancialsEffect(closures: seq<ClosureSummary>, batchId: int, value: real, quantity: real)
    ensures var r := Financials(closures, batchId, value, quantity);
            var i := FirstClosure(closures, batchId);
            && (r.Err? <==> i.Some? && (!InI32(Trunc(quantity)) || closures[i.value].availableChickenCount < Trunc(quantity)))
            && (r.Ok? && i.Some? ==>
                 var c := closures[i.value];
                 var c' := r.value[i.value];
                 && c'.batchId == c.batchId
                 && c'.revenue == c.revenue + value
                 && c'.revenue - c'.grossProfit == c.revenue - c.grossProfit
                 && c'.availableChickenCount == c.availableChickenCount - Trunc(quantity)
                 && (forall j | 0 <= j < |closures| && j != i.value :: r.value[j] == closures[j]))
  {
  }

  /** The guard keeps the available bird count from going negative: if no summary counted
      fewer than zero birds before a sale, none does after it. */
  lemma FinancialsKeepCountsNonNegative(closures: seq<ClosureSummary>, batchId: int, value: real, quantity: real)
    requires forall j | 0 <= j < |closures| :: closures[j].availableChickenCount >= 0
    requires Financials(closures, batchId, value, quantity).Ok?
    ensures var after := Financials(closures, batchId, value, quantity).value;
            forall j | 0 <= j < |after| :: after[j].availableChickenCount >= 0
  {
    FinancialsEffect(closures, batchId, value, quantity);
  }

  // ---------------------------------------------------------------------------
  // create_batch_sale

  /** What `create_batch_sale` commits, from tables `t` with the sequence at `next`: the
      sale under id `next`, its posting under group `next + 1`, both balances raised and the
      closure summary credited. A missing account or a refused summary update fails the
      transaction, reported as an internal server error, and nothing is committed. */
  function SaleOutcome(t: Tables, next: int, p: SalePayload): (o: (Result<int, Status>, Tables))
    ensures o.0.Err? ==> o.0.error == InternalServerError && o.1 == t
    ensures o.0.Err? <==> SaleBalances(t.accounts, p.value).Err? || Financials(t.closures, p.batchId, p.value, p.quantity).Err?
    ensures o.0.Ok? ==>
              && o.0.value == next
              && o.1.sales == t.sales[next := SaleRow(p)]
              && o.1.entries == t.entries + SaleEntries(p.value, next + 1, next)
              && o.1.accounts == SaleBalances(t.accounts, p.value).value
              && o.1.closures == Financials(t.closures, p.batchId, p.value, p.quantity).value
  {
    var b := SaleBalances(t.accounts, p.value);
    var f := Financials(t.closures, p.batchId, p.value, p.quantity);
    if b.Err? || f.Err? then (Err(InternalServerError), t)
    else
      (Ok(next),
       t.(sales := t.sales[next := SaleRow(p)],
          entries := t.entries + SaleEntries(p.value, next + 1, next),
          accounts := b.value,
          closures := f.value))
  }

  /** A committed sale keeps every invariant (its posting is a balanced pair under a fresh
      group) and every id below the sequence advanced by two. */
  lemma SaleKeepsInvariants(t: Tables, next: int, p: SalePayload)
    requires IdsBelow(t, next) && Consistent(t)
    ensures var t' := SaleOutcome(t, next, p).1;
            Consistent(t') && IdsBelow(t', next + 2)
  {
    var o := SaleOutcome(t, next, p);
    if o.0.Ok? {
      var t' := o.1;
      var es := SaleEntries(p.value, next + 1, next);
      assert t'.entries == t.entries + [es[0], es[1]];
      PostingKeepsConsistent(t, t', es[0], es[1], next + 1, Some(p.value));
      IdsBelowMonotone(t, next, next + 2);
      EntriesBelow(t.entries, es, next + 2);
    }
  }


  /** Posts the two entries, then the two balance updates; stops at the first failure,
      leaving what it wrote for the caller to roll back. */
  method InsertBatchSalesLedgerEntries(db: Db, saleId: int, p: SalePayload) returns (r: Result<(), Status>)
    modifies db
    ensures db.nextId == old(db.nextId) + 1
    ensures var b := SaleBalances(old(db.tables.accounts), p.value);
            && (r.Err? <==> b.Err?)
            && (r.Ok? ==> db.tables == old(db.tables).(
                  entries := old(db.tables.entries) + SaleEntries(p.value, old(db.nextId), saleId),
                  accounts := b.value))
  {
    var g := db.NewId();
    db.tables := db.tables.(entries := db.tables.entries + [DebitEntry(CashAccount, Some(p.value), g, "batch_sales", saleId)]);
    db.tables := db.tables.(entries := db.tables.entries + [CreditEntry(RevenueAccount, Some(p.value), g, "batch_sales", saleId)]);
    r := UpdateAccountBalance(db, CashAccount, Some(p.value), true);
    if r.Err? {
      return;
    }
    r := UpdateAccountBalance(db, RevenueAccount, Some(p.value), false);
  }

  /** Looks up the batch's summary and, when there is one, checks the guard and writes the
      credited summary back. */
  method UpdateBatchFinancials(db: Db, batchId: int, value: real, quantity: real) returns (r: Result<(), FinancialsError>)
    modifies db
    ensures db.nextId == old(db.nextId)
    ensures var f := Financials(old(db.tables.closures), batchId, value, quantity);
            && (r.Err? <==> f.Err?)
            && (r.Err? ==> r.error == f.error && db.tables == old(db.tables))
            && (r.Ok? ==> db.tables == old(db.tables).(closures := f.value))
  {
    var found := FirstClosure(db.tables.closures, batchId);
    if found.None? {
      return Ok(());
    }
    var summary := db.tables.closures[found.value];
    var currentCount := summary.availableChickenCount;
    var toSubtract := ToI32(quantity);
    if toSubtract.None? {
      return Err(QuantityOutOfRange);
    }
    if currentCount < toSubtract.value {
      return Err(NotEnoughBirds);
    }
    var updated := summary.(revenue := summary.revenue + value,
                            grossProfit := summary.grossProfit + value,
                            availableChickenCount := currentCount - toSubtract.value);
    db.tables := db.tables.(closures := db.tables.closures[found.value := updated]);
    r := Ok(());
  }

  /** The handler: the sale, its ledger posting, then the closure summary; a failure in
      either of the last two rolls the sale back. */
  method CreateBatchSale(db: Db, p: SalePayload) returns (r: Result<int, Status>)
    modifies db
    ensures (r, db.tables) == SaleOutcome(old(db.tables), old(db.nextId), p)
    ensures db.nextId == old(db.nextId) + 2
  {
    var saved := db.tables;
    var saleId := db.NewId();
    db.tables := db.tables.(sales := db.tables.sales[saleId := SaleRow(p)]);
    var posted := InsertBatchSalesLedgerEntries(db, saleId, p);
    if posted.Err? {
      db.tables := saved;
      return Err(InternalServerError);
    }
    var credited := UpdateBatchFinancials(db, p.batchId, p.value, p.quantity);
    if credited.Err? {
      db.tables := saved;
      return Err(InternalServerError);
    }
    r := Ok(saleId);
  }
}
