/** Double-entry bookkeeping shared by every handler that posts: the sign convention of
    `update_account_balance`, the fixed chart of accounts the handlers hard-code, and the
    posting of a debit/credit pair under one transaction group. */
module Ledger {
  import opened Wrappers
  import opened Schema

  /** The HTTP statuses the handlers answer with on failure. */
  datatype Status = BadRequest | NotFound | InternalServerError

  // ---------------------------------------------------------------------------
  // The chart of accounts the handlers name by id

  const CashAccount: int := 101
  const MedicineInventoryAccount: int := 102
  const FeedInventoryAccount: int := 103
  const ChicksInventoryAccount: int := 104
  const CommissionExpenseAccount: int := 106
  const FarmExpenseAccount: int := 107
  const RevenueAccount: int := 108

  /** The inventory (asset) account that holds stock of a category. */
  function InventoryAccountFor(c: ItemCategory): (id: int)
    ensures c == Medicine ==> id == MedicineInventoryAccount
    ensures c == Feed ==> id == FeedInventoryAccount
    ensures c == Chicks ==> id == ChicksInventoryAccount
  {
    match c
    case Medicine => MedicineInventoryAccount
    case Feed => FeedInventoryAccount
    case Chicks => ChicksInventoryAccount
  }

  /** Distinct categories are held in distinct accounts. */
  lemma InventoryAccountInjective(c: ItemCategory, d: ItemCategory)
    ensures InventoryAccountFor(c) == InventoryAccountFor(d) <==> c == d
  {
  }

  /** The accounts the handlers hard-code have the types their names say, where present. */
  ghost predicate StandardChart(accounts: map<int, Account>) {
    && (forall id | id in accounts && id in {CashAccount, MedicineInventoryAccount, FeedInventoryAccount, ChicksInventoryAccount} ::
          accounts[id].accountType == Asset)
    && (forall id | id in accounts && id in {CommissionExpenseAccount, FarmExpenseAccount} ::
          accounts[id].accountType == Expense)
    && (RevenueAccount in accounts ==> accounts[RevenueAccount].accountType == Revenue)
  }

  // ---------------------------------------------------------------------------
  // The sign convention

  /** Asset and expense accounts carry a debit balance; the others a credit balance. */
  predicate DebitNormal(k: AccountType) {
    k == Asset || k == Expense
  }

  /** How `update_account_balance` moves a balance when `amount` is posted to an account
      of type `k` on its debit side (`isDebit`) or its credit side. */
  function BalanceDelta(k: AccountType, isDebit: bool, amount: real): (d: real)
    ensures d == amount || d == -amount
  {
    if DebitNormal(k) then (if isDebit then amount else -amount)
    else (if isDebit then -amount else amount)
  }

  /** A positive posting raises the balance exactly when it is on the account's normal
      side, and a debit and a credit of the same amount cancel. */
  lemma BalanceDeltaSigns(k: AccountType, isDebit: bool, amount: real)
    requires amount > 0.0
    ensures BalanceDelta(k, isDebit, amount) > 0.0 <==> (isDebit <==> DebitNormal(k))
    ensures BalanceDelta(k, true, amount) + BalanceDelta(k, false, amount) == 0.0
  {
  }

  /** The balance change of a manual entry carrying both a debit and a credit amount:
      debit minus credit on debit-normal accounts, credit minus debit on the others. */
  function ManualDelta(k: AccountType, debit: real, credit: real): (d: real)
    ensures d == BalanceDelta(k, true, debit) + BalanceDelta(k, false, credit)
  {
    match k
    case Asset | Expense => debit - credit
    case Liability | Equity | Revenue => credit - debit
  }

  /** `account`'s balance moved by `delta`; no change when the account does not exist. */
  function Adjusted(accounts: map<int, Account>, id: int, delta: real): (r: map<int, Account>)
    ensures r.Keys == accounts.Keys
    ensures id in accounts ==> r[id] == accounts[id].(balance := accounts[id].balance + delta)
    ensures forall other | other in accounts && other != id :: r[other] == accounts[other]
  {
    if id in accounts then accounts[id := accounts[id].(balance := accounts[id].balance + delta)] else accounts
  }

  /** `update_account_balance` on the accounts table: an unknown account is refused,
      a missing amount counts as zero, and only that account's balance changes. */
  function ApplyBalanceUpdate(accounts: map<int, Account>, id: int, amount: Option<real>, isDebit: bool)
    : (r: Result<map<int, Account>, Status>)
    ensures r.Err? <==> id !in accounts
    ensures r.Err? ==> r.error == BadRequest
    ensures r.Ok? ==> r.value.Keys == accounts.Keys
    ensures r.Ok? ==> r.value[id].balance == accounts[id].balance + BalanceDelta(accounts[id].accountType, isDebit, Amount(amount))
    ensures r.Ok? ==> r.value[id].accountType == accounts[id].accountType && r.value[id].name == accounts[id].name
    ensures r.Ok? ==> forall other | other in accounts && other != id :: r.value[other] == accounts[other]
  {
    if id !in accounts then Err(BadRequest)
    else Ok(Adjusted(accounts, id, BalanceDelta(accounts[id].accountType, isDebit, Amount(amount))))
  }

  /** The balance update as the handler runs it, inside the caller's transaction. */
  method UpdateAccountBalance(db: Db, id: int, amount: Option<real>, isDebit: bool) returns (r: Result<(), Status>)
    modifies db
    ensures var u := ApplyBalanceUpdate(old(db.tables.accounts), id, amount, isDebit);
            && (r.Err? <==> u.Err?)
            && (r.Err? ==> r.error == u.error && db.tables == old(db.tables))
            && (r.Ok? ==> db.tables == old(db.tables).(accounts := u.value))
    ensures db.nextId == old(db.nextId)
  {
    if id !in db.tables.accounts {
      return Err(BadRequest);
    }
    var account := db.tables.accounts[id];
    var newBalance := account.balance + BalanceDelta(account.accountType, isDebit, Amount(amount));
    db.tables := db.tables.(accounts := db.tables.accounts[id := account.(balance := newBalance)]);
    r := Ok(());
  }

  /** The two balance updates of a posting, in order: account `d` on its debit side, then
      account `c` on its credit side; a missing account stops them. */
  function PairUpdated(accounts: map<int, Account>, d: int, c: int, amount: Option<real>)
    : (r: Result<map<int, Account>, Status>)
    ensures r.Err? <==> d !in accounts || c !in accounts
    ensures r.Err? ==> r.error == BadRequest
    ensures r.Ok? ==> r.value.Keys == accounts.Keys
  {
    var u := ApplyBalanceUpdate(accounts, d, amount, true);
    if u.Err? then Err(u.error)
    else ApplyBalanceUpdate(u.value, c, amount, false)
  }

  // ---------------------------------------------------------------------------
  // Postings

  function DebitEntry(account: int, amount: Option<real>, g: int, table: string, ref: int): Entry {
    Entry(account, amount, None, g, Some(table), Some(ref))
  }

  function CreditEntry(account: int, amount: Option<real>, g: int, table: string, ref: int): Entry {
    Entry(account, None, amount, g, Some(table), Some(ref))
  }

  /** The debit and credit entries of one posting always form a balanced pair. */
  lemma PostingEntriesPair(d: int, c: int, amount: Option<real>, g: int, table: string, ref: int)
    ensures IsPostingPair(DebitEntry(d, amount, g, table, ref), CreditEntry(c, amount, g, table, ref), g, amount)
  {
  }

  /** The entries of a stock allocation posting: the inventory account credited and the
      expense account debited with the allocated value, under group `g`. */
  function AllocationEntries(asset: int, expense: int, total: real, g: int, table: string, ref: int): seq<Entry> {
    [CreditEntry(asset, Some(total), g, table, ref), DebitEntry(expense, Some(total), g, table, ref)]
  }

  /** The balances after a stock allocation is posted: the inventory account falls and the
      expense account rises by the allocated value, each skipped when the row is missing. */
  function AllocationBalances(accounts: map<int, Account>, asset: int, expense: int, total: real): map<int, Account> {
    Adjusted(Adjusted(accounts, asset, -total), expense, total)
  }

  /** How one entry moves the balance of account `id` under the sign convention, with the
      account types of `accounts`; an entry against a missing account moves nothing. */
  function EntryEffect(accounts: map<int, Account>, e: Entry, id: int): real {
    if e.accountId == id && id in accounts then
      BalanceDelta(accounts[id].accountType, true, Amount(e.debit))
      + BalanceDelta(accounts[id].accountType, false, Amount(e.credit))
    else 0.0
  }

  function EntriesEffect(accounts: map<int, Account>, es: seq<Entry>, id: int): real {
    if es == [] then 0.0
    else EntriesEffect(accounts, es[..|es| - 1], id) + EntryEffect(accounts, es[|es| - 1], id)
  }

  lemma TwoEntriesEffect(accounts: map<int, Account>, a: Entry, b: Entry, id: int)
    ensures EntriesEffect(accounts, [a, b], id) == EntryEffect(accounts, a, id) + EntryEffect(accounts, b, id)
  {
    assert [a, b][..1] == [a];
    assert [a][..0] == [];
    assert EntriesEffect(accounts, [a], id) == EntriesEffect(accounts, [], id) + EntryEffect(accounts, a, id);
  }

  /** `after` is `before` with each balance moved by exactly the signed effect of the
      entries `es` posted against it: no account appears or disappears, and names and types
      stay as they were. */
  ghost predicate BalancesFollowEntries(before: map<int, Account>, after: map<int, Account>, es: seq<Entry>) {
    && after.Keys == before.Keys
    && forall id | id in before ::
         && after[id].name == before[id].name
         && after[id].accountType == before[id].accountType
         && after[id].balance == before[id].balance + EntriesEffect(before, es, id)
  }

  /** The two balance updates of a posting move each balance by exactly the signed effect
      of its debit and credit entries. */
  lemma PairUpdatedFollowsEntries(accounts: map<int, Account>, d: int, c: int, amount: Option<real>,
                                  g: int, table: string, ref: int)
    requires PairUpdated(accounts, d, c, amount).Ok?
    ensures BalancesFollowEntries(accounts, PairUpdated(accounts, d, c, amount).value,
              [DebitEntry(d, amount, g, table, ref), CreditEntry(c, amount, g, table, ref)])
  {
    var debit := DebitEntry(d, amount, g, table, ref);
    var credit := CreditEntry(c, amount, g, table, ref);
    var u := ApplyBalanceUpdate(accounts, d, amount, true).value;
    var after := ApplyBalanceUpdate(u, c, amount, false).value;
    assert after == PairUpdated(accounts, d, c, amount).value;
    forall id | id in accounts
      ensures after[id].name == accounts[id].name && after[id].accountType == accounts[id].accountType
      ensures after[id].balance == accounts[id].balance + EntriesEffect(accounts, [debit, credit], id)
    {
      TwoEntriesEffect(accounts, debit, credit, id);
      var k := accounts[id].accountType;
      assert u[id].accountType == k && u[id].name == accounts[id].name;
      assert u[id].balance == accounts[id].balance + (if id == d then BalanceDelta(k, true, Amount(amount)) else 0.0);
      assert after[id].balance == u[id].balance + (if id == c then BalanceDelta(k, false, Amount(amount)) else 0.0);
      assert EntryEffect(accounts, debit, id) == if id == d then BalanceDelta(k, true, Amount(amount)) else 0.0;
      assert EntryEffect(accounts, credit, id) == if id == c then BalanceDelta(k, false, Amount(amount)) else 0.0;
    }
  }

  /** The hard-coded adjustments of an allocation posting (the inventory account of the
      item's category down, the farm expense account up, each skipped when missing) are
      exactly what the sign convention gives for its two entries, on the standard chart. */
  lemma AllocationBalancesFollowEntries(accounts: map<int, Account>, c: ItemCategory, total: real, g: int, table: string, ref: int)
    requires StandardChart(accounts)
    ensures var asset := InventoryAccountFor(c);
            BalancesFollowEntries(accounts, AllocationBalances(accounts, asset, FarmExpenseAccount, total),
              AllocationEntries(asset, FarmExpenseAccount, total, g, table, ref))
  {
    var asset := InventoryAccountFor(c);
    var credit := CreditEntry(asset, Some(total), g, table, ref);
    var debit := DebitEntry(FarmExpenseAccount, Some(total), g, table, ref);
    forall id | id in accounts
      ensures EntriesEffect(accounts, [credit, debit], id)
              == (if id == asset then -total else 0.0) + (if id == FarmExpenseAccount then total else 0.0)
    {
      TwoEntriesEffect(accounts, credit, debit, id);
      if id == asset { assert accounts[id].accountType == Asset; }
      if id == FarmExpenseAccount { assert accounts[id].accountType == Expense; }
    }
  }

  /** The tables once a stock allocation is posted under group `g`. */
  function AllocationPosted(t: Tables, asset: int, expense: int, total: real, g: int, table: string, ref: int): Tables {
    t.(entries := t.entries + AllocationEntries(asset, expense, total, g, table, ref),
       accounts := AllocationBalances(t.accounts, asset, expense, total))
  }

  /** Credits `total` to the inventory account and debits it to the expense account under a
      fresh transaction group, then adjusts both balances, skipping a missing account. */
  method PostAllocation(db: Db, asset: int, expense: int, total: real, table: string, ref: int)
    returns (g: int)
    modifies db
    ensures g == old(db.nextId) && db.nextId == g + 1
    ensures db.tables == AllocationPosted(old(db.tables), asset, expense, total, g, table, ref)
  {
    g := db.NewId();
    db.tables := db.tables.(entries := db.tables.entries + [CreditEntry(asset, Some(total), g, table, ref)]);
    db.tables := db.tables.(entries := db.tables.entries + [DebitEntry(expense, Some(total), g, table, ref)]);
    var accounts := db.tables.accounts;
    if asset in accounts {
      accounts := accounts[asset := accounts[asset].(balance := accounts[asset].balance - total)];
    }
    if expense in accounts {
      accounts := accounts[expense := accounts[expense].(balance := accounts[expense].balance + total)];
    }
    db.tables := db.tables.(accounts := accounts);
  }

  /** A group id drawn fresh from the sequence names no earlier entry. */
  lemma {:induction false} FreshGroupEmpty(es: seq<Entry>, g: int)
    requires forall i | 0 <= i < |es| :: es[i].groupId != g
    ensures DebitSum(es, g) == 0.0 && CreditSum(es, g) == 0.0
  {
    if es != [] {
      FreshGroupEmpty(es[..|es| - 1], g);
    }
  }

  /** A single entry posted under a fresh group keeps every group balanced exactly when its
      debit and credit amounts are equal. */
  lemma SingleEntryBalancedIff(es: seq<Entry>, e: Entry)
    requires GroupsBalanced(es)
    requires forall i | 0 <= i < |es| :: es[i].groupId != e.groupId
    ensures GroupsBalanced(es + [e]) <==> Amount(e.debit) == Amount(e.credit)
  {
    forall h ensures DebitSum(es + [e], h) == DebitSum(es, h) + (if e.groupId == h then Amount(e.debit) else 0.0)
      && CreditSum(es + [e], h) == CreditSum(es, h) + (if e.groupId == h then Amount(e.credit) else 0.0)
    {
      EntrySumsAppend(es, e, h);
    }
    FreshGroupEmpty(es, e.groupId);
    if GroupsBalanced(es + [e]) {
      assert DebitSum(es + [e], e.groupId) == CreditSum(es + [e], e.groupId);
    }
  }
}
