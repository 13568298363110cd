/** Recording a purchase: the purchase row, a new stock lot holding the whole quantity, the
    inventory counter raised (or created), an inbound movement, and a debit of the inventory
    account against a credit of the payment account, all in one transaction. */
module Purchases {
  import opened Wrappers
  import opened Schema
  import opened Ledger

  datatype PurchasePayload = PurchasePayload(
    itemCode: string, costPerUnit: real, totalCost: Option<real>, purchaseDate: int,
    supplier: Option<string>, quantity: real, createdBy: Option<int>,
    inventoryAccountId: int, paymentAccountId: int)

  function PurchaseRow(p: PurchasePayload): Purchase {
    Purchase(p.itemCode, p.costPerUnit, p.totalCost, p.quantity, p.purchaseDate, p.supplier, p.createdBy)
  }

  /** The lot a purchase opens: all of it received, all of it remaining. */
  function ReceiptLot(p: PurchasePayload, lotId: int, purchaseId: int): Lot {
    Lot(lotId, Some(purchaseId), p.itemCode, p.quantity, p.quantity, p.costPerUnit, p.purchaseDate)
  }

  /** The inventory counters after `q` more of `code` arrived: an existing counter is
      raised, a missing one is created holding `q`. */
  function Restocked(inventory: map<string, real>, code: string, q: real): (r: map<string, real>)
    ensures r.Keys == inventory.Keys + {code}
    ensures r[code] == (if code in inventory then inventory[code] else 0.0) + q
    ensures forall c | c in inventory && c != code :: r[c] == inventory[c]
  {
    if code in inventory then inventory[code := inventory[code] + q] else inventory[code := q]
  }

  function PurchaseEntries(p: PurchasePayload, g: int, purchaseId: int): seq<Entry> {
    [ DebitEntry(p.inventoryAccountId, p.totalCost, g, "purchases", purchaseId),
      CreditEntry(p.paymentAccountId, p.totalCost, g, "purchases", purchaseId) ]
  }

  /** The two balance updates of a purchase, in order: the inventory account on its debit
      side, then the payment account on its credit side. */
  function PurchaseBalances(accounts: map<int, Account>, p: PurchasePayload): (r: Result<map<int, Account>, Status>)
    ensures r.Err? <==> p.inventoryAccountId !in accounts || p.paymentAccountId !in accounts
    ensures r.Err? ==> r.error == BadRequest
  {
    PairUpdated(accounts, p.inventoryAccountId, p.paymentAccountId, p.totalCost)
  }


  /** What `create_purchase` commits, from tables `t` with the id sequence at `next`: the
      purchase takes id `next`, its lot `next + 1` and its ledger group `next + 2`. A missing
      account fails the transaction and nothing is committed. */
  function PurchaseOutcome(t: Tables, next: int, p: PurchasePayload): (o: (Result<int, Status>, Tables))
    ensures o.0.Err? <==> p.inventoryAccountId !in t.accounts || p.paymentAccountId !in t.accounts
    ensures o.0.Err? ==> o.0.error == BadRequest && o.1 == t
    ensures o.0.Ok? ==> o.0.value == next && o.1.purchases == t.purchases[next := PurchaseRow(p)]
  {
    var b := PurchaseBalances(t.accounts, p);
    if b.Err? then (Err(b.error), t)
    else (Ok(next), Purchased(t, next, p, b.value))
  }

  /** The tables of a committed purchase, the account balances already updated to
      `accounts`. */
  function Purchased(t: Tables, next: int, p: PurchasePayload, accounts: map<int, Account>): Tables {
    t.(purchases := t.purchases[next := PurchaseRow(p)],
       lots := t.lots + [ReceiptLot(p, next + 1, next)],
       inventory := Restocked(t.inventory, p.itemCode, p.quantity),
       movements := t.movements + [Movement(p.itemCode, PurchaseIn, p.quantity, Some(next))],
       entries := t.entries + PurchaseEntries(p, next + 2, next),
       accounts := accounts)
  }

  /** A committed purchase keeps every business invariant, provided the quantity is not
      negative (a negative quantity would open a lot below zero), and keeps every id below
      the advanced sequence. */
  lemma PurchaseKeepsInvariants(t: Tables, next: int, p: PurchasePayload)
    requires IdsBelow(t, next) && Consistent(t)
    requires p.quantity >= 0.0
    ensures var o := PurchaseOutcome(t, next, p);
            Consistent(o.1) && IdsBelow(o.1, next + 3)
  {
    var b := PurchaseBalances(t.accounts, p);
    if b.Ok? {
      assert b.value.Keys == t.accounts.Keys by {
        var u := ApplyBalanceUpdate(t.accounts, p.inventoryAccountId, p.totalCost, true);
      }
      PurchasedKeepsStock(t, next, p, b.value);
      PurchasedKeepsIds(t, next, p, b.value);
      PostingPairKeepsBalance(t.entries, PurchaseEntries(p, next + 2, next)[0], PurchaseEntries(p, next + 2, next)[1], next + 2, p.totalCost);
      assert PurchaseEntries(p, next + 2, next) == [PurchaseEntries(p, next + 2, next)[0], PurchaseEntries(p, next + 2, next)[1]];
    }
  }

  /** A purchase of a non-negative quantity keeps every lot within bounds and both
      inventory counters in step: the new lot, the raised counter and the inbound movement
      all carry the same quantity. */
  lemma PurchasedKeepsStock(t: Tables, next: int, p: PurchasePayload, accounts: map<int, Account>)
    requires LotsWithinBounds(t.lots) && InventoryMatchesLots(t) && InventoryTracksMovements(t)
    requires p.quantity >= 0.0
    ensures var t' := Purchased(t, next, p, accounts);
            LotsWithinBounds(t'.lots) && InventoryMatchesLots(t') && InventoryTracksMovements(t')
  {
    var t' := Purchased(t, next, p, accounts);
    var lot := ReceiptLot(p, next + 1, next);
    assert forall c :: OnHand(t', c) == OnHand(t, c) + (if c == p.itemCode then p.quantity else 0.0);
    forall c ensures LotStock(t'.lots, c) == LotStock(t.lots, c) + (if c == p.itemCode then p.quantity else 0.0) {
      LotStockAppend(t.lots, lot, c);
    }
    CounterFollowsLots(t, t', p.itemCode, p.quantity);
    CounterMoved(t, t', Movement(p.itemCode, PurchaseIn, p.quantity, Some(next)));
  }

  /** The purchase, its lot and its ledger group take the next three ids, so every id stays
      below the advanced sequence and lot ids keep increasing. */
  lemma PurchasedKeepsIds(t: Tables, next: int, p: PurchasePayload, accounts: map<int, Account>)
    requires IdsBelow(t, next) && accounts.Keys == t.accounts.Keys
    ensures IdsBelow(Purchased(t, next, p, accounts), next + 3)
  {
    var t' := Purchased(t, next, p, accounts);
    assert forall i | 0 <= i < |t'.entries| :: t'.entries[i].groupId < next + 3 by {
      forall i | 0 <= i < |t'.entries| ensures t'.entries[i].groupId < next + 3 {
        if i < |t.entries| { assert t'.entries[i] == t.entries[i]; }
      }
    }
    assert forall i | 0 <= i < |t'.lots| :: t'.lots[i].lotId < next + 3 by {
      forall i | 0 <= i < |t'.lots| ensures t'.lots[i].lotId < next + 3 {
        if i < |t.lots| { assert t'.lots[i] == t.lots[i]; }
      }
    }
    assert LotIdsIncreasing(t'.lots) by {
      forall i, j | 0 <= i < j < |t'.lots| ensures t'.lots[i].lotId < t'.lots[j].lotId {
        if j == |t.lots| { assert t'.lots[i] == t.lots[i]; }
      }
    }
  }

  /** Every balance a committed purchase changes moves by exactly the signed effect of the
      two entries it posts. */
  lemma PurchaseBalancesFollowEntries(t: Tables, next: int, p: PurchasePayload)
    requires PurchaseOutcome(t, next, p).0.Ok?
    ensures BalancesFollowEntries(t.accounts, PurchaseOutcome(t, next, p).1.accounts, PurchaseEntries(p, next + 2, next))
  {
    PairUpdatedFollowsEntries(t.accounts, p.inventoryAccountId, p.paymentAccountId, p.totalCost, next + 2, "purchases", next);
  }


  // ---------------------------------------------------------------------------
  // The handler, step by step inside one transaction

  method InsertPurchase(db: Db, p: PurchasePayload) returns (id: int)
    modifies db
    ensures id == old(db.nextId) && db.nextId == id + 1
    ensures db.tables == old(db.tables).(purchases := old(db.tables.purchases)[id := PurchaseRow(p)])
  {
    id := db.NewId();
    db.tables := db.tables.(purchases := db.tables.purchases[id := PurchaseRow(p)]);
  }

  method InsertStockReceipt(db: Db, p: PurchasePayload, purchaseId: int)
    modifies db
    ensures db.nextId == old(db.nextId) + 1
    ensures db.tables == old(db.tables).(lots := old(db.tables.lots) + [ReceiptLot(p, old(db.nextId), purchaseId)])
  {
    var lotId := db.NewId();
    db.tables := db.tables.(lots := db.tables.lots + [ReceiptLot(p, lotId, purchaseId)]);
  }

  method UpsertInventory(db: Db, p: PurchasePayload)
    modifies db
    ensures db.nextId == old(db.nextId)
    ensures db.tables == old(db.tables).(inventory := Restocked(old(db.tables.inventory), p.itemCode, p.quantity))
  {
    if p.itemCode in db.tables.inventory {
      var current := db.tables.inventory[p.itemCode];
      db.tables := db.tables.(inventory := db.tables.inventory[p.itemCode := current + p.quantity]);
    } else {
      db.tables := db.tables.(inventory := db.tables.inventory[p.itemCode := p.quantity]);
    }
  }

  method InsertInventoryMovement(db: Db, p: PurchasePayload, purchaseId: int)
    modifies db
    ensures db.nextId == old(db.nextId)
    ensures db.tables == old(db.tables).(movements := old(db.tables.movements)
              + [Movement(p.itemCode, PurchaseIn, p.quantity, Some(purchaseId))])
  {
    db.tables := db.tables.(movements := db.tables.movements + [Movement(p.itemCode, PurchaseIn, p.quantity, Some(purchaseId))]);
  }

  /** Posts the debit and credit entries, then updates the two balances; an unknown account
      stops it with `BadRequest`, leaving whatever it wrote for the caller to roll back. */
  method InsertLedgerEntries(db: Db, p: PurchasePayload, purchaseId: int) returns (r: Result<(), Status>)
    modifies db
    ensures db.nextId == old(db.nextId) + 1
    ensures var b := PurchaseBalances(old(db.tables.accounts), p);
            && (r.Err? <==> b.Err?)
            && (r.Err? ==> r.error == b.error)
            && (r.Ok? ==> db.tables == old(db.tables).(
                  entries := old(db.tables.entries) + PurchaseEntries(p, old(db.nextId), purchaseId),
                  accounts := b.value))
  {
    var g := db.NewId();
    db.tables := db.tables.(entries := db.tables.entries + [DebitEntry(p.inventoryAccountId, p.totalCost, g, "purchases", purchaseId)]);
    db.tables := db.tables.(entries := db.tables.entries + [CreditEntry(p.paymentAccountId, p.totalCost, g, "purchases", purchaseId)]);
    r := UpdateAccountBalance(db, p.inventoryAccountId, p.totalCost, true);
    if r.Err? {
      return;
    }
    r := UpdateAccountBalance(db, p.paymentAccountId, p.totalCost, false);
  }

  /** `create_purchase`: the steps in order; any failure drops the transaction, which puts
      every table back. Ids drawn from the sequence stay used. */
  method CreatePurchase(db: Db, p: PurchasePayload) returns (r: Result<int, Status>)
    modifies db
    ensures (r, db.tables) == PurchaseOutcome(old(db.tables), old(db.nextId), p)
    ensures db.nextId == old(db.nextId) + 3
  {
    var saved := db.tables;
    var purchaseId := InsertPurchase(db, p);
    InsertStockReceipt(db, p, purchaseId);
    UpsertInventory(db, p);
    InsertInventoryMovement(db, p, purchaseId);
    var posted := InsertLedgerEntries(db, p, purchaseId);
    if posted.Err? {
      db.tables := saved;
      return Err(posted.error);
    }
    r := Ok(purchaseId);
  }
}
