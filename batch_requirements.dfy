/** Deciding a batch requirement. Declining only marks it. Approving marks it accepted,
    records an allocation, lowers the item's inventory counter, logs the outbound movement,
    draws the quantity from the item's lots oldest first (an allocation line per lot), values
    the allocation at the lots' unit costs, and posts that value from the category's inventory
    account to the farm expense account, all in one transaction. */
module BatchRequirements {
  import opened Wrappers
  import opened Schema
  import opened LotAllocation
  import opened Ledger
  import opened Allocations

  datatype ApprovePayload = ApprovePayload(requirementId: int, allocatedQty: real, allocatedBy: int)

  /** Why an approval fails; each one rolls the whole transaction back. */
  datatype ApproveError =
    | RequirementMissing
    | NoInventoryRow
    | NotEnoughStock
    | Shortage(left: real)
    | ItemMissing

  // ---------------------------------------------------------------------------
  // Declining

  /** What declining commits: the requirement's status, or `NotFound` and nothing. */
  function DeclineOutcome(t: Tables, id: int): (o: (Result<(), Status>, Tables))
    ensures o.0.Err? <==> id !in t.requirements
    ensures o.0.Err? ==> o.0.error == NotFound && o.1 == t
    ensures o.0.Ok? ==> o.1.requirements.Keys == t.requirements.Keys && o.1.requirements[id].status == Decline
  {
    if id !in t.requirements then (Err(NotFound), t)
    else (Ok(()), t.(requirements := t.requirements[id := t.requirements[id].(status := Decline)]))
  }

  /** Declining changes nothing but the one requirement's status, and declining twice is
      declining once. */
  lemma DeclineOnlyMarks(t: Tables, id: int)
    requires id in t.requirements
    ensures var t' := DeclineOutcome(t, id).1;
            && t'.requirements[id] == t.requirements[id].(status := Decline)
            && (forall k | k in t.requirements && k != id :: t'.requirements[k] == t.requirements[k])
            && t'.(requirements := t.requirements) == t
            && DeclineOutcome(t', id) == (Ok(()), t')
  {
    var t' := DeclineOutcome(t, id).1;
    assert t'.requirements[id := t'.requirements[id].(status := Decline)] == t'.requirements;
  }

  method DeclineBatchRequirement(db: Db, id: int) returns (r: Result<(), Status>)
    modifies db
    ensures (r, db.tables) == DeclineOutcome(old(db.tables), id)
    ensures db.nextId == old(db.nextId)
  {
    if id !in db.tables.requirements {
      return Err(NotFound);
    }
    var requirement := db.tables.requirements[id];
    db.tables := db.tables.(requirements := db.tables.requirements[id := requirement.(status := Decline)]);
    r := Ok(());
  }

  // ---------------------------------------------------------------------------
  // Approving, as a specification

  /** What approval commits, from tables `t` with the id sequence at `next`: the allocation
      takes id `next` and the ledger group `next + 1`. Any failure commits nothing. */
  function ApproveOutcome(t: Tables, next: int, p: ApprovePayload): (o: (Result<int, ApproveError>, Tables))
    ensures o.0.Err? ==> o.1 == t
    ensures o.0.Ok? ==> o.0.value == next
  {
    if p.requirementId !in t.requirements then (Err(RequirementMissing), t)
    else
      var requirement := t.requirements[p.requirementId];
      var code := requirement.itemCode;
      if code !in t.inventory then (Err(NoInventoryRow), t)
      else if t.inventory[code] < p.allocatedQty then (Err(NotEnoughStock), t)
      else
        var w := Fifo(Candidates(t.lots, code), p.allocatedQty);
        if w.left > 0.0 then (Err(Shortage(w.left)), t)
        else if code !in t.items then (Err(ItemMissing), t)
        else (Ok(next), Approved(t, next, p, w))
  }

  /** The tables once the requirement is accepted, the allocation recorded under id `next`
      at zero value, the counter lowered and the outbound movement logged. */
  function Reserved(t: Tables, next: int, p: ApprovePayload): (t': Tables)
    requires p.requirementId in t.requirements
    requires t.requirements[p.requirementId].itemCode in t.inventory
    ensures next in t'.allocations
    ensures t'.requirements.Keys == t.requirements.Keys
    ensures t'.requirements[p.requirementId].status == Accept
    ensures forall k | k in t.requirements && k != p.requirementId :: t'.requirements[k] == t.requirements[k]
  {
    var requirement := t.requirements[p.requirementId];
    var code := requirement.itemCode;
    t.(requirements := t.requirements[p.requirementId := requirement.(status := Accept)],
       allocations := t.allocations[next := Allocation(Some(p.requirementId), p.allocatedQty, p.allocatedBy, 0.0)],
       inventory := t.inventory[code := t.inventory[code] - p.allocatedQty],
       movements := t.movements + [Movement(code, AllocationOut, -p.allocatedQty, Some(next))])
  }

  /** The tables an approval commits once every check has passed and the walk `w` over the
      item's lots is known: reserved, walked, then posted under group `next + 1`. */
  function Approved(t: Tables, next: int, p: ApprovePayload, w: Walk): Tables
    requires p.requirementId in t.requirements
    requires t.requirements[p.requirementId].itemCode in t.inventory
    requires t.requirements[p.requirementId].itemCode in t.items
  {
    var code := t.requirements[p.requirementId].itemCode;
    var asset := InventoryAccountFor(t.items[code].category);
    WalkedAndPosted(Reserved(t, next, p), next, w, asset, next + 1, "allocations", next)
  }

  /** A committed approval keeps the lots within bounds, the counters in step with the
      movement log, every allocation's value equal to its lines and every ledger group
      balanced, and keeps all ids below the advanced sequence. The counter keeps matching
      the lots only for a quantity that is not negative: a negative one raises the counter
      and touches no lot. */
  lemma ApproveKeepsInvariants(t: Tables, next: int, p: ApprovePayload)
    requires IdsBelow(t, next) && Consistent(t)
    ensures var t' := ApproveOutcome(t, next, p).1;
            && IdsBelow(t', next + 2)
            && LotsWithinBounds(t'.lots)
            && InventoryTracksMovements(t')
            && AllocationValuesMatchLines(t')
            && GroupsBalanced(t'.entries)
            && (p.allocatedQty >= 0.0 ==> InventoryMatchesLots(t'))
  {
    if ApproveOutcome(t, next, p).0.Ok? {
      var w := ApproveCommitted(t, next, p);
      ApprovedKeepsInvariants(t, next, p, w);
      ApprovedKeepsIds(t, next, p, w);
    }
  }

  /** The same, for the staged approval with a walk that covered the need: the reservation
      is the shared one, so the shared invariants apply. */
  lemma ApprovedKeepsInvariants(t: Tables, next: int, p: ApprovePayload, w: Walk)
    requires IdsBelow(t, next) && Consistent(t)
    requires p.requirementId in t.requirements
    requires t.requirements[p.requirementId].itemCode in t.inventory
    requires t.requirements[p.requirementId].itemCode in t.items
    requires ApprovedWalk(t, p, w)
    ensures var t' := Approved(t, next, p, w);
            && LotsWithinBounds(t'.lots)
            && InventoryTracksMovements(t')
            && AllocationValuesMatchLines(t')
            && GroupsBalanced(t'.entries)
            && (p.allocatedQty >= 0.0 ==> InventoryMatchesLots(t'))
  {
    var code := t.requirements[p.requirementId].itemCode;
    var m := ReservedFromRequirement(t, next, p);
    IncreasingIdsDistinct(t.lots);
    FifoTakesFromLots(t.lots, code, p.allocatedQty);
    if p.allocatedQty >= 0.0 {
      CoveredWalkQuantity(t.lots, code, p.allocatedQty);
    }
    PostedKeepsInvariants(t, Reserved(t, next, p), next, code, p.allocatedQty, m, w,
      InventoryAccountFor(t.items[code].category), next + 1, "allocations", next);
  }

  /** Approval reserves in the shared way: the allocation takes id `next`, which no table
      uses yet, and the outbound movement references the allocation. */
  lemma ReservedFromRequirement(t: Tables, next: int, p: ApprovePayload) returns (m: Movement)
    requires IdsBelow(t, next)
    requires p.requirementId in t.requirements
    requires t.requirements[p.requirementId].itemCode in t.inventory
    ensures var code := t.requirements[p.requirementId].itemCode;
            && ReservedFrom(t, Reserved(t, next, p), next, code, p.allocatedQty, m)
            && m == Movement(code, AllocationOut, -p.allocatedQty, Some(next))
            && forall i | 0 <= i < |t.allocationLines| :: t.allocationLines[i].allocationId != next
  {
    var code := t.requirements[p.requirementId].itemCode;
    m := Movement(code, AllocationOut, -p.allocatedQty, Some(next));
    var r := Reserved(t, next, p);
    assert r.allocations == t.allocations[next := r.allocations[next]];
  }

  /** The allocation and the ledger group take the next two ids. */
  lemma ApprovedKeepsIds(t: Tables, next: int, p: ApprovePayload, w: Walk)
    requires IdsBelow(t, next)
    requires p.requirementId in t.requirements
    requires t.requirements[p.requirementId].itemCode in t.inventory
    requires t.requirements[p.requirementId].itemCode in t.items
    ensures IdsBelow(Approved(t, next, p, w), next + 2)
  {
    var code := t.requirements[p.requirementId].itemCode;
    ReservedIdsBelow(t, next, p);
    PostedIdsBelow(Reserved(t, next, p), next, w, InventoryAccountFor(t.items[code].category), next + 1, "allocations", next, next + 2);
  }

  lemma ReservedIdsBelow(t: Tables, next: int, p: ApprovePayload)
    requires IdsBelow(t, next)
    requires p.requirementId in t.requirements
    requires t.requirements[p.requirementId].itemCode in t.inventory
    ensures IdsBelow(Reserved(t, next, p), next + 2)
  {
    IdsBelowMonotone(t, next, next + 2);
  }

  /** A committed approval passed every check, and what it commits is the staged
      approval with the walk over the item's lots. */
  lemma ApproveCommitted(t: Tables, next: int, p: ApprovePayload) returns (w: Walk)
    requires ApproveOutcome(t, next, p).0.Ok?
    ensures p.requirementId in t.requirements
    ensures var code := t.requirements[p.requirementId].itemCode;
            && code in t.inventory && code in t.items
            && t.inventory[code] >= p.allocatedQty
            && ApprovedWalk(t, p, w)
            && ApproveOutcome(t, next, p).1 == Approved(t, next, p, w)
  {
    w := Fifo(Candidates(t.lots, t.requirements[p.requirementId].itemCode), p.allocatedQty);
  }

  /** An approval that passes every check commits: the requirement exists, its item has
      a counter that covers the quantity and an item row, and the walk over the item's lots
      comes up with no shortage. What it commits is the staged approval, with the
      requirement accepted. */
  lemma ApproveSucceeds(t: Tables, next: int, p: ApprovePayload)
    requires p.requirementId in t.requirements
    requires var code := t.requirements[p.requirementId].itemCode;
             && code in t.inventory && code in t.items
             && t.inventory[code] >= p.allocatedQty
             && Fifo(Candidates(t.lots, code), p.allocatedQty).left <= 0.0
    ensures var code := t.requirements[p.requirementId].itemCode;
            var o := ApproveOutcome(t, next, p);
            && o.0 == Ok(next)
            && o.1 == Approved(t, next, p, Fifo(Candidates(t.lots, code), p.allocatedQty))
            && o.1.requirements.Keys == t.requirements.Keys
            && o.1.requirements[p.requirementId].status == Accept
  {
    var code := t.requirements[p.requirementId].itemCode;
    var w := Fifo(Candidates(t.lots, code), p.allocatedQty);
    PostedShape(Reserved(t, next, p), next, w, InventoryAccountFor(t.items[code].category), next + 1, "allocations", next);
  }

  /** Under the invariants, an approval of a quantity that is not negative commits exactly
      when the requirement exists and its item has an item row and a counter that covers
      the quantity. */
  lemma ApproveSucceedsIff(t: Tables, next: int, p: ApprovePayload)
    requires Consistent(t) && p.allocatedQty >= 0.0
    ensures ApproveOutcome(t, next, p).0.Ok?
            <==> && p.requirementId in t.requirements
                 && var code := t.requirements[p.requirementId].itemCode;
                    code in t.inventory && code in t.items && t.inventory[code] >= p.allocatedQty
  {
    if p.requirementId in t.requirements {
      var code := t.requirements[p.requirementId].itemCode;
      if code in t.inventory && t.inventory[code] >= p.allocatedQty {
        FifoShortageOfLots(t.lots, code, p.allocatedQty);
      }
    }
  }

  /** The approval's preconditions on the walk: it is the walk over the item's lots, and
      it came up with no shortage. */
  ghost predicate ApprovedWalk(t: Tables, p: ApprovePayload, w: Walk)
    requires p.requirementId in t.requirements
  {
    && w == Fifo(Candidates(t.lots, t.requirements[p.requirementId].itemCode), p.allocatedQty)
    && w.left <= 0.0
  }

  /** Under the invariants a quantity that passes the stock check is always covered by the
      lots, so the shortage failure cannot happen. */
  lemma ApproveNeverShort(t: Tables, next: int, p: ApprovePayload)
    requires Consistent(t)
    requires p.allocatedQty >= 0.0
    ensures var r := ApproveOutcome(t, next, p).0;
            !(r.Err? && r.error.Shortage?)
  {
    if p.requirementId in t.requirements {
      var code := t.requirements[p.requirementId].itemCode;
      if code in t.inventory && t.inventory[code] >= p.allocatedQty {
        FifoShortageOfLots(t.lots, code, p.allocatedQty);
      }
    }
  }

  /** On the standard chart of accounts, each balance a committed approval changes moves by
      exactly the signed effect of the two entries it posts. */
  lemma ApproveBalancesFollowEntries(t: Tables, next: int, p: ApprovePayload)
    requires StandardChart(t.accounts)
    requires ApproveOutcome(t, next, p).0.Ok?
    ensures var t' := ApproveOutcome(t, next, p).1;
            BalancesFollowEntries(t.accounts, t'.accounts, t'.entries[|t.entries|..])
  {
    var code := t.requirements[p.requirementId].itemCode;
    var w := Fifo(Candidates(t.lots, code), p.allocatedQty);
    var c := t.items[code].category;
    var t' := ApproveOutcome(t, next, p).1;
    var es := AllocationEntries(InventoryAccountFor(c), FarmExpenseAccount, Value(w.takes), next + 1, "allocations", next);
    assert t'.entries[|t.entries|..] == es;
    AllocationBalancesFollowEntries(t.accounts, c, Value(w.takes), next + 1, "allocations", next);
  }

  // ---------------------------------------------------------------------------
  // Approving, step by step inside one transaction

  /** The body of the approval transaction. On success the tables are what
      `ApproveOutcome` commits; on failure it reports the same error, leaving whatever it
      wrote for the caller to roll back. */
  method ApproveAndAllocate(db: Db, p: ApprovePayload) returns (r: Result<int, ApproveError>)
    modifies db
    ensures var o := ApproveOutcome(old(db.tables), old(db.nextId), p);
            r == o.0 && (r.Ok? ==> db.tables == o.1)
    ensures db.nextId >= old(db.nextId)
  {
    if p.requirementId !in db.tables.requirements {
      return Err(RequirementMissing);
    }
    var code := db.tables.requirements[p.requirementId].itemCode;
    var a, reserved := Reserve(db, p);
    if reserved.Err? {
      return Err(reserved.error);
    }
    var total, left := AllocateAndValue(db, a, code, p.allocatedQty);
    if left > 0.0 {
      return Err(Shortage(left));
    }
    if code !in db.tables.items {
      return Err(ItemMissing);
    }
    var asset := InventoryAccountFor(db.tables.items[code].category);
    var g := PostAllocation(db, asset, FarmExpenseAccount, total, "allocations", a);
    r := Ok(a);
  }

  /** The requirement marked accepted and the allocation recorded at zero value; then the
      stock check, the counter lowered and the outbound movement logged. */
  method Reserve(db: Db, p: ApprovePayload) returns (a: int, r: Result<(), ApproveError>)
    requires p.requirementId in db.tables.requirements
    modifies db
    ensures a == old(db.nextId) && db.nextId == a + 1
    ensures var code := old(db.tables.requirements[p.requirementId].itemCode);
            && (r.Err? <==> code !in old(db.tables.inventory) || old(db.tables.inventory[code]) < p.allocatedQty)
            && (r.Err? ==> r.error == (if code !in old(db.tables.inventory) then NoInventoryRow else NotEnoughStock))
            && (r.Ok? ==> db.tables == Reserved(old(db.tables), a, p))
  {
    var requirement := db.tables.requirements[p.requirementId];
    var code := requirement.itemCode;
    db.tables := db.tables.(requirements := db.tables.requirements[p.requirementId := requirement.(status := Accept)]);
    a := db.NewId();
    db.tables := db.tables.(allocations := db.tables.allocations[a := Allocation(Some(p.requirementId), p.allocatedQty, p.allocatedBy, 0.0)]);
    if code !in db.tables.inventory {
      return a, Err(NoInventoryRow);
    }
    var current := db.tables.inventory[code];
    if current < p.allocatedQty {
      return a, Err(NotEnoughStock);
    }
    db.tables := db.tables.(inventory := db.tables.inventory[code := current - p.allocatedQty]);
    db.tables := db.tables.(movements := db.tables.movements + [Movement(code, AllocationOut, -p.allocatedQty, Some(a))]);
    r := Ok(());
  }

  /** The approval handler: runs the transaction and rolls it back on any failure, which
      it reports as an internal server error. */
  method ApproveBatchRequirement(db: Db, p: ApprovePayload) returns (r: Result<int, Status>)
    modifies db
    ensures var o := ApproveOutcome(old(db.tables), old(db.nextId), p);
            && db.tables == o.1
            && (r.Ok? <==> o.0.Ok?)
            && (r.Ok? ==> r.value == o.0.value)
            && (r.Err? ==> r.error == InternalServerError)
    ensures db.nextId >= old(db.nextId)
  {
    var saved := db.tables;
    var result := ApproveAndAllocate(db, p);
    if result.Err? {
      db.tables := saved;
      return Err(InternalServerError);
    }
    r := Ok(result.value);
  }
}
