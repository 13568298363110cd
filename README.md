# rjagro stock allocation and ledger posting, in Dafny

This project models the core of the rjagro poultry-farm backend and two of its frontend helpers.

The backend part has three pieces:
- The allocation engine. Approving a batch requirement, or opening a batch of chicks, reserves stock from the item's inventory counter. It logs an outbound movement and walks the item's stock lots oldest first. Each lot gives the smaller of what it holds and what is still needed, and each take writes an allocation line. The allocation is valued at the lots' unit costs, and that value is posted from the item's inventory account to farm expense as a balanced ledger pair.
- Purchases. A purchase opens a lot and raises the counter. It logs an inbound movement and posts a debit/credit pair. The sign convention of `update_account_balance` lives here.
- The smaller handlers:
  - batch requirements;
  - bird counts;
  - ledger accounts;
  - farmer commissions;
  - batch closure;
  - manual ledger entries;
  - batch sales, with their update of the closure summary.

The frontend part covers two helpers:
- the table sorting utilities: the comparator, the sort, the three-state header toggle and its icon;
- the dashboard's table logic: primary-key detection, filtering, paging, the page-number window, and editing a row.

The database is one object, `Schema.Db`. Its field `tables` holds a value with one component per table, and its field `nextId` is the id sequence.

Each handler is a method on `Db`. It is proved against a function `…Outcome(tables, nextId, payload)` that gives the result and the committed tables. Every failure path commits the tables as they were, which is the transaction rollback. Ids drawn before a failure stay drawn, as database sequences do.

Lemmas about the outcome functions prove three kinds of property:
- the business invariants each handler keeps (`Schema.Consistent`):
  - lots within bounds;
  - counters equal to the lots' stock and to the movement log;
  - allocation values equal to their lines;
  - every ledger group balanced;
- that balances move exactly by the signed effect of the posted entries;
- the FIFO walk's conservation, bounds and shortage laws.

Decimal columns are modelled as exact `real`s. `to_i32` is truncation toward zero, failing outside the 32-bit range (`Decimals.ToI32`).

Modules:
- `Wrappers`, `Sequences`, `Text`, `Decimals`: the support for the rest.
- `Schema`: the tables and the invariants.
- `Ledger`: the sign convention and postings.
- `LotAllocation`: the walk.
- `Allocations`: what approval and batch creation share.
- `BatchRequirements`, `Batches`, `Purchases`, `Inserts`, `BatchSales`: the handlers.
- `TableSorting` and `Dashboard`: the frontend.

## Model

| member | source | states |
|---|---|---|
| Decimals.ToI32 | src/handlers/batches.rs:78-80 | `to_i32` of a decimal: the value truncated toward zero when that fits in 32 bits, nothing otherwise |
| Ledger.InventoryAccountFor | src/handlers/batch_requirements.rs:256-260 | medicine stock is held in account 102, feed in 103 and chicks in 104 |
| Ledger.InventoryAccountInjective | src/handlers/batch_requirements.rs:256-260 | distinct categories map to distinct inventory accounts, and only equal ones share one |
| Ledger.BalanceDelta | src/handlers/purchases.rs:225-242 | posting an amount moves a balance by exactly plus or minus that amount |
| Ledger.BalanceDeltaSigns | src/handlers/purchases.rs:225-242 | a positive posting raises the balance iff it is on the account's normal side (debit for Asset/Expense, credit for the others), and a debit and a credit of one amount cancel |
| Ledger.ManualDelta | src/handlers/inserts.rs:458-465 | a manual entry's delta (debit minus credit on Asset/Expense, credit minus debit otherwise) is the sum of the sign convention applied to its debit and to its credit |
| Ledger.Adjusted | src/handlers/batch_requirements.rs:312-380 | a balance adjustment changes only the named account's balance, by the delta, and is skipped when the account is missing |
| Ledger.ApplyBalanceUpdate | src/handlers/purchases.rs:206-255 | an unknown account is BAD_REQUEST; otherwise only that account's balance changes, by the signed amount, with a missing amount counted as zero |
| Ledger.UpdateAccountBalance | src/handlers/purchases.rs:206-255 | the handler writes exactly what `ApplyBalanceUpdate` gives, and nothing on failure |
| Ledger.PairUpdated | src/handlers/purchases.rs:199-201 | a debit update followed by a credit update of one amount fails with BAD_REQUEST iff either account is missing, and never adds or drops an account |
| Ledger.PairUpdatedFollowsEntries | src/handlers/purchases.rs:142-203 | after a debit/credit pair of updates, every account's balance has moved by exactly the signed effect of the two entries posted |
| Ledger.PostingEntriesPair | src/handlers/purchases.rs:148-192 | the debit and credit rows of a posting share a group and an amount, so they form a balanced pair |
| Ledger.AllocationBalancesFollowEntries | src/handlers/batch_requirements.rs:262-380 | on the standard chart, the hard-coded "asset minus, expense plus" updates equal the signed effect of the two posted entries on every account |
| Ledger.PostAllocation | src/handlers/batch_requirements.rs:262-380 | credits the inventory account and debits farm expense under a fresh group, then adjusts both balances, skipping a missing account row |
| Ledger.SingleEntryBalancedIff | src/handlers/inserts.rs:467-485 | a single entry in a fresh group keeps every group balanced iff its debit equals its credit |
| Schema.LotStockNonNegative | migration/src/m20250826_234204_stock_receipts.rs:23-25 | lots within bounds hold a non-negative stock per item |
| Schema.PostingPairKeepsBalance | src/handlers/purchases.rs:148-192 | appending a balanced pair in a fresh group keeps every group balanced |
| LotAllocation.Candidates | src/handlers/batch_requirements.rs:185-193 | the lots the walk visits are exactly the item's lots with stock left, ordered by received date and then lot id |
| LotAllocation.CandidatesDistinct | src/handlers/batch_requirements.rs:185-193 | the candidates never list one lot twice |
| LotAllocation.FifoInOrder | src/handlers/batch_requirements.rs:195-226 | the k-th take comes from the k-th candidate, so takes follow the oldest-first order |
| LotAllocation.FifoConserves | src/handlers/batch_requirements.rs:195-226 | quantity taken plus quantity still needed equals the quantity asked for |
| LotAllocation.FifoTakeBounds | src/handlers/batch_requirements.rs:200-218 | every take is positive and at most its lot's remaining quantity, so no lot goes negative |
| LotAllocation.FifoShortage | src/handlers/batch_requirements.rs:195-242 | the walk ends short exactly when the candidates hold less than the need, and by the difference |
| LotAllocation.CandidatesStock | src/handlers/batch_requirements.rs:185-193 | the candidates hold exactly the stock left in the item's lots |
| LotAllocation.FifoShortageOfLots | src/handlers/batch_requirements.rs:185-242 | the shortage of the walk over an item's lots is the need minus the item's lot stock, when positive |
| LotAllocation.FifoTrunc | src/handlers/batches.rs:162-206 | batch creation's walk as written, which lowers an integer need by the truncated take: it takes from at most as many lots as there are candidates |
| LotAllocation.FifoTruncInOrder | src/handlers/batches.rs:162-206 | the k-th take of the truncating walk comes from the k-th candidate |
| LotAllocation.FifoTruncTakeBounds | src/handlers/batches.rs:168-200 | every take of the truncating walk is positive and at most its lot's remaining quantity |
| LotAllocation.FifoTruncTakesFromLots | src/handlers/batches.rs:162-206 | the truncating walk takes from distinct lots of the item, each by at most what it held |
| LotAllocation.FifoTruncWholeLots | src/handlers/batches.rs:162-206 | with whole-number lots, the truncating walk is the exact walk |
| LotAllocation.FifoTruncOverdraws | src/handlers/batches.rs:205 | lots of 2.5 and 10 asked for 5: the walk as written takes 5.5 and reports no shortage |
| LotAllocation.FifoTruncFallsShort | src/handlers/batches.rs:205 | two lots of 2.5 asked for 5: they hold exactly 5, yet the walk as written ends still needing 1, while the exact walk is covered |
| LotAllocation.LinesCarryValue | src/handlers/batch_requirements.rs:203-214 | the allocation lines of a walk add up to the walk's value |
| LotAllocation.FifoTakesFromLots | src/handlers/batch_requirements.rs:185-226 | the approval walk takes from distinct lots of the item, each by at most what it held |
| LotAllocation.DrawKeepsLots | src/handlers/batch_requirements.rs:216-222 | takes drawn from an item's lots keep the lots within bounds and lower that item's lot stock by exactly the quantity taken, and no other item's |
| LotAllocation.CoveredWalkQuantity | src/handlers/batch_requirements.rs:195-242 | a covered approval walk of a non-negative need takes exactly that need |
| LotAllocation.FifoKeepsLots | src/handlers/batch_requirements.rs:216-222 | the lots after the walk stay within their bounds, the item's lot stock falls by exactly what was taken, and no other item's stock changes |
| LotAllocation.ConsumeLots | src/handlers/batch_requirements.rs:195-226 | the lots loop writes the walk's lines and lot updates, and returns its value and the quantity still needed |
| LotAllocation.TakeFromLot | src/handlers/batch_requirements.rs:203-222 | one take writes a line priced at the lot's unit cost and lowers that lot by the take |
| LotAllocation.AllocateLots | src/handlers/batch_requirements.rs:185-226 | the lots query then the loop: the walk over the candidates, applied to the lots and the lines |
| LotAllocation.AllocateAndValue | src/handlers/batch_requirements.rs:185-234 | as `AllocateLots`, and the allocation's value is set to the total taken |
| Allocations.PostedKeepsInvariants | src/handlers/batch_requirements.rs:119-380 | the shared tail of both allocation paths keeps lots within bounds, the counters in step with the movements and (for a covered non-negative need) the lots, allocation values equal to their lines, and groups balanced |
| Allocations.PostedIdsBelow | src/handlers/batch_requirements.rs:119-380 | the shared tail uses no id at or above the advanced sequence |
| BatchRequirements.DeclineOutcome | src/handlers/batch_requirements.rs:25-62 | an unknown id is NOT_FOUND with nothing changed; otherwise the requirement is marked Decline, whatever its status |
| BatchRequirements.DeclineOnlyMarks | src/handlers/batch_requirements.rs:25-62 | declining changes only that requirement's status, and declining twice is declining once |
| BatchRequirements.DeclineBatchRequirement | src/handlers/batch_requirements.rs:25-62 | the handler commits what `DeclineOutcome` gives |
| BatchRequirements.ApproveOutcome | src/handlers/batch_requirements.rs:97-387 | a failure commits nothing; a success returns the new allocation's id |
| BatchRequirements.Reserved | src/handlers/batch_requirements.rs:111-177 | a reservation records the new allocation and marks the requirement Accept, leaving every other requirement as it was |
| BatchRequirements.ReservedFromRequirement | src/handlers/batch_requirements.rs:111-177 | approval reserves in the shared way, and the outbound movement it logs is AllocationOut of minus the quantity, referencing the allocation id |
| BatchRequirements.ApproveKeepsInvariants | src/handlers/batch_requirements.rs:97-387 | a committed approval keeps every invariant (the lot match only for a non-negative quantity) and every id below the sequence |
| BatchRequirements.ApproveCommitted | src/handlers/batch_requirements.rs:104-260 | a committed approval passed the requirement, inventory-row, stock, shortage and item checks, and commits the staged approval |
| BatchRequirements.ApproveSucceeds | src/handlers/batch_requirements.rs:104-387 | a request that passes the requirement, inventory-row, stock, shortage and item checks commits: it returns the allocation id and leaves the requirement Accept |
| BatchRequirements.ApproveSucceedsIff | src/handlers/batch_requirements.rs:104-387 | under the invariants, an approval of a non-negative quantity succeeds iff the requirement exists and its item has an item row and a counter covering the quantity |
| BatchRequirements.ApproveNeverShort | src/handlers/batch_requirements.rs:134-242 | under the invariants, a quantity that passes the counter check never fails for shortage |
| BatchRequirements.ApproveBalancesFollowEntries | src/handlers/batch_requirements.rs:262-380 | each balance a committed approval changes moves by exactly the signed effect of its two entries |
| BatchRequirements.Reserve | src/handlers/batch_requirements.rs:111-177 | marks the requirement Accept and inserts the allocation, then fails if there is no inventory row or too little stock, else lowers the counter and logs the movement |
| BatchRequirements.ApproveAndAllocate | src/handlers/batch_requirements.rs:97-387 | the transaction body reports the outcome's result, and on success leaves the outcome's tables |
| BatchRequirements.ApproveBatchRequirement | src/handlers/batch_requirements.rs:66-95 | the handler commits the outcome's tables and maps every failure to INTERNAL_SERVER_ERROR |
| Batches.StockCheckIff | src/handlers/batches.rs:69-85 | for non-negative values, the truncated counter suffices iff the count is at most the counter and the counter fits in 32 bits (or the count is zero) |
| Batches.Opened | src/handlers/batches.rs:87-159 | opening a batch records the allocation; the rows it adds are stated by `Batches.OpenedRecords` |
| Batches.OpenedRecords | src/handlers/batches.rs:87-133 | opening adds one batch, Open with its current count at the initial count; one Accept requirement of the chick item for the whole flock; and its allocation, not yet valued |
| Batches.BatchOutcome | src/handlers/batches.rs:50-322 | a failure commits nothing; a success returns the batch id, and has passed the chick-item, category, inventory-row and stock checks; the lots are walked by the truncating walk |
| Batches.BatchCommitted | src/handlers/batches.rs:54-222 | a committed batch passed every check, and what it commits is the staged batch with the truncating walk over the chick lots |
| Batches.BatchSucceeds | src/handlers/batches.rs:54-322 | a request that passes every check and whose truncating walk ends covered commits: the batch is Open with its current count at the initial count, and its requirement is Accept for the whole flock |
| Batches.BatchFallsShort | src/handlers/batches.rs:69-222 | with a counter of 5 and chick lots of 2.5 and 2.5, a batch of 5 passes the stock check and then fails with a shortage of 1, committing nothing |
| Batches.WholeCandidates | src/handlers/batches.rs:162-206 | over whole chick lots, the truncating walk of a 32-bit count is the exact walk |
| Batches.OpenedReserves | src/handlers/batches.rs:120-159 | batch creation reserves stock in the way approval does, with the movement referencing the batch id |
| Batches.OpenedIdsBelow | src/handlers/batches.rs:87-133 | the batch, requirement and allocation take the next three ids |
| Batches.BatchKeepsInvariants | src/handlers/batches.rs:50-322 | a committed batch keeps every invariant (the lot match for a non-negative count over whole chick lots) and every id below the sequence |
| Batches.BatchNeverShort | src/handlers/batches.rs:69-222 | under the invariants and over whole chick lots, a count that passes the stock check never fails for shortage |
| Batches.BatchDrawsExactly | src/handlers/batches.rs:162-214 | a committed batch lowers the chick lots' stock by exactly what the walk took and no other item's stock; over whole chick lots what it took is the bird count |
| Batches.BatchBalancesFollowEntries | src/handlers/batches.rs:224-319 | the 104 and 107 balances move by exactly the signed effect of the credit and debit entries |
| Batches.OpenBatch | src/handlers/batches.rs:87-159 | writes the batch, the Accept requirement, the allocation, the lowered counter and the movement |
| Batches.DrawChickLots | src/handlers/batches.rs:168-206 | the lots loop of batch creation writes the truncating walk's lines and lot updates, and returns its value and the count still needed |
| Batches.AllocateChicks | src/handlers/batches.rs:162-214 | the chick lots query, the loop, then the allocation valued at the total taken |
| Batches.CreateBatchWithTransaction | src/handlers/batches.rs:50-322 | the transaction body reports the outcome's result, and on success leaves the outcome's tables |
| Batches.CreateBatch | src/handlers/batches.rs:25-48 | the handler commits the outcome's tables and maps every failure to BAD_REQUEST; an empty chick list, a panic in the source, is reported as INTERNAL_SERVER_ERROR |
| Purchases.Restocked | src/handlers/purchases.rs:91-120 | an existing counter is raised by the quantity, a missing one is created with it, and other counters stay |
| Purchases.PurchaseBalances | src/handlers/purchases.rs:199-201 | the two balance updates fail with BAD_REQUEST iff either account is missing |
| Purchases.PurchaseOutcome | src/handlers/purchases.rs:16-45 | a missing account commits nothing; otherwise the purchase is stored under the returned id |
| Purchases.PurchaseKeepsInvariants | src/handlers/purchases.rs:16-203 | a committed purchase of a non-negative quantity keeps every invariant and every id below the sequence |
| Purchases.PurchasedKeepsStock | src/handlers/purchases.rs:68-140 | the new lot, the raised counter and the inbound movement carry the same quantity, so the counters keep matching both lots and movements |
| Purchases.PurchasedKeepsIds | src/handlers/purchases.rs:47-89 | the purchase, lot and ledger group take the next three ids, and lot ids keep increasing |
| Purchases.PurchaseBalancesFollowEntries | src/handlers/purchases.rs:142-203 | each balance moves by exactly the signed effect of the two entries posted |
| Purchases.InsertPurchase | src/handlers/purchases.rs:47-66 | stores the purchase row under a fresh id |
| Purchases.InsertStockReceipt | src/handlers/purchases.rs:68-89 | appends one lot with received and remaining quantity equal to the purchased quantity, at the purchase's unit cost and date |
| Purchases.UpsertInventory | src/handlers/purchases.rs:91-120 | writes the restocked counters |
| Purchases.InsertInventoryMovement | src/handlers/purchases.rs:122-140 | appends a Purchase movement of plus the quantity referencing the purchase |
| Purchases.InsertLedgerEntries | src/handlers/purchases.rs:142-203 | appends the debit and credit of the total cost under a fresh group, then both balance updates; fails iff an account is missing |
| Purchases.CreatePurchase | src/handlers/purchases.rs:16-45 | the handler commits what `PurchaseOutcome` gives |
| Inserts.RequirementAddedPending | src/handlers/inserts.rs:48-72 | a new batch requirement is stored Pending and nothing else changes |
| Inserts.CreateBatchRequirement | src/handlers/inserts.rs:48-72 | stores the requirement under a fresh id |
| Inserts.DefaultNotes | src/handlers/inserts.rs:175-186 | the default note ends in " on " and the date, and starts with "<n> birds added" when birds were added, else "<n> birds died" when some died, else "No change" |
| Inserts.BirdCountOutcome | src/handlers/inserts.rs:160-216 | an unknown batch is NOT_FOUND with nothing changed; otherwise the history row is stored and the count becomes the old count (or 0) plus additions minus deaths |
| Inserts.BirdCountsAccumulate | src/handlers/inserts.rs:201-204 | a run of bird-count records moves a batch's count by the sum of additions minus deaths |
| Inserts.CreateBirdCountHistory | src/handlers/inserts.rs:160-216 | the handler commits what `BirdCountOutcome` gives |
| Inserts.AccountNamesLowerCased | src/handlers/inserts.rs:240-255 | a stored account name has no ASCII capital letter, storing it again keeps it, and names equal up to case are stored alike |
| Inserts.CreateLedgerAccount | src/handlers/inserts.rs:240-255 | stores the lower-cased account under a fresh id |
| Inserts.CommissionOutcome | src/handlers/inserts.rs:257-376 | the commission fails iff account 106 or 101 is missing, and then commits nothing; otherwise it stores the commission and the debit-106/credit-101 pair |
| Inserts.CommissionKeepsInvariants | src/handlers/inserts.rs:257-376 | a commission keeps every invariant and every id below the sequence |
| Inserts.CommissionBalancesFollowEntries | src/handlers/inserts.rs:323-368 | 106 and 101 move by exactly the signed effect of the two entries |
| Inserts.CreateFarmerCommission | src/handlers/inserts.rs:257-376 | the handler commits what `CommissionOutcome` gives |
| Inserts.ClosureOutcome | src/handlers/inserts.rs:378-422 | an unknown batch is NOT_FOUND with nothing changed; otherwise the summary is stored and the batch marked Closed |
| Inserts.CloseClosedBatch | src/handlers/inserts.rs:410-415 | closing a batch that is already closed leaves the batches as they were |
| Inserts.CreateBatchClosureSummary | src/handlers/inserts.rs:378-422 | the handler commits what `ClosureOutcome` gives |
| Inserts.AmountsAcceptedIff | src/handlers/inserts.rs:429-437 | an entry is accepted iff neither amount is negative and not both are zero |
| Inserts.ManualEntryOutcome | src/handlers/inserts.rs:424-500 | BAD_REQUEST iff the amounts are refused; NOT_FOUND iff they are accepted but the account is missing; otherwise the entry is stored and the balance moved by `ManualDelta` |
| Inserts.ManualEntryBalanceFollowsEntry | src/handlers/inserts.rs:458-493 | the balance moves by exactly the signed effect of the stored entry |
| Inserts.ManualEntryBalancedIff | src/handlers/inserts.rs:467-485 | a manual entry keeps every ledger group balanced iff its debit equals its credit |
| Inserts.CreateLedgerEntry | src/handlers/inserts.rs:424-500 | the handler commits what `ManualEntryOutcome` gives, and draws a group id only on success |
| BatchSales.SaleBalances | src/handlers/batch_sales.rs:156-161 | the sale's balance updates fail iff cash 101 or revenue 108 is missing |
| BatchSales.SaleBalancesFollowEntries | src/handlers/batch_sales.rs:113-161 | cash and revenue both rise by the sale value, the signed effect of the debit-101/credit-108 pair |
| BatchSales.FirstClosure | src/handlers/batch_sales.rs:79-83 | finds the first closure summary of the batch, or reports there is none |
| BatchSales.Financials | src/handlers/batch_sales.rs:73-100 | no summary is a no-op; an error needs a summary |
| BatchSales.FinancialsEffect | src/handlers/batch_sales.rs:79-96 | fails iff the batch has a summary and the truncated quantity does not fit 32 bits or exceeds the birds available; otherwise revenue and gross profit rise by the value, the count falls by the truncated quantity, and no other summary changes |
| BatchSales.FinancialsKeepCountsNonNegative | src/handlers/batch_sales.rs:85-94 | an accepted sale never drives a non-negative chicken count below zero |
| BatchSales.SaleOutcome | src/handlers/batch_sales.rs:24-71 | the sale fails, with INTERNAL_SERVER_ERROR and nothing committed, iff the balances or the financials step fails |
| BatchSales.SaleKeepsInvariants | src/handlers/batch_sales.rs:24-164 | a committed sale keeps every invariant and every id below the sequence |
| BatchSales.InsertBatchSalesLedgerEntries | src/handlers/batch_sales.rs:102-164 | appends the pair under a fresh group and updates both balances; fails iff an account is missing |
| BatchSales.UpdateBatchFinancials | src/handlers/batch_sales.rs:73-100 | writes the summaries `Financials` gives, or reports its error |
| BatchSales.CreateBatchSale | src/handlers/batch_sales.rs:24-71 | the handler commits what `SaleOutcome` gives, rolling the sale back on failure |
| TableSorting.CompareValues | rjagro_frontend/app/utils/sorting.ts:22-43 | nulls are equal and sort first; two numbers compare by value; anything else by lower-cased text |
| TableSorting.CompareAntisymmetric | rjagro_frontend/app/utils/sorting.ts:22-43 | swapping the operands flips the sign of the comparison |
| TableSorting.CompareTransitive | rjagro_frontend/app/utils/sorting.ts:22-43 | in a column that does not mix numbers and strings, "not after" is transitive |
| TableSorting.MixedColumnCycles | rjagro_frontend/app/utils/sorting.ts:33-42 | with numbers and strings mixed, 9 < 10 < "5" < 9, so no order agrees with the comparator |
| TableSorting.DescendingIsReversed | rjagro_frontend/app/utils/sorting.ts:18-19 | descending puts x before y iff ascending puts y before x |
| TableSorting.SortData | rjagro_frontend/app/utils/sorting.ts:5-21 | the input as given when the key is empty or there is no direction; always a permutation of the input |
| TableSorting.SortDataSorted | rjagro_frontend/app/utils/sorting.ts:14-20 | on a column without mixed kinds, the result is in the configured order |
| TableSorting.ToggleSort | rjagro_frontend/app/utils/sorting.ts:67-81 | another column starts ascending; the active column goes asc, desc, cleared; cleared has an empty key |
| TableSorting.ToggleCycles | rjagro_frontend/app/utils/sorting.ts:67-81 | three clicks on one column go asc, desc, cleared and back to asc |
| TableSorting.GetSortIcon | rjagro_frontend/app/utils/sorting.ts:84-90 | the neutral icon iff the column is inactive; the up arrow iff it is active ascending |
| TableSorting.IconFollowsToggle | rjagro_frontend/app/utils/sorting.ts:67-90 | after a click, the column's icon shows the new direction |
| Dashboard.FirstKey | rjagro_frontend/app/dashboard/page.tsx:49-53 | the first key satisfying the test, or none when no key does |
| Dashboard.DetectPrimaryKey | rjagro_frontend/app/dashboard/page.tsx:47-54 | "id" in any case first, else the first key ending in "_id", else the first key; none only for no keys |
| Dashboard.Filtered | rjagro_frontend/app/dashboard/page.tsx:141-147 | a row is shown iff it is in the table and every non-empty filter occurs, case-insensitively, in its cell |
| Dashboard.MatchingIndicesLocate | rjagro_frontend/app/dashboard/page.tsx:141-147 | the j-th filtered row is the table's row at the j-th matching index |
| Dashboard.UnfilteredShowsAll | rjagro_frontend/app/dashboard/page.tsx:141-147 | with no non-empty filter, every row is shown in order |
| Dashboard.NarrowingFilters | rjagro_frontend/app/dashboard/page.tsx:141-147 | setting a filter that was empty can only hide rows |
| Dashboard.TotalPages | rjagro_frontend/app/dashboard/page.tsx:150 | at least one page, and exactly enough pages of `limit` rows for the filtered rows |
| Dashboard.PageRows | rjagro_frontend/app/dashboard/page.tsx:151-152 | a page holds at most `limit` rows |
| Dashboard.PageRowsAt | rjagro_frontend/app/dashboard/page.tsx:151-152 | the k-th row shown is the row at the start index plus k |
| Dashboard.EveryRowOnItsPage | rjagro_frontend/app/dashboard/page.tsx:150-152 | every row appears on a page numbered within the page count |
| Dashboard.PageWindow | rjagro_frontend/app/dashboard/page.tsx:372-382 | the window holds min(5, totalPages) consecutive page numbers |
| Dashboard.PageWindowInRange | rjagro_frontend/app/dashboard/page.tsx:372-382 | for a page in range, every number in the window is between 1 and totalPages |
| Dashboard.SavedAsWritten | rjagro_frontend/app/dashboard/page.tsx:168-178 | the save as written keeps the table's length |
| Dashboard.SaveAsWrittenEditsWrongRow | rjagro_frontend/app/dashboard/page.tsx:171-173 | with rows x and y and filter "y", editing the one shown row overwrites x |
| Dashboard.SavedCorrected | rjagro_frontend/app/dashboard/page.tsx:168-178 | the corrected save keeps the table's length |
| Dashboard.SaveEditsShownRow | rjagro_frontend/app/dashboard/page.tsx:168-178 | the corrected save writes the merged row over the row being edited, and leaves every other row alone |
| Dashboard.SaveAgreesWithoutFilters | rjagro_frontend/app/dashboard/page.tsx:168-178 | with no active filter, the corrected save is the save as written |
| Dashboard.TableView.Loaded | rjagro_frontend/app/dashboard/page.tsx:59-65 | a loaded table starts on page 1 with no filters and nothing being edited |
| Dashboard.TableView.HandleFilterChange | rjagro_frontend/app/dashboard/page.tsx:189-192 | sets the filter and returns to page 1 |
| Dashboard.TableView.HandlePageChange | rjagro_frontend/app/dashboard/page.tsx:194-197 | moves to the target page iff it is between 1 and the page count |
| Dashboard.TableView.HandleEdit | rjagro_frontend/app/dashboard/page.tsx:163-166 | marks the shown row as edited and copies its data |
| Dashboard.TableView.HandleSave | rjagro_frontend/app/dashboard/page.tsx:168-178 | writes the edit into the table as the source does (`SavedAsWritten`), then leaves edit mode; with no row being edited nothing changes |

## Left out

- HTTP routing, status serialisation, authentication and roles. Handlers return `Result` values with the status they would send.
- Timestamps (`Utc::now`, `Local::now`) and UUID group ids. A group id is drawn from the one id sequence `Db.nextId`, which is never rolled back.
- DECIMAL(12,2) rounding of stored values. Decimals are exact reals, so `line_value` and balances are not rounded to cents.
- Integer overflow of bird counts and chicken counts (`i32` in the source). These are unbounded integers here. Only the `to_i32` conversions the handlers make are modelled.
- Concurrency and isolation between transactions. Each handler is one atomic method.
- Logging (`tracing`, `eprintln!`) and the error message strings. A database error inside a step is not modelled, because the model's tables cannot fail to write. A `?` on such an error would roll back in the same way as the modelled failures. The foreign keys are not modelled either: `fk_bird_count_history_batch` (migration/src/m20250810_161418_iteration1.rs:376-381) and `fk_ledger_entries_account` (migration/src/m20250819_215006_ledger.rs:108-114) make the insert that precedes the lookup fail with a database error. In the deployed schema the unknown-batch NOT_FOUND of `Inserts.BirdCountOutcome`, the missing-account BAD_REQUEST of `Purchases.PurchaseOutcome` and the skipped missing account of `Ledger.PostAllocation` therefore cannot happen; the handler fails at the insert with the status it gives a database error (INTERNAL_SERVER_ERROR, or BAD_REQUEST in batch creation), and the transaction rolls back.
- The single-row inserts the dashboard also reaches: production lines, items, farmers, traders, suppliers, bird sales and `create_batch_allocation`. They are plain row inserts with no rule to state.
- The date branch of `compareValues`, `inferType`, `humanLabel`, and fractional JavaScript numbers (cells are integers, strings or missing).
- Rendering, data fetching, toasts and modals of the dashboard. Posting an edited row to the server is also left out.
- BatchSales.Financials: the source picks the closure summary with `find().filter(batch_id)`, which returns whichever row the database yields first. The model takes the first in table order.
- BatchSales.Financials: the `unwrap()` of a quantity that does not fit 32 bits panics in the source. The model reports it as an error, and the sale is rolled back as for any other failure.
- Dashboard.SavedAsWritten: when the index falls outside the table, JavaScript grows the array with holes. The model leaves the rows unchanged.
- TableSorting.SortDataSorted: proved only for columns that do not mix numbers and strings. For mixed columns the comparator is not a total preorder (`TableSorting.MixedColumnCycles`), and the browser's order is unspecified.
- BatchRequirements.ApproveKeepsInvariants: the counter keeps matching the lots only for a non-negative quantity. The source never checks the sign, and a negative quantity raises the counter without touching any lot.
- Batches.BatchKeepsInvariants: the lot match is proved for a non-negative bird count over whole chick lots only. With a fractional lot the truncating walk can take more than the count (`LotAllocation.FifoTruncOverdraws`), and the counter then no longer matches the lots.
- Batches.BatchNeverShort: stated over whole chick lots only. With fractional lots the source can fail for shortage although the lots cover the count (`Batches.BatchFallsShort`).
- Batches.BatchDrawsExactly: the draw equals the bird count only over whole chick lots. In general it is what the truncating walk took, which can be more than the count.
- Batches.CreateBatch: an empty chick item list makes the source panic at src/handlers/batches.rs:55, so no response is written and the dropped transaction rolls back. The model reports INTERNAL_SERVER_ERROR with nothing committed.
- Inserts.AccountNamesLowerCased: case mapping covers the ASCII letters only. Rust's `to_lowercase` also maps the other Unicode capitals.
- Inserts.CreateLedgerAccount: the stored name is lower-cased in ASCII only, for the same reason.
- TableSorting.CompareValues: text is lower-cased in ASCII only, where JavaScript's `toLowerCase` is Unicode-wide. Strings are compared by code point, where JavaScript compares UTF-16 code units; the two orders differ only above U+FFFF.
- Dashboard.Filtered: the case-insensitive match lower-cases ASCII letters only.
- Purchases.PurchaseKeepsInvariants: stated for a non-negative quantity. A negative one would open a lot below zero.
- The record types in `src/models.rs` disagree with the handlers, and the handlers' logic is what is modelled:
  - `CreateBatch` there lacks `chick_item_code` and `created_by`;
  - `CreateBirdCountHistory.notes` is a `String` but is used as an `Option`;
  - the commission, closure, ledger-entry and sale payloads are missing from it.
- The entity declarations disagree with the handlers in the same way, and the handlers' logic is what is modelled:
  - `entity/src/items.rs` lacks `item_category`;
  - `entity/src/ledger_entries.rs` lacks `account_id` and `txn_group_id`.

## Findings

| source | as written | input that shows it | evidently intended | confidence | as-written member | corrected member |
|---|---|---|---|---|---|---|
| src/handlers/batches.rs:205 | the need is lowered by `take.to_i32().unwrap_or(0)`, which drops the fraction of a take | chick lots of 2.5 and 10 and a batch of 5 birds: 2.5 counts as 2, so 3 more are taken, and 5.5 leave the lots with no shortage reported; lots of 2.5 and 2.5 and a batch of 5: a shortage of 1 is reported although the lots hold 5 | lower the need by the exact take, as approval does at src/handlers/batch_requirements.rs:218-222 | not executed | LotAllocation.FifoTruncOverdraws, LotAllocation.FifoTruncFallsShort, Batches.BatchFallsShort | LotAllocation.FifoConserves |
| rjagro_frontend/app/dashboard/page.tsx:171-173 | the saved row is written to `tableData[startIndex + editingRow]`, but `editingRow` indexes the filtered page | rows x and y with the name filter "y": the page shows only y, and saving an edit of it overwrites x | write to the table row behind the shown row | not executed | Dashboard.SaveAsWrittenEditsWrongRow | Dashboard.SaveEditsShownRow |

The handlers run the code as written: `Batches.CreateBatch` walks the chick lots with `LotAllocation.FifoTrunc`, and `Dashboard.TableView.HandleSave` writes through `Dashboard.SavedAsWritten`. The corrected walk `LotAllocation.Fifo` is the one requirement approval runs; `LotAllocation.FifoTruncWholeLots` shows that the two walks agree whenever every lot holds a whole number, which is what the batch lemmas assume. The corrected save `Dashboard.SavedCorrected` is stated beside the as-written one, and `Dashboard.SaveAgreesWithoutFilters` shows they agree when no filter is set.
