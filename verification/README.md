# Verified model of the ERP core

A Dafny model of the four parts of the system whose correctness is hardest to see from any one function:
the stock ledger with its costing, the teardown of tenants, identity and seats, and payroll with the org
forests. Amounts are exact integers: money in units of 0.0001, quantities and rates in units of 0.000001.
A value before its one final rounding is an exact `real`. Every database transaction is one atomic step
over in-memory tables. `dafny verify dfyconfig.toml` checks everything.

Each mutating service is a method over mutable tables, proved equal to a function of the old tables; the
lemmas are about runs of those functions.

- **Money and documents.** `Money` and `Allocation` are the rounding arithmetic, `Totals` the three VAT modes.
- **Stock.** `Ledger` is the log and its cache, `Costing` the FIFO consumption, `Inventory` the postings of the
  documents, `StockRows` what each of them appends, `UnitConversion` the way to base units, `StockDocuments` and
  `Receiving` the documents themselves, `Bom` the cost roll-up, `WorkOrders` the backflush. `FifoStock`,
  `LotOrder`, `AverageStock`, `SalesStock` and `WorkOrders` are what holds over whole runs; `Rebuilding` and `RawPostings` say
  when a replay reproduces the cache.
- **Teardown.** `TenantTables` is the topological sort, `TenantRows` referential integrity of single deletes,
  `PurgePlan` the delete orders, `DemoPurge` the job that crashes and retries, `DemoLeads` the lead it captures.
- **Identity.** `Seats` is users, roles, grants and the seat cap, `IamOutcomes` what each transaction leaves and
  when it is refused, `Tokens` sessions and access tokens over them, `IamService` the services statement by
  statement.
- **People.** `PayrollMath`, `Advances` and `OrgChart`.

What the code promises and does not keep, each with its exact condition:

- `rebuildBalance` promises to equal the live cache. Movements of one transaction share `at` and are ordered by
  a random id, so the average can move; the quantity cannot. A rebuild is right for all amounts if and only if the
  stamps of the key's movements ascend in posting order (`Rebuilding.RebuildExactlyWhen`).
- `advanceRepayment` is described as dividing by the remaining instalments, but the count never falls: a plan
  clears if and only if it is a lump or has at most two (`Advances.ClearsExactlyWhen`).
- The completion audit of a sandbox purge reports whether a lead was captured. It is right if and only if no
  earlier attempt captured it and it is not an empty email that consent is still given for
  (`DemoLeads.ReportIsRightExactlyWhen`).
- An approved payroll run is described as frozen, but the stored calculation does not look at the status: a job
  that was queued before the approval, or is delivered twice, puts the run back to CALCULATED. A run stays as
  approved if and only if no calculation of it is delivered later (`Advances.RunFreezes`), and what was disbursed
  is accounted for by balances and approved runs if and only if no such run had advance lines
  (`Advances.BalancesExactlyWhen`).

Limits that no comment of the code denies, and how far they reach:

- Every purge transaction re-asserts the sandbox kind, the object step does not: an object is lost exactly at that
  step (`DemoPurge.ObjectLostExactlyWhen`), also after the kind changed (`DemoPurge.ObjectsAreUnguarded`).
- A receipt posts nothing of what its lines of base quantity zero carry, and everything else up to rounding
  (`Receiving.ReceiptValueBound`).
- A department is not deleted while something live hangs under it, but a department or position can be created
  under a deleted one, and that is the one way to get there (`OrgChart.OrgTables.CreateDepartment`,
  `OrgChart.OrgTables.CreatePosition`).
- `allocate` yields a negative part for some non-negative weights exactly for the totals of
  `Allocation.NonNegativeExactlyWhen`.
- A VAT-inclusive total is the sum of a subtotal and its VAT unless it falls in one of seven classes modulo 107
  (`Totals.VatRoundTripExactlyWhen`).
- Disabling a user moves no version, so re-activation makes earlier tokens good again, unless the user occupied a
  seat above the cap (`Tokens.ReactivationRevives`).
- `post` averages its raw arguments and stores rounded ones. Every caller passes arguments on the grid, for which
  this makes no difference; `RawPostings.ReplaysExactlyWhen` says for which arguments it would.
- A role that another role was cloned from cannot be deleted: the self-reference has no cascade. The model
  refuses it with the other conflicts, although the service itself does not check for it.

## Model

| member | source | states |
|---|---|---|
| Money.Round | packages/utils/src/money.ts:29-31 | the result is the one grid point nearest to the value, a tie going away from zero |
| Money.RoundIsMonotoneAndOdd | packages/utils/src/money.ts:29-31 | rounding preserves order and is symmetric in the sign |
| Money.RoundIsNearest | packages/utils/src/money.ts:29-31 | the rounded quotient of two whole numbers is the nearest whole number, a tie going away from zero |
| Money.LineTotalIsNearest | packages/utils/src/money.ts:43-46 | quantity times price at money scale, rounded once |
| Money.MovingAverageBetween | packages/utils/src/money.ts:87-101 | a positive receipt onto non-negative stock leaves the average between old average and incoming cost, and at the incoming cost when there was no stock |
| Money.MovingAverageError | packages/utils/src/money.ts:87-101 | revaluing the whole stock at the rounded average strays at most half a unit per unit on hand |
| Money.MovingAverageIsNearest | packages/utils/src/money.ts:87-101 | for amounts of any sign the average is the blended value over the resulting quantity, rounded once, and the incoming cost when that quantity is zero |
| Money.DivideMoneyError | packages/utils/src/money.ts:56-60 | a divided amount multiplied back is within half a unit per unit of the divisor |
| Allocation.Allocate | packages/utils/src/money.ts:110-138 | the loop computes rounded shares with the remainder on the first largest weight |
| Allocation.FirstMax | packages/utils/src/money.ts:126-132 | the remainder's target is a largest weight and no earlier weight equals it |
| Allocation.AllocatedSum | packages/utils/src/money.ts:103-109 | for every total and every non-empty list of weights the parts sum exactly to the rounded total |
| Allocation.AllocatedDeviation | packages/utils/src/money.ts:110-138 | each part is within half a unit of its exact share, the target within (n-1)/2 units plus what rounding the total moved |
| Allocation.AllocatedNonNegative | packages/utils/src/money.ts:110-138 | outside the treacherous totals no non-negative weights yield a negative part |
| Allocation.NegativeWeights | packages/utils/src/money.ts:110-138 | for each treacherous total there are non-negative weights with a part of minus one |
| Allocation.NonNegativeExactlyWhen | packages/utils/src/money.ts:110-138 | over n lines no part is ever negative if and only if the total is below 2 units or at least (n-1) times half of n-2, rounded down |
| Allocation.AllocatedNegativeExample | packages/utils/src/money.ts:110-138 | the smallest treacherous case: two units over four equal weights leave a part of minus one |
| Totals.VatRoundTrip | packages/utils/src/money.ts:68-72 | backing 7% VAT out of an exclusive grand total recovers the subtotal exactly, for every subtotal |
| Totals.VatRoundTripInclusive | packages/utils/src/money.ts:68-72 | adding VAT to a backed-out subtotal returns the grand total within 0.0001 |
| Totals.VatRoundTripExactlyWhen | packages/utils/src/money.ts:68-72 | the inclusive round trip is exact if and only if the grand total, of either sign, is outside seven classes modulo 107 |
| Totals.VatRoundTripGap | packages/utils/src/money.ts:68-72 | no subtotal plus its VAT ever gives a grand total of those classes |
| Totals.VatMirrors | packages/utils/src/money.ts:68-72 | a negative total is split like the positive one it mirrors |
| Totals.TotalsReconcile | apps/api/src/sales/totals.service.ts:50-87 | subtotal plus VAT is the grand total in all three modes, and the line sum is the subtotal or the grand total as the mode says |
| Totals.ModesAgree | apps/api/src/sales/totals.service.ts:65-79 | an inclusive and an exclusive document with one grand total get the same subtotal, VAT and withholding |
| Totals.ComputeMeans | apps/api/src/sales/totals.service.ts:43-88 | each line is net of its discount; NON_VAT has no VAT, inclusive prices hold 100/107 of the grand total as subtotal, exclusive ones get 7% on top; withholding is on the subtotal |
| Ledger.PostKeepsCache | apps/api/src/inventory/ledger.service.ts:93-141 | an on-grid posting to any key keeps every cached balance equal to the fold of that key's movements |
| Ledger.ReplayAgrees | apps/api/src/inventory/ledger.service.ts:73-141 | over every interleaving of on-grid postings to all keys the cache is the replay of the log |
| Ledger.OffGridPostingDiverges | apps/api/src/inventory/ledger.service.ts:97-121 | a concrete off-grid posting after which cache and replay differ |
| RawPostings.ReplaysExactlyWhen | apps/api/src/inventory/ledger.service.ts:97-121 | posting and replaying change every balance alike if and only if an IN has both arguments on the grid or no quantity, and any other movement no quantity half-way between |
| RawPostings.HarmlessKeepsCache | apps/api/src/inventory/ledger.service.ts:97-121 | every posting with such arguments keeps the cache equal to the replay |
| Ledger.OnHandOfAnyOrder | apps/api/src/inventory/ledger.service.ts:183-208 | the replayed on-hand quantity is the same for every permutation of the movements |
| Ledger.OrderIsChronological | apps/api/src/inventory/ledger.service.ts:198 | the rebuild reads the movements by time, then id |
| Ledger.RebuildAgrees | apps/api/src/inventory/ledger.service.ts:177-224 | a rebuild never changes the quantity, and changes nothing when time and id order agrees with posting order |
| Rebuilding.OrderAmongWorking | apps/api/src/inventory/ledger.service.ts:198 | movements that change nothing do not affect the order of the others |
| Rebuilding.RebuildExactlyWhen | apps/api/src/inventory/ledger.service.ts:177-224 | whatever is posted, a rebuild returns the live balance if and only if the stamps of the key's movements ascend in posting order |
| Rebuilding.RunRebuilds | apps/api/src/inventory/ledger.service.ts:177-224 | over every run the stored balance is what a rebuild writes, as soon as the stamps ascend |
| Rebuilding.ReceiptRebuildsOtherwise | apps/api/src/inventory/ledger.service.ts:177-198 | one posted receipt of three lines of one item whose rebuild writes another average |
| Ledger.ValueDrift | apps/api/src/inventory/ledger.service.ts:78-90 | on-hand times average differs from the log's value by at most half a unit per unit on hand after each IN |
| Costing.LotTable.ResolveFifo | apps/api/src/inventory/costing.service.ts:55-102 | the in-place loop leaves the lots and returns the segments of the greedy oldest-first consumption |
| Costing.LotTable.ResolveIssue | apps/api/src/inventory/costing.service.ts:39-52 | costing by method, at the costs of each; only FIFO changes lots |
| Costing.ResolveCosts | apps/api/src/inventory/costing.service.ts:39-101 | STANDARD issues at the standard cost, moving average at the average, FIFO at each lot's own cost and any shortfall at the average |
| Costing.SegmentsMeetDemand | apps/api/src/inventory/costing.service.ts:71-101 | the segments sum to exactly minus the demand, with or without enough lots |
| Costing.OldestFirst | apps/api/src/inventory/costing.service.ts:69-90 | no lot is driven negative, and a lot is touched only when every older one is empty |
| Costing.LotIsPosted | apps/api/src/inventory/costing.service.ts:71-90 | what leaves a lot is a segment of that lot, at its cost |
| Costing.FallbackExactlyWhenShort | apps/api/src/inventory/costing.service.ts:92-100 | a fallback segment appears exactly when demand exceeds supply, for exactly the excess |
| Costing.ConsumeConserves | apps/api/src/inventory/costing.service.ts:71-101 | with enough lots, quantity and value leaving the lots are what the segments carry |
| Costing.IssuesCompose | apps/api/src/inventory/costing.service.ts:55-102 | issuing a then b leaves the lots and the total value of issuing a+b at once, also when lots run out |
| Inventory.StockTables.LoadBalance | apps/api/src/inventory/ledger.service.ts:58-71 | the cached balance, or zero when none exists |
| Inventory.StockTables.PostMovement | apps/api/src/inventory/ledger.service.ts:93-141 | appends exactly the rounded movement and upserts the one balance, or refuses an OUT that would end below zero and changes nothing |
| Inventory.StockTables.RebuildBalance | apps/api/src/inventory/ledger.service.ts:183-224 | overwrites one balance with the fold in time and id order and touches nothing else |
| Inventory.StockTables.IssueStock | apps/api/src/inventory/goods-issue.service.ts:111-130 | costs a quantity, takes it from the lots and posts one OUT per segment |
| UnitConversion.AllToBase | apps/api/src/inventory/item.service.ts:187-226 | every line's quantity in its item's base unit, or the failure of the first line that has no conversion |
| UnitConversion.ToBaseMeans | apps/api/src/inventory/item.service.ts:187-226 | the registered factor multiplies the quantity, rounded once, one whole unit being the factor; the base unit and no unit change nothing; an unknown item and an unregistered factor fail |
| Inventory.StockTables.PostIssue | apps/api/src/inventory/goods-issue.service.ts:91-131 | the guarded issue of all converted lines; a short line rolls all of them back |
| StockDocuments.PostIsIssue | apps/api/src/inventory/goods-issue.service.ts:91-131 | a document posts exactly the issue of its lines in base units, and fails with the first unconvertible line or for too little stock |
| StockRows.IssueSucceedsExactlyWhen | apps/api/src/inventory/goods-issue.service.ts:91-131 | an issue succeeds if and only if negative stock is allowed or the earlier lines leave each line enough, exactly enough included, and then takes exactly its lines under every costing method |
| StockDocuments.GoodsIssueDocument.Post | apps/api/src/inventory/goods-issue.service.ts:77-133 | DRAFT to POSTED once and wholly; every failure leaves tables and status as they were |
| Inventory.StockTables.PostReceipt | apps/api/src/inventory/goods-receipt.service.ts:124-156 | one lot, inserted in receipt order, and one IN per line |
| Inventory.StockTables.PostAdjustment | apps/api/src/inventory/stock-adjustment.service.ts:110-126 | one ADJUST per line at the average of the moment |
| StockDocuments.CreateDraft | apps/api/src/inventory/stock-adjustment.service.ts:54-82 | a draft of the lines with the default warehouse filled in, unless two of them have one item and warehouse, which the primary key rejects |
| StockDocuments.StockAdjustmentDocument.Approve | apps/api/src/inventory/stock-adjustment.service.ts:84-95 | DRAFT to APPROVED only |
| StockDocuments.StockAdjustmentDocument.Post | apps/api/src/inventory/stock-adjustment.service.ts:97-142 | APPROVED to POSTED once, with the ADJUSTs and an audit that says what was on hand before and after |
| StockDocuments.AuditIsRight | apps/api/src/inventory/stock-adjustment.service.ts:107-142 | for every adjustment the line table can hold, the audit names exactly the touched items and warehouses, with the quantity on hand before the adjustment and the one after it, which differ by the line |
| Inventory.StockTables.OnSaleIssued | apps/api/src/inventory/sales-stock.subscriber.ts:60-100 | OUTs for every line unless the document already has one |
| Inventory.StockTables.OnDocumentVoided | apps/api/src/inventory/sales-stock.subscriber.ts:103-137 | one compensating IN per OUT unless the document already has one |
| Inventory.RunKeepsCache | apps/api/src/inventory/ledger.service.ts:177-224 | every run of issues, receipts, adjustments, sales and voids keeps the cache equal to the replay |
| FifoStock.TakeOutExact | apps/api/src/inventory/goods-issue.service.ts:91-131 | an issue covered by stock takes equal quantity and value from lots and ledger, never at the fallback cost |
| FifoStock.FifoRunExact | apps/api/src/inventory/goods-receipt.service.ts:124-156 | over every run of receipts and guarded issues a FIFO item's lots equal its on-hand and its ledger value exactly, and no fallback segment is ever posted |
| LotOrder.ReceiptAddsLot | apps/api/src/inventory/goods-receipt.service.ts:136-156 | a receipt line adds exactly its lot, to its item alone |
| LotOrder.LotsAscend | apps/api/src/inventory/costing.service.ts:61-69 | over every run of documents and backflushes each item's lots are read by receipt time, then id |
| LotOrder.EarliestLotsGoFirst | apps/api/src/inventory/costing.service.ts:61-90 | after any run an issue touches a lot only when every lot received before it is empty, and posts what leaves the lot as an OUT of that lot at its cost |
| AverageStock.MovingAverageDriftBound | apps/api/src/inventory/ledger.service.ts:78-90 | over every run, backflushes included, the value of a moving-average item drifts from the ledger's by at most half a unit per unit on hand after each IN |
| StockRows.IssueRows | apps/api/src/inventory/sales-stock.subscriber.ts:69-98 | an issue appends only OUTs of its document, netting to minus the demand of every key |
| StockRows.BackRows | apps/api/src/inventory/sales-stock.subscriber.ts:123-135 | a compensation appends only INs, row by row the reversed OUTs at their costs and lots, negating them in quantity and in value of every item and warehouse |
| StockRows.ReceiptRows | apps/api/src/inventory/goods-receipt.service.ts:136-156 | a receipt appends one IN per line, of its quantity at its unit cost |
| SalesStock.ExactlyOnce | apps/api/src/inventory/sales-stock.subscriber.ts:42-156 | under any interleaving and repetition of deliveries, backflushes and other documents included, a document nets to nothing, then minus its lines, then exactly zero in quantity and value of every item and warehouse for good |
| WorkOrders.PostBackflush | apps/api/src/inventory/backflush.service.ts:52-147 | rolls the recipe up at current costs, posts the finished-goods IN and one material issue per recipe line in base units, once per work order; a line without a conversion fails and changes nothing |
| WorkOrders.OrderIsRight | apps/api/src/inventory/backflush.service.ts:78-131 | the finished goods come in at the average or else standard cost, or, with an acyclic recipe, at whatever solves the cost equations over such costs; each recipe line goes out as quantity times produced with scrap, converted to base units |
| WorkOrders.ConsumedMeans | apps/api/src/inventory/backflush.service.ts:107-110 | quantity, scrap and quantity produced multiply, rounded once |
| WorkOrders.EventsKeepCache | apps/api/src/inventory/ledger.service.ts:177-224 | backflushes among all other documents keep the cache equal to the replay |
| WorkOrders.BackflushedExactlyOnce | apps/api/src/inventory/backflush.service.ts:59-147 | however often a completion is delivered, its work order has moved nothing as long as it is undelivered or a recipe line does not convert, and otherwise exactly the backflush of the first delivery, at the roll-up and quantities of that moment |
| Receiving.GoodsReceiptDocument.Confirm | apps/api/src/inventory/goods-receipt.service.ts:77-109 | DRAFT to CONFIRMED only, with every line's allocated share written |
| Receiving.GoodsReceiptDocument.Post | apps/api/src/inventory/goods-receipt.service.ts:112-172 | CONFIRMED to POSTED once and wholly; a conflict or a line without a conversion leaves tables and status as they were |
| Receiving.PostIsReceipt | apps/api/src/inventory/goods-receipt.service.ts:124-156 | a document posts exactly the receipt of its lines in base units at their landed cost, or fails with the first unconvertible line |
| Receiving.LandedLineMeans | apps/api/src/inventory/goods-receipt.service.ts:124-134 | a line's unit cost is its price and share over its base quantity, rounded once, or its price without base quantity |
| Receiving.SharesFollowBasis | apps/api/src/inventory/goods-receipt.service.ts:84-93 | each line's share is within half a unit of its part of the landed total by extended price or by quantity, as the method says; the first largest line takes the remainder |
| Receiving.ReceiptValueBound | apps/api/src/inventory/goods-receipt.service.ts:84-156 | the INs a confirmed receipt appends to the ledger are worth its goods value plus its whole landed cost, less what lines of base quantity zero carry, within half a money unit per base unit |
| Receiving.NothingLostExactlyWhen | apps/api/src/inventory/goods-receipt.service.ts:131-133 | with nothing negative, value is lost if and only if a line of base quantity zero has a price or a share |
| Receiving.ZeroQuantityLosesLandedCost | apps/api/src/inventory/goods-receipt.service.ts:131-133 | a one-line receipt without quantity posts a movement worth nothing, whatever the landed cost |
| Bom.RollUpItem | apps/api/src/inventory/bom.service.ts:127-166 | the path-guarded recursion terminates on every graph and computes the guarded cost |
| Bom.RollUpComponents | apps/api/src/inventory/bom.service.ts:93-120 | one extended cost per line, summing to the material cost |
| Bom.ExtendedMeans | apps/api/src/inventory/bom.service.ts:106-117 | a component costs its quantity with scrap on top, rounded, times its unit cost, rounded |
| Bom.CycleCostsFlat | apps/api/src/inventory/bom.service.ts:122-165 | on a cycle the item met again counts at its flat cost |
| Bom.PathIsIrrelevant | apps/api/src/inventory/bom.service.ts:122-149 | on an acyclic graph any two paths of strict ancestors give the same cost |
| Bom.RollUpSolves | apps/api/src/inventory/bom.service.ts:122-149 | on an acyclic graph the guarded cost solves the unguarded cost equations |
| Bom.GuardIsInert | apps/api/src/inventory/bom.service.ts:134-149 | and it is their only solution, whatever ancestors the path carries |
| Bom.RollUpMonotone | apps/api/src/inventory/bom.service.ts:93-166 | raising flat costs never lowers a rolled-up cost, cycles or not |
| TenantTables.FkSort.Visit | apps/api/src/platform/tenant-tables.ts:47-58 | a visit terminates on every graph and either lists the table after its parents or throws a path that ends in a cycle |
| TenantTables.FkSort.TenantTablesInFkOrder | apps/api/src/platform/tenant-tables.ts:45-60 | the sort returns exactly when no cycle joins distinct tables, and then lists every table once, parents first |
| TenantTables.OrderExcludesCycles | apps/api/src/platform/tenant-tables.ts:24-25 | no parents-first order exists for a graph with a cycle |
| TenantRows.DeleteIsIntegral | apps/api/src/demo/demo-purge.service.ts:176-192 | one delete of a children-first order leaves no dangling reference |
| TenantRows.SafeExactlyWhenChildrenFirst | apps/api/src/demo/demo-purge-plan.ts:11-20 | a delete order is safe for every database after every delete if and only if it is children-first up to the nulled columns |
| PurgePlan.PlainPurgeSafe | apps/api/src/platform/tenant-data.service.ts:248-258 | the reversed foreign-key order covers every table once and is safe with nothing nulled |
| PurgePlan.PlanCoversEachTableOnce | apps/api/src/demo/demo-purge-plan.ts:37-46 | bulk then tail lists every tenant table exactly once; planning fails exactly when a tail table is missing |
| PurgePlan.DemoPurgeSafeExactlyWhen | apps/api/src/demo/demo-purge-plan.ts:11-46 | the plan is safe for every database if and only if every key from the tail into the bulk phase, and from user to auth_identity, is nulled first |
| DemoPurge.ComputedPlanIsSound | apps/api/src/demo/demo-purge-plan.ts:37-46 | the plan computed from a schema is the sound one exactly when the schema detaches the tail |
| DemoPurge.RunKeepsInv | apps/api/src/demo/demo-purge.service.ts:137-213 | over every run of begins, starts, steps, crashes and kind changes no reference ever dangles and each job has deleted what its counter says |
| DemoPurge.RowSurvives | apps/api/src/demo/demo-purge.service.ts:215-231 | an event removes or changes a row only as a purge step of that row's PURGING sandbox |
| DemoPurge.OtherTenantsKeepRows | apps/api/src/demo/demo-purge.service.ts:143-152 | a tenant that is never a PURGING sandbox keeps every row over every run |
| DemoPurge.ObjectLostExactlyWhen | apps/api/src/demo/demo-purge.service.ts:183-184 | a stored object is lost in an event if and only if it is the object step of its tenant's job |
| DemoPurge.ObjectSurvivesExactlyWhen | apps/api/src/demo/demo-purge.service.ts:183-184 | over every run an object survives if and only if no event was that step |
| DemoPurge.OtherTenantsKeepObjects | apps/api/src/demo/demo-purge.service.ts:143-152 | a tenant without a job that is never a PURGING sandbox keeps every object over every run |
| DemoPurge.ObjectsAreUnguarded | apps/api/src/demo/demo-purge.service.ts:183-184 | a stored object is lost even after its tenant stopped being a sandbox, while the rows stay |
| DemoPurge.FinishPurges | apps/api/src/demo/demo-purge.service.ts:162-208 | from every intermediate PURGING state an uninterrupted run leaves no row, object or tenant row, and everyone else's untouched |
| DemoPurge.FinishIsARun | apps/api/src/demo/demo-purge.service.ts:137-213 | the uninterrupted run is one of the runs of the step system |
| DemoLeads.UninterruptedRunPurges | apps/api/src/demo/demo-purge.service.ts:137-213 | a job started on a PURGING sandbox removes it completely and captures the lead it owes |
| DemoLeads.LeadCapturedExactlyOnce | apps/api/src/demo/demo-purge.service.ts:233-265 | whatever crashes and retries happen, a vanished tenant has left exactly the one lead, field by field, that its consent, emails and name gave at the start, and never two |
| DemoLeads.CompletionReports | apps/api/src/demo/demo-purge.service.ts:186-208 | from every point of a job, its completion writes exactly one audit, with exactly this flag: consent and an email at the capture step |
| DemoLeads.ReportIsRightExactlyWhen | apps/api/src/demo/demo-purge.service.ts:186-208 | after any earlier attempts the flag agrees with whether the purge left a lead if and only if no earlier attempt captured it and it is not an empty email still consented to |
| DemoLeads.CrashMakesReportWrong | apps/api/src/demo/demo-purge.service.ts:186-208 | every purge that owes a lead has a run that captures it, crashes, completes and reports none |
| DemoLeads.RetryReportsNoLead | apps/api/src/demo/demo-purge.service.ts:186-208 | once consent is spent, the completing run reports no lead and adds none |
| DemoPurge.PurgeJob.InPurgeTx | apps/api/src/demo/demo-purge.service.ts:220-231 | a transaction commits its step only for a sandbox or an absent tenant, else changes nothing |
| DemoPurge.DetachStepMeans | apps/api/src/demo/demo-purge.service.ts:137-172 | the first transaction nulls the employee reference of the tenant's users and nothing else |
| DemoPurge.PurgeJob.CaptureConsentedLead | apps/api/src/demo/demo-purge.service.ts:234-274 | one lead with consent and a non-empty email, in every field as the tenant and its rows say; consent is spent either way |
| DemoPurge.CaptureMeans | apps/api/src/demo/demo-purge.service.ts:234-274 | the lead's email is the first Google identity's or else the super-admin's, its name the guest name or else the email, its time the consent's |
| DemoPurge.PurgeJob.RunPurge | apps/api/src/demo/demo-purge.service.ts:137-213 | nothing for a missing, foreign or non-PURGING tenant, otherwise the uninterrupted run |
| Seats.StepIsSound | apps/api/src/iam/role.service.ts:120-127 | every IAM transaction keeps keys and names sound, never lowers a version, and moves the version of everyone whose effective permissions change |
| Seats.ImportIsSound | apps/api/src/iam/import.service.ts:132-150 | the same for a whole import, row by row |
| Seats.UncheckedIsNeutral | apps/api/src/iam/role.service.ts:75-206 | role creation, cloning, deletion, renaming and forced logout, which skip the seat check, leave the counted seats as they are |
| Seats.StepHoldsSeats | apps/api/src/platform/seat.service.ts:26-56 | one transaction of any kind newly counts nobody unless the count then fits the cap |
| Seats.RunHoldsSeats | apps/api/src/platform/seat.service.ts:57-100 | the same over every run with the plan unchanged |
| Seats.WithinCapStaysWithin | apps/api/src/platform/seat.service.ts:57-69 | a tenant within its cap stays within it over every run |
| Seats.OverCapOnlyShrinks | apps/api/src/platform/seat.service.ts:26-31 | while the count is over a lowered cap, nobody is counted who was not counted earlier in the run |
| Seats.ShrinkingIsNeverRefused | apps/api/src/platform/seat.service.ts:28-30 | disabling a user or narrowing a role is never refused for seats |
| Seats.SignUpTakesNoSeat | apps/api/src/iam/auth.service.ts:253-276 | a self-service account counts for no seat, and only a taken email turns it away |
| IamOutcomes.SeatsAreTakenBy | apps/api/src/platform/seat.service.ts:57-69 | a seat is taken by every pending or active user who is not deleted and is a super-admin or has a role granting more than scanning |
| IamOutcomes.CreateUserLeaves | apps/api/src/iam/user.service.ts:118-152 | the new user can do exactly what the given roles grant, and nothing else changes |
| IamOutcomes.CreateUserRefusedExactlyWhen | apps/api/src/iam/user.service.ts:118-152 | refused exactly for a taken username or email, an unknown role, or a seat above the cap |
| IamOutcomes.SetRolesLeaves | apps/api/src/iam/user.service.ts:154-176 | the user can do exactly what the new roles grant and must sign in again; nothing else changes |
| IamOutcomes.SetRolesRefusedExactlyWhen | apps/api/src/iam/user.service.ts:154-176 | refused exactly for an unknown user or role, or a seat above the cap the user did not hold |
| IamOutcomes.SetStatusLeaves | apps/api/src/iam/user.service.ts:218-231 | the status changes and nothing else |
| IamOutcomes.SetStatusRefusedExactlyWhen | apps/api/src/iam/user.service.ts:218-231 | refused exactly for an unknown user or a seat above the cap the user did not hold |
| IamOutcomes.ForceLogoutLeaves | apps/api/src/iam/user.service.ts:179-198 | one version moves and nothing else |
| IamOutcomes.SignUpIsCreateUser | apps/api/src/iam/auth.service.ts:236-282 | self-service sign-up creates a user without roles, or is forbidden |
| IamOutcomes.LoginsStayUnique | apps/api/src/iam/user.service.ts:118-152 | no transaction ever gives two users one username or one email |
| IamOutcomes.CreateRoleLeaves | apps/api/src/iam/role.service.ts:75-95 | a fresh role grants exactly the codes, and nobody has it |
| IamOutcomes.CloneRoleLeaves | apps/api/src/iam/role.service.ts:135-162 | a fresh role grants exactly what its source grants |
| IamOutcomes.NewRoleRefusedExactlyWhen | apps/api/src/iam/role.service.ts:75-95 | refused exactly for a taken name, an unknown code or an unknown source |
| IamOutcomes.UpdateRoleLeaves | apps/api/src/iam/role.service.ts:97-133 | the role has the new name and grants exactly the new codes, and exactly its users must sign in again |
| IamOutcomes.UpdateRoleRefusedExactlyWhen | apps/api/src/iam/role.service.ts:97-133 | refused exactly for a name of another role, an unknown code, or somebody newly seated above the cap |
| IamOutcomes.DeleteRoleLeaves | apps/api/src/iam/role.service.ts:169-206 | deleted exactly when re-authenticated and neither system, bound nor cloned, and nothing else goes |
| IamOutcomes.ImportLeaves | apps/api/src/iam/import.service.ts:132-168 | the last row of a name decides: one role of that name, granting exactly the row's codes |
| IamOutcomes.ImportSparesRole | apps/api/src/iam/import.service.ts:132-168 | a role no row names stays as it is |
| IamOutcomes.ImportBumps | apps/api/src/iam/import.service.ts:132-168 | everyone bound to a named role must sign in again |
| IamOutcomes.ImportRefusedExactlyWhen | apps/api/src/iam/import.service.ts:98-168 | refused exactly for an unknown code, a repeated code, or somebody newly seated above the cap |
| Tokens.AfterKeepsInv | apps/api/src/iam/auth.service.ts:471-511 | every ticket, session and token carries a version its user has reached, and tokens match their session |
| Tokens.AcceptedTokenIsFresh | apps/api/src/auth/jwt.guard.ts:98-127 | in every reachable state an accepted token was minted from a version its user held at some point of the run, with exactly the permissions the user has now |
| Tokens.SignInIsAccepted | apps/api/src/iam/auth.service.ts:182-226 | a completed sign-in is accepted and refreshable at once, with the user's current permissions |
| Tokens.PasswordSignInIsAccepted | apps/api/src/iam/auth.service.ts:182-226 | so is a password sign-in |
| Tokens.RefreshedIsAccepted | apps/api/src/iam/auth.service.ts:319-387 | a refreshed token carries the current version and is accepted |
| Tokens.LogoutEndsSession | apps/api/src/iam/auth.service.ts:389-395 | after a logout no claim of that session is accepted or refreshed in any later state, and no other session is touched |
| Tokens.ExpiryEndsSession | apps/api/src/auth/jwt.guard.ts:98-127 | nor once the clock has reached the session's end |
| Tokens.ForeignClaimsAreRefused | apps/api/src/auth/jwt.guard.ts:98-127 | a claim of another tenant than the session's is refused in every later state |
| Tokens.StrangersAreRefused | apps/api/src/auth/jwt.guard.ts:98-127 | a claim of no session, of another tenant, of no user or of a user who is not ACTIVE opens nothing |
| Tokens.NewVersionEndsEverything | apps/api/src/auth/jwt.guard.ts:112-113 | once a version moves, no earlier token is accepted and no earlier session refreshed in any later state, sign-ins under way included |
| Tokens.ForceLogoutEndsEverything | apps/api/src/iam/user.service.ts:178-198 | a forced logout ends every earlier token, session and sign-in of the user for good |
| Tokens.ForceLogoutSparesOthers | apps/api/src/iam/user.service.ts:178-198 | and nobody else's tokens |
| Tokens.PermissionChangeEndsEverything | apps/api/src/iam/user.service.ts:154-171 | so does every event that changes the user's effective permissions |
| Tokens.ReactivationRefusedExactlyWhen | apps/api/src/iam/user.service.ts:225-231 | re-activating a disabled user is refused if and only if that user occupied a seat above the cap |
| Tokens.ReactivationRevives | apps/api/src/iam/user.service.ts:218-231 | disabling suspends a token; re-activation makes it acceptable again if and only if the user occupied no seat above the cap |
| IamService.IamTables.AssertCapacity | apps/api/src/platform/seat.service.ts:33-55 | refuses exactly when somebody is promoted and the count exceeds a set cap |
| IamService.IamTables.CreateRole | apps/api/src/iam/role.service.ts:75-95 | commits the new role or fails with name conflict or unknown code and writes nothing |
| IamService.IamTables.UpdateRole | apps/api/src/iam/role.service.ts:97-133 | rename and regrant under the seat check with every bound user bumped, or nothing at all |
| IamService.IamTables.CloneRole | apps/api/src/iam/role.service.ts:135-162 | a new role with the source's grants |
| IamService.IamTables.DeleteRole | apps/api/src/iam/role.service.ts:169-206 | deletes a role that is neither system, bound nor cloned, after re-authentication |
| IamService.IamTables.CreateUser | apps/api/src/iam/user.service.ts:118-152 | an active user with a free name and email and existing roles, or a rollback for a taken login, an unknown role or a full tenant |
| IamService.IamTables.SignUp | apps/api/src/iam/auth.service.ts:236-282 | a role-less account where the tenant allows it and the email is free |
| IamService.IamTables.SetRoles | apps/api/src/iam/user.service.ts:154-176 | the old roles replaced by the new under the seat check and the version bumped, or nothing |
| IamService.IamTables.SetStatus | apps/api/src/iam/user.service.ts:218-231 | the status set under the seat check, the version untouched |
| IamService.IamTables.ForceLogout | apps/api/src/iam/user.service.ts:179-198 | every session of the user revoked and the version bumped |
| IamService.IamTables.UpsertRole | apps/api/src/iam/import.service.ts:177-193 | the one role of that name, or a fresh one without grants |
| IamService.IamTables.ImportMatrix | apps/api/src/iam/import.service.ts:98-168 | all rows in order under one seat check, or, for an unknown code, a repeated code or a full tenant, nothing |
| IamService.IamTables.IssueSession | apps/api/src/iam/auth.service.ts:471-511 | a session snapshotting the version, with the matching token pair |
| IamService.IamTables.Refresh | apps/api/src/iam/auth.service.ts:319-387 | a new access token exactly when the session is the tenant's, neither revoked nor expired, the user is active and the versions agree |
| IamService.IamTables.CanActivate | apps/api/src/auth/jwt.guard.ts:98-127 | accepts exactly a session of the tenant that is neither revoked nor expired, an active user and the current version, and attaches the effective permissions |
| PayrollMath.AnnualTax | apps/api/src/hr/payroll-math.ts:76-88 | the early-exit loop equals the schedule over all bands, for bands sorted by lower bound |
| PayrollMath.ScheduleGrowth | apps/api/src/hr/payroll-math.ts:75-88 | with disjoint bands tax never falls with income nor grows faster than the top rate |
| PayrollMath.ScheduleMeans | apps/api/src/hr/payroll-math.ts:75-88 | nothing below every band, and inside a band the tax rises at exactly the band's rate |
| PayrollMath.MonthlyTaxGrowth | apps/api/src/hr/payroll-math.ts:94-97 | the same for monthly withholding, rounding included |
| PayrollMath.MonthlyTaxMeans | apps/api/src/hr/payroll-math.ts:94-97 | a twelfth of the tax on twelve months, each rounding to the nearest |
| PayrollMath.SsoGrowth | apps/api/src/hr/payroll-math.ts:100-111 | the contribution never falls with the wage nor grows faster than its rate, up to rounding |
| PayrollMath.SsoMeans | apps/api/src/hr/payroll-math.ts:100-111 | the rate of the wage held between floor and ceiling, rounded once |
| PayrollMath.RaiseNeverHurts | apps/api/src/hr/payroll-math.ts:137-155 | if top rate and contribution rate stay within 100%, a raise never costs more than 0.0002 of net pay |
| PayrollMath.EarningsCountOnce | apps/api/src/hr/payroll-math.ts:131-155 | base, overtime and every allowance raise the net by themselves |
| PayrollMath.DeductionsCountOnce | apps/api/src/hr/payroll-math.ts:131-155 | contribution, tax, advance and every deduction lower it by themselves |
| Advances.PullBounds | apps/api/src/hr/payroll-math.ts:169-181 | a pull lies between zero and the balance, and clears the advance exactly when it empties it |
| Advances.RepaymentMeans | apps/api/src/hr/payroll-math.ts:169-181 | a lump pulls everything, an instalment the balance over the count, rounded |
| Advances.ClearsExactlyWhen | apps/api/src/hr/payroll-math.ts:164-181 | a plan ever clears exactly when it is a lump or has at most two instalments |
| Advances.RepayAccounted | apps/api/src/hr/cash-advance.service.ts:220-236 | one repayment moves exactly its pull from outstanding to pulled and clears the advance exactly at zero |
| Advances.SettleConserves | apps/api/src/hr/payroll.service.ts:247-264 | one approval, with every pull counted as it is made, keeps disbursed = outstanding + pulls for every advance, raises no balance, and its advance lines sum to the drop and to the pulls |
| Advances.SettledSlips | apps/api/src/hr/payroll.service.ts:254-261 | each slip's net is its gross less deductions less its own non-negative advance line |
| Advances.SettleIsRight | apps/api/src/hr/payroll.service.ts:247-264 | every running advance pays one period for each payslip of its own employee, every other advance stays, and each employee's advance lines are what that employee's debt falls by |
| Advances.EachPaysOwn | apps/api/src/hr/payroll.service.ts:247-264 | with one payslip per employee a slip's line is the drop of its own employee's debt, and an advance whose employee has no slip is unchanged |
| Advances.RunKeepsOneSlipEach | apps/api/src/hr/payroll.service.ts:185-193 | over every sequence of operations a run has one payslip per employee |
| Advances.AdvanceDesk.Create | apps/api/src/hr/cash-advance.service.ts:89-115 | a request within the ceiling is submitted with nothing outstanding, one above it is refused |
| Advances.AdvanceDesk.Decide | apps/api/src/hr/cash-advance.service.ts:118-166 | only a submitted request is approved, by a super-admin, or rejected |
| Advances.AdvanceDesk.Disburse | apps/api/src/hr/cash-advance.service.ts:169-192 | only an approved request is disbursed, its whole amount becoming outstanding |
| Advances.AdvanceDesk.PullInto | apps/api/src/hr/payroll.service.ts:249-254 | every running advance of the employee pays exactly one period, everybody else's stay, and the total is returned |
| Advances.AdvanceDesk.Calculate | apps/api/src/hr/payroll.service.ts:118-137 | a calculation is queued unless the run is approved |
| Advances.AdvanceDesk.ComputeRun | apps/api/src/hr/payroll.service.ts:144-201 | a queued calculation stores its payslips, without advance lines, over those of the same employees and sets CALCULATED, whatever the status is by then |
| Advances.AdvanceDesk.ApproveRun | apps/api/src/hr/payroll.service.ts:231-273 | a calculated run settles every slip once, each from its own employee's advances, and leaves CALCULATED; any other run changes nothing |
| Advances.DisbursedIsOutstandingPlusLines | apps/api/src/hr/payroll.service.ts:226-273 | over every sequence of requests, decisions, disbursements, queued, late and repeated calculations and approvals, what was disbursed is what is outstanding plus the advance lines of the approved runs and of those reopened since |
| Advances.BalancesExactlyWhen | apps/api/src/hr/payroll.service.ts:144-201 | what was disbursed is what is outstanding plus the advance lines of the approved runs if and only if no calculation was delivered for an approved run with advance lines |
| Advances.LateCalculationLosesLine | apps/api/src/hr/payroll.service.ts:144-201 | a run of the services in which a repeated calculation leaves a fully repaid advance without any advance line |
| Advances.RunFreezes | apps/api/src/hr/payroll.service.ts:226-236 | an approved run stays as it is over a sequence of operations if and only if none of them is a calculation of it, and no disbursed balance ever rises |
| OrgChart.AssertNoCycle | apps/api/src/hr/employee.service.ts:579-623 | the bounded upward walk, on every map, corrupt ones included |
| OrgChart.WalkMeaning | apps/api/src/hr/employee.service.ts:584-601 | the walk accepts exactly a chain of at most 256 nodes that avoids the edited one |
| OrgChart.GuardIsExact | apps/api/src/hr/employee.service.ts:579-623 | on an acyclic forest the guard accepts exactly the edits that keep it acyclic and hang under at most 256 nodes |
| OrgChart.LinkKeepsAcyclic | apps/api/src/hr/employee.service.ts:282-311 | hanging a node under one that does not descend from it makes no cycle |
| OrgChart.OrgTables.CreateDepartment | apps/api/src/hr/employee.service.ts:249-265 | a new department under a stored parent keeps the forest acyclic, and keeps live under live exactly when that parent is live |
| OrgChart.OrgTables.UpdateDepartment | apps/api/src/hr/employee.service.ts:277-311 | a re-parent is done, refused by the guard or not found; the forest stays acyclic and live under live |
| OrgChart.OrgTables.DeleteDepartment | apps/api/src/hr/employee.service.ts:313-345 | hides a live department, refused while a live department or position hangs under it, so that nothing live ever hangs under a deleted one |
| OrgChart.OrgTables.CreatePosition | apps/api/src/hr/employee.service.ts:352-374 | a new position under a stored department, which keeps live under live exactly when that department is live |
| OrgChart.OrgTables.UpdatePosition | apps/api/src/hr/employee.service.ts:395-422 | a live position moves to a live department or is not found |
| OrgChart.OrgTables.DeletePosition | apps/api/src/hr/employee.service.ts:424-453 | hides a live position, refused while an employee holds it |
| OrgChart.OrgTables.SetReportingLine | apps/api/src/hr/employee.service.ts:487-523 | a reporting line is set, cleared, refused or not found, and the forest stays acyclic |

## Left out

- SQL, queues, object storage, mail, LINE and sockets: a table is a map or a sequence and a transaction one atomic step.
- JWT signing and password hashing: a token is the record of its claims, and only what was signed is presented; the guard's check of `tid` is kept.
- The 20 significant digits of decimal.js, overflow of numeric columns and of the 32-bit permissions version: values are exact and unbounded.
- Concurrent postings to one stock balance: `post` takes no row lock, so the model assumes inventory transactions run one after another.
- Inventory.StockTables.PostIssue: works on lines in base units; the document's status, unit conversion and missing items are in `StockDocuments`. Sales lines carry no unit, so they are in base units already.
- Inventory.StockTables.PostAdjustment: is the posting loop alone; approval, status and the audit maps are in `StockDocuments`.
- FifoStock.FifoRunExact: covers receipts and guarded issues only, because adjustments, backflush INs and void compensation create or restore no lot in the code.
- AverageStock.MovingAverageDriftBound: is stated for INs that are not negative and meet no negative stock.
- StockDocuments.CreateDraft: the reason, which must not be blank, is left out.
- Bom.RollUpItem: which recipe of an item is the active one is a parameter, and so is the flat cost here; `WorkOrders` supplies the flat cost from the balances.
- Receiving.GoodsReceiptDocument.Post: the time of the receipt and the keys of the lots are parameters; lots of one time are read by key.
- Receiving.GoodsReceiptDocument.Confirm: the WEIGHT basis is the QTY basis, as in the code, and has no case of its own.
- Ledger.PostKeepsCache: the low-stock signal, which changes no table, is left out.
- TenantTables.FkSort.TenantTablesInFkOrder: the alphabetical order in which names and parents are visited is any order of them; every order gives a sound result.
- DemoPurge.PurgeJob.RunPurge: session revocation, audit rows other than the completion, activity clearing and the per-table counts are left out; a lead carries its tenant only to be counted, and consent is not given again during a purge.
- DemoPurge.CaptureMeans: the query for the Google identity names no order, so the first one is the first in the order of the rows, whatever that is.
- The plain tenant purge as a crash-and-retry job: its steps are the sandbox's without lead and tail, so only the safety of its order is proved.
- Seats.StepHoldsSeats: the soft deletion of users, which no service performs, and the sign-in identities beside a user row are left out; names compare exactly, where the columns ignore case.
- IamService.IamTables.ImportMatrix: reading the workbook, header detection and skipped rows come before the rows modelled here.
- Login lockout counters, sign-in audit events and the host-to-tenant resolution: they guard the step that reads the user, which the model lets happen for any active user.
- Support sessions and platform administrators: a second copy of the session checks.
- Tokens.AcceptedTokenIsFresh: a super-admin's guard attaches no permission set, so for one the statement is only about grants that are not consulted.
- Advances.AdvanceDesk.Create: the salary lookup behind the ceiling is a parameter.
- Advances.AdvanceDesk.ComputeRun: whether a queued job is delivered, when, and how often is left to the sequence of operations; the payslips it computes are a parameter.
- Overtime and attendance arithmetic, and the payslip documents.
- OrgChart.OrgTables.UpdateDepartment: names and audit rows are left out; a parent that stays the same is not checked, as in the code.
- OrgChart.OrgTables.DeletePosition: which employee holds which position is fixed; hiring and assigning are left out.
- Stock counts, production scanning, quotations and billing ceilings, reports, exports and the user interface.
