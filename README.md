# Outbound order allocation: a Dafny model

This project models the allocation engine of the outbound order service and proves
properties of it. The engine turns an order's remaining quantity into FEFO
(first-expiry-first-out) batch reservations at the inventory gateway, then records them
on the order.

- `wrappers.dfy` (`Wrappers`): `Option`, `Result` and `Outcome`.
- `java_text.dfy` (`JavaText`): the `String.trim()`, `isBlank()` and `toLowerCase()` the
  SKU normalisation relies on.
- `domain.dfy` (`Domain`): the record shapes.
  - Batches, plan lines, deduction lines, ledger entries and the order's allocation fields.
  - The status rule.
  - The `"sku||mrp"` key. The price is kept only as the text `Double.toString` gives it.
- `inventory_client.dfy` (`InventoryClient`): the gateway client.
  - `buildKey`.
  - The de-duplication of availability queries and the collection of the response into a
    map.
  - The single lookup built on the bulk query.
  - `mapFlatBatchRows`, which fills its two maps row by row in a loop.
  - The bulk deduction call.
- `fefo.dfy` (`Planner`): the planner.
  - The stable sort by expiry.
  - The walk of the single path, which reads each batch's own quantity.
  - The walk of the bulk path, which reads and updates the `availableByBatchKey` map that
    every order of one call shares.
- `order_service.dfy` (`OrderService`): the `Order` entity as a class whose `Record` method
  writes the ledger rows and updates the quantity and status in place, and
  `allocateOrderInternal`.
- `bulk_allocation.dfy` (`BulkAllocation`): `allocateOrdersBulk`.
  - Each loop of the source is a method proved equal to a specification function:
    - cleaning the order numbers;
    - screening;
    - planning over the shared availability map;
    - the one deduction call;
    - committing plan by plan with `persistAllocationForOrder`.
  - The lemmas about those functions state the accounting and the isolation properties.

The HTTP exchanges are replaced by reply oracles, which are function parameters:
- the `/available` answer, as parsed items or a failure message;
- the `/save` answer;
- the per-order fault of the write-back, as the exception message or none.

The bulk path reproduces the source as written. It looks orders up with `buildSkuMrpKey`,
which neither trims nor lower-cases the SKU. The gateway's map is keyed by `buildKey`,
which does both. So an order whose stored SKU is not already normalised finds no batches
and fails with "No valid inventory available" (`BulkLookupNeedsNormalizedSku`). The single
path uses `buildKey` on both sides.

## Model

| member | source | states |
|---|---|---|
| JavaText.TrimIsTrimmedSlice | src/main/java/com/addverb/outbound_service/inventory/InventoryClient.java:335 | `trim()` returns a slice of its input that neither starts nor ends with a char at or below U+0020, and everything cut off at either end is such a char |
| JavaText.ToLower | src/main/java/com/addverb/outbound_service/inventory/InventoryClient.java:335 | `toLowerCase()` keeps the length and maps every char by its own lower-case mapping, which never turns a trimmable char into a kept one or back |
| JavaText.NormalizeSkuIdempotent | src/main/java/com/addverb/outbound_service/inventory/InventoryClient.java:335 | trimming and lower-casing a SKU twice gives the same text as doing it once |
| JavaText.NormalizedSkuIsNormal | src/main/java/com/addverb/outbound_service/inventory/InventoryClient.java:335 | every normalised SKU is a fixed point of the normalisation |
| Domain.KeyTextInjective | src/main/java/com/addverb/outbound_service/inventory/InventoryClient.java:334-336 | two key texts (SKU, two-bar separator, price) are equal exactly when their SKU parts and their price texts are equal, because a price text holds no bar character |
| Domain.SeparatedMrpInjective | src/main/java/com/addverb/outbound_service/service/OrderServiceImpl.java:595-597 | a string joined as SKU, two-bar separator and price text determines both the SKU and the price |
| InventoryClient.BuildKeyTextEquality | src/main/java/com/addverb/outbound_service/inventory/InventoryClient.java:334-336 | two `buildKey` texts are equal exactly when the trimmed, lower-cased SKUs (empty for a null SKU) and the prices are equal |
| InventoryClient.BuildKeyOfNormalizedSku | src/main/java/com/addverb/outbound_service/inventory/InventoryClient.java:334-336 | a SKU and its normalised form give the same key |
| InventoryClient.AvailablePayload | src/main/java/com/addverb/outbound_service/inventory/InventoryClient.java:76-97 | no call is made exactly when no query is non-null with a non-blank SKU and a non-null MRP; otherwise the payload is the de-duplicated, non-empty request list |
| InventoryClient.DedupQueriesKeys | src/main/java/com/addverb/outbound_service/inventory/InventoryClient.java:80-93 | the de-duplicated requests carry exactly the keys of the queries that pass the filter |
| InventoryClient.DedupQueriesKeepsFirstOccurrences | src/main/java/com/addverb/outbound_service/inventory/InventoryClient.java:80-93 | the de-duplicated list equals an independent definition: the first occurrence of every key, in input order |
| InventoryClient.DedupQueriesDistinct | src/main/java/com/addverb/outbound_service/inventory/InventoryClient.java:80-93 | no two requests sent share a key |
| InventoryClient.CollectResponseKeepsFirst | src/main/java/com/addverb/outbound_service/inventory/InventoryClient.java:107-113 | the collected map holds, under the key of each item with a non-null SKU and MRP that comes first with its key, that item's batches (empty for a null list), and holds no other key |
| InventoryClient.GetBatchesBySkuAndMrpBulk | src/main/java/com/addverb/outbound_service/inventory/InventoryClient.java:74-117 | with nothing to ask the result is an empty map and no call; a listed reply is collected; a refused reply fails with its message; a transport error fails with "Inventory service request failed: " and its detail |
| InventoryClient.BulkQueryAnswers | src/main/java/com/addverb/outbound_service/inventory/InventoryClient.java:98-113 | when some query passes the filter and the gateway lists items, the query succeeds with exactly the first-item-per-key map |
| InventoryClient.SingleLookup | src/main/java/com/addverb/outbound_service/inventory/InventoryClient.java:67-72 | a blank SKU gets an empty list; otherwise exactly this (SKU, MRP) pair is asked for, and the answer is the batches of the first item whose normalised key matches, or an empty list when none matches |
| InventoryClient.MapFlatBatchRows | src/main/java/com/addverb/outbound_service/inventory/InventoryClient.java:251-291 | the rows emitted are one per grouped key in first-seen order, each with the SKU text before the first two-bar separator of the key, the key's price and the key's batches |
| InventoryClient.GroupRows | src/main/java/com/addverb/outbound_service/inventory/InventoryClient.java:257-275 | the loop leaves the grouped keys in first-seen order, one map entry per key in both maps, each key's batches those of its rows in input order, and its price the first row's |
| InventoryClient.GroupRow | src/main/java/com/addverb/outbound_service/inventory/InventoryClient.java:258-274 | one loop pass turns the grouping of the rows before row i into the grouping of the rows up to row i |
| InventoryClient.NoteKey | src/main/java/com/addverb/outbound_service/inventory/InventoryClient.java:262-264 | `putIfAbsent` and `computeIfAbsent` give a new key its price, an empty group and a place at the end of the key order, and change nothing for a known key |
| InventoryClient.AddRowBatch | src/main/java/com/addverb/outbound_service/inventory/InventoryClient.java:266-273 | a row with a batch number and a quantity appends its batch to its key's group; no other group changes |
| InventoryClient.GroupKeysAreTheRowKeys | src/main/java/com/addverb/outbound_service/inventory/InventoryClient.java:257-275 | a key is grouped exactly when some row with a non-blank SKU and non-null MRP has it (even if no row of it carries a batch), and each key appears once |
| InventoryClient.SkuPartOfCleanSku | src/main/java/com/addverb/outbound_service/inventory/InventoryClient.java:278-284 | splitting a key at its first two-bar separator gives back its SKU when that SKU neither holds a two-bar separator nor ends in a bar character |
| InventoryClient.GroupItemKeys | src/main/java/com/addverb/outbound_service/inventory/InventoryClient.java:277-288 | when every SKU neither holds a two-bar separator nor ends in a bar character, emitted row a reads back under grouped key a with that key's batches |
| InventoryClient.FlatRowsRoundTrip | src/main/java/com/addverb/outbound_service/inventory/InventoryClient.java:251-291 | collecting the grouped rows as a response maps every grouped row's key to exactly the batches of the rows of that key, and maps no key without a row |
| InventoryClient.DeductInventoryBulk | src/main/java/com/addverb/outbound_service/inventory/InventoryClient.java:306-330 | the lines are sent unchanged under "DEDUCT"; the call passes exactly when the gateway accepts or answers an error status with an empty body (the onStatus handler then raises nothing); a rejection with a body fails with "Inventory bulk deduction failed: " and the body, a transport error with "Inventory service request failed: " and its detail |
| Planner.SortByExpirySortsAndPermutes | src/main/java/com/addverb/outbound_service/service/OrderServiceImpl.java:267-271 | the sorted list is in non-decreasing expiry order and is a permutation of the gateway's list |
| Planner.SortByExpiryIsStable | src/main/java/com/addverb/outbound_service/service/OrderServiceImpl.java:270 | batches with the same expiry date keep the gateway's relative order |
| Planner.PlanSingle | src/main/java/com/addverb/outbound_service/service/OrderServiceImpl.java:447-475 | the loop of the single path produces exactly the lines and total of the single walk |
| Planner.SingleWalkTotal | src/main/java/com/addverb/outbound_service/service/OrderServiceImpl.java:447-475 | the total is the sum of the lines, every line is positive, and the total is min(remaining, total positive stock), or 0 when nothing remains |
| Planner.SingleWalkIsFefo | src/main/java/com/addverb/outbound_service/service/OrderServiceImpl.java:451-475 | line i takes from the i-th batch with positive stock, at most its quantity, and every line but the last empties its batch |
| Planner.SingleWalkStopsWhenMet | src/main/java/com/addverb/outbound_service/service/OrderServiceImpl.java:451-475 | a positive batch is left untouched only when the remaining quantity was fully met |
| Planner.WalkShared | src/main/java/com/addverb/outbound_service/service/OrderServiceImpl.java:284-313 | the bulk inner loop produces exactly the lines, total and availability map of the shared walk |
| Planner.SharedWalkTotal | src/main/java/com/addverb/outbound_service/service/OrderServiceImpl.java:282-313 | the total is the sum of the lines, every line is positive, and the total lies between 0 and the remaining quantity |
| Planner.SharedWalkConserves | src/main/java/com/addverb/outbound_service/service/OrderServiceImpl.java:292-309 | for every batch key, what the lines took plus what the map holds afterwards is what the map held before, or, for a key first written by this walk, the quantity of the first positive batch with that key |
| Planner.SharedWalkConservesStart | src/main/java/com/addverb/outbound_service/service/OrderServiceImpl.java:292-309 | for a key the map holds after the walk, the key's starting availability equals what is left plus what was taken |
| Planner.SharedWalkTakesOnlyWritten | src/main/java/com/addverb/outbound_service/service/OrderServiceImpl.java:292-309 | what the walk took from a key is never negative, and is zero for a key the map does not hold afterwards |
| Planner.SharedWalkKeepsNonNegative | src/main/java/com/addverb/outbound_service/service/OrderServiceImpl.java:295-309 | every value the map holds afterwards is either one the walk wrote, never negative, or the value it held before |
| Planner.SharedWalkExpiryOrder | src/main/java/com/addverb/outbound_service/service/OrderServiceImpl.java:287-313 | over sorted batches, every line carries an expiry date and the dates never decrease |
| Planner.SharedWalkIsFefo | src/main/java/com/addverb/outbound_service/service/OrderServiceImpl.java:287-313 | against an independent definition of draining (the batches in order that still have working availability once every earlier one is taken in full, with that availability), line i names the i-th drained batch with that batch's own expiry date and price, takes a positive amount no larger than its availability, and every line but the last takes all of it |
| Planner.SharedWalkStopsWhenMet | src/main/java/com/addverb/outbound_service/service/OrderServiceImpl.java:287-313 | a drained batch is left untouched only when the remaining quantity was fully met |
| Planner.SharedWalkFindsStock | src/main/java/com/addverb/outbound_service/service/OrderServiceImpl.java:287-313 | with a quantity to fill and some batch still holding working availability, the walk allocates a positive amount |
| Planner.SharedWalkExhausts | src/main/java/com/addverb/outbound_service/service/OrderServiceImpl.java:287-313 | when the walk allocates less than what remains, no batch it was given has working availability left |
| Planner.SharedWalkIdle | src/main/java/com/addverb/outbound_service/service/OrderServiceImpl.java:287-313 | a walk that allocates nothing has no lines and leaves the map as it was |
| OrderService.EntriesFor | src/main/java/com/addverb/outbound_service/service/OrderServiceImpl.java:523-536 | one ledger row per plan line, in order, with the order's SKU, the line's batch number and its quantity |
| OrderService.DeductLines | src/main/java/com/addverb/outbound_service/service/OrderServiceImpl.java:489-499 | one deduction line per plan line, with the order's SKU and price and the line's batch number and quantity |
| OrderService.RecordedStatus | src/main/java/com/addverb/outbound_service/service/OrderServiceImpl.java:538-543 | recording a positive total no larger than what remains keeps allocatedQty at most requestedQty, makes the status COMPLETED exactly when the two meet and PARTIAL otherwise, keeps a well-formed order well-formed, and appends exactly the plan's ledger rows |
| OrderService.Order.Record | src/main/java/com/addverb/outbound_service/service/OrderServiceImpl.java:523-543 | the order's new state is the old one with the plan's ledger rows appended, the total added to allocatedQty and the status rule applied |
| OrderService.AllocateOrderInternal | src/main/java/com/addverb/outbound_service/service/OrderServiceImpl.java:414-555 | a missing order raises "Order not found"; every other rejection raises its AllocationException and leaves the order unchanged; an accepted plan is recorded and returned with the new quantities and status |
| OrderService.SingleAllocationPlan | src/main/java/com/addverb/outbound_service/service/OrderServiceImpl.java:419-521 | an accepted allocation had an open order, a gateway answer, a plan that is the walk over the batches sorted by expiry, and a deduction of exactly its lines that the gateway answered with a success status or with an error status and an empty body |
| OrderService.SingleAllocationTakes | src/main/java/com/addverb/outbound_service/service/OrderServiceImpl.java:447-478 | an accepted plan's total is min(remaining, positive stock), positive and within the remaining quantity, the sum of positive lines taken from the positive batches in expiry order |
| OrderService.SingleAllocationAtomic | src/main/java/com/addverb/outbound_service/service/OrderServiceImpl.java:429-521 | a failed inventory query or a failed deduction raises that failure's message as an AllocationException, so nothing is recorded |
| OrderService.SingleAllocationRejections | src/main/java/com/addverb/outbound_service/service/OrderServiceImpl.java:419-478 | a completed order, nothing remaining, an empty batch list and no positive stock each raise their own AllocationException message |
| BulkAllocation.CountSuccessesBounds | src/main/java/com/addverb/outbound_service/service/OrderServiceImpl.java:403-404 | the success count lies between 0 and the number of results, and is 0 when all results failed |
| BulkAllocation.MissingResultsCarryEntries | src/main/java/com/addverb/outbound_service/service/OrderServiceImpl.java:151-159 | one failed result per null or blank entry, carrying the entry as given, and for no other entry |
| BulkAllocation.NormalizedOrderNumbersSpec | src/main/java/com/addverb/outbound_service/service/OrderServiceImpl.java:145-149 | the cleaned numbers are distinct and are exactly the trimmed forms of the entries that are neither null nor blank |
| BulkAllocation.NormalizedOrderNumbersInOrder | src/main/java/com/addverb/outbound_service/service/OrderServiceImpl.java:145-149 | the `LinkedHashSet` keeps first-seen order: the cleaned numbers equal an independent definition, the trimmed numbers of the entries that are the first to name their order, in request order |
| BulkAllocation.ScreenAccounts | src/main/java/com/addverb/outbound_service/service/OrderServiceImpl.java:178-212 | every screened number gets exactly one outcome: a failed result or a place in the allocatable list |
| BulkAllocation.ScreenAllocatable | src/main/java/com/addverb/outbound_service/service/OrderServiceImpl.java:178-212 | every allocatable order is stored under a screened number, is not completed and has something remaining; with distinct numbers each appears once |
| BulkAllocation.ScreenFails | src/main/java/com/addverb/outbound_service/service/OrderServiceImpl.java:178-212 | every result of the screening is a failure |
| BulkAllocation.PlanStepShape | src/main/java/com/addverb/outbound_service/service/OrderServiceImpl.java:258-335 | an order either adds one failed result or adds one plan for itself, which has a positive total within what remains, equal to the sum of positive lines in expiry order, with the matching deduction lines |
| BulkAllocation.PlanStepIsFefo | src/main/java/com/addverb/outbound_service/service/OrderServiceImpl.java:262-335 | a new plan's lines drain the order's sorted batches against the availability the earlier orders of the call left; a plan short of what remains used every batch with availability; an order with batches and something remaining fails only when none of its batches has availability left |
| BulkAllocation.PlanOrdersAccounts | src/main/java/com/addverb/outbound_service/service/OrderServiceImpl.java:256-335 | every allocatable order gets exactly one outcome: a failed result or a plan |
| BulkAllocation.PlanOrdersPlans | src/main/java/com/addverb/outbound_service/service/OrderServiceImpl.java:256-335 | every plan is valid and belongs to one of the orders, and every result of the planning is a failure |
| BulkAllocation.PlanOrdersDistinct | src/main/java/com/addverb/outbound_service/service/OrderServiceImpl.java:256-335 | distinct orders get at most one plan each |
| BulkAllocation.PlanOrdersNeverOverdraws | src/main/java/com/addverb/outbound_service/service/OrderServiceImpl.java:252-313 | the shared map never holds a negative value, and what all plans took from a batch key plus what is left is the quantity first read for it, namely the first positive batch with that key among the sorted batches of the first order whose walk wrote the key, so no batch is spent twice; a key never written was never taken from |
| BulkAllocation.BulkLookupNeedsNormalizedSku | src/main/java/com/addverb/outbound_service/service/OrderServiceImpl.java:258-282 | the bulk lookup key equals the gateway's key exactly when the stored SKU is already normalised; otherwise the order finds no batches and fails with "No valid inventory available" |
| BulkAllocation.InventoryKeysNormalized | src/main/java/com/addverb/outbound_service/inventory/InventoryClient.java:107-113 | every key of a collected inventory map carries a normalised SKU |
| BulkAllocation.CommitPlansResults | src/main/java/com/addverb/outbound_service/service/OrderServiceImpl.java:385-401 | each plan gets one result, in plan order, and it is a success exactly when its own write succeeds |
| BulkAllocation.CommitPlansKeepsOthers | src/main/java/com/addverb/outbound_service/service/OrderServiceImpl.java:385-401 | the write-back stores no new order and leaves every order without a plan as it was |
| BulkAllocation.CommitPlansIsolates | src/main/java/com/addverb/outbound_service/service/OrderServiceImpl.java:385-401 | with distinct plans for stored orders, each planned order ends recorded if its own write succeeded and unchanged otherwise, whatever happened to the others |
| BulkAllocation.CommitKeepsWellFormed | src/main/java/com/addverb/outbound_service/service/OrderServiceImpl.java:562-581 | the write-back keeps each order's requested quantity, only grows its allocated quantity up to the requested one, keeps its earlier ledger rows, and keeps a well-formed order well-formed |
| BulkAllocation.QueryFailureFailsEveryOrder | src/main/java/com/addverb/outbound_service/service/OrderServiceImpl.java:230-250 | a failed inventory query fails every allocatable order, in order, with its message, after the earlier results; nothing is stored and the success count does not change |
| BulkAllocation.DeductionFailureFailsEveryPlan | src/main/java/com/addverb/outbound_service/service/OrderServiceImpl.java:363-383 | a failed deduction fails every planned order, in plan order, with its message; no plan is recorded and the success count does not change |
| BulkAllocation.BulkResponseCounts | src/main/java/com/addverb/outbound_service/service/OrderServiceImpl.java:403-411 | on every path the response is totalOrders = number of results, successCount = successful results, failureCount = the rest |
| BulkAllocation.BulkAccounting | src/main/java/com/addverb/outbound_service/service/OrderServiceImpl.java:132-412 | the results carry exactly one entry per null or blank order number plus one per distinct cleaned order number, and nothing else |
| BulkAllocation.BulkCommitsOnlyAfterDeduction | src/main/java/com/addverb/outbound_service/service/OrderServiceImpl.java:337-403 | an order is written, or a success reported, only after the one deduction call for all plans passed |
| BulkAllocation.BulkKeepsWellFormed | src/main/java/com/addverb/outbound_service/service/OrderServiceImpl.java:132-412 | a call stores no new order, keeps each order's requested quantity and earlier ledger rows, and keeps a well-formed order well-formed |
| BulkAllocation.CollectMissing | src/main/java/com/addverb/outbound_service/service/OrderServiceImpl.java:151-159 | the loop produces exactly the missing-number results |
| BulkAllocation.ScreenOrders | src/main/java/com/addverb/outbound_service/service/OrderServiceImpl.java:171-212 | the loop produces exactly the screening of the cleaned numbers against the stored orders |
| BulkAllocation.FailAll | src/main/java/com/addverb/outbound_service/service/OrderServiceImpl.java:233-239 | one failed result per order, all with the same exception message |
| BulkAllocation.PlanAll | src/main/java/com/addverb/outbound_service/service/OrderServiceImpl.java:252-335 | the planning loop produces exactly the failures and plans of the planning specification, from an empty availability map |
| BulkAllocation.PlanOrder | src/main/java/com/addverb/outbound_service/service/OrderServiceImpl.java:258-335 | one pass of the planning loop is one step of the planning specification |
| BulkAllocation.PersistAllocationForOrder | src/main/java/com/addverb/outbound_service/service/OrderServiceImpl.java:558-593 | only the plan's order changes, to its recorded state, and the response reports that state with the plan's lines |
| BulkAllocation.CommitAll | src/main/java/com/addverb/outbound_service/service/OrderServiceImpl.java:385-401 | the loop's results and the stored orders afterwards are exactly those of the write-back specification |
| BulkAllocation.AllocateOrdersBulk | src/main/java/com/addverb/outbound_service/service/OrderServiceImpl.java:132-412 | the response and the stored orders afterwards are exactly those of the bulk specification, about which the accounting, isolation and no-overdraw lemmas above are proved |
| BulkAllocation.AllocateScreened | src/main/java/com/addverb/outbound_service/service/OrderServiceImpl.java:226-412 | from the allocatable orders on, the response and stored orders are those of the specification's query-and-plan stage |
| BulkAllocation.AllocatePlanned | src/main/java/com/addverb/outbound_service/service/OrderServiceImpl.java:337-412 | from the plans on, the response and stored orders are those of the specification's deduct-and-commit stage |

## Left out

- Integer width: quantities are unbounded integers. The source's `int` and `Integer` arithmetic (`requestedQty - allocatedQty`, the running totals) could overflow near 2^31; that is not modelled.
- Null batches, null expiry dates and null batch quantities: with two or more batches the comparator would throw a NullPointerException on a null batch or date. A null quantity throws on the single path once the walk reaches its batch (src/main/java/com/addverb/outbound_service/service/OrderServiceImpl.java:456). On the bulk path, `getOrDefault(batchKey, batch.getQuantity())` (:293) unboxes it only when the batch key is not yet in the map, so a null-quantity batch whose key an earlier batch already wrote does not throw. The model's batches are never null and always carry both.
- Null batch numbers are not modelled; a batch's number is a string. The filter that would drop them is commented out at src/main/java/com/addverb/outbound_service/service/OrderServiceImpl.java:267 and :438. In the source, `buildBatchKey` renders a null number as "null", so null-numbered batches of one SKU and price share availability with each other and with a batch numbered "null", and both paths send the null in the deduction lines and record it in the ledger.
- A null SKU on a stored order is not modelled; the order's SKU is a string. A null SKU in a query, an item or a flat row is modelled.
- `toLowerCase()` is modelled for Basic Latin and Latin-1 letters only. Other Unicode case mappings, and locale-dependent ones, are not.
- The price is an opaque `Double`. The model keeps only the text `Double.toString` gives it, which is never empty and holds no '|'. No arithmetic is done on it.
- The WebClient calls and the JSON parsing of `/available` (`callAvailableEndpoint`, `parseAvailableResponse`, `parseSkuMrpMapData`) are I/O and a foreign library. They are replaced by a reply oracle that gives parsed items, a failure message, or a transport error. The `response == null` branch of the bulk query is part of that parsing. An error status with an empty body raises nothing and parses as no items, so the oracle gives an empty item list for it.
- `mapFlatBatchRows` is modelled on the rows after Jackson's conversion. Its `parts.length != 2` guard never fires, because every key contains "||", so it has no model branch.
- InventoryClient.FlatRowsRoundTrip: assumes every normalised SKU neither holds "||" nor ends in '|'. A SKU that holds "||" or ends in '|' is split at the wrong "||" (src/main/java/com/addverb/outbound_service/inventory/InventoryClient.java:278) and read back under another key; a SKU such as "a|b" is read back correctly.
- The batch key `sku + "||" + mrp + "||" + batchNo` is modelled as that string. When SKUs or batch numbers contain "||", two different batches can share a key and so share availability; the model keeps that behaviour.
- Transactions, pessimistic locking and the `REQUIRES_NEW` propagation on the self-invoked `persistAllocationForOrder` concern concurrency and proxies. They are not modelled; the orders are read once at the start of a call. A failing write is an oracle giving the exception's message, and it leaves that order as it was. That isolation is an assumption the code as written does not give: `persistAllocationForOrder` is called on `this` (src/main/java/com/addverb/outbound_service/service/OrderServiceImpl.java:387), so its `REQUIRES_NEW` (:557) never applies; the order's quantity and status are set (:576-581) before `orderRepository.save` (:584), earlier ledger rows may already be saved, and a repository exception marks the shared transaction rollback-only. `CommitPlansIsolates` states what happens under the assumption.
- The single path's persistence failures after the deduction are not modelled. `save` is taken to succeed.
- Order lookups are modelled as lookups of the exact number. The bulk path fetches with `findByOrderNumberInForUpdate` (src/main/java/com/addverb/outbound_service/service/OrderServiceImpl.java:171) and then looks each number up exactly with `orderMap.get` (:173-180), so collation cannot change a bulk result. On the single path, `findByOrderNumber` (:416) could match case-insensitively under a SQL collation that does; that is not modelled.
- Timestamps (`LocalDateTime.now()`), UUID order numbers, order creation, the read and dashboard paths, export, auth, controllers and DTO mapping are outside the allocation engine.
- A plan line's quantity is one field, `qty`. The single path stores it in `BatchAllocationDetail.quantity` and the bulk path in `allocatedQty`, and each path's ledger reads the field it wrote. Which field a response carries it in is not modelled.
- The single path's plan lines carry no expiry date or price, as in the source. The bulk path's lines carry both.
- Methods that split one source method to keep each proof small: `AllocateScreened`, `AllocatePlanned`, `PlanOrder`, `GroupRow`, `NoteKey` and `AddRowBatch` are stages or loop bodies of `allocateOrdersBulk` and `mapFlatBatchRows`, not separate methods in the source.
- A null request list is `None`; a null `batches` list in a response item reads as empty, as in the source.
