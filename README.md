# GeoC loader and cart procedures in Dafny

GeoC is a benchmark: TPC-C extended with shopping carts and per-customer supervisors. This project models two parts of it.

The first is the dataset loader (`GeoCLoader`). For one warehouse it generates the ITEM, WAREHOUSE, STOCK, DISTRICT, CUSTOMER, _INDIVIDUAL, HISTORY, OORDER, NEW_ORDER and ORDER_LINE rows. It then runs the second pass that makes customer supervisor 1 the approver of every customer. Each table goes to the database through a prepared-statement batch.

The second is the five cart procedures. `IncreaseCartLine` adds an item to a customer's cart. `DecreaseCartLine` removes some quantity of one cart item. `CheckCart` reads the cart. `ApproveCart` turns the cart into an order with its order lines, updates stock and empties the cart. `Restock` tops up low stock for a warehouse.

Files:

- `schema.dfy`: the rows and the `Database` class. It has one field per table, `Snapshot()`, and `Install`, which commits a whole transaction at once.
- `rng.dfy`: the random stream the loader and the procedures draw from (`Rng.Source`). Each call takes the next draw and reduces it into the requested range. Strings come from oracles.
- `batching.dfy`: the prepared-statement batch (`Batching.Statement`): a pending buffer and the list of batches already submitted. It also holds the invariants of the loader's count-and-flush loops.
- `loader_rules.dfy`: the pure rules the loader follows:
  - which warehouse stocks a warehouse-specific item;
  - the nested loop's keys;
  - the line count of an order;
  - the NEW-ORDER rows;
  - the supervisor updates;
  - the ORIGINAL marker in `i_data` and `s_data`.
- `geoc_loader.dfy`: the loader itself, as imperative methods with the source's loops. This includes the in-place Sattolo shuffle of `c_ids`. The file ends with lemmas that relate the tables to each other.
- `approve_cart.dfy`, `increase_cart_line.dfy`, `decrease_cart_line.dfy`, `restock.dfy`, `check_cart.dfy`: one module per procedure.

Each procedure has two parts:

- A pure specification function over a snapshot of the tables. It returns `Effect(outcome, tables)`.
- A transaction method. It reads the database stepwise, as the Java does, and writes it with one `Install`. Its `ensures` ties the outcome and the new state to the specification function.

The outcomes are:

- `Commit`.
- `UserAbort`: the procedure's `UserAbortException`, an expected rollback.
- `Fault`: a `RuntimeException` for a row that should exist.

Neither `UserAbort` nor `Fault` writes anything.

Queries have no ORDER BY, so the database carries a scan function `scan`. The lemmas require only that `scan` returns a permutation of the matching rows (`Enumerates`), so every property holds whatever order the database returns.

Money is in integer cents. Tax and discount rates are in basis points. `i_price = randomNumber(100, 10000) / 100.0` is therefore the drawn integer itself, and a warehouse's `w_ytd` of 300000 is 30000000.

Where the code does something other than what the benchmark evidently intends, the model follows the code. The member named after each item states the consequence in its contract:

- `ApproveCart` discards the first row its cart query returns (`ListedCount`, `SingleRowCart`).
- It copies `_SCL_D_ID` into the listed line's customer field (`AsListed`).
- It writes the stock quantity back unchanged (`ApproveStock`).
- `IncreaseCartLine` keys its UPDATE by the supply warehouse (`RemoteSupplyLeavesHomeRows`).
- It inserts a new cart line even after updating one (`IncreaseDuplicatesRow`). The cart is modelled without a key, so the duplicate is kept; see "Left out".
- It ignores insufficient stock: it commits whatever the stock quantity (`IncreaseOutcomes`).
- `DecreaseCartLine` uses Java's `%`, which truncates toward zero. A negative `number` can therefore give a negative index (`NegativeNumber`).
- The loader tests its flush condition on every iteration of `loadNewOrders`, even when no row was added, so it can flush an empty batch (`NewOrderStep`, `LoadNewOrders`).
- With the shipped `configCustPerDist = 1000` there are no NEW-ORDER rows at all (`NoNewOrdersAsConfigured`).

## Model

All source paths are under `src/main/java/com/oltpbenchmark/benchmarks/geoc/`, which the table writes out in full.

| member | source | states |
|---|---|---|
| Schema.DistInfo | src/main/java/com/oltpbenchmark/benchmarks/geoc/procedures/ApproveCart.java:205-219 | getDistInfo yields a string exactly when 1 <= d <= 10, and then it is the stock row's S_DIST slot d; for any other district it is null |
| Schema.MissingRow | src/main/java/com/oltpbenchmark/benchmarks/geoc/procedures/ApproveCart.java:294-329 | no fault exactly when the customer, warehouse and district rows all exist; otherwise it is the Fault of the first missing one, checked in the order customer, warehouse, district |
| Schema.InCartQuantity | src/main/java/com/oltpbenchmark/benchmarks/geoc/procedures/IncreaseCartLine.java:181-195 | getItemInCartQuantity is 0 when customer (w, d, c) has no cart row for item i, and otherwise the quantity of one of the customer's rows for i, and of that row when it is the only one; the query matches no row exactly when the customer has none for i |
| Schema.ClearCart | src/main/java/com/oltpbenchmark/benchmarks/geoc/procedures/ApproveCart.java:197-200 | the DELETE by (w, d, c) removes every occurrence of each of the customer's cart rows and keeps every other row as often as before |
| Schema.RemoveItem | src/main/java/com/oltpbenchmark/benchmarks/geoc/procedures/DecreaseCartLine.java:114-121 | the DELETE by (w, d, c, i) removes every occurrence of each row with that key and keeps every other row as often as before |
| Schema.SetQuantity | src/main/java/com/oltpbenchmark/benchmarks/geoc/procedures/DecreaseCartLine.java:125-135 | the UPDATE by (w, d, c, i) gives every row with that key the new quantity and amount, keeps its other columns and its place, and leaves every other row as it was |
| Rng.Source.Number | src/main/java/com/oltpbenchmark/benchmarks/geoc/GeoCLoader.java:175-176 | randomNumber(lo, hi) consumes one draw and returns a value in [lo, hi] |
| Rng.Source.NextInt | src/main/java/com/oltpbenchmark/benchmarks/geoc/GeoCLoader.java:594 | nextInt(bound) consumes one draw and returns a value in [0, bound) |
| Batching.Statement.AddBatch | src/main/java/com/oltpbenchmark/benchmarks/geoc/GeoCLoader.java:195 | addBatch appends the row to the pending buffer and submits nothing |
| Batching.Statement.Flush | src/main/java/com/oltpbenchmark/benchmarks/geoc/GeoCLoader.java:199-200 | executeBatch then clearBatch submits the pending rows as one more batch and empties the buffer |
| Batching.AddStep | src/main/java/com/oltpbenchmark/benchmarks/geoc/GeoCLoader.java:306-313 | adding a row and flushing when the count reaches a multiple of batchSize keeps every submitted batch full, with the rest pending, and the rows in generation order |
| Batching.FinalFlush | src/main/java/com/oltpbenchmark/benchmarks/geoc/GeoCLoader.java:316-317 | after the unconditional final flush, every generated row is submitted once and in order; all batches but the last are full, and the last is smaller than batchSize (possibly empty) |
| Batching.BatchCount | src/main/java/com/oltpbenchmark/benchmarks/geoc/GeoCLoader.java:308-313 | during the loop the number of batches already submitted is rows / batchSize |
| Batching.LooseStep | src/main/java/com/oltpbenchmark/benchmarks/geoc/GeoCLoader.java:679-697 | one iteration of a loop that adds at most one row but tests `k != 0 && k % batchSize == 0` on every iteration keeps each submitted batch full or empty |
| Batching.LooseFinalFlush | src/main/java/com/oltpbenchmark/benchmarks/geoc/GeoCLoader.java:703-704 | after the final flush of such a loop, every row is submitted once, in order, and no batch exceeds batchSize |
| LoaderRules.Owner | src/main/java/com/oltpbenchmark/benchmarks/geoc/GeoCLoader.java:260 | the owner (i % numWarehouses) + 1 of a warehouse-specific item is a warehouse in [1, numWarehouses] |
| LoaderRules.HasStockRow | src/main/java/com/oltpbenchmark/benchmarks/geoc/GeoCLoader.java:260 | the `continue` test skips item i for warehouse w unless i > whseSpecificItems or w is the item's owner |
| LoaderRules.StockEligibility | src/main/java/com/oltpbenchmark/benchmarks/geoc/GeoCLoader.java:259-264 | warehouse w gets a stock row for item i iff i > whseSpecificItems or w is the item's owner, so a specific item is stocked in exactly one warehouse, and that warehouse does stock it |
| LoaderRules.StockedItems | src/main/java/com/oltpbenchmark/benchmarks/geoc/GeoCLoader.java:259-264 | the items loadStock keeps for w: exactly those in 1..numItems that w stocks, in increasing order |
| LoaderRules.Eligible | src/main/java/com/oltpbenchmark/benchmarks/geoc/GeoCLoader.java:733 | the item ids the rejection loop accepts: exactly those in 1..configItemCount that warehouse w stocks |
| LoaderRules.GetRandomCount | src/main/java/com/oltpbenchmark/benchmarks/geoc/GeoCLoader.java:655-664 | getRandomCount(w, c, d) is in [5, 15] |
| LoaderRules.Row | src/main/java/com/oltpbenchmark/benchmarks/geoc/GeoCLoader.java:374 | the inner loop over c visits (d, 1) .. (d, customersPerDistrict) in order, and nothing when customersPerDistrict < 1 |
| LoaderRules.KeysEnumerate | src/main/java/com/oltpbenchmark/benchmarks/geoc/GeoCLoader.java:373-374 | the nested d/c loop visits exactly the pairs with 1 <= d <= districts and 1 <= c <= customers, in strictly increasing (d, c) order |
| LoaderRules.Numbered | src/main/java/com/oltpbenchmark/benchmarks/geoc/GeoCLoader.java:724-729 | the lines of an order are numbered 1..count, each carrying the order's key |
| LoaderRules.ExpandLines | src/main/java/com/oltpbenchmark/benchmarks/geoc/GeoCLoader.java:718-729 | for distinct order keys, the lines generated for key x are exactly lines 1..count(x) of x when x is one of the keys, and none otherwise |
| LoaderRules.Iota | src/main/java/com/oltpbenchmark/benchmarks/geoc/GeoCLoader.java:586-589 | c_ids before the shuffle: n entries, entry i holding i + 1 |
| LoaderRules.NewOrdersEnumerate | src/main/java/com/oltpbenchmark/benchmarks/geoc/GeoCLoader.java:674-692 | district d gets a NEW-ORDER row exactly for the order ids 2101..customersPerDistrict, in increasing order |
| LoaderRules.AllNewOrdersEnumerate | src/main/java/com/oltpbenchmark/benchmarks/geoc/GeoCLoader.java:672-692 | the NEW-ORDER rows of warehouse w are exactly (w, d, o) with 1 <= d <= districtsPerWarehouse and 2101 <= o <= customersPerDistrict |
| LoaderRules.NoNewOrdersAsConfigured | src/main/java/com/oltpbenchmark/benchmarks/geoc/GeoCLoader.java:679 | with configCustPerDist = 1000 (GeoCConfig.java:36) the condition c >= 2101 never holds, so no NEW-ORDER row is generated |
| LoaderRules.ApplySupervisorUpdates | src/main/java/com/oltpbenchmark/benchmarks/geoc/GeoCLoader.java:500-502 | the UPDATE ... SET _C_IND_ID batch keeps the set of customers, changes only the supervisor column, and leaves customers no update names unchanged |
| LoaderRules.Supervisors | src/main/java/com/oltpbenchmark/benchmarks/geoc/GeoCLoader.java:503-510 | the second pass queues one update per (d, c) key, in loop order, each setting supervisor 1 on (w, d, c) |
| LoaderRules.SupervisedByOne | src/main/java/com/oltpbenchmark/benchmarks/geoc/GeoCLoader.java:506 | after updates that all set supervisor 1, every customer an update names has supervisor 1 |
| LoaderRules.Upper | src/main/java/com/oltpbenchmark/benchmarks/geoc/GeoCLoader.java:232 | toUpperCase keeps the length, leaves no lower-case ASCII letter, and leaves every other character unchanged |
| LoaderRules.DrawnData | src/main/java/com/oltpbenchmark/benchmarks/geoc/GeoCLoader.java:275-286 | the data rule takes three random events when the first draw exceeds 10 and five otherwise |
| LoaderRules.DrawnDataShape | src/main/java/com/oltpbenchmark/benchmarks/geoc/GeoCLoader.java:275-286 | len is in [26, 50]. With randPct > 10 the data is one random string of length argument len. Otherwise startORIGINAL is in [2, len - 8] and the data is a random prefix, then "ORIGINAL", then a random suffix |
| GeoCLoader.AddRow | src/main/java/com/oltpbenchmark/benchmarks/geoc/GeoCLoader.java:306-313 | addBatch, k++ and the conditional flush keep the batching invariant with one more row submitted or pending |
| GeoCLoader.FinishBatches | src/main/java/com/oltpbenchmark/benchmarks/geoc/GeoCLoader.java:316-317 | the final executeBatch submits every row once, in order, in full batches but the last |
| GeoCLoader.GenData | src/main/java/com/oltpbenchmark/benchmarks/geoc/GeoCLoader.java:275-286 | the s_data / i_data string and the random events it takes are those of the ORIGINAL rule (DrawnData) |
| GeoCLoader.GenText | src/main/java/com/oltpbenchmark/benchmarks/geoc/GeoCLoader.java:228 | randomStr(randomNumber(lo, hi)) takes two random events: a length draw in [lo, hi], then the string |
| GeoCLoader.GenAddress | src/main/java/com/oltpbenchmark/benchmarks/geoc/GeoCLoader.java:229-233 | the address takes seven random events; the state is the upper-cased three-character string and the zip is the given constant |
| GeoCLoader.GenItem | src/main/java/com/oltpbenchmark/benchmarks/geoc/GeoCLoader.java:169-187 | item i has id i, price 100..10000 cents, i_im_id 1..10000, and data drawn by the ORIGINAL rule |
| GeoCLoader.LoadItems | src/main/java/com/oltpbenchmark/benchmarks/geoc/GeoCLoader.java:162-215 | items 1..itemCount in order, each an item row as above; every row submitted once, in order; batches never empty and all but the last full |
| GeoCLoader.LoadWarehouse | src/main/java/com/oltpbenchmark/benchmarks/geoc/GeoCLoader.java:218-251 | warehouse w with w_ytd 300000.00, tax in [0, 0.2000], zip "123456789" and an upper-case state |
| GeoCLoader.GenStock | src/main/java/com/oltpbenchmark/benchmarks/geoc/GeoCLoader.java:266-305 | the stock row of (w, i): quantity 10..100, ytd, order and remote counts 0, data by the ORIGINAL rule, and the ten S_DIST strings drawn next |
| GeoCLoader.GenDist | src/main/java/com/oltpbenchmark/benchmarks/geoc/GeoCLoader.java:296-305 | S_DIST_01..S_DIST_10 are ten consecutive random strings of length argument 24 |
| GeoCLoader.LoadStock | src/main/java/com/oltpbenchmark/benchmarks/geoc/GeoCLoader.java:253-323 | one stock row of warehouse w for each item w stocks, in increasing item order; every row submitted once, in order, in full batches but the last |
| GeoCLoader.GenDistrict | src/main/java/com/oltpbenchmark/benchmarks/geoc/GeoCLoader.java:330-344 | district d of w with d_ytd 30000.00, tax in [0, 0.2000], d_next_o_id = configCustPerDist + 1, the fixed zip and an upper-case state |
| GeoCLoader.LoadDistricts | src/main/java/com/oltpbenchmark/benchmarks/geoc/GeoCLoader.java:325-365 | districts 1..districtsPerWarehouse in order, each a district row as above |
| GeoCLoader.GenCustomer | src/main/java/com/oltpbenchmark/benchmarks/geoc/GeoCLoader.java:377-412 | the fields of a new customer row: see the list after this table |
| GeoCLoader.LoadCustomers | src/main/java/com/oltpbenchmark/benchmarks/geoc/GeoCLoader.java:367-455 | one customer row per (d, c) of the nested loop, in loop order; every row submitted once, in order, in full batches but the last |
| GeoCLoader.LoadDistrictCustomers | src/main/java/com/oltpbenchmark/benchmarks/geoc/GeoCLoader.java:374-445 | the inner loop appends the customers (d, 1..customersPerDistrict) and keeps the batching invariant |
| GeoCLoader.LoadIndividuals | src/main/java/com/oltpbenchmark/benchmarks/geoc/GeoCLoader.java:457-495 | individuals 1..individualsPerCustomer of every customer, customer by customer in loop order, each carrying its customer's (w, d, c); batched as above |
| GeoCLoader.LoadDistrictIndividuals | src/main/java/com/oltpbenchmark/benchmarks/geoc/GeoCLoader.java:462-487 | the loop over c appends the individuals of the customers of district d, in order |
| GeoCLoader.LoadCustomerIndividuals | src/main/java/com/oltpbenchmark/benchmarks/geoc/GeoCLoader.java:463-486 | the innermost loop appends individuals 1..individualsPerCustomer of customer (d, c) |
| GeoCLoader.UpdateCustomersWithSupervisors | src/main/java/com/oltpbenchmark/benchmarks/geoc/GeoCLoader.java:497-526 | the second pass submits, once each and in order, the updates setting _C_IND_ID = 1 on every (w, d, c) of the nested loop |
| GeoCLoader.UpdateDistrictSupervisors | src/main/java/com/oltpbenchmark/benchmarks/geoc/GeoCLoader.java:504-518 | the inner loop appends the updates for the customers of district d |
| GeoCLoader.LoadCustomerHistory | src/main/java/com/oltpbenchmark/benchmarks/geoc/GeoCLoader.java:528-576 | one history row per customer, in loop order, with the customer's and district's keys, the load time and amount 10.00; batched as above |
| GeoCLoader.LoadDistrictHistory | src/main/java/com/oltpbenchmark/benchmarks/geoc/GeoCLoader.java:535-566 | the inner loop appends the history rows of district d |
| GeoCLoader.Identity | src/main/java/com/oltpbenchmark/benchmarks/geoc/GeoCLoader.java:586-589 | c_ids[i] = i + 1 for every i |
| GeoCLoader.SwapStep | src/main/java/com/oltpbenchmark/benchmarks/geoc/GeoCLoader.java:592-598 | swapping position i with one in [i+1, n-1] keeps positions 0..i free of fixed points, and the last swap leaves the last position without one too |
| GeoCLoader.Swap | src/main/java/com/oltpbenchmark/benchmarks/geoc/GeoCLoader.java:596-598 | the three assignments exchange c_ids[i] and c_ids[swapIndex] and keep the multiset of entries |
| GeoCLoader.Shuffle | src/main/java/com/oltpbenchmark/benchmarks/geoc/GeoCLoader.java:592-599 | the shuffle stays in bounds and leaves c_ids a permutation of its initial contents; starting from 1..n with n >= 2, no position i holds i + 1 |
| GeoCLoader.GenOrder | src/main/java/com/oltpbenchmark/benchmarks/geoc/GeoCLoader.java:603-617 | order id of district d: carrier in [1, 10] when id < 2101 and NULL otherwise, o_ol_cnt = getRandomCount(w, id, d), o_all_local = 1, entry date the load time |
| GeoCLoader.LoadOpenOrders | src/main/java/com/oltpbenchmark/benchmarks/geoc/GeoCLoader.java:578-653 | one order per (d, c) in loop order; order c of district d goes to customer perm_d[c-1], and each perm_d is a permutation of 1..customersPerDistrict without fixed points when that is >= 2; batched as above |
| GeoCLoader.LoadDistrictOrders | src/main/java/com/oltpbenchmark/benchmarks/geoc/GeoCLoader.java:584-643 | one district: build and shuffle c_ids, then append its orders, each assigned the shuffled customer of its position |
| GeoCLoader.LoadShuffledOrders | src/main/java/com/oltpbenchmark/benchmarks/geoc/GeoCLoader.java:601-642 | the loop over c appends order c of district d with o_c_id = c_ids[c - 1] |
| GeoCLoader.OrdersAssignCustomers | src/main/java/com/oltpbenchmark/benchmarks/geoc/GeoCLoader.java:607 | every order's customer is in 1..customersPerDistrict, and when customersPerDistrict >= 2 no order o is placed by customer o |
| GeoCLoader.LoadNewOrders | src/main/java/com/oltpbenchmark/benchmarks/geoc/GeoCLoader.java:666-710 | the rows submitted are exactly the NEW-ORDER rows of AllNewOrders, once each, in loop order, in batches of at most batchSize (some possibly empty) |
| GeoCLoader.LoadDistrictNewOrders | src/main/java/com/oltpbenchmark/benchmarks/geoc/GeoCLoader.java:674-699 | the inner loop appends district d's NEW-ORDER rows |
| GeoCLoader.NewOrderStep | src/main/java/com/oltpbenchmark/benchmarks/geoc/GeoCLoader.java:679-697 | one iteration adds the row (w, d, c) exactly when c >= 2101, then flushes when k is a nonzero multiple of batchSize; an iteration with c < 2101 while k is already such a multiple submits an empty batch |
| GeoCLoader.GenLineItem | src/main/java/com/oltpbenchmark/benchmarks/geoc/GeoCLoader.java:730-735 | when the retry loop exits, the item is in 1..configItemCount and warehouse w stocks it |
| GeoCLoader.GenLine | src/main/java/com/oltpbenchmark/benchmarks/geoc/GeoCLoader.java:725-747 | the fields of one generated order line: see the list after this table |
| GeoCLoader.LoadOrderLines | src/main/java/com/oltpbenchmark/benchmarks/geoc/GeoCLoader.java:712-786 | for each (d, c) in loop order, lines 1..getRandomCount(w, c, d), each an order line as above; batched as above |
| GeoCLoader.LoadDistrictLines | src/main/java/com/oltpbenchmark/benchmarks/geoc/GeoCLoader.java:720-775 | the loop over c appends the lines of every order of district d |
| GeoCLoader.LoadLinesOfOrder | src/main/java/com/oltpbenchmark/benchmarks/geoc/GeoCLoader.java:722-773 | the loop over l appends lines 1..count of order c |
| GeoCLoader.LinesMatchOrders | src/main/java/com/oltpbenchmark/benchmarks/geoc/GeoCLoader.java:722-729 | the lines loaded for each order are exactly lines 1..o_ol_cnt of that order, both counts coming from the same getRandomCount(w, c, d) |
| GeoCLoader.LineItemsStocked | src/main/java/com/oltpbenchmark/benchmarks/geoc/GeoCLoader.java:733-745 | every loaded order line's (supply warehouse, item) has a row in the STOCK rows loadStock generates |
| GeoCLoader.OpenOrdersAreNewOrders | src/main/java/com/oltpbenchmark/benchmarks/geoc/GeoCLoader.java:610-614 | an order's o_carrier_id is NULL iff it has a NEW-ORDER row, and every NEW-ORDER row belongs to an undelivered order |
| GeoCLoader.CustomersSupervised | src/main/java/com/oltpbenchmark/benchmarks/geoc/GeoCLoader.java:497-526 | after the second pass, every loaded customer is its loaded row with _C_IND_ID = 1, and the table holds no other customer |
| ApproveCart.SupervisorValue | src/main/java/com/oltpbenchmark/benchmarks/geoc/procedures/ApproveCart.java:331-345 | getInt reads a NULL _C_IND_ID as 0, otherwise the stored id |
| ApproveCart.AllLocal | src/main/java/com/oltpbenchmark/benchmarks/geoc/procedures/ApproveCart.java:140 | o_all_local is true iff every listed line's supply warehouse is w; an empty list counts as all local |
| ApproveCart.AsListed | src/main/java/com/oltpbenchmark/benchmarks/geoc/procedures/ApproveCart.java:360-370 | a listed line's customer field holds the row's _SCL_D_ID and its district field is 0; every other column is the row's own |
| ApproveCart.Listed | src/main/java/com/oltpbenchmark/benchmarks/geoc/procedures/ApproveCart.java:353-374 | the list has one line fewer than the rows returned: line j is row j + 1 with the customer field overwritten by _SCL_D_ID and district 0 |
| ApproveCart.ApplyStockUpdate | src/main/java/com/oltpbenchmark/benchmarks/geoc/procedures/ApproveCart.java:182-187 | a stock UPDATE adds no row and removes none |
| ApproveCart.ApplyStockUpdates | src/main/java/com/oltpbenchmark/benchmarks/geoc/procedures/ApproveCart.java:194-195 | the executed stock batch keeps the set of stock rows |
| ApproveCart.UpdateFor | src/main/java/com/oltpbenchmark/benchmarks/geoc/procedures/ApproveCart.java:174-187 | the stock update for a line names the stock row (supply warehouse, item), writes back the S_QUANTITY just read, adds the line's quantity to S_YTD, and adds 1 to S_REMOTE_CNT exactly when the supply warehouse is not w |
| ApproveCart.StockUpdates | src/main/java/com/oltpbenchmark/benchmarks/geoc/procedures/ApproveCart.java:152-187 | the loop queues one stock update per listed line |
| ApproveCart.StockUpdatesShape | src/main/java/com/oltpbenchmark/benchmarks/geoc/procedures/ApproveCart.java:152-187 | update j is UpdateFor of listed line j and the stock row it reads, in list order |
| ApproveCart.OrderLines | src/main/java/com/oltpbenchmark/benchmarks/geoc/procedures/ApproveCart.java:152-172 | the loop queues one order line per listed line |
| ApproveCart.Placed | src/main/java/com/oltpbenchmark/benchmarks/geoc/procedures/ApproveCart.java:142-200 | the writes of a commit: the district's next_o_id rises by 1, one OORDER and one NEW_ORDER row are added, ORDER_LINE grows by the number of listed lines, no stock row is added or removed, and WAREHOUSE, CUSTOMER and ITEM are untouched |
| ApproveCart.Approve | src/main/java/com/oltpbenchmark/benchmarks/geoc/procedures/ApproveCart.java:121-203 | the whole transaction on a snapshot; any outcome other than Commit leaves every table as it was |
| ApproveCart.GetShoppingCartLines | src/main/java/com/oltpbenchmark/benchmarks/geoc/procedures/ApproveCart.java:347-377 | with no matching row, UserAbort; otherwise the rows the query returns after the first, in the order returned |
| ApproveCart.ListedCount | src/main/java/com/oltpbenchmark/benchmarks/geoc/procedures/ApproveCart.java:353-374 | for a non-empty cart the list holds (matching cart rows) - 1 lines |
| ApproveCart.BatchLines | src/main/java/com/oltpbenchmark/benchmarks/geoc/procedures/ApproveCart.java:152-189 | the loop builds the order-line batch and the stock-update batch; a listed line without a stock row gives Fault |
| ApproveCart.ExecuteStockBatch | src/main/java/com/oltpbenchmark/benchmarks/geoc/procedures/ApproveCart.java:194-195 | executing the stock batch applies the updates in order |
| ApproveCart.ApproveCartTransaction | src/main/java/com/oltpbenchmark/benchmarks/geoc/procedures/ApproveCart.java:121-203 | outcome and new database state are those of Approve on the state before the call |
| ApproveCart.PlaceOrder | src/main/java/com/oltpbenchmark/benchmarks/geoc/procedures/ApproveCart.java:142-201 | the writing phase commits the placed order, or gives Fault and writes nothing when a listed line has no stock row |
| ApproveCart.Run | src/main/java/com/oltpbenchmark/benchmarks/geoc/procedures/ApproveCart.java:106-119 | a district in the terminal's range, approver id 1, and the transaction's effect |
| ApproveCart.ApproveOutcomes | src/main/java/com/oltpbenchmark/benchmarks/geoc/procedures/ApproveCart.java:124-136 | the outcomes in order and when it commits: see the list after this table |
| ApproveCart.SupervisorCheck | src/main/java/com/oltpbenchmark/benchmarks/geoc/procedures/ApproveCart.java:130-134 | with run's approver 1, a customer supervised by 1 never gives the not-supervisor rollback, and a customer with NULL _C_IND_ID always does |
| ApproveCart.ApproveOrder | src/main/java/com/oltpbenchmark/benchmarks/geoc/procedures/ApproveCart.java:128-146 | on commit, the district and order rows: see the list after this table |
| ApproveCart.OrderLinesShape | src/main/java/com/oltpbenchmark/benchmarks/geoc/procedures/ApproveCart.java:159-172 | one order line per listed line, with the order's keys, the line's number, item, amount, supply warehouse and quantity, and the district's dist-info slot |
| ApproveCart.ApproveOrderLines | src/main/java/com/oltpbenchmark/benchmarks/geoc/procedures/ApproveCart.java:152-172 | on commit ORDER_LINE gains exactly one such row per listed line, in list order, after the existing rows |
| ApproveCart.StockEffect | src/main/java/com/oltpbenchmark/benchmarks/geoc/procedures/ApproveCart.java:174-187 | the stock batch adds to each row the listed quantities for it to ytd and its number of listed lines to the order count and, for a remote warehouse, to the remote count |
| ApproveCart.ApproveStock | src/main/java/com/oltpbenchmark/benchmarks/geoc/procedures/ApproveCart.java:182-187 | on commit every stock row keeps its quantity, data and dist slots; ytd, order count and remote count rise as StockEffect says |
| ApproveCart.ApproveClearsCart | src/main/java/com/oltpbenchmark/benchmarks/geoc/procedures/ApproveCart.java:197-200 | on commit all of (w, d, c)'s cart rows are deleted, the unlisted first one included, and every other cart row is kept |
| ApproveCart.SingleRowCart | src/main/java/com/oltpbenchmark/benchmarks/geoc/procedures/ApproveCart.java:353-359 | a one-row cart commits an order with o_ol_cnt 0 and no order lines, changes no stock, and deletes the row |
| IncreaseCartLine.MaxNumber | src/main/java/com/oltpbenchmark/benchmarks/geoc/procedures/IncreaseCartLine.java:197-210 | the maximum _SCL_NUMBER of the customer's cart rows; NULL iff the customer has none |
| IncreaseCartLine.NextLineNumber | src/main/java/com/oltpbenchmark/benchmarks/geoc/procedures/IncreaseCartLine.java:197-210 | LAST_LINE + 1 exceeds every number in the customer's cart and is the maximum + 1; it is 1 for an empty cart |
| IncreaseCartLine.Increase | src/main/java/com/oltpbenchmark/benchmarks/geoc/procedures/IncreaseCartLine.java:115-167 | the whole transaction on a snapshot; any outcome other than Commit leaves every table as it was |
| IncreaseCartLine.IncreaseCartLineTransaction | src/main/java/com/oltpbenchmark/benchmarks/geoc/procedures/IncreaseCartLine.java:115-167 | outcome and new database state are those of Increase on the state before the call |
| IncreaseCartLine.Others | src/main/java/com/oltpbenchmark/benchmarks/geoc/procedures/IncreaseCartLine.java:99-101 | the warehouses the do/while accepts: 1..numWarehouses except home |
| IncreaseCartLine.ChooseSupplier | src/main/java/com/oltpbenchmark/benchmarks/geoc/procedures/IncreaseCartLine.java:96-103 | allLocal = 1 exactly when the randomNumber(1, 100) draw exceeds 1, and then the supplier is home after that one draw; otherwise the supplier is in [1, numWarehouses], and different from home when numWarehouses > 1 |
| IncreaseCartLine.DrawRequest | src/main/java/com/oltpbenchmark/benchmarks/geoc/procedures/IncreaseCartLine.java:87-108 | the district, customer, item count, item and quantity are draws 0 to 4, in Java's order; the order is local exactly when draw 5 reduced to [1, 100] exceeds 1; the item is INVALID_ITEM_ID exactly when the last randomNumber(1, 100) draw is 1, and otherwise the getItemID draw |
| IncreaseCartLine.Run | src/main/java/com/oltpbenchmark/benchmarks/geoc/procedures/IncreaseCartLine.java:84-113 | the draws as DrawRequest states them (local iff draw 5 exceeds 1; INVALID_ITEM_ID iff the last draw is 1) and the transaction's effect on them |
| IncreaseCartLine.IncreaseOutcomes | src/main/java/com/oltpbenchmark/benchmarks/geoc/procedures/IncreaseCartLine.java:119-143 | a missing customer, warehouse or district row gives its Fault, then a missing item UserAbort, then a missing stock row Fault; it commits iff none of these is missing |
| IncreaseCartLine.InvalidItemRollsBack | src/main/java/com/oltpbenchmark/benchmarks/geoc/procedures/IncreaseCartLine.java:106-108 | INVALID_ITEM_ID = -12345 is never an item, so the substituted request rolls back with UserAbort and writes nothing |
| IncreaseCartLine.IncreaseInsertsRow | src/main/java/com/oltpbenchmark/benchmarks/geoc/procedures/IncreaseCartLine.java:153-164 | on commit one cart row is appended, with keys (c, d, w, item), the supply warehouse and the delivery time |
| IncreaseCartLine.IncreaseRowValues | src/main/java/com/oltpbenchmark/benchmarks/geoc/procedures/IncreaseCartLine.java:136-149 | the new row's amount is its quantity times the item price and its dist info is the stock row's slot for d |
| IncreaseCartLine.IncreaseWritesCartOnly | src/main/java/com/oltpbenchmark/benchmarks/geoc/procedures/IncreaseCartLine.java:115-167 | only the cart table can change |
| IncreaseCartLine.IncreaseQuantity | src/main/java/com/oltpbenchmark/benchmarks/geoc/procedures/IncreaseCartLine.java:132-133 | the new quantity is the requested one, plus the quantity of a cart row for (w, d, c, item) when there is one |
| IncreaseCartLine.IncreaseLineNumber | src/main/java/com/oltpbenchmark/benchmarks/geoc/procedures/IncreaseCartLine.java:151 | the new row's number exceeds every number in the customer's cart, and is 1 when the cart was empty |
| IncreaseCartLine.IncreaseUpdatesRows | src/main/java/com/oltpbenchmark/benchmarks/geoc/procedures/IncreaseCartLine.java:139-141 | existing rows change only when the in-cart quantity is nonzero, and then exactly the rows keyed by (supply warehouse, d, c, item), which get the new quantity and amount |
| IncreaseCartLine.RemoteSupplyLeavesHomeRows | src/main/java/com/oltpbenchmark/benchmarks/geoc/procedures/IncreaseCartLine.java:140 | with a remote supplier the customer's own row for the item is never updated |
| IncreaseCartLine.IncreaseDuplicatesRow | src/main/java/com/oltpbenchmark/benchmarks/geoc/procedures/IncreaseCartLine.java:139-164 | adding an item already in the cart from home stock leaves two rows for it, both with the summed quantity |
| DecreaseCartLine.JavaRem | src/main/java/com/oltpbenchmark/benchmarks/geoc/procedures/DecreaseCartLine.java:156 | Java's `%`: equal to the Euclidean remainder for a non-negative dividend, in (-b, 0] for a negative one, and zero exactly when b divides a |
| DecreaseCartLine.ItemToDecrease | src/main/java/com/oltpbenchmark/benchmarks/geoc/procedures/DecreaseCartLine.java:138-160 | the item getItemToDecrease picks from the rows returned: see the list after this table |
| DecreaseCartLine.Decrease | src/main/java/com/oltpbenchmark/benchmarks/geoc/procedures/DecreaseCartLine.java:88-112 | the whole transaction on a snapshot; any outcome other than Commit leaves every table as it was |
| DecreaseCartLine.DecreaseItem | src/main/java/com/oltpbenchmark/benchmarks/geoc/procedures/DecreaseCartLine.java:99-110 | the phase after the item is chosen; any outcome other than Commit leaves every table as it was |
| DecreaseCartLine.GetItemToDecrease | src/main/java/com/oltpbenchmark/benchmarks/geoc/procedures/DecreaseCartLine.java:138-160 | the loop collecting scl_ids gives ItemToDecrease of the query's rows |
| DecreaseCartLine.DecreaseCartLineTransaction | src/main/java/com/oltpbenchmark/benchmarks/geoc/procedures/DecreaseCartLine.java:88-112 | outcome and new database state are those of Decrease on the state before the call |
| DecreaseCartLine.DecreaseItemTransaction | src/main/java/com/oltpbenchmark/benchmarks/geoc/procedures/DecreaseCartLine.java:99-110 | outcome and new state of the update-or-delete phase are those of DecreaseItem |
| DecreaseCartLine.Run | src/main/java/com/oltpbenchmark/benchmarks/geoc/procedures/DecreaseCartLine.java:74-86 | number in [0, 10000], removeQuantity in [1, 10], and the transaction's effect |
| DecreaseCartLine.PickedFromCart | src/main/java/com/oltpbenchmark/benchmarks/geoc/procedures/DecreaseCartLine.java:149-157 | the chosen item is the item of some cart row of (w, d, c) |
| DecreaseCartLine.DecreaseOutcomes | src/main/java/com/oltpbenchmark/benchmarks/geoc/procedures/DecreaseCartLine.java:88-112 | the outcomes and when it commits: see the list after this table |
| DecreaseCartLine.NegativeNumber | src/main/java/com/oltpbenchmark/benchmarks/geoc/procedures/DecreaseCartLine.java:156-157 | with a negative number the lookup fails iff the list size does not divide it |
| DecreaseCartLine.DecreasePicked | src/main/java/com/oltpbenchmark/benchmarks/geoc/procedures/DecreaseCartLine.java:99-104 | on commit the chosen item exists; the new quantity is some matching row's quantity minus removeQuantity; only the cart changes |
| DecreaseCartLine.DecreaseUpdates | src/main/java/com/oltpbenchmark/benchmarks/geoc/procedures/DecreaseCartLine.java:106-107 | when the new quantity is > 0, exactly the (w, d, c, item) rows get it with amount = quantity x price, and no other row changes |
| DecreaseCartLine.DecreaseDeletes | src/main/java/com/oltpbenchmark/benchmarks/geoc/procedures/DecreaseCartLine.java:108-110 | otherwise exactly the (w, d, c, item) rows are deleted and every other row is kept |
| DecreaseCartLine.RemovingAllDeletes | src/main/java/com/oltpbenchmark/benchmarks/geoc/procedures/DecreaseCartLine.java:104-110 | removing at least a line's whole quantity leaves no row for that item |
| Restock.Selected | src/main/java/com/oltpbenchmark/benchmarks/geoc/procedures/Restock.java:41-44 | the items selected are exactly warehouse w's stock rows with quantity <= threshold |
| Restock.Raised | src/main/java/com/oltpbenchmark/benchmarks/geoc/procedures/Restock.java:97-110 | the stock table keeps its rows; warehouse w's rows for the listed items gain restockQuantity in S_QUANTITY, every other column and every other row is unchanged |
| Restock.Restock | src/main/java/com/oltpbenchmark/benchmarks/geoc/procedures/Restock.java:50-72 | the whole procedure on a snapshot; any outcome other than Commit leaves every table as it was |
| Restock.GetStockInfo | src/main/java/com/oltpbenchmark/benchmarks/geoc/procedures/Restock.java:74-95 | the rows read list each selected item once, with its current quantity, in any order |
| Restock.ExecuteBatch | src/main/java/com/oltpbenchmark/benchmarks/geoc/procedures/Restock.java:108-109 | the queued UPDATEs applied in order; one naming no row changes nothing |
| Restock.WritesRaise | src/main/java/com/oltpbenchmark/benchmarks/geoc/procedures/Restock.java:101-106 | applying the updates queued for distinct listed rows raises exactly those rows by restockQuantity |
| Restock.UpdateStock | src/main/java/com/oltpbenchmark/benchmarks/geoc/procedures/Restock.java:97-111 | updateStock raises exactly the selected rows' quantity by restockQuantity |
| Restock.RestockTransaction | src/main/java/com/oltpbenchmark/benchmarks/geoc/procedures/Restock.java:50-72 | outcome and new database state are those of Restock on the state before the call |
| Restock.RestockEffect | src/main/java/com/oltpbenchmark/benchmarks/geoc/procedures/Restock.java:53-61 | commits iff some row of w is at or below the threshold, and otherwise gives UserAbort; only those rows' quantities change, by restockQuantity |
| Restock.RestockAgain | src/main/java/com/oltpbenchmark/benchmarks/geoc/procedures/Restock.java:44 | after a commit, a second call selects exactly the items the first raised whose old quantity + restockQuantity <= threshold |
| Restock.RestockSettles | src/main/java/com/oltpbenchmark/benchmarks/geoc/procedures/Restock.java:54-58 | when restockQuantity exceeds the threshold and no quantity is negative, a second call rolls back with UserAbort |
| CheckCart.GetShoppingCartLines | src/main/java/com/oltpbenchmark/benchmarks/geoc/procedures/CheckCart.java:70-101 | every row the query returns, unchanged and in the order returned |
| CheckCart.CheckCartReadsCart | src/main/java/com/oltpbenchmark/benchmarks/geoc/procedures/CheckCart.java:41-45 | the lines read are exactly (w, d, c)'s cart rows, each as often as in the cart; the result is empty iff the customer has none |
| CheckCart.Run | src/main/java/com/oltpbenchmark/benchmarks/geoc/procedures/CheckCart.java:47-68 | a district in the terminal's range and the customer's cart lines; it modifies nothing but the random stream |

Details of the rows that refer here:

- GeoCLoader.GenCustomer. Customer (w, d, c) has:
  - discount 1..5000 basis points;
  - credit "BC" when the draw is <= 10, "GC" otherwise;
  - c_last = getLastName(c - 1) for c <= 1000;
  - middle "OE", credit limit 50000.00;
  - balance -10.00, ytd 10.00, payment count 1, delivery count 0;
  - a zip ending in "11111" and an upper-case state;
  - since = the load time;
  - a NULL supervisor.
- GeoCLoader.GenLine. One order line has:
  - an item that w stocks;
  - for o < 2101, delivery date the load time and amount 0;
  - for o >= 2101, no delivery date and amount 0.01..9999.99;
  - supply warehouse w, quantity 5, and a dist-info string.
- ApproveCart.ApproveOutcomes:
  - a missing customer, warehouse or district row gives the Fault for it;
  - then a supervisor mismatch gives UserAbort;
  - then an empty cart gives UserAbort;
  - then a listed line without a stock row gives the StockNotFound Fault;
  - it commits iff all rows exist, the approver matches, the cart is non-empty and every listed line has a stock row.
- ApproveCart.ApproveOrder. On commit:
  - next_o_id rises by exactly 1 and other districts are unchanged;
  - one order is appended, with id = the old next_o_id, customer c, NULL carrier, o_ol_cnt = rows - 1 and the all-local flag;
  - one NEW-ORDER row (w, d, old next_o_id) is appended;
  - warehouses, customers and items are unchanged.
- DecreaseCartLine.ItemToDecrease:
  - UserAbort for no rows;
  - ids[number % n] for number >= 0;
  - for a negative number, ids[0] when n divides it and an index-out-of-bounds Fault otherwise;
  - always the item of a returned row.
- DecreaseCartLine.DecreaseOutcomes:
  - a missing customer, warehouse or district row gives its Fault;
  - an empty cart gives UserAbort;
  - a non-negative number never gives the index Fault;
  - once an item is chosen, it commits iff the item exists, and otherwise it is the ItemNotFound UserAbort with no table changed;
  - a commit implies a non-empty cart.

## Left out

- JDBC: connections, prepared statements, the SQL text and `getInsertStatement`. Tables are Dafny maps and sequences, and a batch is a `Batching.Statement`.
- The `SQLException` catch-and-log in every loader method, and all logging.
- The loader threads and the item `CountDownLatch` are left out: they are concurrency machinery.
- `FOR UPDATE` locking and transaction isolation are left out. Each procedure is one atomic step that installs its new state on Commit and leaves the state unchanged otherwise.
- Floating point. Prices, amounts and money columns are integer cents; tax and discount are integer basis points. `float` rounding of `_scl_quantity * i_price` is not modelled, and `numWarehouses`' `Math.round` of the scale factor is a parameter `numWarehouses >= 1`.
- Java's 32-bit `int` overflow is not modelled; all integers are unbounded.
- Timestamps from `System.currentTimeMillis` and `LocalDateTime.now()` are one opaque `now` parameter per call.
- `GeoCUtil` is not part of this model. Its `randomNumber`, `randomStr`, `randomNStr`, `getLastName`, `getNonUniformRandomLastNameForLoad`, `getCustomerID` and `getItemID` become the draws and string oracles of `Rng.Source`. Only the requested ranges are known about them.
- `Customer.hashCode` is not part of this model. getRandomCount's `new Random(customer.hashCode())` becomes the oracle `seeded`, known only to yield a count in [5, 15] for (w, c, d).
- Strings that come from the oracles (names, streets, data, dist info) are only said to come from them. Their lengths are whatever the oracle gives.
- The order of rows a query returns is an oracle, the database's `scan`. The lemmas assume only that it is a permutation of the matching rows.
- GeoCLoader.GenLineItem, LoadOrderLines and IncreaseCartLine.ChooseSupplier require a fairness property of the random stream: it keeps producing an acceptable value. Without it the retry loops need not end, and the model states only the property on exit.
- A batch size below 1, which makes `k % batchSize` throw, is excluded by the loader methods' `requires batchSize >= 1`.
- A negative customersPerDistrict, which makes `new int[customersPerDistrict]` throw, is excluded by LoadOpenOrders' `requires customersPerDistrict >= 0`.
- `configStockThreshold` and `configRestockQuantity` do not exist in `GeoCConfig.java` and are parameters of Restock.
- `ShoppingCartLine.java` has no `_scl_number` field although both ApproveCart and CheckCart read that column. The model's `CartLine` includes it.
- `toUpperCase` is modelled on ASCII letters only (`LoaderRules.Upper`).
- `Individual.equals`/`hashCode` and the other record classes' methods are left out; rows are plain values.
- The `updateDistrict` zero-row `Fault` is in the specification function only. Inside one atomic step the district read just before always exists, so the Fault cannot occur.
- getNextItemID's `UserAbort` for an empty result is not modelled as reachable: an aggregate query always returns one row, so it never fires.
- IncreaseCartLine's `if (s.s_quantity < _scl_quantity)` has an empty body and is modelled as doing nothing.
- GeoCLoader.LoadItems: loadItems counts rows since the last flush rather than in total. The contract states only that batches are non-empty and all but the last full, not how many there are.
- The helpers `stmt.executeQuery`/`rs.next` are modelled by their results only.
- The cart table's DDL is not part of this model, so no primary key on (_SCL_W_ID, _SCL_D_ID, _SCL_C_ID, _SCL_I_ID) is assumed. The cart is a bag of rows (`seq<CartLine>`). Under such a key, IncreaseCartLine's insert after an update would fail with a duplicate-key error instead of committing the second row that `IncreaseDuplicatesRow` describes.
- Python plotting scripts and the unrelated AuctionMark test are not part of this model.
