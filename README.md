# CoDeSMerch inventory and point of sale, modelled in Dafny

CoDeSMerch is the merchandise system of a student organization. It has a
product catalogue with stock levels and reorder thresholds, a point-of-sale
cart, sales events, transactions and their stock movements, sales analytics,
a demand forecast, and sign-up and sign-in with role-based access. This
project models the logic of its core files and proves properties of that
model. There is one Dafny module per source file, plus `Common`. `Common`
holds `Option`, the JavaScript truthiness helpers (`||` defaults), ASCII
case folding and trimming, prefix, suffix and substring tests, sub-lists,
and a lexicographic string order.

Remote stores (the realtime database, local storage, the sign-in directory)
are modelled as maps held by classes. The operations that change those
stores are methods that state the new contents. Reads of the clock, new
record keys and uids are parameters. So is the outcome of a remote call
wherever the model states that call's error path; the handlers whose
server-side failures are not modelled are named under "## Left out". Pure computations are functions with lemmas:
the filters, totals, tallies, decisions and messages.

| module | source |
|---|---|
| `Forecast` | `backend/app.py`: rounding, R², confidence band, residual histogram, accuracy |
| `Catalog` | the product record shared by both product routers: field merge, reorder threshold, stock status, SKU uniqueness, listing |
| `BackendProductRoutes` | `backend/src/routes/productRoutes.js` |
| `ApiProductRoutes` | `api/routes/productRoutes.js` |
| `ProductService` | `src/services/productService.ts` |
| `TransactionService` | `src/services/transactionService.ts` |
| `Pos` | `src/pages/dashboard/POS.tsx`: the cart, discount and checkout |
| `SalesAnalytics` | `src/pages/dashboard/SalesAnalytics.tsx` |
| `ActivityFeed` | `src/components/dashboard/ActivityFeed.tsx` |
| `EventService`, `EventContext` | `src/services/eventService.ts`, `src/context/EventContext.tsx` |
| `ProductsPage` | `src/pages/dashboard/Products.tsx` |
| `DashboardHeader`, `DashboardSidebar` | `src/components/dashboard/DashboardHeader.tsx`, `DashboardSidebar.tsx` |
| `BackendAuthRoutes`, `ApiAuthRoutes` | `backend/src/routes/authRoutes.js`, `api/routes/authRoutes.js` |
| `AuthMiddleware`, `Server` | `backend/src/middleware/auth.js`, `backend/src/server.js` |
| `AuthService`, `Signup` | `src/services/authService.ts`, `src/pages/Signup.tsx` |
| `GeneralSettings`, `SettingsPage` | `src/lib/utils.ts`, `src/pages/dashboard/Settings.tsx` |
| `RouteTracker` | `src/App.tsx`: the route activity tracker |
| `ExportExcel` | `src/utils/exportExcel.ts`: the sheet's layout arithmetic |

## Model

| member | source | states |
|---|---|---|
| Forecast.RoundHalfEven | backend/app.py:50-52 | Python's `round`: the result is within one half of the input, and an exact tie goes to the even neighbour |
| Forecast.RoundMonotone | backend/app.py:50-52 | rounding keeps the order of two numbers, so the rounded `lower` never exceeds the rounded `upper` |
| Forecast.R2 | backend/app.py:24-26 | `r2` is 0 when the total sum of squares is not positive, otherwise `1 - ss_res/ss_tot`, which is at most 1 |
| Forecast.ForecastTrend | backend/app.py:13-27 | an empty series gives `predicted=[]`, `next=0`, `r2=0`; otherwise the fitted values and next value are passed through and `r2 <= 1`, and `r2 = 0` for a series without variance |
| Forecast.ConstantSeriesR2Zero | backend/app.py:24-26 | a flat series reports `r2 = 0` whatever the fit |
| Forecast.PerfectFitR2One | backend/app.py:24-26 | a fit through every point of a series with variance reports `r2 = 1` |
| Forecast.Band | backend/app.py:44-45 | the band `1.96·std·max(1, horizon)` is non-negative and at least the one-step band |
| Forecast.BandMonotoneInHorizon | backend/app.py:45 | horizons 0 and 1 give the same band, and the band grows with the horizon |
| Forecast.ConfidenceRatio | backend/app.py:48 | the confidence percentage is 0 for a zero point and always lies in [0, 100] |
| Forecast.ForecastDemand | backend/app.py:29-55 | no items gives point, lower and upper 0 and "±0%" whatever the horizon; otherwise `point` is the rounded sum of the forecast, `lower` the rounded `max(0, sum - band)`, `upper` the rounded `max(lower, sum + band)`, and the confidence the rounded percentage `ConfidenceRatio(sum, band)`; so `0 <= lower <= upper` and the confidence lies in [0, 100] |
| Forecast.DemandBandHoldsPoint | backend/app.py:44-52 | when the forecast sum is not negative, `lower <= point <= upper` |
| Forecast.Residuals | backend/app.py:64-65 | one residual `actual[i] - predicted[i]` per index below `min(len(actual), len(predicted))` |
| Forecast.Bucket | backend/app.py:68 | each bucket is a multiple of 5 within 2.5 of the residual |
| Forecast.Buckets | backend/app.py:67-68 | one bucket per residual, in order, each the bucket of that residual |
| Forecast.AddToBucketFreq | backend/app.py:69 | adding one residual to bucket `b` raises the count of `b` by one and leaves every other count alone |
| Forecast.AddToBucketAscending | backend/app.py:69-70 | the bucket table stays in strictly ascending key order |
| Forecast.AddToBucketTotal | backend/app.py:69 | each residual adds exactly one to the total frequency |
| Forecast.HistOfShape | backend/app.py:66-70 | the table of a bucket list is ascending, has no zero counts, totals the list's length, and has exactly the list's buckets as keys |
| Forecast.HistOfFreq | backend/app.py:66-69 | the table records every bucket exactly as often as it occurs |
| Forecast.HistOfSummary | backend/app.py:66-70 | the histogram keys are multiples of 5, strictly ascending, with positive counts that match the occurrences and sum to the number of residuals |
| Forecast.ForecastErrors | backend/app.py:57-71 | either list empty gives `[]`; otherwise the entries are strictly ascending multiples of 5 with positive frequencies, each the number of residuals in that bucket, summing to `min(len(actual), len(predicted))` |
| Forecast.Accuracy | backend/app.py:82-85 | accuracy lies in [0, 1]; it is 0 exactly when either value is not positive, and it is 1 exactly when the two are equal and positive |
| Forecast.AccuracySymmetric | backend/app.py:83 | accuracy does not depend on which side is the forecast |
| Forecast.MeanUnit | backend/app.py:88 | the mean of values in [0, 1] is in [0, 1] |
| Forecast.ForecastCompare | backend/app.py:73-89 | one output row per input row, in input order; the average is the mean of the accuracies (0 with no rows) and lies in [0, 1] |
| Forecast.Accuracies | backend/app.py:79-86 | one accuracy per row, in row order, each computed from that row alone |
| Forecast.RowsOut | backend/app.py:79-87 | one output row per input row, in input order, each built from that row alone |
| Catalog.MergeNoFields | backend/src/routes/productRoutes.js:145-148 | merging the empty object changes nothing |
| Catalog.MergeIdempotent | backend/src/routes/productRoutes.js:145-148 | applying the same field update twice is applying it once |
| Catalog.MergeCompose | backend/src/routes/productRoutes.js:145-148 | two updates in a row equal one update by their merge, the later fields winning |
| Catalog.WithId | backend/src/routes/productRoutes.js:18-21 | a listed row always has an id, which is the key unless the stored record carries its own; no other field changes |
| Catalog.ReorderThreshold | backend/src/routes/productRoutes.js:242 | the threshold is the reorder level when that is present and non-zero, otherwise 10 |
| Catalog.StatusForStock | backend/src/routes/productRoutes.js:212 | the status is "Out of Stock" exactly when the stock is 0 and "Active" exactly when it is not |
| Catalog.PutKeepsSkuUnique | backend/src/routes/productRoutes.js:45-143 | writing a product under a key keeps SKUs unique when no other key holds its SKU |
| Catalog.SkuHoldersAtMostOne | backend/src/routes/productRoutes.js:45-56 | in a table with unique SKUs, a held SKU is held by exactly one key |
| Catalog.Rows | backend/src/routes/productRoutes.js:240-248 | every listed row comes, with its key as id, from a listed key whose product passes the filter |
| Catalog.RowsComplete | backend/src/routes/productRoutes.js:240-248 | every listed product that passes the filter appears in the listing |
| Catalog.RowsAll | backend/src/routes/productRoutes.js:14-22 | the unfiltered listing has one row per key, in listing order |
| Catalog.Stamped | backend/src/routes/productRoutes.js:60-65 | the stored record is the body with the new key as id and the clock reading as `createdAt` and `updatedAt`; every other field (name, SKU, price, stock, category, description, cost, reorder level, maximum stock, status, event) is the body's |
| Catalog.CreateSpec | backend/src/routes/productRoutes.js:33-76 | a missing or falsy name, SKU or price gives 400, and so does an SKU already held; both leave the table alone; with the required fields present and the SKU free the reply is 201 with the fresh key and the table is the old one plus the stamped record under that key; SKUs stay unique |
| Catalog.CreateAddsOne | backend/src/routes/productRoutes.js:58-67 | a successful create adds exactly one key and leaves every other record as it was |
| Catalog.GetSpec | backend/src/routes/productRoutes.js:84-101 | a missing id gives 404 exactly, with the text under `message` rather than `error`; otherwise the record with its key as id |
| BackendProductRoutes.UpdateSpec | backend/src/routes/productRoutes.js:109-155 | a missing id gives 404, and an SKU held by another key gives 400; both leave the table alone; when the id exists and the new SKU is absent or held by no other key, the reply is success and the table is the old one with that record replaced by the merge of the body and a new `updatedAt`; SKUs stay unique |
| BackendProductRoutes.UpdateAsWritten | backend/src/routes/productRoutes.js:124 | with no SKU or a non-empty SKU in the body, the route as written behaves as the corrected update |
| BackendProductRoutes.EmptySkuUpdateBreaksUniqueness | backend/src/routes/productRoutes.js:124-143 | two updates with `sku: ""` leave two products with the same SKU through the route as written; the corrected update rejects the second |
| BackendProductRoutes.DeleteSpec | backend/src/routes/productRoutes.js:163-183 | a missing id gives 404 exactly; the id is gone afterwards, every other record is kept, and SKUs stay unique |
| BackendProductRoutes.PatchStockSpec | backend/src/routes/productRoutes.js:191-227 | a non-number or negative stock gives 400 before the lookup, and a missing id gives 404; both leave the table alone; when the stock is a non-negative number and the id exists, the reply carries the stock and its status and the table is the old one with that product's stock, status (coupled to the stock) and `updatedAt` replaced and every other field kept |
| BackendProductRoutes.PatchStockKeepsSkuUnique | backend/src/routes/productRoutes.js:212-218 | a stock update changes no SKU, so a table with unique SKUs keeps them |
| BackendProductRoutes.PatchStockCouplesStatus | backend/src/routes/productRoutes.js:212-218 | after a stock update the product is "Out of Stock" exactly when its stock is 0 and "Active" exactly when it is positive |
| BackendProductRoutes.ProductStore.constructor | backend/src/routes/productRoutes.js:4 | the router starts on the products table as given |
| BackendProductRoutes.ProductStore.GetAll | backend/src/routes/productRoutes.js:12-30 | the reply lists every product once, in listing order, with its key as id |
| BackendProductRoutes.ProductStore.Create | backend/src/routes/productRoutes.js:33-81 | the reply and the new table are those of the create rules |
| BackendProductRoutes.ProductStore.Get | backend/src/routes/productRoutes.js:84-106 | the reply is that of the read rule |
| BackendProductRoutes.ProductStore.Update | backend/src/routes/productRoutes.js:109-160 | the reply and the new table are those of the corrected update rules |
| BackendProductRoutes.ProductStore.Delete | backend/src/routes/productRoutes.js:163-188 | the reply and the new table are those of the delete rules |
| BackendProductRoutes.ProductStore.PatchStock | backend/src/routes/productRoutes.js:191-232 | the reply and the new table are those of the stock rules |
| BackendProductRoutes.ProductStore.LowStockProducts | backend/src/routes/productRoutes.js:235-254 | exactly the products with `stock <= (reorderLevel \|\| 10)`, in listing order, with a count equal to the list length |
| BackendProductRoutes.ProductStore.ByCategory | backend/src/routes/productRoutes.js:262-282 | exactly the products whose category equals the argument, with a count equal to the list length |
| ApiProductRoutes.ApiUpdateSpec | api/routes/productRoutes.js:107-117 | always reports success; the body with a new `updatedAt` is merged into the node, which is created when missing, and no other record changes |
| ApiProductRoutes.ApiUpdateBreaksUniqueness | api/routes/productRoutes.js:107-117 | an update through this router can give two products the same SKU |
| ApiProductRoutes.ApiDeleteSpec | api/routes/productRoutes.js:124-131 | always reports success; exactly that key is removed and every other record is kept |
| ApiProductRoutes.ApiProductStore.constructor | api/routes/productRoutes.js:3 | the router starts on the products table as given |
| ApiProductRoutes.ApiProductStore.GetAll | api/routes/productRoutes.js:11-24 | the reply lists every product in listing order with its key as id, one row per stored product |
| Catalog.ListsCount | api/routes/productRoutes.js:14-20 | a listing that visits every key once has as many entries as the table has products |
| ApiProductRoutes.ApiProductStore.Create | api/routes/productRoutes.js:32-75 | the same required-field, duplicate-SKU and fresh-key rules as the backend router |
| ApiProductRoutes.ApiProductStore.Get | api/routes/productRoutes.js:83-100 | a missing id gives 404, otherwise the record with its key as id |
| ApiProductRoutes.ApiProductStore.Update | api/routes/productRoutes.js:107-121 | the reply and the new table are those of the unchecked update |
| ApiProductRoutes.ApiProductStore.Delete | api/routes/productRoutes.js:124-135 | the reply and the new table are those of the unchecked delete |
| ProductService.ListResult | src/services/productService.ts:34-42 | a successful answer gives its list, or `[]` when it carries none; a refusal or a thrown error gives `[]` |
| ProductService.ProductResult | src/services/productService.ts:52-60 | a product comes back only from a successful answer; a refusal or a thrown error gives null |
| ProductService.Mapped | src/services/productService.ts:79-168 | success exactly when the server answered success; the message is the server's message, the server's error or the thrown error's message, each with its default, and is never empty |
| ProductService.CreateResult | src/services/productService.ts:79-98 | a create succeeds exactly when the server says so, a success carries the new id, and the message follows the shared mapping with the create defaults |
| ProductService.StockRequest | src/services/productService.ts:175-189 | a request body is sent exactly when the new stock is not negative, and it carries that stock |
| ProductService.UpdateStockResult | src/services/productService.ts:173-212 | a negative stock fails with "Stock cannot be negative"; otherwise the answer follows the shared mapping with the stock defaults |
| ProductService.NegativeStockNeverSent | src/services/productService.ts:175-180 | a negative stock never reaches the server and fails whatever the server would have answered |
| ProductService.Matches | src/services/productService.ts:253-257 | a match means the lower-cased name, SKU or category contains the query; for a product with all three fields the result is defined and is a match exactly when one of them contains the query |
| ProductService.SearchPass | src/services/productService.ts:253-257 | without a throw, the result is the order-preserving sub-list of exactly the matching products; it throws exactly when some product lacks a field the test reaches |
| ProductService.SearchProducts | src/services/productService.ts:248-262 | the result is always an order-preserving sub-list of the products |
| ProductService.EmptySearchKeepsAll | src/services/productService.ts:251-257 | an empty query returns every product when every product has a name |
| ProductService.SearchExact | src/services/productService.ts:251-257 | when every product has all three fields, a product is found exactly when its lower-cased name, SKU or category contains the lower-cased query |
| TransactionService.SellFromStock | src/services/transactionService.ts:35-38 | a line without an event sets its product's stock to `max(0, stock - quantity)` and changes no other product and no key |
| TransactionService.SellAllSkuUnique | src/services/transactionService.ts:30-42 | selling every line keeps SKU uniqueness of the product table |
| TransactionService.SellAllStock | src/services/transactionService.ts:34-38 | a product not sold is untouched, and a sold product's stock is never negative |
| TransactionService.SellOneLine | src/services/transactionService.ts:36-37 | one sale leaves `stock - quantity` when enough is there and 0 otherwise, never below 0 |
| TransactionService.SellFromEvent | src/services/transactionService.ts:32-33 | with an event, the per-event count of that product goes down by the quantity and no other count changes |
| TransactionService.SaleMovement | src/services/transactionService.ts:40 | each line logs a "sale" movement with its quantity, the transaction's event and the note "POS checkout" |
| TransactionService.SaleMovements | src/services/transactionService.ts:30-41 | exactly one movement per line, in line order |
| TransactionService.TransactionStore.constructor | src/services/transactionService.ts:1-3 | the transactions, products, event stock and movement log start as given |
| TransactionService.TransactionStore.Create | src/services/transactionService.ts:25-48 | a failed first write returns "Failed to record transaction" and changes nothing; otherwise the transaction is stored with `createdAt` under the new key, each line changes its event or product stock as its calls answer, each line whose calls do not throw logs one sale movement, and the reply is "Transaction recorded" exactly when no line throws, else "Failed to record transaction" with the transaction stored |
| TransactionService.LineTable | src/services/transactionService.ts:35-38 | a line without an event writes `max(0, stock - quantity)` when the product is read, `max(0, -quantity)` when the read answers null, and changes nothing when the stock write is refused; other products and the keys are kept |
| TransactionService.UnreadProductZeroed | src/services/transactionService.ts:35-38 | a product whose read answers null is written with stock 0 and status "Out of Stock" by a sale of any non-negative quantity |
| TransactionService.AnyThrowsSnoc | src/services/transactionService.ts:30-42 | with one more line, the checkout fails exactly when that line or an earlier one throws |
| TransactionService.AnsweredIsSale | src/services/transactionService.ts:30-42 | with every call answered, the lines lower the product or event stock and log the movements exactly as the sale functions say |
| TransactionService.LogAsCount | src/services/transactionService.ts:40 | at most one movement per line, and exactly one per line, in order, exactly when no line throws |
| TransactionService.SellAllAsSkuUnique | src/services/transactionService.ts:34-38 | whatever the calls answer, selling the lines keeps SKUs unique |
| TransactionService.CreateAsWritten | src/services/transactionService.ts:29-47 | as written, the transaction is always stored, no movement is logged, and success is reported exactly for an empty item list |
| TransactionService.CheckoutReportedAsFailed | src/services/transactionService.ts:33-40 | every sale with a line is reported as not recorded although it was stored, and none of its movements is logged |
| TransactionService.AllTransactions | src/services/transactionService.ts:54-55 | one transaction per stored key, in entry order, each with its key as id |
| TransactionService.TransactionsByEvent | src/services/transactionService.ts:49-56 | an order-preserving sub-list of the stored transactions, each of them of that event and with its key as id |
| TransactionService.TransactionsByEventComplete | src/services/transactionService.ts:54-56 | every stored transaction of that event is returned |
| Pos.FirstEventEntry | src/pages/dashboard/POS.tsx:217-218 | the first `stockByEvent` key naming the selected event (id or name, trimmed and lower-cased), or none exactly when no key names it |
| Pos.EventStock | src/pages/dashboard/POS.tsx:215-226 | with an event selected, the shown stock is the matching key's stock; failing that it is the product's own stock when its `eventId` names the event, and 0 for a product of another event |
| Pos.WithEventStock | src/pages/dashboard/POS.tsx:216-226 | every listed product, in order, carries its event stock |
| Pos.DisplayedFacts | src/pages/dashboard/POS.tsx:195-229 | the view is an order-preserving sub-list holding exactly the products that pass the event, category and search filters; with an event selected each carries its event stock, otherwise the products are unchanged |
| Pos.NoFiltersShowsAll | src/pages/dashboard/POS.tsx:199-214 | no event, category "All" and a blank search show every product unchanged |
| Pos.Total | src/pages/dashboard/POS.tsx:267 | the total is never negative, never below `subtotal - discount`, and never above the subtotal for a non-negative discount |
| Pos.ClampDiscount | src/pages/dashboard/POS.tsx:128-131 | the discount is clamped to [0, subtotal]; an in-range input is kept and a non-number becomes 0 |
| Pos.Incremented | src/pages/dashboard/POS.tsx:234-236 | only the lines with that id gain one unit; every other line is untouched |
| Pos.ChangedLine | src/pages/dashboard/POS.tsx:255-256 | the new quantity is `max(1, min(stock, quantity + change))`: at least 1, at most the stock when the stock is at least 1, and nothing else on the line changes |
| Pos.Rescaled | src/pages/dashboard/POS.tsx:253-258 | only the line with that id gets its changed quantity |
| Pos.AddedTotals | src/pages/dashboard/POS.tsx:231-268 | adding a product raises the subtotal by its price and the item count by one, whether it adds a line or increments one |
| Pos.AddedKeepsShape | src/pages/dashboard/POS.tsx:231-249 | adding keeps line ids distinct and quantities positive; the cart grows by one line only for a new product, and other lines are unchanged |
| Pos.UpdatedFacts | src/pages/dashboard/POS.tsx:252-260 | with positive quantities the filter drops nothing, so an update changes only the line with that id and keeps ids distinct and quantities positive |
| Pos.RemovedFacts | src/pages/dashboard/POS.tsx:262-264 | removing drops exactly the lines with that id and keeps the rest in order, with distinct ids |
| Pos.IncrementedTotals | src/pages/dashboard/POS.tsx:234-268 | incrementing the one line with that id adds its price to the subtotal and one to the item count |
| Pos.Register.constructor | src/pages/dashboard/POS.tsx:266-268 | a new page has an empty cart and no discount |
| Pos.Register.AddToCart | src/pages/dashboard/POS.tsx:231-250 | the cart becomes the added cart, one line per product with positive quantities, and the subtotal rises by the product's price |
| Pos.Register.UpdateQuantity | src/pages/dashboard/POS.tsx:252-260 | the line with that id gets its clamped quantity; the cart keeps its length and every other line |
| Pos.Register.RemoveFromCart | src/pages/dashboard/POS.tsx:262-264 | no line with that id remains, and the cart is a sub-list of the old one |
| Pos.Register.SetDiscount | src/pages/dashboard/POS.tsx:128-131 | the discount becomes the clamped input and the cart is untouched |
| Pos.Register.Checkout | src/pages/dashboard/POS.tsx:270-295 | an empty cart sends nothing; otherwise one item per line is sent with the event, subtotal, total and cashier, and only a recorded transaction empties the cart and zeroes the discount |
| Pos.ItemsOf | src/pages/dashboard/POS.tsx:272-278 | one transaction item per cart line, in order |
| SalesAnalytics.Selected | src/pages/dashboard/SalesAnalytics.tsx:31 | with an event selected, exactly the transactions of that event, in order; otherwise all of them |
| SalesAnalytics.ProductIdsMembers | src/pages/dashboard/SalesAnalytics.tsx:42-47 | the ids collected are exactly those of the items |
| SalesAnalytics.Average | src/pages/dashboard/SalesAnalytics.tsx:38-40 | the average is 0 with no transactions, and otherwise times the count gives the total amount |
| SalesAnalytics.Totals | src/pages/dashboard/SalesAnalytics.tsx:37-54 | `itemsSold` is the sum of all item quantities, `avgTransaction` the average, and `productsSold` the number of distinct product ids |
| SalesAnalytics.IndexOf | src/pages/dashboard/SalesAnalytics.tsx:65 | the position of the entry for an id, or -1 exactly when there is none |
| SalesAnalytics.RecordFacts | src/pages/dashboard/SalesAnalytics.tsx:60-68 | recording an item appends a new entry for an unseen product or raises the units and price-times-quantity revenue of its entry, and changes no other entry |
| SalesAnalytics.RecordHasSale | src/pages/dashboard/SalesAnalytics.tsx:65 | after recording, the map holds its old products and the item's product, and grows only for a new one |
| SalesAnalytics.TallyShape | src/pages/dashboard/SalesAnalytics.tsx:57-69 | the map has exactly one entry per distinct product id |
| SalesAnalytics.TallyCount | src/pages/dashboard/SalesAnalytics.tsx:57-69 | the map has as many entries as there are distinct ids |
| SalesAnalytics.TallySums | src/pages/dashboard/SalesAnalytics.tsx:60-68 | each entry holds its product's summed units and revenue |
| SalesAnalytics.Insert | src/pages/dashboard/SalesAnalytics.tsx:70 | inserting adds exactly one entry |
| SalesAnalytics.SortDesc | src/pages/dashboard/SalesAnalytics.tsx:70 | the sort is a permutation of the entries |
| SalesAnalytics.SortDescDescending | src/pages/dashboard/SalesAnalytics.tsx:70 | the sorted list has revenue highest first |
| SalesAnalytics.ProductSales | src/pages/dashboard/SalesAnalytics.tsx:56-72 | the loop builds the map item by item, then sorts and keeps ten, giving the specified rows |
| SalesAnalytics.ProductSalesShape | src/pages/dashboard/SalesAnalytics.tsx:70-71 | at most ten rows (fewer only when fewer products sold), highest revenue first, one per product |
| SalesAnalytics.ProductSalesSums | src/pages/dashboard/SalesAnalytics.tsx:60-68 | every row holds its product's summed units and price-times-quantity revenue |
| SalesAnalytics.ProductSalesTop | src/pages/dashboard/SalesAnalytics.tsx:70-71 | no product left out of the ten earned more than any product kept |
| SalesAnalytics.HourLabelFacts | src/pages/dashboard/SalesAnalytics.tsx:79-84 | the clock number is 1..12; hour 0 reads 12AM and hour 12 reads 12PM; each hour's label is the one at its position in the clock-order list |
| SalesAnalytics.LabelsDistinct | src/pages/dashboard/SalesAnalytics.tsx:84 | different hours have different labels |
| SalesAnalytics.ClockRows | src/pages/dashboard/SalesAnalytics.tsx:85 | one row per label, in label order, with that label's units or 0 |
| SalesAnalytics.ByHourCounts | src/pages/dashboard/SalesAnalytics.tsx:76-83 | the tag of hour `h` collects exactly the units sold in hour `h` |
| SalesAnalytics.HourTotals | src/pages/dashboard/SalesAnalytics.tsx:76-83 | the loop fills the per-tag totals as specified |
| SalesAnalytics.Hourly | src/pages/dashboard/SalesAnalytics.tsx:74-86 | the memo computes the specified hourly rows |
| SalesAnalytics.HourlyFacts | src/pages/dashboard/SalesAnalytics.tsx:84-85 | the rows follow clock order from 12AM, all have positive units, and an hour appears, with its units, exactly when it sold something |
| ActivityFeed.Tagged | src/components/dashboard/ActivityFeed.tsx:24 | every movement of one product becomes one entry tagged with the product key, in order |
| ActivityFeed.FlatFacts | src/components/dashboard/ActivityFeed.tsx:21-25 | flattening yields one entry per stored movement, each tagged with the key it is stored under |
| ActivityFeed.FlattenStored | src/components/dashboard/ActivityFeed.tsx:17-27 | the nested loops build the flattened list |
| ActivityFeed.SaleEntry | src/components/dashboard/ActivityFeed.tsx:40 | a transaction line becomes a "sale" with its quantity, the transaction's event and `createdAt`, and the note "POS checkout"; the product id falls back to the line's name |
| ActivityFeed.LineEntries | src/components/dashboard/ActivityFeed.tsx:39-41 | one sale entry per line of a transaction, in order |
| ActivityFeed.SaleEntriesFacts | src/components/dashboard/ActivityFeed.tsx:36-42 | one sale entry per transaction line, every one a "sale" with the note "POS checkout" |
| ActivityFeed.FromTransactions | src/components/dashboard/ActivityFeed.tsx:31-44 | the nested loops build the list of sale entries |
| ActivityFeed.KeptMembers | src/components/dashboard/ActivityFeed.tsx:49 | an entry passes the filter exactly when it is in the merged list and belongs to the selected event or to none (every entry when no event is selected) |
| ActivityFeed.Merged | src/components/dashboard/ActivityFeed.tsx:48-53 | concatenating, filtering, sorting in place and slicing give the specified feed |
| ActivityFeed.MergedShape | src/components/dashboard/ActivityFeed.tsx:49-52 | at most twelve rows, fewer only when fewer pass the filter; newest first by timestamp string (missing as ""); every row from one of the two sources and of the selected event or of none |
| ActivityFeed.MergedNewest | src/components/dashboard/ActivityFeed.tsx:51-52 | a visible entry that is left out is no newer than any row shown |
| ActivityFeed.NoEventKeepsAll | src/components/dashboard/ActivityFeed.tsx:50 | without a selected event nothing is filtered out |
| ActivityFeed.KindLabel | src/components/dashboard/ActivityFeed.tsx:56-79 | the label is Sale exactly for "sale", Alert exactly for "alert", and Stock exactly for any other kind |
| EventService.GetAllEvents | src/services/eventService.ts:14-24 | a failed read gives `[]`; otherwise every stored event in entry order, each with its key as id |
| EventService.GetMostRecentActiveEvent | src/services/eventService.ts:26-37 | a failed read gives null; otherwise the active events are filtered, sorted newest first and the first is returned |
| EventService.MostRecentActiveFacts | src/services/eventService.ts:29-32 | there is a result exactly when some event is "Live" or "Upcoming"; the result is one of them, and none was created later |
| EventService.CreateEvent | src/services/eventService.ts:39-49 | a failed write gives `{success: false}` and stores nothing; otherwise the input with `createdAt` is stored under the new key |
| EventContext.Find | src/context/EventContext.tsx:20 | the first event with that id, or none exactly when no event has it |
| EventContext.EventName | src/context/EventContext.tsx:18-22 | "All Events" with no selection or when no event has the id; otherwise the found event's name, or "All Events" when it has none |
| EventContext.EventState.constructor | src/context/EventContext.tsx:15-16 | the provider starts with no events and no selection, and storage as it was |
| EventContext.EventState.SetEvent | src/context/EventContext.tsx:29-32 | the id is selected and stored, "" for none |
| EventContext.EventState.Start | src/context/EventContext.tsx:34-45 | after loading the events, a saved non-empty id wins; otherwise the most recent active event's id, or none |
| EventContext.SelectedNameIsEventName | src/context/EventContext.tsx:18-22 | selecting a loaded event shows that event's name |
| EventContext.UseEventContext | src/context/EventContext.tsx:56-59 | using the context outside a provider throws, and exactly then |
| ProductsPage.ByCategoryAndStatusFacts | src/pages/dashboard/Products.tsx:89-97 | the category and status selections keep, in order, exactly the products with that exact category and status ("all" keeps everything) |
| ProductsPage.ApplyFiltersFacts | src/pages/dashboard/Products.tsx:88-109 | the shown list is an order-preserving sub-list holding exactly the products that pass the category, status and (non-blank) search tests; the search throws exactly when such a product lacks a field it reads |
| ProductsPage.NoFiltersShowsAll | src/pages/dashboard/Products.tsx:88-119 | with the filters reset, every product is shown |
| ProductsPage.ActiveFiltersCount | src/pages/dashboard/Products.tsx:222-224 | the count is at most 2; it is 0 exactly when both selections are "all" and 2 exactly when neither is |
| ProductsPage.WithField | src/pages/dashboard/Products.tsx:121-127 | the named field takes the value and no other field changes; an unknown name changes none of the form's fields |
| ProductsPage.ValidateForm | src/pages/dashboard/Products.tsx:136-154 | the message is that of the first failing check: blank name, then blank SKU, then an empty or non-positive price, then an empty or negative stock; no message exactly when all pass |
| ProductsPage.IntOr | src/pages/dashboard/Products.tsx:189-190 | a parsed non-zero number is kept; zero and a failed parse fall back to the default |
| ProductsPage.BuildProductTextFacts | src/pages/dashboard/Products.tsx:181-185 | the built product has a trimmed name and description, the chosen category, and a trimmed SKU with no lower-case letter |
| ProductsPage.BuildProductNumberFacts | src/pages/dashboard/Products.tsx:186-191 | the cost is 0 when blank; the reorder level and maximum fall back to 10 and 100 for 0 or a failed parse; the status is "Active" exactly for a positive stock and "Out of Stock" otherwise |
| ProductsPage.ValidFormBuildsValidProduct | src/pages/dashboard/Products.tsx:136-192 | a form that passes validation builds a product with a non-empty name and SKU, a positive price and a non-negative stock |
| ProductsPage.Page.constructor | src/pages/dashboard/Products.tsx:59-69 | the page starts with no products, "all"/"all"/"" filters and the empty form |
| ProductsPage.Page.ResetFilters | src/pages/dashboard/Products.tsx:115-119 | the filters become all/all/"" and the active-filter count becomes 0; nothing else changes |
| ProductsPage.Page.Refilter | src/pages/dashboard/Products.tsx:77-109 | the shown list becomes the filtered list, or stays as it was when the search throws (see "## Left out") |
| ProductsPage.Page.HandleInputChange | src/pages/dashboard/Products.tsx:121-127 | only the named field of the form changes |
| ProductsPage.Page.HandleCategoryChange | src/pages/dashboard/Products.tsx:129-134 | only the form's category changes |
| ProductsPage.Page.ResetForm | src/pages/dashboard/Products.tsx:156-168 | the form becomes the empty form (category "Shirts", reorder level "10", maximum "100") |
| ProductsPage.Page.HandleAddProduct | src/pages/dashboard/Products.tsx:170-207 | a failing form shows its message and sends nothing; otherwise the built product is sent, and only a successful create closes the dialog and clears the form |
| DashboardHeader.ToItem | src/components/dashboard/DashboardHeader.tsx:32 | the notification item keeps the key, stock and reorder level |
| DashboardHeader.Items | src/components/dashboard/DashboardHeader.tsx:31-32 | one item per stored product, in entry order |
| DashboardHeader.LowStockFacts | src/components/dashboard/DashboardHeader.tsx:28-157 | nothing stored gives `[]`; otherwise exactly the stored products with `(stock ?? 0) <= (reorderLevel ?? 10)`, in order |
| DashboardHeader.ZeroReorderLevelKept | src/components/dashboard/DashboardHeader.tsx:33-157 | a reorder level of 0 stays 0, so only a stock of 0 or less is then low |
| DashboardHeader.MenuEntries | src/components/dashboard/DashboardHeader.tsx:211 | nothing while loading; otherwise the first six low-stock items (fewer when there are fewer) |
| DashboardHeader.TitleByRole | src/components/dashboard/DashboardHeader.tsx:60-65 | the title is "Super Admin's Profile" exactly for super_admin, "Admin User Profile" exactly for the five admin roles, and the member title otherwise, comparing lower-cased |
| DashboardHeader.RoleLabel | src/components/dashboard/DashboardHeader.tsx:236-241 | the label is Super Admin, Admin or Member by the same three-way split |
| DashboardHeader.TitleAgreesWithLabel | src/components/dashboard/DashboardHeader.tsx:60-241 | the dialog title and the role label always name the same tier |
| DashboardHeader.RoleIgnoresCase | src/components/dashboard/DashboardHeader.tsx:61 | the title and label ignore letter case |
| DashboardHeader.Initials | src/components/dashboard/DashboardHeader.tsx:230 | the initials are never empty and contain no space |
| DashboardHeader.FirstCharsOfSplit | src/components/dashboard/DashboardHeader.tsx:230 | the first characters of the space-separated words are empty exactly when the text is all spaces; a text starting with a non-space starts its initials with that character |
| DashboardHeader.InitialsFacts | src/components/dashboard/DashboardHeader.tsx:230-270 | "CO" is shown because the words give nothing exactly when the name (or e-mail) text is all spaces; otherwise the initials start with the text's first character |
| DashboardHeader.AvatarExt | src/components/dashboard/DashboardHeader.tsx:102 | png exactly when the type contains png; webp exactly when it contains webp and not png; jpg otherwise, including a missing type |
| DashboardHeader.ProfilePath | src/components/dashboard/DashboardHeader.tsx:103 | the path is `profiles/<uid>.` followed by the extension |
| DashboardHeader.AvatarUrl | src/components/dashboard/DashboardHeader.tsx:97-133 | no URL without a chosen file; otherwise the storage bucket's URL, else the upload endpoint's, else the preview; never an empty URL |
| DashboardHeader.Updates | src/components/dashboard/DashboardHeader.tsx:134-135 | the update always carries name and phone, and the avatar exactly when there is one |
| DashboardHeader.Header.constructor | src/components/dashboard/DashboardHeader.tsx:20-53 | the header opens with the stored user, an empty notification list and the profile dialog closed |
| DashboardHeader.Header.Refresh | src/components/dashboard/DashboardHeader.tsx:149-163 | the notification list becomes the low-stock list of the snapshot, every item in it low |
| DashboardHeader.Header.SaveProfile | src/components/dashboard/DashboardHeader.tsx:93-147 | nothing is written without a signed-in uid; otherwise the update is sent, and a successful write updates the local user's name, phone and avatar and closes the dialog, while a failed one changes nothing |
| DashboardSidebar.RoleOf | src/components/dashboard/DashboardSidebar.tsx:87 | a missing or empty role reads as "member"; any other role is compared lower-cased |
| DashboardSidebar.SectionItemsMembers | src/components/dashboard/DashboardSidebar.tsx:89-95 | an item stays in its section exactly when it passes the member filter and the team gate |
| DashboardSidebar.MapSectionsAt | src/components/dashboard/DashboardSidebar.tsx:93-95 | every section keeps its place and name and gets its filtered items |
| DashboardSidebar.VisibleFacts | src/components/dashboard/DashboardSidebar.tsx:89-96 | every shown section has items; every shown item comes from the same-named section and passes both filters, so a member sees only allowed ids and never "team"; every item passing both filters is shown; section order is preserved |
| DashboardSidebar.NonMemberKeepsItems | src/components/dashboard/DashboardSidebar.tsx:89-95 | a role other than member keeps a section's items as they are |
| DashboardSidebar.NonMemberSeesAll | src/components/dashboard/DashboardSidebar.tsx:89-96 | any role other than member sees the whole navigation |
| DashboardSidebar.MemberView | src/components/dashboard/DashboardSidebar.tsx:87-96 | a member, or a user without a role, sees three sections holding only dashboard, products and events |
| DashboardSidebar.Click | src/components/dashboard/DashboardSidebar.tsx:112-115 | clicking makes the item's id the active section, so exactly the items with that id are highlighted |
| BackendAuthRoutes.NewProfile | backend/src/routes/authRoutes.js:39-52 | the stored profile defaults the role to member, student id and phone to "", the status to active and the system role to officer, with the fixed organization and department and both stamps the same |
| BackendAuthRoutes.RegisterError | backend/src/routes/authRoutes.js:61-82 | email-already-exists and invalid-password give 400 with their messages, each exactly for its code; any other code gives 500 with the error's message |
| BackendAuthRoutes.AuthBackend.constructor | backend/src/routes/authRoutes.js:3 | the router starts on the given directory and users table |
| BackendAuthRoutes.AuthBackend.Register | backend/src/routes/authRoutes.js:11-83 | missing fields, then a non-UMTC e-mail, give 400 before anything is written; an error thrown by the directory is mapped by `RegisterError` and changes nothing; otherwise the account is made under the new uid, and then either the profile write throws (its error is mapped and the account stays without a profile) or the default profile is stored and the reply is success, exactly in that case |
| BackendAuthRoutes.AuthBackend.Login | backend/src/routes/authRoutes.js:86-151 | 400 without an e-mail, 404 for an unknown account or a missing profile, 403 for a status other than active, each changing nothing; only then is `lastActive` stamped and the user returned with `systemRole` defaulting to officer |
| BackendAuthRoutes.AuthBackend.GetProfile | backend/src/routes/authRoutes.js:154-176 | the stored record, or 404 when there is none |
| BackendAuthRoutes.AuthBackend.Logout | backend/src/routes/authRoutes.js:179-199 | always reports success; `lastActive` is written only when a uid is given |
| ApiAuthRoutes.NormalizeAllAt | api/routes/authRoutes.js:28 | every allow-list entry is trimmed and lower-cased, one result per entry, in order |
| ApiAuthRoutes.Entries | api/routes/authRoutes.js:26-27 | splitting the setting at commas leaves no comma inside an entry |
| ApiAuthRoutes.AllowedDomainsFacts | api/routes/authRoutes.js:26-29 | a domain is allowed exactly when it is non-empty and the trimmed, lower-cased form of some comma-separated entry |
| ApiAuthRoutes.AllowedDomainsShape | api/routes/authRoutes.js:26-29 | every allowed domain is already lower case and holds no comma |
| ApiAuthRoutes.SomeDomainMeans | api/routes/authRoutes.js:32 | the e-mail is accepted exactly when its lower-cased form ends with "@" followed by some allowed domain |
| ApiAuthRoutes.DomainGateFacts | api/routes/authRoutes.js:30-35 | without the setting every e-mail passes the domain gate, and the gate ignores the e-mail's letter case |
| ApiAuthRoutes.Decide | api/routes/authRoutes.js:54-70 | the president becomes an active super admin; a request for any role but member is stored as a pending member holding the request; anyone else is active with the requested role (member by default) |
| ApiAuthRoutes.DecisionStatus | api/routes/authRoutes.js:57-70 | the status is pending exactly when approval is needed, the system role is super_admin exactly for the president, and the status is always active or pending |
| ApiAuthRoutes.MakeProfile | api/routes/authRoutes.js:59-73 | the stored profile carries the decided role, request, status and system role, the given identity fields, "" for a missing student id or phone, the fixed organization and department, and both stamps from the clock reading `now` |
| ApiAuthRoutes.MemberNeedsNoApproval | api/routes/authRoutes.js:56-57 | asking for no role or for member (in any letter case) never needs approval |
| ApiAuthRoutes.RegisteredMessageTells | api/routes/authRoutes.js:88 | the success message says approval is required exactly when it is needed |
| ApiAuthRoutes.ForgotPassword | api/routes/authRoutes.js:132-144 | a missing e-mail answers 400 "Email required" and only then; a failed link answers 500 with its message; otherwise the link is reported sent |
| ApiAuthRoutes.AuthApi.constructor | api/routes/authRoutes.js:13 | the directory accounts and the users table start as given |
| ApiAuthRoutes.AuthApi.Register | api/routes/authRoutes.js:13-122 | 400 for a missing field, then 400 naming the allowed domains; success exactly when the checks pass and the account exists or is created; then the account maps the e-mail to its uid and the profile is written whole under it; every failure leaves both tables unchanged |
| AuthMiddleware.BearerToken | backend/src/middleware/auth.js:5-7 | a non-empty token comes only from a header that is exactly "Bearer", a space, and that token, which holds no space |
| AuthMiddleware.BearerRoundTrip | backend/src/middleware/auth.js:5-7 | any non-empty token without spaces is read back from "Bearer " followed by it |
| AuthMiddleware.OtherSchemesRejected | backend/src/middleware/auth.js:7 | a header with any other first word yields no token |
| AuthMiddleware.PresidentIsSuper | backend/src/middleware/auth.js:22-23 | the configured president passes the super-admin test whatever the stored record says |
| AuthMiddleware.FreshProfileSuperIffPresident | backend/src/middleware/auth.js:22-23 | a profile just stored by the backend's register route is a super admin exactly when its e-mail is the president's |
| AuthMiddleware.Request.constructor | backend/src/middleware/auth.js:3 | a request starts with no user on it |
| AuthMiddleware.Request.VerifyToken | backend/src/middleware/auth.js:3-15 | 401 without a bearer token, 401 for a token the verifier rejects, and otherwise the request carries the verified uid and e-mail ("" when absent) and passes on; a rejection leaves the request's user unchanged |
| AuthMiddleware.Request.RequireSuperAdmin | backend/src/middleware/auth.js:17-29 | 401 without a uid, 500 with the message of a failed read, and otherwise the request passes exactly for a super admin and gets 403 otherwise |
| Server.Entries | backend/src/server.js:11 | splitting the setting at commas leaves no comma inside an entry |
| Server.TrimAll | backend/src/server.js:11 | every origin entry is trimmed, one result per entry, in order |
| Server.AllowedOriginsFacts | backend/src/server.js:11 | an origin is listed exactly when it is non-empty and the trimmed form of some comma-separated entry |
| Server.AllowedOriginsShape | backend/src/server.js:11 | every listed origin is non-empty, holds no comma and neither starts nor ends with white space |
| Server.Cors | backend/src/server.js:13-18 | a refused origin always gets the "Not allowed by CORS" error |
| Server.CorsFacts | backend/src/server.js:11-18 | an origin passes exactly when the request has none, every entry of the setting is blank, or it equals an entry once that entry is trimmed |
| Server.AllowListEmpty | backend/src/server.js:11-15 | the allow-list is empty exactly when every entry is blank after trimming |
| Server.NoSettingAllowsAll | backend/src/server.js:11-15 | without the setting every origin passes |
| Server.MalformedOriginDenied | backend/src/server.js:16-17 | with a non-empty allow-list, an origin holding a comma or padded with white space is always refused |
| Server.RouteNotFound | backend/src/server.js:51-53 | the catch-all reply is a 404 whose message starts "Route not found: " and ends with the URL |
| Server.RouteNotFoundInjective | backend/src/server.js:52 | two requests with space-free methods get the same 404 reply only when method and URL are both the same |
| GeneralSettings.GetGeneralSettings | src/lib/utils.ts:10-22 | nothing stored gives PHP in Asia/Manila; otherwise the currency is USD exactly when the stored currency text contains "USD", and the timezone is the stored one unless missing or empty; the timezone is never empty |
| GeneralSettings.Locale | src/lib/utils.ts:24-27 | USD formats in en-US and PHP in en-PH, and only those |
| GeneralSettings.CurrencyChoicesReadBack | src/lib/utils.ts:16 | each of the two currency codes reads back as itself |
| GeneralSettings.PhpLacksUsd | src/lib/utils.ts:16 | "PHP" does not contain "USD", so it never reads as USD |
| GeneralSettings.UsdAnywhere | src/lib/utils.ts:16-26 | any stored currency text with "USD" anywhere in it formats in en-US |
| SettingsPage.Merge | src/pages/dashboard/Settings.tsx:22-42 | each key present in the object replaces that field and each absent key keeps the previous value |
| SettingsPage.MergeLaws | src/pages/dashboard/Settings.tsx:22-42 | merging no keys changes nothing, merging a full stored copy gives that copy, merging is idempotent, and two merges are one merge with the later keys winning |
| SettingsPage.Initial | src/pages/dashboard/Settings.tsx:16-26 | nothing stored gives the defaults; a stored object overrides the defaults key by key |
| SettingsPage.Theme | src/pages/dashboard/Settings.tsx:51-58 | the theme is dark exactly when dark mode is on and light exactly when it is off |
| SettingsPage.Page.constructor | src/pages/dashboard/Settings.tsx:17-52 | the page opens with the initial settings, written to storage and the theme |
| SettingsPage.Page.Persist | src/pages/dashboard/Settings.tsx:49-52 | storage then holds the full current settings and the theme follows dark mode; the settings are unchanged |
| SettingsPage.Page.LoadRemote | src/pages/dashboard/Settings.tsx:29-47 | a stored database copy overrides the keys it has; after a failed read the storage copy does; otherwise nothing changes; storage and theme stay in step |
| SettingsPage.Page.SetDarkMode | src/pages/dashboard/Settings.tsx:89 | only dark mode changes, and the theme follows it |
| SettingsPage.Page.SetAnimations | src/pages/dashboard/Settings.tsx:97 | only the animations switch changes |
| SettingsPage.Page.SetCurrency | src/pages/dashboard/Settings.tsx:102 | only the currency changes |
| SettingsPage.Page.SetTimezone | src/pages/dashboard/Settings.tsx:115 | only the timezone changes |
| SettingsPage.Page.SaveGeneral | src/pages/dashboard/Settings.tsx:54-61 | a successful save puts the current settings in the database with the saved toast; a failed one leaves the database unchanged with the failure toast; the settings never change |
| SettingsPage.StoredSettingsReadBack | src/pages/dashboard/Settings.tsx:50 | settings the page stores with either currency read back elsewhere as that currency and the chosen timezone (the default when empty) |
| AuthService.NewUserData | src/services/authService.ts:50-60 | the profile copies the identity fields, stamps now, and falls back to "" for phone and to the fixed organization and department, which are never empty |
| AuthService.RegisterErrorMessage | src/services/authService.ts:89-97 | each of the three known codes gets its own message and every other failure the generic one |
| AuthService.LoginErrorMessage | src/services/authService.ts:134-142 | an unknown user and a wrong password share one message, the invalid-e-mail and too-many-requests codes get their own, everything else the generic one |
| AuthService.Session.constructor | src/services/authService.ts:36 | the users table and the stored user start as given |
| AuthService.Session.Register | src/services/authService.ts:38-104 | success exactly when the account is made and the profile written; then the new profile is stored under the new uid and returned; a failure maps its code to a message and stores nothing; the signed-in user never changes |
| AuthService.Session.Login | src/services/authService.ts:107-149 | a failed sign-in maps its code; a user without a profile fails with the generic message; otherwise the profile becomes the stored user and is returned, so a successful login leaves the session authenticated |
| AuthService.Session.Logout | src/services/authService.ts:152-160 | a successful sign-out removes the stored user and leaves the session unauthenticated; a failed one is passed on and removes nothing |
| Signup.WithInput | src/pages/Signup.tsx:37-42 | the field named by the input id takes the value and no other field changes; an unknown id changes nothing the page reads |
| Signup.WithRole | src/pages/Signup.tsx:44-49 | the role takes the value and every other field is kept |
| Signup.Validate | src/pages/Signup.tsx:54-78 | the checks run in order (required fields, UMTC address, six-character password, matching confirmation, agreement) and each message appears exactly when every earlier check passes and its own fails; none appears exactly when all pass |
| Signup.Submit | src/pages/Signup.tsx:51-92 | the form is sent exactly when every check passes, with the form's fields and the fixed organization and department; otherwise the first failing message is shown |
| Signup.SubmittedProfile | src/pages/Signup.tsx:55-92 | a profile registered from a sent form has every required field, a UMTC address, a password of at least six characters and the fixed organization and department |
| Signup.ConfirmOnlyAffectsMatch | src/pages/Signup.tsx:55-73 | editing the confirmation field cannot change an earlier check's message |
| RouteTracker.TrackedFacts | src/App.tsx:27-37 | users without a system role and members are never tracked, and the role test ignores letter case |
| RouteTracker.Changes | src/App.tsx:43 | the effect runs for the first path and ends on the last, never more often than paths are visited |
| RouteTracker.ChangesFacts | src/App.tsx:43 | no path is logged twice in a row, and the logged paths are visited paths in visiting order |
| RouteTracker.Entries | src/App.tsx:40-41 | one log entry per path, holding that path and its stamp |
| RouteTracker.StepChanges | src/App.tsx:43 | one more visited path adds one entry exactly when it differs from the previous one |
| RouteTracker.Tracker.constructor | src/App.tsx:20-21 | the activity logs and last-active stamps start as given |
| RouteTracker.Tracker.OnPath | src/App.tsx:23-43 | without a user or for an untracked role nothing is written; otherwise the user's log grows by exactly one entry for the path and their last-active stamp is set |
| RouteTracker.Tracker.Visit | src/App.tsx:23-43 | over a run of visits a tracked user's log grows by exactly the entries of the path changes, no other log changes, and the user's `lastActiveAt` ends at the stamp of the last change; an untracked user or an empty run writes nothing |
| ExportExcel.StripXlsx | src/utils/exportExcel.ts:38 | a name ending in ".xlsx" in any letter case loses exactly those five characters; any other name is kept |
| ExportExcel.StripXlsxRoundTrip | src/utils/exportExcel.ts:38 | appending ".xlsx" or ".XLSX" to a base and stripping gives the base back |
| ExportExcel.TitleText | src/utils/exportExcel.ts:38 | a non-empty title is used as given; otherwise the file name without its extension |
| ExportExcel.DownloadName | src/utils/exportExcel.ts:160 | the download name always ends in ".xlsx", equals the file name exactly when that already does, and otherwise appends it |
| ExportExcel.DownloadNameFacts | src/utils/exportExcel.ts:38-160 | naming is idempotent, and stripping an added extension gives the file name back |
| ExportExcel.UpperCaseExtension | src/utils/exportExcel.ts:38-160 | "Report.XLSX" is titled "Report" but downloaded as "Report.XLSX.xlsx" |
| ExportExcel.HeaderRow | src/utils/exportExcel.ts:34-57 | the header sits on row 3 exactly when there is a subtitle and on row 2 otherwise |
| ExportExcel.TotalCols | src/utils/exportExcel.ts:39-40 | the title spans the columns plus the optional title column, and at least one |
| ExportExcel.EffectiveColumns | src/utils/exportExcel.ts:60-62 | the title column ("Title" unless named) comes first and the given columns follow unchanged; without it the columns are as given; never more than the title spans |
| ExportExcel.InitialWidth | src/utils/exportExcel.ts:64 | a column keeps a non-zero width it was given and gets 18 otherwise |
| ExportExcel.NormalizeCell | src/utils/exportExcel.ts:92-101 | a missing value becomes empty text, dates, numbers, booleans and text are kept, anything else becomes its text |
| ExportExcel.NormalizeCellStable | src/utils/exportExcel.ts:92-101 | normalising an already normalised cell gives the same cell |
| ExportExcel.RowObject | src/utils/exportExcel.ts:85-102 | the row object has exactly the column keys, each holding the title text in the title column and the normalised value elsewhere |
| ExportExcel.Body | src/utils/exportExcel.ts:84-115 | one body row per record with exactly the column keys and their cells, striped exactly on even positions, so neighbouring rows never share their striping |
| ExportExcel.Longest | src/utils/exportExcel.ts:147-150 | the longest cell length bounds every length and is one of them (0 for no cells) |
| ExportExcel.FitWidth | src/utils/exportExcel.ts:146-151 | the fitted width lies in 10..24, fits every cell's capped request, and is the largest request clamped to that range |
| ExportExcel.ColumnWidths | src/utils/exportExcel.ts:64-153 | with auto-fit on (the default) every column gets its fitted width; with it off each keeps its initial width |

## Left out

- Letter case and white space: `toLowerCase`, `toUpperCase` and `trim` are modelled on ASCII letters and on ASCII white space plus the no-break space and the byte-order mark. Unicode case folding is not modelled.
- `localeCompare` is modelled as code-unit lexicographic order. This agrees with it on the ISO timestamps that are compared.
- Floating point: prices, totals and forecasts are exact reals or integers. Rounding to the displayed digits (`toFixed`, `"{:.1f}"`) is not modelled. The forecast returns the number that would be formatted.
- Forecast: the least-squares fit and the standard deviation come from numpy. They are inputs (fitted values, future predictions, a non-negative deviation), not computed.
- Forecast: the HTTP layer of the service (Flask request parsing and JSON replies) is not modelled.
- The database, local storage, the sign-in directory and `fetch` are modelled as maps. Where a failed call is modelled, its outcome is a boolean, error-text or thrown-error parameter.
- BackendProductRoutes.ProductStore: GetAll, Create, Get, Update, Delete, PatchStock, LowStockProducts and ByCategory have no failure parameter. A database read or write that throws is answered 500 with the error's message (`backend/src/routes/productRoutes.js:26-29`, `77-80`, `102-105`, `156-159`, `184-187`, `228-231`, `255-258`, `283-286`); that path is not modelled.
- ApiProductRoutes.ApiProductStore: GetAll, Create, Get, Update and Delete have no failure parameter. The 500 reply for a database call that throws (`api/routes/productRoutes.js:25-28`, `76-79`, `101-104`, `118-121`, `132-135`) is not modelled.
- BackendAuthRoutes.AuthBackend: Login, GetProfile and Logout have no failure parameter. The 500 reply with the error's message (`backend/src/routes/authRoutes.js:146-149`, `169-175`, `192-198`) is not modelled; Login's 404 for an unknown e-mail is.
- BackendAuthRoutes.AuthBackend.Register: the directory's own checks (a password that is too short, an e-mail already taken) are not computed. Its outcome is the `createError` parameter, and when it is absent the account is made under `newUid` whatever the directory holds.
- Catalog.Stamped and Catalog.CreateSpec: `createdAt` and `updatedAt` come from two reads of the clock (`backend/src/routes/productRoutes.js:63-64`, and `api/routes/productRoutes.js:62-63` for the other router). The model reads it once, so both get the same `now`. The same holds for `createdAt` and `lastActive` in BackendAuthRoutes.NewProfile and in ApiAuthRoutes.MakeProfile (`api/routes/authRoutes.js:71-72` reads the clock twice too).
- ProductsPage.Page.Refilter: when a product lacks a name, SKU or category, `applyFilters` throws a TypeError from `toLowerCase` (`src/pages/dashboard/Products.tsx:99-105`). The throw escapes the effect (lines 76-78) and the page fails. The model keeps the previous list instead.
- ProductService.EmptySearchKeepsAll: proved only when every product has a name. With a nameless product the search throws, and `src/services/productService.ts:258-261` catches it and returns `[]`, as ProductService.SearchProducts states.
- Pos.Shown: the search filter calls `toLowerCase` on the name and the SKU (`src/pages/dashboard/POS.tsx:213`), which throws for a product without them. The model treats a missing name or SKU as empty text.
- Pos.Register.AddToCart: the page adds a product without checking its id, name or price (`src/pages/dashboard/POS.tsx:231-249`). The model requires all three, as does Pos.NewLine, so a cart line with an undefined name or price is not modelled.
- SalesAnalytics.HourTotals, SalesAnalytics.ByHour and SalesAnalytics.Hourly: each transaction's hour is an input in 0..23. A `createdAt` that does not parse gives `NaN` and the tag "NaNPM", which no clock label lists, so its units are dropped; the model does not take such transactions.
- The order in which the database lists a table is an input sequence. JavaScript's own ordering of integer-like object keys is not modelled.
- `Promise.all` and other concurrency: the calls run one after another in the model, so interleavings are not covered. In TransactionService.TransactionStore.Create every line takes effect even when another line throws, and the final state after all promises settle is what is stated; the moment `create` answers, before the other lines finish, is not modelled.
- TransactionService.TransactionStore.Create: a per-event call that throws changes nothing, and a movement write that throws (the `MovementThrows` outcome) keeps the line's stock change and logs no movement. Whether a throwing write reached the database before it threw is not modelled.
- Catalog.Product and BackendProductRoutes.PatchStockSpec: stock is an integer. The stock endpoint accepts any non-negative JSON number (`backend/src/routes/productRoutes.js:196`), so a fractional stock such as 2.5 is stored with status "Active"; fractional stock is not modelled.
- Clocks, push keys and uids: `new Date()`, `serverTimestamp()`, `Date.now()` and generated keys are parameters.
- Parsing: `JSON.parse`, `parseInt` and `parseFloat` are modelled by taking the parse result as input (`None` for text that does not parse). A stored value of the wrong JSON type is not modelled.
- SalesAnalytics: the sale duration in days (`src/pages/dashboard/SalesAnalytics.tsx:51-52`) is date arithmetic and is not modelled.
- SalesAnalytics.SortDesc: proved to be a descending permutation. Whether it keeps the relative order of equal entries, as the stable `Array.prototype.sort` does, is not proved.
- EventContext: the second fetch that refreshes the event list is a repeated read and is not modelled separately.
- ApiAuthRoutes.AuthApi.Register: the recovery branch that updates an existing profile when the e-mail already has an account (`api/routes/authRoutes.js:92-119`) is not modelled. The directory's own password checks are folded into `createError`.
- ApiAuthRoutes: the login route only answers 501 (`api/routes/authRoutes.js:127-129`) and is not modelled.
- Sending e-mail (approval, activation, password reset) is a side effect outside the model. Its failure is ignored in the source.
- ExportExcel: the styling of the sheet is not modelled. This covers fonts, fills, borders, number formats, the currency symbol of currency columns and the parsing of date-like text (`src/utils/exportExcel.ts:116-139`). The text length of each cell is an input to the width fitting.
- ExportExcel: the cap at 28 in `col.width = Math.min(28, max)` can never bind, because `max` is at most 24. The model states the width range 10..24.
- Signup.WithInput: an input whose id is not one of the form's fields adds a key that nothing reads. The model leaves the form unchanged.
- AuthService.Session.Register: the call that mirrors the new profile to the backend is made, but its outcome never changes the result, so it is not modelled beyond that.
- RouteTracker: the server timestamps written with each log entry are given stamps.
- ProductService: the update and delete results are covered by `ProductService.Mapped`, which states how every call's outcome is mapped.
- Files outside the core, such as `api/index.js`, the Firebase configuration, the UI components and the remaining pages, are not part of this model.

## Findings

| source | as written | input that shows it | evidently intended | confidence | as-written member | corrected member |
|---|---|---|---|---|---|---|
| backend/src/routes/productRoutes.js:124 | the SKU uniqueness check runs only when the new SKU is truthy | two products updated with `sku: ""` both end up with the empty SKU | every SKU in an update is checked for uniqueness, so SKUs stay unique | not executed | BackendProductRoutes.EmptySkuUpdateBreaksUniqueness | BackendProductRoutes.UpdateSpec |
| src/services/transactionService.ts:33-40 | `create` stores the transaction (line 29) and then calls `productService.updateEventStock` and `productService.recordStockMovement`, which `src/services/productService.ts` does not define | any transaction with at least one item: the transaction is stored, but the missing call throws, no movement is logged and checkout reports failure | each item's event or product stock is reduced, a movement is recorded for it, and the stored transaction is reported as recorded | not executed | TransactionService.CheckoutReportedAsFailed | TransactionService.TransactionStore.Create |
