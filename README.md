# Wings Cafe inventory: a Dafny model of its business rules

Wings Cafe is a small stock and sales system. An Express server
(`backend/server.js`) keeps one JSON document with two arrays:

- `products`: name, category, price, stock quantity and so on.
- `sales`: the product id, the quantity, the total and the date.

Each HTTP handler works the same way:
1. It reads the whole document.
2. It finds records with `find` / `findIndex`.
3. It changes them in memory: `push`, `splice`, or an assignment to one field.
4. It writes the document back.

Two React pages add integer logic of their own:

- **Reports page** (`frontend/src/components/Reporting.js`):
  - units sold and initial stock per product;
  - the summary counts;
  - the low-stock table, with its status and action columns.
- **Sales page** (`frontend/src/components/Sales.js`):
  - The bulk sale validates every selected line before posting any of them.
  - It posts one sale per line and stops at the first failure.
  - Only after a complete success does it lower the stock it shows.

The model has six modules:

| Module | Contents |
|---|---|
| `Model` (model.dfy) | The records and the first-match lookups. |
| `Api` (api.dfy) | Each handler as a pure function from the loaded document to the written document and the reply, with its error cases. |
| `Server` (server.dfy) | The class `Store`. Its `products` and `sales` fields are the persisted document. Each handler is a method that changes a copy of the document step by step, as the handler does, then commits it through `WriteData`. Each method is proved equal to its `Api` function. |
| `ServerProps` (server_props.dfy) | Properties relating several requests: round trips, the non-negative-stock invariant over any request sequence, and the report's initial stock that sale requests keep. |
| `Reporting` (reporting.dfy) | The report page as functions and lemmas. |
| `SalesPage` (sales.dfy) | The selection functions, the bulk sale as a specification function `BulkSale`, and the class `SalesView`. Its `HandleBulkSale` method validates with a loop, then posts with a loop to a `Server.Store`, and is proved equal to `BulkSale`. |

A few modelling choices apply throughout:

- **Writes.** The result of `writeData` is a parameter `saved`. When it is false the reply is the handler's 500 error and the document stays as it was, because every handler re-reads the file.
- **Clock readings.** `Date.now()` and the ISO dates become parameters: a product's id and `createdAt`, and a sale's `SaleStamp`.
- **Money.** Prices and totals are integers, treated as opaque amounts.

Two intentions are not enforced by the code; the model follows the code:

- **Non-negative stock.** Stock is meant never to go negative. The code accepts negative quantities in a product body, a sale, an edit and an `add` adjustment, and the model accepts them too. So `ServerProps.RunKeepsStocked` proves the invariant only for request sequences whose quantities are non-negative (`NonNegativeRequest`).
- **Required fields.** A price or quantity of `0` is rejected at creation, because `!price` and `!quantity` are true for 0. An update re-validates nothing.

## Model

| member | source | states |
|---|---|---|
| Model.ProductIndex | backend/server.js:93-95 | `findIndex` on products: none exactly when no product has the id; otherwise an in-range index carrying the id, with no earlier index carrying it |
| Model.SaleIndex | backend/server.js:197-198 | `findIndex` on sales: none exactly when no sale has the id; otherwise the first index carrying it |
| Model.FindProduct | backend/server.js:160-161 | `find` on products: none exactly when the id is absent; otherwise the record at the first index carrying the id, the one `findIndex` gives |
| Api.Merge | backend/server.js:98-108 | the record PUT writes keeps the old id and createdAt, takes the body's name, category, subCategory, price and quantity, keeps the old description or image when the new one is absent or empty, and takes the new one otherwise |
| Api.OrElse | backend/server.js:67-72 | `v \|\| fallback` gives the fallback exactly when the value is absent, empty or the fallback itself; otherwise it gives the value |
| Api.Deduct | backend/server.js:272 | `Math.max(0, q - n)` is never negative, never below `q - n`, and is one of those two |
| ServerProps.ZeroRefusedAsMissing | backend/server.js:60-62 | the required-field check (`Api.RequiredPresent`, JavaScript truthiness) refuses a price or quantity of 0 or an empty name as missing, with 400 and no change |
| ServerProps.UpdateProductTwice | backend/server.js:89-114 | sending the same product edit twice leaves the document and reply that sending it once left |
| Api.CreateProduct | backend/server.js:55-82 | a falsy name, category, subCategory, price or quantity gives 400 with no change; a failed write gives 500 with no change; otherwise exactly one product is appended with the given fields, the fresh id and date, and `''` for a missing description or image; sales are untouched |
| Api.UpdateProduct | backend/server.js:89-114 | an unknown id gives 404 with no change; otherwise only the first record with the id is replaced, keeping its id and createdAt, taking the body's fields and keeping the old description or image when the new one is falsy; a failed write gives 500 with no change |
| Api.DeleteProduct | backend/server.js:121-135 | an unknown id gives 404 with no change; otherwise exactly the first matching record is removed, the rest keep their order, and sales are untouched |
| Api.Enrich | backend/server.js:143-151 | an enriched sale carries the sale unchanged plus the first matching product's name, image and price, or `'Unknown Product'`, `''` and 0 when no product matches |
| Api.ListSales | backend/server.js:139-154 | one enriched entry per stored sale, in stored order |
| Api.CreateSale | backend/server.js:156-190 | a missing product gives 404 and insufficient stock gives 400, each with no change; a failed write (`'Failed to save sale'`) gives 500 with no change; otherwise one stamped sale is appended, that product's stock drops by exactly the quantity, and the reply is the sale enriched with the updated product |
| Api.UpdateSale | backend/server.js:192-234 | a missing sale or product gives 404; an increase beyond the stock gives 400; a failed write of an accepted edit (`'Failed to update sale'`) gives 500; each leaves the document unchanged; otherwise the sale gets the new quantity and total and the product's stock moves by `old - new` |
| Api.DeleteSale | backend/server.js:236-259 | a missing sale gives 404 and a failed write gives 500, each with no change; otherwise exactly that sale is removed and its quantity goes back to its product only when the product still exists |
| Api.AdjustStock | backend/server.js:262-282 | a missing product gives 404; a type other than add or deduct gives 400; a failed write of a valid adjustment (`'Failed to adjust stock'`) gives 500; each leaves no change; otherwise only that product's quantity changes, to `q + n` for add and to `max(0, q - n)` for deduct |
| Server.Store.constructor | backend/server.js:44-47 | a server started with no data file holds an empty document |
| Server.Store.ReadData | backend/server.js:18-24 | readData returns the stored document |
| Server.Store.WriteData | backend/server.js:32-42 | writeData replaces the document when the write succeeds, keeps it when it fails, and reports which |
| Server.Store.ListProducts | backend/server.js:50-53 | GET /api/products returns the stored products |
| Server.Store.CreateProduct | backend/server.js:55-87 | the handler's push-and-write leaves exactly the document and the reply of `Api.CreateProduct` |
| Server.Store.UpdateProduct | backend/server.js:89-119 | the in-place replacement leaves exactly the document and the reply of `Api.UpdateProduct` |
| Server.Store.DeleteProduct | backend/server.js:121-136 | the splice leaves exactly the document and the reply of `Api.DeleteProduct` |
| Server.Store.ListSales | backend/server.js:139-154 | GET /api/sales returns `Api.ListSales` of the stored document |
| Server.Store.CreateSale | backend/server.js:156-190 | the push, the decrement and the write leave exactly the document and the reply of `Api.CreateSale` |
| Server.Store.UpdateSale | backend/server.js:192-234 | the two field assignments, the stock change and the write leave exactly the document and the reply of `Api.UpdateSale` |
| Server.Store.DeleteSale | backend/server.js:236-259 | the restock, the splice and the write leave exactly the document and the reply of `Api.DeleteSale` |
| Server.Store.AdjustStock | backend/server.js:262-282 | the add or clamped deduct and the write leave exactly the document and the reply of `Api.AdjustStock` |
| ServerProps.CreateThenDeleteSale | backend/server.js:175-176 | recording a sale under a fresh id and then deleting it succeeds and gives back the original document, stock restored |
| ServerProps.DeleteAppended | backend/server.js:246-252 | deleting a sale just appended against a product restores that product and removes the sale |
| ServerProps.UpdateThenDeleteSale | backend/server.js:208-220 | deleting a sale after editing it leaves the same document as deleting it unedited |
| ServerProps.DeleteAfterEdit | backend/server.js:246-252 | deleting the edited sale gives the document that deleting the unedited one gives |
| ServerProps.DeleteEdited | backend/server.js:246-252 | deleting the edited sale restores the product to its stock before the edit plus the original sale quantity |
| ServerProps.DeleteSaleAt | backend/server.js:240-252 | deleting the sale at a known index restores its product at a known index and splices that sale out |
| ServerProps.UpdateSaleAt | backend/server.js:216-220 | a successful edit at known indexes overwrites the sale's quantity and total and moves the product's stock by the difference |
| ServerProps.CreatedSaleIsListed | backend/server.js:180-186 | the sale a POST returns is the entry GET /api/sales then lists last, after the earlier sales enriched against the new stock |
| ServerProps.CreatedProductIsListed | backend/server.js:64-76 | a product created under a fresh id is the only record with that id, at the end, and `find` returns it |
| ServerProps.DeleteProductOrphansSales | backend/server.js:129 | with unique ids, deleting a product leaves all sales in place, and each sale of it is then listed as `'Unknown Product'` with no image and price 0 |
| ServerProps.ApplyKeepsStocked | backend/server.js:163-176 | any one request with non-negative quantities, persisted or not, keeps every stock level and every sale quantity at or above zero |
| ServerProps.ReplacedStocked | backend/server.js:176 | replacing one product with a non-negative stock and the sales with non-negative ones keeps the document stocked |
| ServerProps.PostSaleKeepsStocked | backend/server.js:163-176 | a non-negative sale never takes a stock below zero, because a larger sale is refused |
| ServerProps.PutSaleKeepsStocked | backend/server.js:208-220 | a non-negative edit never takes a stock below zero, because an increase beyond the stock is refused |
| ServerProps.RemoveSaleKeepsStocked | backend/server.js:246-252 | deleting a sale keeps stock and sale quantities non-negative |
| ServerProps.RunKeepsStocked | backend/server.js:269-275 | any sequence of requests with non-negative quantities keeps every product's stock at or above zero; deduct clamps and sales are checked |
| ServerProps.SameInitialStockByRow | frontend/src/components/Reporting.js:40 | equal stock plus units sold for every product means equal Initial Stock columns |
| ServerProps.AppendKeepsInitialStock | backend/server.js:175-176 | with unique ids, appending a sale while lowering its product's stock by that quantity keeps every product's report initial stock |
| ServerProps.CreateSaleKeepsInitialStock | backend/server.js:156-190 | with unique ids, POST /api/sales never changes any product's `quantity + totalSold` in the report |
| ServerProps.TotalSoldReplace | frontend/src/components/Reporting.js:38-39 | replacing one sale changes a product's units sold by the new minus the old sale's share |
| ServerProps.TotalSoldRemove | frontend/src/components/Reporting.js:38-39 | removing one sale lowers a product's units sold by that sale's share |
| ServerProps.EditKeepsInitialStock | backend/server.js:216-220 | with unique ids, replacing a sale by one of the same product while moving its stock by the difference keeps every initial stock |
| ServerProps.UpdateSaleKeepsInitialStock | backend/server.js:192-234 | with unique ids, PUT /api/sales never changes any product's report initial stock |
| ServerProps.UpdateSaleOkKeepsInitialStock | backend/server.js:216-220 | a successful edit keeps every report initial stock |
| ServerProps.RestockKeepsInitialStock | backend/server.js:246-252 | removing a sale and giving its units back to its product keeps every initial stock |
| ServerProps.OrphanKeepsInitialStock | backend/server.js:247-252 | removing a sale whose product is gone changes no product's initial stock |
| ServerProps.DeleteSaleKeepsInitialStock | backend/server.js:236-259 | with unique ids, DELETE /api/sales never changes any product's report initial stock |
| ServerProps.TeaScenario | backend/server.js:156-186 | creating "Tea" with stock 20 and selling 3 succeeds, leaves stock 17 and lists one sale named "Tea" |
| ServerProps.DeductClampsScenario | backend/server.js:271-272 | deducting 100 from a stock of 5 succeeds and leaves 0 |
| Reporting.SalesOf | frontend/src/components/Reporting.js:38 | the filtered sales are exactly those of the list with the product's id |
| Reporting.TotalSoldConcat | frontend/src/components/Reporting.js:39 | units sold over two parts of the sales list is the sum over each part |
| Reporting.TotalSoldOne | frontend/src/components/Reporting.js:39 | a single sale counts its quantity toward its own product only |
| Reporting.TotalSold | frontend/src/components/Reporting.js:38-39 | a product no sale names has sold 0 units, and with no negative sale no product has negative units sold |
| Reporting.Report | frontend/src/components/Reporting.js:37-57 | one row per product, in product order, carrying the product unchanged, its units sold and `quantity + totalSold` |
| Reporting.InitialStockBound | frontend/src/components/Reporting.js:40 | with no negative sale, every row's initial stock is at least its current stock |
| Reporting.TotalSalesCount | frontend/src/components/Reporting.js:61 | the count of sale records is 0 exactly when there are no sales |
| Reporting.ProductsSold | frontend/src/components/Reporting.js:62 | the count is at most the number of rows; it is 0 exactly when no row sold anything, and it equals the number of rows exactly when every row sold something |
| Reporting.ProductsSoldConcat | frontend/src/components/Reporting.js:62 | the count over two runs of rows is the sum of the counts over each |
| Reporting.ProductsSoldOne | frontend/src/components/Reporting.js:62 | one row counts 1 exactly when its units sold are positive; with the concatenation lemma this fixes the count of any rows |
| Reporting.ProductsSoldAtMostProducts | frontend/src/components/Reporting.js:62-63 | the "Products Sold" card never shows more products sold than products |
| Reporting.ReportFooter | frontend/src/components/Reporting.js:143-145 | the corrected footer: its initial-stock total is its current-stock total plus its sold total |
| Reporting.FooterIdentity | frontend/src/components/Reporting.js:143-144 | balanced rows make the Initial Stock column's total the Current Stock total plus the Sold total |
| Reporting.ReportRowsBalanced | frontend/src/components/Reporting.js:40 | every report row's initial stock is its stock plus its units sold |
| Reporting.SoldTotalIsAllUnits | frontend/src/components/Reporting.js:132 | with unique ids and no orphaned sale, the Sold column totals the units of all sales |
| Reporting.SoldTotalSplit | frontend/src/components/Reporting.js:38-39 | with unique ids, a sale adds its quantity to the Sold column once if its product is listed, and not at all otherwise |
| Reporting.FooterAsWritten | frontend/src/components/Reporting.js:143-145 | for balanced rows, the footer as written balances exactly when the Sold column total equals the number of sale records |
| Reporting.FooterMismatch | frontend/src/components/Reporting.js:145 | for one product and one sale of three units, the footer as written shows 1 under Sold while the column holds 3, and its totals do not balance |
| Reporting.LowStockFilter | frontend/src/components/Reporting.js:67-68 | exactly the products with quantity below 10 are kept |
| Reporting.LowStockFilterConcat | frontend/src/components/Reporting.js:67-68 | filtering two runs of products is filtering each in turn, so the kept products stay in product-list order |
| Reporting.LowStockFilterOne | frontend/src/components/Reporting.js:67-68 | one product is kept, once, exactly when its quantity is below 10; with the concatenation lemma this fixes the filter's result |
| Reporting.InsertPermutes | frontend/src/components/Reporting.js:69 | inserting one product adds exactly that product |
| Reporting.InsertSorted | frontend/src/components/Reporting.js:69 | inserting into a list sorted by quantity keeps it sorted |
| Reporting.SortByQuantity | frontend/src/components/Reporting.js:69 | the result is sorted by non-decreasing quantity and is a permutation of the input |
| Reporting.LowStockProducts | frontend/src/components/Reporting.js:67-69 | the low-stock table is sorted by non-decreasing quantity, is a permutation of the filtered products, and holds exactly the products below 10 |
| Reporting.InsertStable | frontend/src/components/Reporting.js:69 | inserting keeps the inserted product after the products of equal quantity that stood before it |
| Reporting.SortStable | frontend/src/components/Reporting.js:69 | the sort keeps the relative order of products of equal quantity |
| Reporting.LowStockStable | frontend/src/components/Reporting.js:69 | in the low-stock table, products of equal quantity keep their product-list order |
| Reporting.StockStatus | frontend/src/components/Reporting.js:178 | the status reads "Out of Stock" exactly at quantity 0 and "Low Stock" otherwise |
| Reporting.StockAction | frontend/src/components/Reporting.js:181-183 | the action reads the urgent text exactly at 0, "Restock soon" exactly for a non-zero quantity below 3, and "Monitor closely" exactly from 3 up |
| Reporting.LowStockClassification | frontend/src/components/Reporting.js:178-183 | for non-negative stock in the table: status is "Out of Stock" exactly at 0 and "Low Stock" exactly at 1-9; the action is urgent exactly at 0, "Restock soon" exactly at 1-2 and "Monitor closely" exactly at 3-9 |
| SalesPage.SellQuantity | frontend/src/components/Sales.js:96 | `sellQuantities[id] \|\| 0`: 0 when the key is absent, and the entry's number when keys are distinct |
| SalesPage.SetSellQuantity | frontend/src/components/Sales.js:35-37 | afterwards the id reads the new value and every other id reads what it did |
| SalesPage.SetSellQuantityPlaces | frontend/src/components/Sales.js:35-37 | with distinct keys, a present key keeps its place and gets the new value with every other entry unchanged, and a new key is added last |
| SalesPage.SetKeepsDistinctKeys | frontend/src/components/Sales.js:36 | setting a quantity keeps the object's keys distinct |
| SalesPage.SelectLines | frontend/src/components/Sales.js:41-46 | only positive quantities are kept, at most one line per entry; the selection is empty exactly when no quantity is positive |
| SalesPage.SelectLinesCovers | frontend/src/components/Sales.js:41-46 | every entry with a positive quantity has its line, with the product `find` returns, in the selection |
| SalesPage.SelectLinesConcat | frontend/src/components/Sales.js:41-46 | selecting from two runs of entries is selecting from each in turn, so lines keep the entries' order |
| SalesPage.SelectLinesHead | frontend/src/components/Sales.js:41-46 | the first entry's line, if its quantity is positive, comes before the lines of the rest |
| SalesPage.SelectLinesOne | frontend/src/components/Sales.js:41-46 | one entry gives one line, with the product `find` returns, exactly when its quantity is positive; with the concatenation lemma this fixes the selection |
| SalesPage.HasProductsToSell | frontend/src/components/Sales.js:128 | the sell button's test holds exactly when some entry has a positive quantity |
| SalesPage.SellButtonMatchesSelection | frontend/src/components/Sales.js:128 | the sell button is enabled exactly when the selection is not empty |
| SalesPage.NoticeText | frontend/src/components/Sales.js:49-61 | the banner text is empty exactly when there is no notice |
| SalesPage.FirstProblem | frontend/src/components/Sales.js:54-64 | no notice exactly when every line's product exists and has the stock; otherwise the first failing line's "Product not found" or "Insufficient stock" notice |
| SalesPage.FailureMessage | frontend/src/components/Sales.js:89 | the thrown message is never empty and is the server's error message when that is present |
| SalesPage.RunPosts | frontend/src/components/Sales.js:71-91 | the count of posts is at most the number of lines, and the loop failed exactly when it stopped short |
| SalesPage.RunPostsRecords | frontend/src/components/Sales.js:84-86 | `totalRevenue` is the revenue of the lines posted, and the server holds exactly their sales, appended in order |
| SalesPage.RunPostsFailure | frontend/src/components/Sales.js:87-89 | a failed loop stopped at a line whose POST the server refused in the state the earlier posts left, and it shows that refusal's message |
| SalesPage.FailedAtShift | frontend/src/components/Sales.js:71-91 | a stop in the later lines is a stop of the whole loop one line further on |
| SalesPage.RunPostsHead | frontend/src/components/Sales.js:84-86 | after an accepted first POST, the loop continues on the document that POST left |
| SalesPage.RunPostsFrom | frontend/src/components/Sales.js:71-91 | one turn of the loop at line k: an accepted POST continues from the document it left, and a refused one stops with its message |
| SalesPage.RevenuePreview | frontend/src/components/Sales.js:116-126 | the preview is 0 when no quantity is positive, and never negative when no price is |
| SalesPage.RevenuePreviewIsRevenue | frontend/src/components/Sales.js:116-126 | the revenue preview counts exactly the positive lines whose product is found, the revenue of what would be posted |
| SalesPage.LocalAfterSale | frontend/src/components/Sales.js:94-101 | each product with a positive sell quantity loses exactly that quantity; every other product is unchanged |
| SalesPage.LocalAfterSaleExact | frontend/src/components/Sales.js:96-100 | with distinct keys, the quantity typed for an id lands on each product with that id when positive, and a non-positive one changes nothing |
| SalesPage.BulkSale | frontend/src/components/Sales.js:39-113 | refused, with no POST and nothing changed, exactly when the selection is empty or a line fails validation; a stop keeps the page's state and leaves on the server the sales of the lines posted; a success lowers the local stock, clears the selection and reports the count and the preview revenue |
| SalesPage.SelectedLinesFound | frontend/src/components/Sales.js:41-46 | every selected product is the one its own id finds, and that id is a key of the selection |
| SalesPage.SelectedLinesDistinct | frontend/src/components/Sales.js:41-46 | with distinct keys, no two selected lines name the same product |
| SalesPage.TakenIsSellQuantity | frontend/src/components/Sales.js:96 | with distinct keys, what the lines take from a product is its sell quantity when positive, and nothing otherwise |
| SalesPage.AllPostsSucceed | frontend/src/components/Sales.js:71-91 | lines that passed validation against the server's own products, with every write succeeding, are all posted without failure |
| SalesPage.AllPostsStock | frontend/src/components/Sales.js:71-91 | those posts lower each product on the server by exactly what its line asked for, and no other stock changes |
| SalesPage.PostableRest | frontend/src/components/Sales.js:71 | after the first line is posted, the remaining lines are still ready to post |
| SalesPage.AcceptedStep | frontend/src/components/Sales.js:84-86 | an accepted first POST lowers that product's stock, and the rest of the loop runs on the document it left |
| SalesPage.PostAccepted | frontend/src/components/Sales.js:72-84 | the POST of a validated line against the same product is accepted and lowers that stock by the quantity |
| SalesPage.AfterFirstAndRest | frontend/src/components/Sales.js:71-91 | the stock after the first line and then the rest is, product by product, the stock less what all lines take |
| SalesPage.BulkSaleAgreesWithServer | frontend/src/components/Sales.js:39-113 | with the page showing the server's products (ids unique), distinct keys and every write succeeding: the bulk sale is refused before posting, or completes with the page's local stock equal to the server's |
| SalesPage.SelectionPosts | frontend/src/components/Sales.js:71-102 | the posts of a valid selection all succeed and leave on the server the stock the page computes locally |
| SalesPage.SelectionPostable | frontend/src/components/Sales.js:54-64 | a valid selection against the page's own products is ready to post |
| SalesPage.StockMatchesLocal | frontend/src/components/Sales.js:94-101 | stock lowered product by product by what the lines take is the page's local update |
| SalesPage.SalesView.constructor | frontend/src/components/Sales.js:4-7 | the page starts on the fetched products with an empty selection and no error |
| SalesPage.SalesView.HandleBulkSale | frontend/src/components/Sales.js:39-113 | the page's products, selection and error, the server's document and the outcome afterwards are exactly those `BulkSale` gives for the state before |
| SalesPage.Validate | frontend/src/components/Sales.js:54-64 | the validation loop returns the first failing line's notice, or none when every line passes |
| SalesPage.PostLines | frontend/src/components/Sales.js:66-91 | the post loop leaves the server's document, `successfulSales`, `totalRevenue` and the failure exactly as `RunPosts` describes |

## Left out

- HTTP plumbing: Express routing, CORS, body parsing, static uploads, the health check and the 404 and error middleware. These are framework code.
- File I/O:
  - `writeData` is the boolean `saved`.
  - `readData` returns the stored document.
  - readData's fallback to an empty document on a parse error is not modelled.
- The `'Internal server error'` catch of the two product handlers. It only fires on an exception the model has no counterpart for.
- Concurrency: two requests interleaving their read and write of the file.
- Clock readings: `Date.now()` ids, ISO dates and timestamps are parameters.
  - Two requests in the same millisecond would get the same id.
  - The lemmas that need fresh ids say so in their requires.
- Coercion: `parseInt` and `parseFloat`, `NaN`, and the difference between an absent field and `''` or 0. Quantities are well-formed integers.
- Money:
  - Prices and totals are opaque integers, not JavaScript floats.
  - The reports page's `totalSalesValue`, its profit estimate with the 0.7 cost factor, its money footer cells and `toFixed` are not modelled.
- Frontend data loading: `fetchData`, its network errors, the loading flags and the React hooks. The Sales page's POST is `Server.Store.CreateSale` on the same store. The success `alert` is the `Completed` outcome.
- Selection order: `Object.entries` order is modelled as insertion order. JavaScript lists array-index keys first (canonical integers from 0 to 2^32 − 2), in ascending order, and then the other string keys in insertion order. The page's keys are product ids made by `Date.now()`, about 1.7 × 10^12, which is beyond that range, so for them insertion order is exact. Ids from other sources that are small integers would be listed first, which the model does not capture.
- Rendering: the report's low-stock CSS row classes and the image cell.
- Server.Store: each handler's change is modelled on a value copy of the document that is committed at the end. Aliasing between `product` and `data.products[i]` appears only as the index update it amounts to.
- SalesPage.SetSellQuantity: `Number(value)` on the typed text is not modelled; the value arrives as an integer.

## Findings

| source | as written | input that shows it | evidently intended | confidence | as-written member | corrected member |
|---|---|---|---|---|---|---|
| frontend/src/components/Reporting.js:145 | The footer cell under "Sold" shows `totalSalesCount`, the number of sale records. The cells beside it total their columns. | One product with stock 17 and one sale of 3 units: the column holds 3, but the footer shows 1. The footer's Initial Stock (20) is then not Current Stock (17) plus Sold (1). | The footer totals the Sold column, so Initial Stock = Current Stock + Sold holds in the footer as it does in every row. | medium, not executed | Reporting.FooterMismatch | Reporting.ReportFooter |
