# Stationery shop: stock ledger, sale/purchase builders and dashboard, in Dafny

This project models the logic-bearing parts of a small shop system. The system is a Django REST
backend (products, sales, purchases) and a Next.js front end. The model has four parts:

- **Stock ledger** (`ledger.dfy`, `views.dfy`, `views_lemmas.dfy`). The database holds
  products (`Producto`: name, price, non-negative stock), sales (`Venta`) with their lines
  (`VentaItem`), and purchases (`Compra`) with their lines (`CompraItem`).
  - Saving a line fixes its subtotal as quantity × unit price and recomputes the parent's total.
    Saving a purchase line also adds its quantity to the product's stock, on every save.
  - The sale handler walks the request items in order. For each item it re-reads the product,
    refuses with 400 when the current stock is below the quantity, records a line at the product's
    current price, and lowers the stock.
  - The purchase handler records each line at the price the client sent.
  - Both handlers run in one transaction. Any refusal or exception (unknown product, negative
    quantity hitting a database CHECK constraint) returns the database exactly as it was.
- **Client line-item builders** (`sale_builder.dfy`, `purchase_builder.dfy`). Each is an
  append-only list of lines with a displayed total.
  - A failed product lookup is a no-op.
  - An empty list is refused before any request.
  - The request body is a field-renaming map over the list.
  - A failed request leaves the list as it was.
- **End-to-end submission** (`checkout.dfy`). This module feeds each page's request body to the
  matching server handler. It relates the total the page shows to the total the server records.
- **Dashboard statistics** (`dashboard.dfy`, `ranking.dfy`, `dashboard_lemmas.dfy`). From the
  list of sales and two date strings ("today", "yesterday") it computes:
  - today's revenue, units and number of sales;
  - yesterday's revenue and the guarded growth percentage;
  - today's three best-selling products.

Money is exact integer cents; the growth percentage is a `real`. Product ids are naturals.

Points of the code's behaviour that the model keeps as they are:

- The sale and purchase pages have no line removal, no client-side stock check and no
  duplicate-product guard. A product may appear on several lines, and stock is enforced only by
  the server loop. `Checkout.OversoldSaleRefusedByServer` states the consequence.
- The dashboard compares the date part of the timestamp text (the text before the first `T`)
  with the given date strings. It does not use a local calendar date.
- The declared field validators are never run on these write paths. These are quantity ≥ 1 and
  price ≥ 0.01 (`MinValueValidator`). So a quantity of 0 is accepted and recorded
  (`HandlerProperties.ZeroQuantitySaleAccepted`), and so is any purchase price. Only the
  database's non-negativity CHECK on quantities and stock is enforced.
- An unknown product id raises `DoesNotExist`, and the framework does not map it to 404. It
  is modelled as a 500 with a full rollback.
- Both pages look the chosen product up with `===` between a numeric id and a string form
  value, which never holds (see Findings). `Common.FindAsWritten` and the builders'
  `AddLineAsWritten` keep that behaviour; `Find` and `AddLine`, used everywhere else, look the
  product up by numeric id as intended.

## Model

| member | source | states |
|---|---|---|
| Ledger.SaveVentaItem | backend/papeleria/models.py:49-71 | For a line whose product exists, as its foreign key demands, a sale-line save succeeds exactly when the quantity is non-negative. The saved line's subtotal is quantity × sale price. The parent's total becomes the sum of its lines' subtotals. Products, purchases and other sales are unchanged. A failure changes nothing. |
| Ledger.SaveCompraItem | backend/papeleria/models.py:118-125 | A purchase-line save succeeds exactly when the quantity is non-negative. It adds the quantity to that product's stock only, records the line with subtotal quantity × purchase price, and sets the parent's total to the sum of its subtotals. |
| Ledger.SaveVentaItemPreservesConsistency | backend/papeleria/models.py:39-71 | After any successful sale-line save, every sale's total is still the sum of its subtotals, and each subtotal is still quantity × price. |
| Ledger.SaveCompraItemPreservesConsistency | backend/papeleria/models.py:89-125 | The same for purchase-line saves. |
| Ledger.CompraItemSaveNotIdempotent | backend/papeleria/models.py:118-125 | Saving the same purchase line a second time, as an update, leaves the lines and total unchanged but adds the quantity to stock a second time. |
| Views.SaleLines | backend/papeleria/views.py:42-47 | The server's lines are one per item, in order. Each is priced at the product's current price, never at anything the client sent. |
| Views.SaleStep | backend/papeleria/views.py:30-51 | One loop pass succeeds only for a known product whose current stock covers a non-negative quantity. It then lowers that product's stock by the quantity, appends one line at the current price and keeps the sale total equal to the sum of subtotals. A failed pass is an unknown-product fault exactly when the product is missing, and a stock shortfall exactly when the product exists and its stock is below the quantity. |
| Views.SaleLoop | backend/papeleria/views.py:29-51 | A completed loop keeps the number of sales. |
| Views.CreateVenta | backend/papeleria/views.py:21-55 | Any refusal returns the database unchanged: no sale row, no lines and no stock change survive. The status is 400 exactly for a stock shortfall and 500 for every other fault. An empty item list creates an empty sale with total 0. |
| Views.PurchaseLines | backend/papeleria/views.py:73-78 | The server's purchase lines are one per item, in order, at the price the client sent. |
| Views.PurchaseStep | backend/papeleria/views.py:69-78 | One pass succeeds only for a known product and a non-negative quantity. It raises that product's stock by the quantity and appends one line at the client's price. A failed pass is an unknown-product fault exactly when the product is missing. |
| Views.PurchaseLoop | backend/papeleria/views.py:69-78 | A completed loop keeps the number of purchases, and no failure is a stock shortfall. |
| Views.CreateCompra | backend/papeleria/views.py:61-82 | Any refusal is a 500 and returns the database unchanged. An empty item list creates an empty purchase with total 0. |
| HandlerProperties.SaleAdmissibleAfterStep | backend/papeleria/views.py:30-51 | After one successful pass, the rest of the request fits the lowered stock exactly when the whole request fitted the original stock. This is the cumulative check on repeated lines. |
| HandlerProperties.SaleLoopAcceptsIff | backend/papeleria/views.py:29-51 | The sale loop completes exactly when every product exists, no quantity is negative and no product's total requested quantity exceeds its stock. |
| HandlerProperties.SaleLoopStock | backend/papeleria/views.py:29-51 | A completed sale loop lowers each product's stock by exactly the summed quantity requested of it. It leaves names and prices alone. |
| HandlerProperties.SaleLoopRows | backend/papeleria/views.py:29-51 | A completed sale loop appends exactly the priced lines of the items, in order, and leaves the total equal to their subtotal sum. No other row changes. |
| HandlerProperties.VentaAcceptedIff | backend/papeleria/views.py:21-55 | The sale handler answers 201 exactly for admissible requests: all products known, no negative quantity, and no product oversold in total. |
| HandlerProperties.VentaCommitted | backend/papeleria/views.py:21-55 | A committed sale lowers each product's stock by exactly its requested total, so untouched products keep theirs. It appends one sale whose lines are the items at current prices and whose total is their subtotal sum. Purchases are unchanged. |
| HandlerProperties.CreateVentaPreservesConsistency | backend/papeleria/views.py:21-55 | Creating a sale, committed or refused, keeps every total equal to the sum of its lines' subtotals. |
| HandlerProperties.VentaLinesWithinDeclaredDomain | backend/papeleria/models.py:54-61 | When every stored product price is ≥ 0.01 and every requested quantity is ≥ 1, every recorded sale line meets the declared field validators. |
| HandlerProperties.SaleLoopFailsOnlyOnShortfall | backend/papeleria/views.py:29-39 | When every requested product exists and no quantity is negative, the sale loop can fail only with a stock shortfall. |
| HandlerProperties.SaleLoopFailsOnlyOnUnknown | backend/papeleria/views.py:29-39 | When no quantity is negative and no product's total demand exceeds its stock, the sale loop can fail only on an unknown product. |
| HandlerProperties.VentaRefusedWith400 | backend/papeleria/views.py:29-39 | A refused sale whose products all exist and whose quantities are non-negative is answered with 400 and a stock-shortfall message. |
| HandlerProperties.VentaUnknownProductIs500 | backend/papeleria/views.py:29-30 | A sale naming a missing product, with non-negative quantities and demand within stock, is refused with 500 for the unknown product and the database unchanged. |
| HandlerProperties.SaleLoopFirstFailure | backend/papeleria/views.py:29-39 | When item i is the first one at which the request stops being admissible, the loop fails, with a stock shortfall exactly when item i names a known product with a non-negative quantity. The items after it do not affect the fault. |
| HandlerProperties.VentaFirstFaultDecidesStatus | backend/papeleria/views.py:21-39 | The first item that makes a sale request inadmissible decides the answer, whatever follows it: 400 exactly when that item names a known product with a non-negative quantity, 500 otherwise. The database is unchanged. |
| HandlerProperties.ZeroQuantitySaleAccepted | backend/papeleria/models.py:54-56 | A quantity-0 item is accepted and recorded, against the declared minimum of 1. |
| HandlerProperties.PurchaseLoopAcceptsIff | backend/papeleria/views.py:69-78 | The purchase loop completes exactly when every product exists and no quantity is negative. There is no stock condition. |
| HandlerProperties.PurchaseLoopStock | backend/papeleria/views.py:69-78 | A completed purchase loop raises each product's stock by exactly its purchased total. |
| HandlerProperties.PurchaseLoopRows | backend/papeleria/views.py:69-78 | A completed purchase loop appends the items' lines at the client's prices, in order, and sets the total to their subtotal sum. |
| HandlerProperties.CompraAcceptedIff | backend/papeleria/views.py:61-82 | The purchase handler answers 201 exactly when all products exist and no quantity is negative. |
| HandlerProperties.CompraCommitted | backend/papeleria/views.py:61-82 | A committed purchase raises each product's stock by its purchased total. It appends one purchase with the client-priced lines and their subtotal sum. Sales are unchanged. |
| HandlerProperties.CreateCompraPreservesConsistency | backend/papeleria/views.py:61-82 | Creating a purchase keeps every total equal to the sum of its subtotals. |
| HandlerProperties.CompraLinesWithinDeclaredDomain | backend/papeleria/models.py:104-111 | When every requested quantity is ≥ 1 and every requested purchase price is ≥ 0.01, every line of a committed purchase meets the declared field validators. |
| SaleBuilder.Find | app/venta-nueva/page.tsx:55-56 | Lookup fails exactly when no loaded product has the id. Otherwise it returns the first product with that id. |
| SaleBuilder.AddLine | app/venta-nueva/page.tsx:54-68 | With a known product, exactly one line is appended and earlier lines are unchanged. The new line carries the id, the quantity and the product's price. With an unknown id the list is unchanged. Well-formed lists stay well-formed. |
| SaleBuilder.Payload | app/venta-nueva/page.tsx:77-82 | The body has the same length and order as the lines and carries only product and quantity. |
| SaleBuilder.Finalize | app/venta-nueva/page.tsx:70-89 | No request is sent exactly when the list is empty. Otherwise the body is the payload. The page navigates home (`/`) exactly on an accepted request. On every other outcome it stays with the list unchanged. An empty list shows the add-at-least-one-product notice, and the success notice appears exactly when the page navigates. |
| SaleBuilder.TotalAfterAddLine | app/venta-nueva/page.tsx:54-91 | Adding a line raises the displayed total by exactly price × quantity. A failed lookup leaves it unchanged. |
| SaleBuilder.TotalAppend | app/venta-nueva/page.tsx:91 | The displayed total of a list with one more line is the old total plus that line's subtotal. |
| SaleBuilder.TotalIsGross | app/venta-nueva/page.tsx:91 | For well-formed lines, the displayed total equals the sum of price × quantity. |
| Common.FindAsWritten | app/venta-nueva/page.tsx:55 | The lookup as written, shared by both pages (the purchase page's is at app/compras/page.tsx:57), fails exactly when no loaded product's numeric id is strictly equal to the form value, and otherwise returns a loaded product whose id is. |
| SaleBuilder.AddLineAsWritten | app/venta-nueva/page.tsx:54-68 | The add-line handler as written, behind the form schema, appends at most one line and never changes earlier lines. |
| SaleBuilder.NoLineAddedAsWritten | app/venta-nueva/page.tsx:29-56 | As written, no form value ever adds a line: a number is refused by the schema and a string never equals a numeric id. |
| SaleBuilder.IntendedLookupAddsLine | app/venta-nueva/page.tsx:54-68 | With the lookup by numeric id, choosing any loaded product appends one line. |
| PurchaseBuilder.Find | app/compras/page.tsx:57-58 | Lookup succeeds exactly when a loaded product has the id, and returns a product with that id. |
| PurchaseBuilder.AddLine | app/compras/page.tsx:56-71 | With a known product, exactly one line is appended at the user's purchase price and earlier lines are unchanged. With an unknown id the list is unchanged. |
| PurchaseBuilder.Payload | app/compras/page.tsx:80-86 | The body keeps length and order and carries product, quantity and the purchase price under the server's field name. |
| PurchaseBuilder.Finalize | app/compras/page.tsx:73-94 | No request is sent for an empty list. On acceptance the product list is revalidated and the page navigates to the inventory (`/inventario`). Otherwise the page stays with the list unchanged. An empty list shows the add-at-least-one-product notice, and the recorded notice appears exactly when the page navigates. |
| PurchaseBuilder.TotalAppend | app/compras/page.tsx:96 | One more line adds its subtotal to the displayed total. |
| PurchaseBuilder.TotalAfterAddLine | app/compras/page.tsx:56-96 | Adding a line raises the total by purchase price × quantity. A failed lookup leaves it unchanged. |
| PurchaseBuilder.TotalIsGross | app/compras/page.tsx:96 | For well-formed lines the total is the sum of price × quantity. |
| PurchaseBuilder.AddLineAsWritten | app/compras/page.tsx:56-71 | The add-line handler as written appends at most one line and never changes earlier lines. |
| PurchaseBuilder.NoLineAddedAsWritten | app/compras/page.tsx:29-58 | As written, no form value ever adds a purchase line. |
| PurchaseBuilder.IntendedLookupAddsLine | app/compras/page.tsx:56-71 | With the lookup by numeric id, choosing any loaded product appends one line. |
| Checkout.SubmitSale | app/venta-nueva/page.tsx:70-89 | An empty list sends nothing and changes nothing on the server. A request that arrives has exactly the sale handler's effect on the database. The page navigates away exactly when the list is non-empty, the answer arrives and the sale was created. Whenever the page stays it keeps its list, and the database is unchanged unless the answer was lost. |
| Checkout.LostAnswerKeepsCommittedSale | app/venta-nueva/page.tsx:76-88 | When a committed sale's answer is lost, the page reports failure and keeps its list while the sale stays recorded. Submitting the same list again records a second sale if it succeeds. |
| Checkout.SubmitPurchase | app/compras/page.tsx:73-94 | The same for purchases, with the purchase handler. |
| Checkout.SaleRecordedAsDisplayed | backend/papeleria/views.py:42-47 | When the page's prices are still current, the recorded sale has the page's lines, in order, and the same total the page displayed. |
| Checkout.PurchaseRecordedAsDisplayed | backend/papeleria/views.py:73-78 | A recorded purchase has the page's lines at the typed prices and the same total the page displayed. |
| Checkout.OversoldSaleRefusedByServer | backend/papeleria/views.py:34-39 | A line list asking for more than a product's stock is still sent. The server refuses it and leaves the database unchanged, and the page keeps its list. |
| Ranking.Insert | components/dashboard-stats.tsx:79-80 | Inserting into a descending list keeps it descending and adds exactly that entry. |
| Ranking.SortDesc | components/dashboard-stats.tsx:79-80 | The sorted entries are in descending order of quantity and are a permutation of the input. |
| Ranking.Top | components/dashboard-stats.tsx:79-81 | The top list has min(n, number of entries) elements. It is descending, and it is a sub-multiset of the input entries. |
| Ranking.InsertDistinct | components/dashboard-stats.tsx:79-80 | Inserting an entry with a new product id into a descending list of distinct ids keeps the ids distinct. |
| Ranking.SortDescDistinct | components/dashboard-stats.tsx:79-80 | Sorting keeps product ids distinct. |
| Ranking.TopDistinct | components/dashboard-stats.tsx:79-81 | The top list of entries with distinct ids has distinct ids. |
| Ranking.TopDominates | components/dashboard-stats.tsx:79-81 | No entry left out of the top list has a larger quantity than any entry in it. |
| Dashboard.DatePart | components/dashboard-stats.tsx:41 | The date part is the longest prefix of the timestamp without a 'T'. |
| Dashboard.OnDay | components/dashboard-stats.tsx:40-46 | The bucket holds exactly the records whose date part is the given day, and no more records than the input. |
| Dashboard.Growth | components/dashboard-stats.tsx:63-65 | With a positive yesterday total, growth × yesterday = (today − yesterday) × 100, and growth is non-negative exactly when today ≥ yesterday. Otherwise growth is exactly 0. |
| Dashboard.KeySlot | components/dashboard-stats.tsx:70-73 | The slot for a product id in the ascending key list: every key before it is smaller, and the key at it, if any, is not. |
| Dashboard.Statistics | components/dashboard-stats.tsx:36-91 | The transaction count is at most the number of records. There are at most 3 top products, in descending order. The growth figure is the guarded growth of today's total over yesterday's, so it is 0 when yesterday's total is not positive. |
| DashboardProperties.DatePartOfTimestamp | components/dashboard-stats.tsx:37-41 | The date part of `day + "T" + time` is `day`. |
| DashboardProperties.ProductTotalsExact | components/dashboard-stats.tsx:68-79 | The per-product map has one entry per product sold today and no other, listed in ascending id order as `Object.entries` lists integer keys. Each entry is the exact sum of that product's quantities; the zero-value branch of the source's test changes nothing. |
| DashboardProperties.OtherDayIgnored | components/dashboard-stats.tsx:40-61 | A sale dated neither today nor yesterday changes none of the figures. |
| DashboardProperties.YesterdaySaleCounted | components/dashboard-stats.tsx:44-65 | One more sale dated yesterday adds its total to yesterday's revenue and leaves today's figures and the ranking alone. Growth becomes the guarded growth of today's total over the new yesterday total. |
| DashboardProperties.TodaySaleCounted | components/dashboard-stats.tsx:49-61 | One more sale today adds its total to revenue, its units to the unit count and one to the count. Yesterday's total is unchanged. |
| DashboardProperties.DaysDisjoint | components/dashboard-stats.tsx:40-46 | With different day strings no record is in both buckets, and the buckets together are no larger than the input. |
| DashboardProperties.NoSales | components/dashboard-stats.tsx:36-90 | No sales give zero totals, zero count, zero growth and no best sellers. |
| DashboardProperties.BestSellers | components/dashboard-stats.tsx:68-81 | There are min(3, number of products sold today) best sellers, in descending order, with distinct ids, taken as a sub-multiset of the per-product entries. Each has its product's exact quantity, and no product left out sold more than any listed one. |
| DashboardProperties.EqualQuantitiesTop | components/dashboard-stats.tsx:79-81 | When all entries have the same quantity, the stable sort keeps their order and the top n are the first n. |
| DashboardProperties.TiesRankByProductId | components/dashboard-stats.tsx:68-81 | Products 9, 1, 2 and 3, each sold 5 times in that order, rank as 1, 2, 3: ties at the cut go to the lower ids. |
| DashboardProperties.BestSellersExample | components/dashboard-stats.tsx:79-81 | Quantities A:5, B:9, C:2, A:3 sold today rank as B:9, A:8, C:2. |
| DashboardProperties.GrowthExamples | components/dashboard-stats.tsx:63-65 | 100.00 over 50.00 is 100% growth, and a zero yesterday gives 0. |

## Left out

- The HTTP client wrappers and data-fetching hooks are left out (`lib/api.ts`, `hooks/useProductos.ts`, `hooks/useVentas.ts`). They are I/O and caching through external libraries. A request's outcome is a parameter (`RequestOutcome`, or `Delivery` in `Checkout`: not delivered, answered, or handled with the answer lost).
- The dashboard's fetch, all rendering, and number formatting (`toFixed`, `toLocaleString`) are left out. They are presentation only.
- The clock (`new Date()`, `toISOString`, which yields UTC dates) is left out. Today and yesterday are passed in as date strings.
- Form parsing (`parseInt`, `parseFloat`) is left out. The form schema only checks for non-empty text, so NaN is possible in the source. The model takes already-parsed integers and prices.
- Floating point and `Decimal` rounding are left out. All money is exact integer cents. The 10-digit, 2-decimal column bound is not modelled, so overflow of a decimal column does not arise.
- Malformed request bodies are left out. Request items are typed records here. In the source a missing `producto` or `cantidad` key is a server error with rollback. A non-integer sale quantity also fails, because a `Decimal` price cannot be multiplied by a float. A non-integer purchase quantity is instead multiplied as a float and then stored truncated in the integer column; that path is not modelled.
- Dashboard.ProductTotals: entries are kept in ascending id order, as JavaScript enumerates integer-like object keys. Keys of 2^32 − 1 and above are not array indices and would be enumerated in insertion order; ids that large are not modelled.
- Ranking.SortDesc: `Insert` places an entry before later equal ones, so the sort is stable like the source's. Stability is not stated as a contract.
- Product create/update/delete, serializers, admin, URL routing, and the inventory, dialog and navigation pages are left out. They are declarative configuration or view code with no logic of their own.
- Sale and purchase timestamps and database-assigned ids are left out. A new row's id is its position in the list.
- Concurrent requests are left out. Each handler runs as one atomic state transition. The source takes no row locks, so two overlapping sales are outside what this model says.

## Findings

| source | as written | input that shows it | evidently intended | confidence | as-written member | corrected member |
|---|---|---|---|---|---|---|
| app/venta-nueva/page.tsx:55 | The product is looked up with `p.id === values.producto`. The ids are numbers, while the form schema (line 30) admits only a string product value. | Any selection, e.g. product 1 from `[{id: 1, ...}]`: the value `"1"` is not `===` the number 1, and the number 1 is refused by the schema. | Look the product up by its numeric id, so that choosing a listed product adds a line. | medium, not executed; depends on the select component's value type, which is not modelled | SaleBuilder.NoLineAddedAsWritten | SaleBuilder.IntendedLookupAddsLine |
| app/compras/page.tsx:57 | The same strict comparison between a numeric id and the string form value (schema at line 30). | The same selection on the purchase page. | Look the product up by its numeric id. | medium, not executed; depends on the select component's value type, which is not modelled | PurchaseBuilder.NoLineAddedAsWritten | PurchaseBuilder.IntendedLookupAddsLine |
