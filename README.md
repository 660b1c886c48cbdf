# Point-of-sale orders, payments and catalog — a Dafny model

This project models the server-side core of a point-of-sale web application:

- the **order ledger** (`src/server/api/routers/order.ts`): `createOrder` computes a
  subtotal over the catalog products a request matches, an exact 10% tax and a grand
  total, writes one order and one item per matched product (each item keeps a copy of
  the product's price), and records the payment gateway's ids; `finishOrder` moves a
  paid PROCESSING order to DONE after an ordered chain of checks; `getOrders` filters by
  status; `getSalesReport` aggregates revenue and order counts; `simulatePayment` and
  `checkOrderStatus` are modelled up to the request they would send to the gateway;
- the **payment webhook** (`src/pages/api/payment/webhook.ts`): token check, order
  lookup, status-literal check, then `paidAt := now` and `status := PROCESSING`;
- the **cart store** (`src/store/cart.ts`): find-or-append `addToCart` and `clearCart`;
- the **product catalog** (`src/server/api/routers/product.ts`): the category filter of
  `getProducts` and the create / edit / delete mutations with their input bounds.

Each database table is a field of a class: the product table is a `map` from id to row
(`Catalog.ProductStore`), the order table a `map` and the order-item table a `set` of
rows (`Orders.Ledger`), the cart a `seq` (`Cart.CartStore`). Methods that write change
those fields and state the whole new state; the queries are functions over the stored
values. Ids the database generates are parameters (`freshId`, with the requirement that
it is not in use), the clock (`new Date()`) is the parameter `now`, and the Xendit QRIS
call is the function parameter `createQris: (real, OrderId) -> Option<PaymentRequest>`,
where `None` is a failed gateway call. The row order of database queries is unspecified:
the subtotal loop takes the matched products in an arbitrary order, and the set sums it
is proved against are shown not to depend on that order.

Money: prices, quantities and subtotals are integers; `tax = subtotal * 0.1` is a `real`
computed exactly, so `10 * tax == subtotal` and `grandTotal == subtotal + tax` hold
exactly.

Behaviour reproduced as the code has it, where a stricter behaviour would be expected
of a point-of-sale ledger:

- `createOrder` accepts an empty request (the input schema puts no minimum on the array)
  and creates an order with zero totals, rather than rejecting it as invalid input.
- A success notification is applied whatever the order's status: a DONE order goes back
  to PROCESSING, and a redelivery overwrites `paidAt` with the later time, rather than
  being applied at most once. `Scenarios.RedeliveredSuccess` and
  `Reports.PaymentInReport` state the consequences.
- `getSalesReport` counts every order whose status is not DONE as ongoing, including
  orders still awaiting payment, so ongoing plus completed is always the number of
  orders (`Reports.GetSalesReport`); with one PROCESSING, one AWAITING_PAYMENT and one
  DONE order it reports two ongoing orders, not one (`Reports.SalesReportExample`).
- `simulatePayment` fails only for a missing order; an order without a payment method
  sends a null payment method id to the gateway.
- `checkOrderStatus` signals a missing order and an unpaid order with the same error.

Modules: `Wrappers` (Option, Result), `Catalog`, `OrderTotals`, `Orders`, `Reports`,
`Webhook`, `Cart`, `Scenarios` (client methods that chain the operations, including the
end-to-end example of a 1000-priced product ordered twice).

## Model

| member | source | states |
|---|---|---|
| `Catalog.GetProducts` | src/server/api/routers/product.ts:19-26 | "all" returns the whole table; any other category id returns exactly the rows of that category, unchanged |
| `Catalog.CodeUnits` | src/server/api/routers/product.ts:48 | a character counts two UTF-16 code units exactly when it lies outside the Basic Multilingual Plane, otherwise one |
| `Catalog.Utf16Length` | src/server/api/routers/product.ts:48 | the length `z.string().min(3)` compares lies between the number of characters and twice it, and equals the number of characters exactly when no character lies outside the Basic Multilingual Plane |
| `Catalog.Utf16LengthAppend` | src/server/api/routers/product.ts:48 | the JavaScript length of a concatenation is the sum of the two lengths |
| `Catalog.TwoEmojiNameAccepted` | src/server/api/routers/product.ts:48-49 | a name of two emoji has length 4 and, with price 1000, passes the input bounds |
| `Catalog.ProductStore.CreateProduct` | src/server/api/routers/product.ts:45-68 | a name whose JavaScript length (UTF-16 code units) is under 3 or a price under 1000 is rejected with the table unchanged; otherwise exactly one row is added under the fresh id with the given fields, all other rows unchanged; the table invariant (every row within the bounds) is kept |
| `Catalog.ProductStore.EditProduct` | src/server/api/routers/product.ts:91-118 | the bounds (JavaScript name length at least 3, price at least 1000) are checked first, then a missing id is NotFound; on success the row is replaced by the given name, price, category and image and nothing else changes |
| `Catalog.ProductStore.DeleteProductById` | src/server/api/routers/product.ts:73-86 | a missing id is NotFound with the table unchanged; otherwise exactly that row is removed and returned |
| `OrderTotals.Matched` | src/server/api/routers/order.ts:27-33 | the products the query returns are exactly the catalog ids that some request line names |
| `OrderTotals.FirstQuantity` | src/server/api/routers/order.ts:38-40 | None exactly when no line names the product; otherwise the quantity of the first line that names it |
| `OrderTotals.Tax` | src/server/api/routers/order.ts:47 | the tax is exactly one tenth of the subtotal, and lies between 0 and the subtotal for a non-negative subtotal |
| `OrderTotals.ComputeSubtotal` | src/server/api/routers/order.ts:35-45 | the accumulating loop, taking the matched products in any order, returns the sum over the matched products of price × first-line quantity |
| `OrderTotals.LineSumRemove` | src/server/api/routers/order.ts:37-45 | the sum over a set of products equals any one product's line total plus the sum over the rest, so the row order of the query does not matter |
| `OrderTotals.LineSumCongruent` | src/server/api/routers/order.ts:37-45 | two sums agree when the line totals agree product by product |
| `OrderTotals.LineSumLowerBound` | src/server/api/routers/order.ts:42 | with prices of at least 1000 and quantities of at least 1, every summed product adds at least 1000 |
| `OrderTotals.SubtotalLowerBound` | src/server/api/routers/order.ts:35-45 | over a catalog within the product bounds, a valid request's subtotal is at least 1000 per matched product |
| `OrderTotals.FirstQuantityAppend` | src/server/api/routers/order.ts:38-40 | appending a line does not change the quantity taken for a product an earlier line names, nor for any other product |
| `OrderTotals.SubtotalIgnoresUnknownProduct` | src/server/api/routers/order.ts:27-45 | a line for an id missing from the catalog changes neither the matched products nor the subtotal |
| `OrderTotals.SubtotalIgnoresRepeatedProduct` | src/server/api/routers/order.ts:38-40 | a second line for an already requested product changes neither the matched products nor the subtotal: only the first line's quantity counts |
| `OrderTotals.SubtotalOfSingleLine` | src/server/api/routers/order.ts:35-45 | a one-line request for a catalog product has subtotal price × quantity |
| `Orders.NewOrder` | src/server/api/routers/order.ts:47-57 | the first order row is well formed: tax one tenth of the subtotal, grand total their sum, status AWAITING_PAYMENT, no payment time, no gateway ids |
| `Orders.Paid` | src/pages/api/payment/webhook.ts:41-49 | the payment update sets paidAt and PROCESSING, keeps totals and gateway ids, keeps an order well formed and leaves it meeting both finishOrder conditions |
| `Orders.Finished` | src/server/api/routers/order.ts:242-249 | the completion update sets DONE and nothing else, keeps a finishable order well formed, and the result cannot be finished again |
| `Orders.ItemFor` | src/server/api/routers/order.ts:60-71 | an item row carries the new order's id, the product id, the product's price at call time and the first line's quantity |
| `Orders.NewItems` | src/server/api/routers/order.ts:59-72 | every written item belongs to the new order, names a matched product and carries its current price and requested quantity; every matched product has its item |
| `Orders.ItemsForCount` | src/server/api/routers/order.ts:59-72 | distinct products give distinct item rows, one per product |
| `Orders.NewItemsCount` | src/server/api/routers/order.ts:59-72 | createOrder writes exactly as many items as there are matched products |
| `Orders.NewItemsQuantities` | src/server/api/routers/order.ts:18 | items written from a request that passed the input schema have quantity at least 1 |
| `Orders.ItemsOfFreshOrder` | src/server/api/routers/order.ts:59-72 | rows added under an unused order id are exactly that order's items |
| `Orders.GetOrders` | src/server/api/routers/order.ts:169-196 | ALL returns every order; a concrete status returns exactly the orders with that status; each entry carries the order's grand total, status, paidAt and its number of items |
| `Orders.GetOrdersPartition` | src/server/api/routers/order.ts:169-181 | the three status filters together return exactly what ALL returns |
| `Orders.SimulatePaymentRequest` | src/server/api/routers/order.ts:106-128 | a missing order is NotFound; otherwise the gateway is asked for the order's grand total on its stored (possibly null) payment method |
| `Orders.CheckOrderStatusRequest` | src/server/api/routers/order.ts:140-157 | a missing or unpaid order fails with the missing-transaction error; otherwise the stored transaction id is queried |
| `Orders.CheckOrderStatusOnWellFormed` | src/server/api/routers/order.ts:151-153 | on a well-formed order the guard rejects exactly the orders still awaiting payment |
| `Orders.Ledger.InsertOrder` | src/server/api/routers/order.ts:51-57 | the order write adds one row under the fresh id and keeps the ledger invariant |
| `Orders.Ledger.InsertItems` | src/server/api/routers/order.ts:59-72 | the item write adds exactly the given rows and keeps the ledger invariant |
| `Orders.Ledger.AttachPaymentRequest` | src/server/api/routers/order.ts:79-87 | the order update records the gateway's transaction and payment-method ids and changes nothing else |
| `Orders.Ledger.CreateOrder` | src/server/api/routers/order.ts:12-95 | a quantity below 1 is rejected before any write; otherwise exactly one order with the computed totals and exactly its matched items are added, other orders unchanged; on gateway failure the order stays without gateway ids, otherwise it gets them and the result carries the order as first written, the item count and the QR payload |
| `Orders.Ledger.FinishOrder` | src/server/api/routers/order.ts:201-250 | missing order gives NotFound, then missing paidAt gives not-paid, then a status other than PROCESSING gives not-processing; on any error nothing changes; it succeeds exactly when paid and PROCESSING, and then only that order's status becomes DONE |
| `Reports.RevenueRemove` | src/server/api/routers/order.ts:289-291 | the revenue sum equals any one order's grand total plus the sum over the rest: the reduction does not depend on row order |
| `Reports.RevenueCongruent` | src/server/api/routers/order.ts:289-291 | two order tables with equal grand totals on a set give equal revenue over it |
| `Reports.OngoingAndCompletedPartition` | src/server/api/routers/order.ts:265-293 | ongoing plus completed orders equal the number of orders |
| `Reports.GetSalesReport` | src/server/api/routers/order.ts:252-300 | revenue is the sum of grand totals over orders with a payment time; completed counts DONE orders; ongoing plus completed is the total order count |
| `Reports.RevenueAfterPayment` | src/pages/api/payment/webhook.ts:41-49 | a payment update raises the revenue by the order's grand total when it had no payment time, and leaves it unchanged when it had one |
| `Reports.CountsAfterPayment` | src/pages/api/payment/webhook.ts:41-49 | a payment update on a DONE order moves it from completed to ongoing; on any other order the two counts stay put |
| `Reports.CountsAfterFinish` | src/server/api/routers/order.ts:242-249 | finishing a PROCESSING order raises the completed count by one and lowers the ongoing count by one |
| `Reports.PaymentInReport` | src/pages/api/payment/webhook.ts:41-49 | a payment update adds the grand total to revenue when the order was unpaid and nothing on a redelivery; on a DONE order it moves one order from completed back to ongoing |
| `Reports.FinishInReport` | src/server/api/routers/order.ts:242-249 | finishing moves one order from ongoing to completed and leaves revenue unchanged |
| `Reports.SalesReportExample` | src/server/api/routers/order.ts:284-293 | orders {paid, PROCESSING, 100}, {unpaid, AWAITING_PAYMENT}, {paid, DONE, 50} give revenue 150, two ongoing, one completed |
| `Webhook.UnsetSecretAcceptsMissingHeader` | src/pages/api/payment/webhook.ts:18-22 | as written, an unset secret and an absent header pass the token check |
| `Webhook.TokenAcceptedCorrectsUnsetSecret` | src/pages/api/payment/webhook.ts:18-22 | the corrected check accepts only what the written check accepts, agrees with it whenever a secret is configured, and rejects every request when none is |
| `Webhook.Handle` | src/pages/api/payment/webhook.ts:15-52 | a bad token is Unauthorized before any lookup; an unknown reference id is NotFound; any status other than "SUCCEEDED" is acknowledged; in all three the ledger is unchanged; on "SUCCEEDED" only the referenced order changes, to paidAt = now and PROCESSING, whatever its previous status |
| `Cart.FindIndex` | src/store/cart.ts:25-27 | -1 exactly when no item has the id; otherwise the first position holding it |
| `Cart.TotalQtyAppend` | src/store/cart.ts:29-36 | appending an item adds its quantity to the cart total |
| `Cart.TotalQtyIncrement` | src/store/cart.ts:37-45 | raising one item's quantity by one raises the cart total by one |
| `Cart.CartStore.AddToCart` | src/store/cart.ts:21-53 | an absent id is appended at the end with quantity 1 and the given fields; a present id has only its quantity raised by 1, length, order and the other items unchanged, keeping its first name, price and image; ids stay distinct, quantities at least 1, and the total quantity grows by exactly 1 |
| `Cart.CartStore.ClearCart` | src/store/cart.ts:54-56 | the cart becomes empty |
| `Scenarios.SampleOrderTotals` | src/server/api/routers/order.ts:35-72 | two units of a product at 1000 give subtotal 2000, tax 200, grand total 2200, and one item row at price 1000 |
| `Scenarios.EndToEnd` | src/server/api/routers/order.ts:12-95 | a product at 1000, under any name of at least three characters, ordered twice gives subtotal 2000, tax 200, grand total 2200; after a success notification and finishOrder the order is DONE with the gateway's ids; after the product is repriced to 2500 the order's only item still has price 1000 |
| `Scenarios.RedeliveredSuccess` | src/pages/api/payment/webhook.ts:41-49 | two deliveries of the same success notification leave the order PROCESSING with the second delivery's time, totals and gateway ids unchanged |
| `Scenarios.PaymentThenFinish` | src/server/api/routers/order.ts:228-249 | after a success notification, finishOrder on that order succeeds and sets it DONE |
| `Scenarios.RepriceAfterOrder` | src/server/api/routers/order.ts:65-70 | after an order is placed and a product is edited, every item of the order still carries the price the product had when the order was placed |

## Left out

- `Webhook.Handle`: uses the corrected token check (see Findings); as written, an unset secret lets requests without the header through.
- Quantities and prices are integers; the input schema's `z.number()` also admits fractional numbers, which the model does not represent.
- Floating-point arithmetic: `subtotal * 0.1` (order.ts:47), `subtotal + tax`, and the `reduce` that adds grand totals into `totalRevenue` (order.ts:289-291) are computed as exact reals; the source's IEEE doubles round (subtotal 1001 gives tax 100.10000000000001), and the model does not capture that rounding.
- The Xendit calls themselves (`createQRIS`, `simulatePayment`, `getPaymentRequestByID`): foreign calls; creation is a function parameter, the other two are modelled up to the request they are sent.
- `simulatePayment` does not await the gateway; what the gateway does with the request is not modelled.
- The non-null assertions on the gateway's QR payload: the model's payment request always carries a QR string.
- The category join of `getProducts` (category id and name in each result row), and the category relation in `createProduct` / `editProduct`: the category table is not part of this model, so connecting to a missing category is not an error here.
- Referential actions of the database schema (for example deleting a product that order items still reference): the schema is not part of this model.
- Supabase signed upload URLs and image deletion: storage I/O.
- Authentication of the procedures, HTTP response plumbing (including the response at webhook.ts:38 that is never sent), `console.log`, and string-format checks (`uuid`, `url`).
- The concurrency of `Promise.all` in `getSalesReport`: the three aggregations are computed one after the other.
- Result order of database queries: query results are maps or sets keyed by id.
- The unreachable `if (!itemToUpdate)` branch of `addToCart` (cart.ts:40-43): the index found is always in range, so the model has no such branch.
- Aliasing in `addToCart`: the source copies the array shallowly and increments `qty` on an item object still shared with the previous state; the model treats cart items as values, so the previous state is not retroactively changed.
- The webhook's header may also arrive as a list of strings; the model's header is a single optional string.

## Findings

| source | as written | input that shows it | evidently intended | confidence | as-written member | corrected member |
|---|---|---|---|---|---|---|
| src/pages/api/payment/webhook.ts:18-22 | the request is accepted when `x-callback-token !== XENDIT_WEBHOOK_TOKEN` is false, which also holds when both are undefined | secret not configured and a request without the header: the check passes and a "SUCCEEDED" body marks any known order paid | reject every request unless a secret is configured and the header equals it | medium, not executed | `Webhook.UnsetSecretAcceptsMissingHeader` | `Webhook.TokenAcceptedCorrectsUnsetSecret` |
