# GreenCart order back end — a Dafny model

This project models the order controller of the GreenCart storefront
(`server/controllers/orderController.js`). The controller has three parts:

- **Order placement.** `placeOrderCOD` places cash-on-delivery orders. `placeOrderStripeSession`
  places online orders and asks Stripe for a checkout session.
- **Webhook reconciler.** `stripeWebhooks` marks an order paid on `checkout.session.completed`.
  It deletes the order on `payment_intent.payment_failed`, and acknowledges every other event.
- **Listings.** `getUserOrders` and `getAllOrders` return the COD or paid orders, newest first.

The databases and Stripe are outside the model. They appear only as inputs:

- The order and user collections are the fields of the class `OrderStore.Store` (two maps and an
  id counter). Its methods are the Mongoose calls the controller makes.
- Stripe's signature check is an `Option<Event>`: `None` when `constructEvent` throws.
- Session creation and session listing are function parameters.
- A `set<Call>` names the backend calls that throw on a given webhook delivery.
- The creation time of an order is a parameter `now`.

Modules, one per concern:

| file | module | what |
|---|---|---|
| domain.dfy | `Domain` | items, products, orders, users, session metadata, JavaScript truthiness |
| object_ids.dfy | `ObjectIds` | `order._id.toString()` and the cast back to an id, with the round trip |
| pricing.dfy | `Pricing` | subtotal, the 2% tax, the COD fold, the online loop, the Stripe line items |
| order_store.dfy | `OrderStore` | the collections as a class, and the update/delete/cart operations |
| webhooks.dfy | `Webhooks` | the reconciler as a function `Reconcile`, the handler method, its properties |
| placement.dfy | `Placement` | the two place-order handlers and the order/session correlation |
| queries.dfy | `Queries` | the visibility filter and the newest-first sort |

Behaviours of the code that the model keeps as written:

- Online orders are stored with `isPaid: true` at creation (orderController.js:88-95), not in
  a pending state. As a result, an online order is listed to buyer and seller before any
  payment is confirmed (`Queries.OnlineOrderListedBeforeConfirmation`). If session creation
  fails, the order still stays stored as paid.
- The checkout session does not charge the order's stored amount. The line items carry only
  `price * 100` per unit and no tax. So the session charges 100 × subtotal cents, while the
  order stores subtotal + tax. The two agree only when the subtotal is in [0, 50)
  (`Pricing.ChargeMatchesAmountIffNoTax`).
- The webhook handler needs the raw request body for `constructEvent`. But server/server.js:31
  parses every body with `express.json()`, and no route in server/server.js:52-57 or
  server/routes/orderRoute.js reaches `stripeWebhooks`. As shipped, the handler is never called.
  Mounted after line 31, it would receive a parsed body, `constructEvent` would throw, and every
  delivery would be rejected (`verified == None`). The model assumes the handler is mounted with
  the raw body.
- The reconciler never checks `paymentType`. A completion naming a COD order would mark it paid.
- The two handlers validate differently. COD tests the address first, so a request with no
  address and no item list gets 400 from COD but 500 from the online handler.
- The two handlers report different missing products. COD's `async` reduce looks every product
  up before awaiting the accumulator, so its error names the last missing product. The online
  `for` loop names the first (`Pricing.FoldAndLoopReportDifferentProducts`).

## Model

| member | source | states |
|---|---|---|
| `ObjectIds.IdToString` | server/controllers/orderController.js:116 | an id renders as a non-empty digit string that starts with 0 only for id 0 |
| `ObjectIds.ParseRendered` | server/controllers/orderController.js:116 | the orderId written into the session metadata casts back to the same order id |
| `ObjectIds.ParsedIsRendered` | server/controllers/orderController.js:153-154 | any metadata text that casts to an id is exactly that id's rendering, so a webhook can name only the order whose id was written |
| `Pricing.Tax` | server/controllers/orderController.js:30-32 | the tax is floor(subtotal · 2/100): the largest t with 50t ≤ subtotal, also for negative subtotals |
| `Pricing.AmountNonNegative` | server/controllers/orderController.js:24-32 | with non-negative quantities the subtotal is ≥ 0 and the amount is ≥ the subtotal |
| `Pricing.FirstMissing` | server/controllers/orderController.js:71-73 | the index of a missing product such that every earlier item's product exists |
| `Pricing.LastMissing` | server/controllers/orderController.js:24-28 | the index of a missing product such that every later item's product exists |
| `Pricing.ReduceSubtotal` | server/controllers/orderController.js:24-28 | the COD fold succeeds iff every product exists, then equals Σ offerPrice·quantity; otherwise it fails naming the last missing product |
| `Pricing.FoldAndLoopReportDifferentProducts` | server/controllers/orderController.js:24-28 | for every request with exactly two missing products, at positions i < j, the COD fold reports the product at j and the online loop the product at i |
| `Pricing.ProductLines` | server/controllers/orderController.js:71-80 | one product line per request item, same order, carrying the product's name and offer price and the item's quantity |
| `Pricing.PriceItems` | server/controllers/orderController.js:68-84 | the online loop fails iff some product is missing, naming the first one; otherwise it returns subtotal + tax and the product lines |
| `Pricing.ToLineItems` | server/controllers/orderController.js:98-105 | one USD line item per product line, same order, with unit amount 100 × price and the same quantity |
| `Pricing.ChargeIsSubtotalInCents` | server/controllers/orderController.js:98-119 | the session built from the line items charges exactly 100 × subtotal cents |
| `Pricing.ChargeMatchesAmountIffNoTax` | server/controllers/orderController.js:84-119 | the session charges 100 × the stored amount iff 0 ≤ subtotal < 50 |
| `OrderStore.MarkPaid` | server/controllers/orderController.js:154 | same ids; the named order, if present, gets isPaid = true with every other field kept; all other orders unchanged |
| `OrderStore.DeleteOrder` | server/controllers/orderController.js:175 | removes exactly the named id (no-op when absent) and leaves the rest unchanged |
| `OrderStore.ClearCart` | server/controllers/orderController.js:157 | same users; the named user, if present, has an empty cart with the rest of the profile kept; others unchanged |
| `OrderStore.Store.Create` | server/controllers/orderController.js:35-42 | the order is stored under the counter's value, an id never used before, and the counter advances by one; nothing else changes |
| `OrderStore.Store.FindByIdAndMarkPaid` | server/controllers/orderController.js:154 | the order collection becomes `MarkPaid` of the old one; users unchanged |
| `OrderStore.Store.FindByIdAndDelete` | server/controllers/orderController.js:175 | the order collection becomes `DeleteOrder` of the old one; users unchanged |
| `OrderStore.Store.ClearCartOf` | server/controllers/orderController.js:157 | the user collection becomes `ClearCart` of the old one; orders unchanged |
| `Webhooks.Reconcile` | server/controllers/orderController.js:131-189 | failed signature → 400 and no change; missing or empty type → 400 and no change; 400 only then; unknown type → 200 and no change; never creates an order or user, changes an order only by setting isPaid and a user only by emptying the cart |
| `Webhooks.StripeWebhooks` | server/controllers/orderController.js:131-189 | the handler's new collections and reply are those of `Reconcile` on the old collections; the id counter is unchanged |
| `Webhooks.FaultsReachedAnswer500` | server/controllers/orderController.js:147-188 | a delivery answers 500 exactly when a backend call it reaches throws or the order id does not cast; faults in calls it never reaches leave the outcome that of a fault-free delivery |
| `Webhooks.ReceivedMeansComplete` | server/controllers/orderController.js:185-188 | an acknowledged (200) delivery has applied its whole effect: its state and reply are those of a fault-free delivery |
| `Webhooks.CompletedMarksOnlyNamedOrder` | server/controllers/orderController.js:149-161 | without backend faults, a completed checkout marks paid exactly the order whose rendered id is the metadata orderId (none when absent), deletes nothing, and empties only the metadata user's cart; it answers 500 only when the orderId does not cast |
| `Webhooks.PaymentFailedDeletesOnlyNamedOrder` | server/controllers/orderController.js:163-179 | without backend faults, a failed payment deletes exactly the order named by the first listed session's metadata, and nothing when there is no session or no orderId; no other order and no user changes |
| `Webhooks.RedeliveryIsIdempotent` | server/controllers/orderController.js:147-185 | without backend faults, delivering the same event twice gives the same collections and reply as delivering it once |
| `Webhooks.DeliveriesCommute` | server/controllers/orderController.js:147-185 | two deliveries without backend faults leave the same collections in either order; a completion after a deletion does not bring the order back |
| `Webhooks.RetryAfterFailureConverges` | server/controllers/orderController.js:147-188 | after a delivery that failed with 500 part-way, a fault-free redelivery ends in the state and reply of one clean delivery |
| `Placement.CodOutcome` | server/controllers/orderController.js:17-32 | COD accepts iff the address is truthy, the item list is present and non-empty and every product exists, and then prices at subtotal + tax; 400 exactly for a falsy address or an empty list; with a truthy address, a missing item list is a 500 `ItemsUndefined` and a missing product is a 500 "Product not found" naming the last missing one |
| `Placement.PlaceOrderCOD` | server/controllers/orderController.js:11-50 | a rejected request, or an insert the database rejects (500), changes no order; an accepted one adds exactly one order under a fresh id (COD, isPaid = false, the computed amount, the request's items, address and user); users never change |
| `Placement.PlaceOrderStripeSession` | server/controllers/orderController.js:54-127 | invalid request, missing product (the first) or an insert the database rejects (500) → no order and no session; otherwise exactly one order (Online, isPaid = true, subtotal + tax) and a session whose line items mirror the items and whose metadata holds the new order's rendered id and the user; if the provider refuses, the order stays stored and the reply is 500 |
| `Placement.HandlersAgree` | server/controllers/orderController.js:17-84 | both handlers accept the same requests and store the same amount; their validation replies differ only on a falsy address with no item list (400 vs 500). Among requests that fail pricing they differ too: COD names the last missing product, the online handler the first (`Pricing.FoldAndLoopReportDifferentProducts`) |
| `Placement.CompletedSessionPaysItsOrder` | server/controllers/orderController.js:115-161 | without backend faults, a completion carrying the metadata the online handler wrote marks exactly that order paid, empties that user's cart and answers 200 |
| `Placement.FailedPaymentRemovesItsOrder` | server/controllers/orderController.js:115-179 | without backend faults, a failed payment whose first session carries that metadata deletes exactly that order and no user changes |
| `Queries.SortPermutes` | server/controllers/orderController.js:200 | sorting by createdAt only reorders the selected orders |
| `Queries.SortIsNewestFirst` | server/controllers/orderController.js:200 | the sorted listing is in non-increasing createdAt order |
| `Queries.FindIsExact` | server/controllers/orderController.js:195-200 | a query lists each selected order exactly once, with its id and stored record, newest first, and nothing else |
| `Queries.GetAllOrders` | server/controllers/orderController.js:208-219 | exactly the orders that are COD or paid, each once, newest first |
| `Queries.GetUserOrders` | server/controllers/orderController.js:192-205 | exactly the requester's orders that are COD or paid, each once, newest first; never an unpaid online order |
| `Queries.OnlineOrderListedBeforeConfirmation` | server/controllers/orderController.js:88-95 | an online order as stored by the online handler appears in both listings before any webhook confirms it |

## Left out

- Floating point: prices are whole currency units (`nat`). The tax `Math.floor(amount * 0.02)` is
  taken as exact floor(subtotal / 50), and `Math.floor(price * 100)` as 100 × price. Fractional
  prices and binary rounding of `0.02` are not modelled.
- ObjectId format: ids are naturals rendered in canonical decimal. The cast accepts exactly the
  rendered strings. The real 24-hex-digit format and its case-insensitive cast are not modelled.
- User ids are opaque strings. A `userId` in webhook metadata that is not a valid ObjectId makes
  `User.findByIdAndUpdate` throw in the real system. This model treats such an id as naming no user.
- Stripe: signature verification (`constructEvent`), session creation and session listing
  are inputs. The model does not cover the provider's own rules, such as rejecting a negative
  quantity or a metadata value.
- Mongoose: `populate` (presentation only), schemas and defaults, and the `timestamps`
  option (createdAt is the `now` parameter) are not modelled. A listing query that fails (the
  `success: false` branch) is not modelled, nor are reads failing in general.
- Ties in createdAt: MongoDB gives no order among equal timestamps. The model breaks ties by
  scan order, and its contracts promise only non-increasing createdAt.
- Concurrency: each handler is one sequential invocation. The COD reduce starts all product
  lookups at once. If a product is missing, the rejection of an intermediate step may be
  reported as unhandled, depending on lookup timing. With no handler for unhandled
  rejections in server/server.js, Node (version 15 and later) then terminates the process.
  Only the error that reaches the handler is modelled.
- Domain.Item: a quantity is an integer. The request body may carry any JSON value there; a
  fractional, missing or non-numeric quantity yields a fractional or NaN amount, which is not
  modelled.
- Placement.PlaceOrderCOD, Placement.PlaceOrderStripeSession: a rejected `Order.create` is a
  boolean input, with no reason attached (schema validation, connection loss); the reply is
  500 and nothing is stored or sent.
- Response bodies: replies are variants with their status codes. The JSON shapes, error message
  texts and console logging are not modelled.
- Request origin: `req.headers.origin` is a plain string parameter. A missing header, rendered as
  the text `undefined` in the URLs, is not distinguished.
- server/server.js and server/routes/orderRoute.js (bootstrap, CORS, routing and auth
  middleware) are not part of this model. The user id is taken as given by the auth middleware.
