/** The two order-placing handlers: `placeOrderCOD` and `placeOrderStripeSession`. */
module Placement {
  import opened Domain
  import opened ObjectIds
  import opened Pricing
  import opened OrderStore
  import Webhooks

  /** The request body `{ userId, items, address }`. `items` may be missing altogether;
      `address` is falsy when missing or empty. */
  datatype OrderRequest = OrderRequest(userId: UserId, items: Option<seq<Item>>, address: Option<AddressId>)

  /** What a handler's catch block reports with status 500. */
  datatype Failure =
    | ProductNotFound(product: ProductId)  // "Product not found: " + product
    | ItemsUndefined                       // reading `length` of a missing item list
    | CreateFailed                         // `Order.create` rejected
    | SessionFailed                        // the provider refused to create the session

  datatype Reply =
    | Placed              // { success: true, message: "Order placed successfully" }
    | Redirect(url: string) // { success: true, url }
    | Invalid             // 400 { success: false, message: "Invalid order data" }
    | Failed(failure: Failure)

  function Status(reply: Reply): nat {
    match reply
    case Placed => 200
    case Redirect(_) => 200
    case Invalid => 400
    case Failed(_) => 500
  }

  /** What `placeOrderCOD` decides before it writes: the amount to store, or the reply that
      ends the request. It tests `!address || items.length === 0`, so a falsy address is
      rejected before the item list is read. */
  function CodOutcome(cat: Catalogue, req: OrderRequest): (r: Result<int, Reply>)
    ensures r.Ok? <==> Truthy(req.address) && req.items.Some? && req.items.value != []
                       && Known(cat, req.items.value)
    ensures r.Ok? ==> r.value == Amount(cat, req.items.value)
    ensures r.Err? && Status(r.error) == 400 <==> !Truthy(req.address) || req.items == Some([])
    ensures r.Err? && r.error.Failed? && r.error.failure.ProductNotFound? ==>
      req.items.Some? && !Known(cat, req.items.value) &&
      r.error.failure.product == req.items.value[LastMissing(cat, req.items.value)].product
    // Past the address check, a missing item list throws on `items.length`, and a missing
    // product always ends the request with "Product not found" naming the last one.
    ensures Truthy(req.address) && req.items.None? ==> r == Err(Failed(ItemsUndefined))
    ensures Truthy(req.address) && req.items.Some? && req.items.value != [] && !Known(cat, req.items.value) ==>
      r == Err(Failed(ProductNotFound(req.items.value[LastMissing(cat, req.items.value)].product)))
  {
    if !Truthy(req.address) then Err(Invalid)
    else if req.items.None? then Err(Failed(ItemsUndefined))
    else if req.items.value == [] then Err(Invalid)
    else
      match ReduceSubtotal(cat, req.items.value)
      case Err(p) => Err(Failed(ProductNotFound(p)))
      case Ok(subtotal) => Ok(subtotal + Tax(subtotal))
  }

  /** `placeOrderCOD`: validate, price by the fold, store one unpaid COD order.
      `createFails` says whether the database rejects the insert. */
  method PlaceOrderCOD(store: Store, cat: Catalogue, req: OrderRequest, now: int, createFails: bool)
    returns (reply: Reply)
    requires store.Valid()
    modifies store
    ensures store.Valid() && store.users == old(store.users)
    ensures CodOutcome(cat, req).Err? ==>
      reply == CodOutcome(cat, req).error &&
      store.orders == old(store.orders) && store.nextId == old(store.nextId)
    ensures CodOutcome(cat, req).Ok? && createFails ==>
      reply == Failed(CreateFailed) &&
      store.orders == old(store.orders) && store.nextId == old(store.nextId)
    ensures CodOutcome(cat, req).Ok? && !createFails ==>
      reply == Placed &&
      store.orders == old(store.orders)[old(store.nextId) :=
        Order(req.userId, req.items.value, CodOutcome(cat, req).value, req.address.value, COD, false, now)]
  {
    if !Truthy(req.address) {
      return Invalid;
    }
    if req.items.None? {
      return Failed(ItemsUndefined);
    }
    var items := req.items.value;
    if |items| == 0 {
      return Invalid;
    }
    var subtotal := ReduceSubtotal(cat, items);
    if subtotal.Err? {
      return Failed(ProductNotFound(subtotal.error));
    }
    var amount := subtotal.value + Tax(subtotal.value);
    if createFails {
      return Failed(CreateFailed);
    }
    var _ := store.Create(Order(req.userId, items, amount, req.address.value, COD, false, now));
    return Placed;
  }

  /** The online handler's validation, `!items.length || !address`: a missing item list
      throws before the address is looked at. */
  function OnlineCheck(req: OrderRequest): Option<Reply> {
    if req.items.None? then Some(Failed(ItemsUndefined))
    else if req.items.value == [] || !Truthy(req.address) then Some(Invalid)
    else None
  }

  /** The session the online handler asks the provider for. */
  datatype SessionRequest = SessionRequest(
    paymentMethodTypes: seq<string>,
    mode: string,
    successUrl: string,
    cancelUrl: string,
    lineItems: seq<LineItem>,
    metadata: Metadata)

  function SessionFor(origin: string, lineItems: seq<LineItem>, id: OrderId, userId: UserId): SessionRequest {
    SessionRequest(["card"], "payment", origin + "/loader?next=my-orders", origin + "/cart",
                   lineItems, Metadata(Some(IdToString(id)), Some(userId)))
  }

  /** `placeOrderStripeSession`: validate, price item by item, store the order as paid, then
      ask the provider for a checkout session that names the new order in its metadata.
      `createSession` stands for the provider: the session's URL, or `None` when it refuses.
      `createFails` says whether the database rejects the insert.
      `sent` is the session request the handler made, if it got that far. */
  method PlaceOrderStripeSession(store: Store, cat: Catalogue, req: OrderRequest, origin: string,
                                 now: int, createFails: bool, createSession: SessionRequest -> Option<string>)
    returns (reply: Reply, sent: Option<SessionRequest>)
    requires store.Valid()
    modifies store
    ensures store.Valid() && store.users == old(store.users)
    ensures OnlineCheck(req).Some? ==>
      reply == OnlineCheck(req).value && sent.None? &&
      store.orders == old(store.orders) && store.nextId == old(store.nextId)
    ensures OnlineCheck(req).None? && !Known(cat, req.items.value) ==>
      reply == Failed(ProductNotFound(req.items.value[FirstMissing(cat, req.items.value)].product)) &&
      sent.None? && store.orders == old(store.orders) && store.nextId == old(store.nextId)
    ensures OnlineCheck(req).None? && Known(cat, req.items.value) && createFails ==>
      reply == Failed(CreateFailed) && sent.None? &&
      store.orders == old(store.orders) && store.nextId == old(store.nextId)
    ensures OnlineCheck(req).None? && Known(cat, req.items.value) && !createFails ==>
      var items := req.items.value;
      var id := old(store.nextId);
      && store.orders == old(store.orders)[id :=
           Order(req.userId, items, Amount(cat, items), req.address.value, Online, true, now)]
      && sent == Some(SessionFor(origin, ToLineItems(ProductLines(cat, items)), id, req.userId))
      && reply == if createSession(sent.value).Some? then Redirect(createSession(sent.value).value)
                  else Failed(SessionFailed)
  {
    if req.items.None? {
      return Failed(ItemsUndefined), None;
    }
    var items := req.items.value;
    if |items| == 0 || !Truthy(req.address) {
      return Invalid, None;
    }
    var priced := PriceItems(cat, items);
    if priced.Err? {
      return Failed(ProductNotFound(priced.error)), None;
    }
    if createFails {
      return Failed(CreateFailed), None;
    }
    var id := store.Create(Order(req.userId, items, priced.value.amount, req.address.value, Online, true, now));
    var lineItems := ToLineItems(priced.value.productData);
    var request := SessionFor(origin, lineItems, id, req.userId);
    var session := createSession(request);
    if session.None? {
      return Failed(SessionFailed), Some(request);
    }
    return Redirect(session.value), Some(request);
  }

  /** Both handlers accept the same requests and store the same amount for them. They
      differ only on a request with a falsy address and no item list (400 against 500), and
      in which missing product a request that fails pricing reports. */
  lemma HandlersAgree(cat: Catalogue, req: OrderRequest)
    ensures CodOutcome(cat, req).Ok? <==> OnlineCheck(req).None? && Known(cat, req.items.value)
    ensures CodOutcome(cat, req).Ok? ==> CodOutcome(cat, req).value == Amount(cat, req.items.value)
    ensures OnlineCheck(req).Some? && !(req.items.None? && !Truthy(req.address)) ==>
      CodOutcome(cat, req) == Err(OnlineCheck(req).value)
    ensures req.items.None? && !Truthy(req.address) ==>
      CodOutcome(cat, req) == Err(Invalid) && OnlineCheck(req) == Some(Failed(ItemsUndefined))
  {
  }

  /** The correlation round trip: a completed checkout for the session the online handler
      created marks exactly that order paid, empties its buyer's cart (unless the buyer id is
      empty, which is falsy), and is acknowledged. */
  lemma CompletedSessionPaysItsOrder(db: Db, origin: string, lineItems: seq<LineItem>, id: OrderId,
                                     userId: UserId, sessionId: string,
                                     sessionsFor: string -> seq<Webhooks.Session>)
    requires id in db.orders
    ensures var meta := SessionFor(origin, lineItems, id, userId).metadata;
            var event := Webhooks.Event(Some(Webhooks.CheckoutSessionCompleted),
                                        Webhooks.EventObject(sessionId, Some(meta)));
            var r := Webhooks.Reconcile(db, Some(event), sessionsFor, {});
            && r.reply == Webhooks.Received
            && r.db.orders == db.orders[id := db.orders[id].(isPaid := true)]
            && r.db.users == if userId != "" then ClearCart(db.users, userId) else db.users
  {
    ParseRendered(id);
    assert Truthy(Some(IdToString(id)));
  }

  /** And a failed payment whose first listed session is that session deletes exactly that
      order. */
  lemma FailedPaymentRemovesItsOrder(db: Db, origin: string, lineItems: seq<LineItem>, id: OrderId,
                                     userId: UserId, paymentIntentId: string,
                                     sessionsFor: string -> seq<Webhooks.Session>)
    requires var s := sessionsFor(paymentIntentId);
             |s| > 0 && s[0].metadata == Some(SessionFor(origin, lineItems, id, userId).metadata)
    ensures var event := Webhooks.Event(Some(Webhooks.PaymentIntentFailed),
                                        Webhooks.EventObject(paymentIntentId, None));
            var r := Webhooks.Reconcile(db, Some(event), sessionsFor, {});
            && r.reply == Webhooks.Received
            && r.db.orders == db.orders - {id}
            && r.db.users == db.users
  {
    ParseRendered(id);
    assert Truthy(Some(IdToString(id)));
  }
}
