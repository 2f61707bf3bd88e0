/** The Stripe webhook reconciler (`stripeWebhooks`): a state machine over the order and
    user collections, driven by provider events that may be redelivered and reordered.

    The outside world enters as inputs: the result of signature verification (`None` when
    `constructEvent` throws), the provider's session listing for a payment intent, and the
    set of backend calls that throw on this delivery. */
module Webhooks {
  import opened Domain
  import opened ObjectIds
  import opened OrderStore

  /** `event.data.object`: a checkout session carries metadata, a payment intent an id. */
  datatype EventObject = EventObject(id: string, metadata: Option<Metadata>)

  /** A verified event; its `type` may be missing. */
  datatype Event = Event(eventType: Option<string>, dataObject: EventObject)

  /** One element of `stripe.checkout.sessions.list(...).data`. */
  datatype Session = Session(metadata: Option<Metadata>)

  /** The calls the handler makes to the store and to the provider while it dispatches. */
  datatype Call = UpdateOrder | UpdateUser | ListSessions | RemoveOrder

  /** The handler's answers: 400 "Webhook Error: ...", 400 "Invalid event",
      200 {received: true}, 500 "Webhook processing failed.". */
  datatype Reply = SignatureRejected | InvalidEvent | Received | ProcessingFailed

  function Status(reply: Reply): nat {
    match reply
    case SignatureRejected => 400
    case InvalidEvent => 400
    case Received => 200
    case ProcessingFailed => 500
  }

  datatype Outcome = Outcome(db: Db, reply: Reply)

  const CheckoutSessionCompleted: string := "checkout.session.completed"
  const PaymentIntentFailed: string := "payment_intent.payment_failed"

  /** `checkout.session.completed`: mark the metadata's order paid, then empty the metadata's
      user's cart; each step is skipped when its key is missing or empty. A step that throws
      (including a cast error on the order id) ends the delivery with 500, keeping what the
      steps before it wrote. */
  function OnCompleted(db: Db, meta: Metadata, fails: set<Call>): Outcome {
    if Truthy(meta.orderId) && (UpdateOrder in fails || ParseId(meta.orderId.value).None?) then
      Outcome(db, ProcessingFailed)
    else
      var db1 :=
        if Truthy(meta.orderId) then db.(orders := MarkPaid(db.orders, ParseId(meta.orderId.value).value))
        else db;
      if !Truthy(meta.userId) then Outcome(db1, Received)
      else if UpdateUser in fails then Outcome(db1, ProcessingFailed)
      else Outcome(db1.(users := ClearCart(db1.users, meta.userId.value)), Received)
  }

  /** The metadata of the first session the provider lists for a payment intent, or empty
      metadata when there is none. */
  function FirstSessionMetadata(sessions: seq<Session>): Metadata {
    if |sessions| > 0 then MetadataOrEmpty(sessions[0].metadata) else Metadata(None, None)
  }

  /** `payment_intent.payment_failed`: delete the order named by the first listed session. */
  function OnPaymentFailed(db: Db, paymentIntentId: string, sessionsFor: string -> seq<Session>,
                           fails: set<Call>): Outcome
  {
    if ListSessions in fails then Outcome(db, ProcessingFailed)
    else
      var meta := FirstSessionMetadata(sessionsFor(paymentIntentId));
      if !Truthy(meta.orderId) then Outcome(db, Received)
      else if RemoveOrder in fails || ParseId(meta.orderId.value).None? then Outcome(db, ProcessingFailed)
      else Outcome(db.(orders := DeleteOrder(db.orders, ParseId(meta.orderId.value).value)), Received)
  }

  /** Whether a verified event has a (non-empty) type. */
  predicate HasType(verified: Option<Event>) {
    verified.Some? && Truthy(verified.value.eventType)
  }

  predicate IsType(verified: Option<Event>, t: string) {
    HasType(verified) && verified.value.eventType.value == t
  }

  /** One delivery of a webhook: the new collections and the reply. */
  function Reconcile(db: Db, verified: Option<Event>, sessionsFor: string -> seq<Session>,
                     fails: set<Call>): (r: Outcome)
    // A rejected delivery answers 400 and changes nothing; only a rejected delivery answers 400.
    ensures verified.None? ==> r == Outcome(db, SignatureRejected)
    ensures verified.Some? && !HasType(verified) ==> r == Outcome(db, InvalidEvent)
    ensures Status(r.reply) == 400 <==> !HasType(verified)
    // An event type the handler does not know is acknowledged and changes nothing.
    ensures (HasType(verified) && !IsType(verified, CheckoutSessionCompleted)
             && !IsType(verified, PaymentIntentFailed)) ==> r == Outcome(db, Received)
    // The reconciler never creates an order, and it changes an order only by marking it paid.
    ensures r.db.orders.Keys <= db.orders.Keys
    ensures forall k :: k in r.db.orders ==>
      r.db.orders[k] == db.orders[k] || r.db.orders[k] == db.orders[k].(isPaid := true)
    // It never creates or deletes a user, and changes a user only by emptying the cart.
    ensures r.db.users.Keys == db.users.Keys
    ensures forall u :: u in r.db.users ==>
      r.db.users[u] == db.users[u] || r.db.users[u] == db.users[u].(cartItems := map[])
  {
    if verified.None? then Outcome(db, SignatureRejected)
    else if !Truthy(verified.value.eventType) then Outcome(db, InvalidEvent)
    else
      var event := verified.value;
      var eventType := event.eventType.value;
      if eventType == CheckoutSessionCompleted then
        OnCompleted(db, MetadataOrEmpty(event.dataObject.metadata), fails)
      else if eventType == PaymentIntentFailed then
        OnPaymentFailed(db, event.dataObject.id, sessionsFor, fails)
      else
        Outcome(db, Received)
  }

  /** The handler itself, over the store object. */
  method StripeWebhooks(store: Store, verified: Option<Event>, sessionsFor: string -> seq<Session>,
                        fails: set<Call>) returns (reply: Reply)
    requires store.Valid()
    modifies store
    ensures store.Valid() && store.nextId == old(store.nextId)
    ensures Outcome(store.State(), reply) == Reconcile(old(store.State()), verified, sessionsFor, fails)
  {
    if verified.None? {
      return SignatureRejected;
    }
    var event := verified.value;
    if !Truthy(event.eventType) {
      return InvalidEvent;
    }
    var eventType := event.eventType.value;
    if eventType == CheckoutSessionCompleted {
      var meta := MetadataOrEmpty(event.dataObject.metadata);
      if Truthy(meta.orderId) {
        var id := ParseId(meta.orderId.value);
        if UpdateOrder in fails || id.None? {
          return ProcessingFailed;
        }
        store.FindByIdAndMarkPaid(id.value);
      }
      if Truthy(meta.userId) {
        if UpdateUser in fails {
          return ProcessingFailed;
        }
        store.ClearCartOf(meta.userId.value);
      }
    } else if eventType == PaymentIntentFailed {
      if ListSessions in fails {
        return ProcessingFailed;
      }
      var sessionList := sessionsFor(event.dataObject.id);
      var meta := FirstSessionMetadata(sessionList);
      if Truthy(meta.orderId) {
        var id := ParseId(meta.orderId.value);
        if RemoveOrder in fails || id.None? {
          return ProcessingFailed;
        }
        store.FindByIdAndDelete(id.value);
      }
    }
    return Received;
  }

  // ---------------------------------------------------------------------------------------
  // What one fault-free delivery does, as data: the order it marks paid, the order it
  // deletes and the user whose cart it empties. It depends on the event only, not on the
  // collections.

  datatype Effect = Effect(paid: Option<OrderId>, deleted: Option<OrderId>, cleared: Option<UserId>)

  function ApplyToOrders(orders: map<OrderId, Order>, e: Effect): (r: map<OrderId, Order>)
    ensures forall k :: k in r <==> k in orders && e.deleted != Some(k)
    ensures forall k :: k in r ==>
      r[k] == if e.paid == Some(k) then orders[k].(isPaid := true) else orders[k]
  {
    var marked := if e.paid.Some? then MarkPaid(orders, e.paid.value) else orders;
    if e.deleted.Some? then DeleteOrder(marked, e.deleted.value) else marked
  }

  function ApplyToUsers(users: map<UserId, User>, e: Effect): (r: map<UserId, User>)
    ensures r.Keys == users.Keys
    ensures forall u :: u in r ==>
      r[u] == if e.cleared == Some(u) then users[u].(cartItems := map[]) else users[u]
  {
    if e.cleared.Some? then ClearCart(users, e.cleared.value) else users
  }

  function Apply(db: Db, e: Effect): Db {
    Db(ApplyToOrders(db.orders, e), ApplyToUsers(db.users, e))
  }

  function EffectOf(verified: Option<Event>, sessionsFor: string -> seq<Session>): Effect {
    if IsType(verified, CheckoutSessionCompleted) then
      var meta := MetadataOrEmpty(verified.value.dataObject.metadata);
      if !Truthy(meta.orderId) then
        Effect(None, None, if Truthy(meta.userId) then Some(meta.userId.value) else None)
      else if ParseId(meta.orderId.value).None? then Effect(None, None, None)
      else Effect(ParseId(meta.orderId.value), None, if Truthy(meta.userId) then Some(meta.userId.value) else None)
    else if IsType(verified, PaymentIntentFailed) then
      var meta := FirstSessionMetadata(sessionsFor(verified.value.dataObject.id));
      if Truthy(meta.orderId) && ParseId(meta.orderId.value).Some? then
        Effect(None, ParseId(meta.orderId.value), None)
      else Effect(None, None, None)
    else Effect(None, None, None)
  }

  /** The reply a fault-free delivery gives; it does not depend on the collections. */
  function ReplyOf(verified: Option<Event>, sessionsFor: string -> seq<Session>): Reply {
    if verified.None? then SignatureRejected
    else if !HasType(verified) then InvalidEvent
    else if IsType(verified, CheckoutSessionCompleted) then
      var meta := MetadataOrEmpty(verified.value.dataObject.metadata);
      if Truthy(meta.orderId) && ParseId(meta.orderId.value).None? then ProcessingFailed else Received
    else if IsType(verified, PaymentIntentFailed) then
      var meta := FirstSessionMetadata(sessionsFor(verified.value.dataObject.id));
      if Truthy(meta.orderId) && ParseId(meta.orderId.value).None? then ProcessingFailed else Received
    else Received
  }

  lemma FaultFreeIsEffect(db: Db, verified: Option<Event>, sessionsFor: string -> seq<Session>)
    ensures Reconcile(db, verified, sessionsFor, {}) ==
            Outcome(Apply(db, EffectOf(verified, sessionsFor)), ReplyOf(verified, sessionsFor))
  {
  }

  /** `part` does a subset of what `e` does. */
  predicate SubEffect(part: Effect, e: Effect) {
    && (part.paid.None? || part.paid == e.paid)
    && (part.deleted.None? || part.deleted == e.deleted)
    && (part.cleared.None? || part.cleared == e.cleared)
  }

  lemma ApplyAbsorbs(db: Db, part: Effect, e: Effect)
    requires SubEffect(part, e)
    ensures Apply(Apply(db, part), e) == Apply(db, e)
  {
    var a, b := Apply(Apply(db, part), e), Apply(db, e);
    assert a.orders.Keys == b.orders.Keys;
    forall k | k in a.orders
      ensures a.orders[k] == b.orders[k]
    {
    }
    assert a.orders == b.orders;
    assert a.users == b.users;
  }

  lemma OrdersCommute(orders: map<OrderId, Order>, e1: Effect, e2: Effect)
    ensures ApplyToOrders(ApplyToOrders(orders, e1), e2) == ApplyToOrders(ApplyToOrders(orders, e2), e1)
  {
    var a, b := ApplyToOrders(ApplyToOrders(orders, e1), e2), ApplyToOrders(ApplyToOrders(orders, e2), e1);
    assert a.Keys == b.Keys;
  }

  lemma UsersCommute(users: map<UserId, User>, e1: Effect, e2: Effect)
    ensures ApplyToUsers(ApplyToUsers(users, e1), e2) == ApplyToUsers(ApplyToUsers(users, e2), e1)
  {
    var a, b := ApplyToUsers(ApplyToUsers(users, e1), e2), ApplyToUsers(ApplyToUsers(users, e2), e1);
    assert a.Keys == b.Keys;
  }

  lemma ApplyCommutes(db: Db, e1: Effect, e2: Effect)
    ensures Apply(Apply(db, e1), e2) == Apply(Apply(db, e2), e1)
  {
    OrdersCommute(db.orders, e1, e2);
    UsersCommute(db.users, e1, e2);
  }

  // ---------------------------------------------------------------------------------------
  // Properties of the reconciler.

  /** Redelivery without backend faults: handling the same event a second time changes
      nothing more and gives the same reply. */
  lemma RedeliveryIsIdempotent(db: Db, verified: Option<Event>, sessionsFor: string -> seq<Session>)
    ensures var first := Reconcile(db, verified, sessionsFor, {});
            Reconcile(first.db, verified, sessionsFor, {}) == first
  {
    var first := Reconcile(db, verified, sessionsFor, {});
    FaultFreeIsEffect(db, verified, sessionsFor);
    FaultFreeIsEffect(first.db, verified, sessionsFor);
    ApplyAbsorbs(db, EffectOf(verified, sessionsFor), EffectOf(verified, sessionsFor));
  }

  /** Reordering: two fault-free deliveries leave the same collections in either order. In
      particular a completion that arrives after its order was deleted does not bring the
      order back, and a deletion after a completion still deletes it. */
  lemma DeliveriesCommute(db: Db, v1: Option<Event>, v2: Option<Event>,
                          sessionsFor: string -> seq<Session>)
    ensures Reconcile(Reconcile(db, v1, sessionsFor, {}).db, v2, sessionsFor, {}).db ==
            Reconcile(Reconcile(db, v2, sessionsFor, {}).db, v1, sessionsFor, {}).db
  {
    var e1, e2 := EffectOf(v1, sessionsFor), EffectOf(v2, sessionsFor);
    FaultFreeIsEffect(db, v1, sessionsFor);
    FaultFreeIsEffect(db, v2, sessionsFor);
    FaultFreeIsEffect(Apply(db, e1), v2, sessionsFor);
    FaultFreeIsEffect(Apply(db, e2), v1, sessionsFor);
    ApplyCommutes(db, e1, e2);
  }

  /** Retry after a 500: whatever a failing delivery committed before it threw, delivering
      the event again without faults ends in the state and reply of one clean delivery. */
  lemma RetryAfterFailureConverges(db: Db, verified: Option<Event>,
                                   sessionsFor: string -> seq<Session>, fails: set<Call>)
    ensures Reconcile(Reconcile(db, verified, sessionsFor, fails).db, verified, sessionsFor, {}) ==
            Reconcile(db, verified, sessionsFor, {})
  {
    var e := EffectOf(verified, sessionsFor);
    var partial := Reconcile(db, verified, sessionsFor, fails).db;
    FaultFreeIsEffect(db, verified, sessionsFor);
    FaultFreeIsEffect(partial, verified, sessionsFor);
    var done := Effect(None, None, None);
    if IsType(verified, CheckoutSessionCompleted) {
      var meta := MetadataOrEmpty(verified.value.dataObject.metadata);
      if Truthy(meta.orderId) && (UpdateOrder in fails || ParseId(meta.orderId.value).None?) {
      } else if Truthy(meta.userId) && UpdateUser in fails {
        done := e.(cleared := None);
      } else {
        done := e;
      }
    } else if IsType(verified, PaymentIntentFailed) {
      var meta := FirstSessionMetadata(sessionsFor(verified.value.dataObject.id));
      if ListSessions in fails || (Truthy(meta.orderId) && RemoveOrder in fails) {
      } else {
        done := e;
      }
    }
    assert partial == Apply(db, done);
    ApplyAbsorbs(db, done, e);
  }

  /** The backend calls a delivery makes when none of them throws. A cast of a malformed
      order id happens inside the call, so that call is made (and throws). */
  function Reached(verified: Option<Event>, sessionsFor: string -> seq<Session>): set<Call> {
    if IsType(verified, CheckoutSessionCompleted) then
      var meta := MetadataOrEmpty(verified.value.dataObject.metadata);
      (if Truthy(meta.orderId) then {UpdateOrder} else {}) +
      (if Truthy(meta.userId) && !(Truthy(meta.orderId) && ParseId(meta.orderId.value).None?)
       then {UpdateUser} else {})
    else if IsType(verified, PaymentIntentFailed) then
      var meta := FirstSessionMetadata(sessionsFor(verified.value.dataObject.id));
      {ListSessions} + (if Truthy(meta.orderId) then {RemoveOrder} else {})
    else {}
  }

  /** A delivery answers 500 exactly when one of the calls it reaches throws (or the order
      id does not cast); a fault in a call it never reaches makes no difference. */
  lemma FaultsReachedAnswer500(db: Db, verified: Option<Event>,
                                 sessionsFor: string -> seq<Session>, fails: set<Call>)
    ensures Reconcile(db, verified, sessionsFor, fails).reply == ProcessingFailed <==>
            fails * Reached(verified, sessionsFor) != {} || ReplyOf(verified, sessionsFor) == ProcessingFailed
    ensures fails * Reached(verified, sessionsFor) == {} ==>
            Reconcile(db, verified, sessionsFor, fails) == Reconcile(db, verified, sessionsFor, {})
  {
  }

  /** A 200 means the whole effect of the event was applied: a delivery that is acknowledged
      ends exactly where a fault-free one does, so the provider is never told "received" for
      a delivery whose writes were cut short. */
  lemma ReceivedMeansComplete(db: Db, verified: Option<Event>, sessionsFor: string -> seq<Session>,
                              fails: set<Call>)
    ensures Reconcile(db, verified, sessionsFor, fails).reply == Received ==>
            Reconcile(db, verified, sessionsFor, fails) == Reconcile(db, verified, sessionsFor, {})
  {
  }

  /** `checkout.session.completed` without faults marks paid exactly the order whose rendered
      id is the metadata's orderId, empties exactly the metadata user's cart, and deletes
      nothing. */
  lemma CompletedMarksOnlyNamedOrder(db: Db, verified: Option<Event>, sessionsFor: string -> seq<Session>)
    requires IsType(verified, CheckoutSessionCompleted)
    ensures var meta := MetadataOrEmpty(verified.value.dataObject.metadata);
            var r := Reconcile(db, verified, sessionsFor, {});
            && r.db.orders.Keys == db.orders.Keys
            && (forall k :: k in db.orders ==>
                  r.db.orders[k] == if Truthy(meta.orderId) && meta.orderId.value == IdToString(k)
                                    then db.orders[k].(isPaid := true) else db.orders[k])
            && (forall u :: u in db.users ==>
                  r.db.users[u] == if Truthy(meta.orderId) && ParseId(meta.orderId.value).None? then db.users[u]
                                   else if Truthy(meta.userId) && meta.userId.value == u
                                   then db.users[u].(cartItems := map[]) else db.users[u])
            && (r.reply == ProcessingFailed <==> Truthy(meta.orderId) && ParseId(meta.orderId.value).None?)
  {
    var meta := MetadataOrEmpty(verified.value.dataObject.metadata);
    if Truthy(meta.orderId) {
      var s := meta.orderId.value;
      forall k | k in db.orders
        ensures ParseId(s) == Some(k) <==> s == IdToString(k)
      {
        ParseRendered(k);
        if ParseId(s) == Some(k) {
          ParsedIsRendered(s, k);
        }
      }
    }
  }

  /** `payment_intent.payment_failed` without faults deletes exactly the order whose rendered
      id is the orderId of the first session listed for the payment intent, changes no other
      order and no user. */
  lemma PaymentFailedDeletesOnlyNamedOrder(db: Db, verified: Option<Event>, sessionsFor: string -> seq<Session>)
    requires IsType(verified, PaymentIntentFailed)
    ensures var meta := FirstSessionMetadata(sessionsFor(verified.value.dataObject.id));
            var r := Reconcile(db, verified, sessionsFor, {});
            && r.db.users == db.users
            && (forall k :: k in db.orders ==>
                  (k in r.db.orders <==> !(Truthy(meta.orderId) && meta.orderId.value == IdToString(k))))
            && (forall k :: k in r.db.orders ==> r.db.orders[k] == db.orders[k])
            && (r.reply == ProcessingFailed <==> Truthy(meta.orderId) && ParseId(meta.orderId.value).None?)
  {
    var meta := FirstSessionMetadata(sessionsFor(verified.value.dataObject.id));
    if Truthy(meta.orderId) {
      var s := meta.orderId.value;
      forall k | k in db.orders
        ensures ParseId(s) == Some(k) <==> s == IdToString(k)
      {
        ParseRendered(k);
        if ParseId(s) == Some(k) {
          ParsedIsRendered(s, k);
        }
      }
    }
  }
}
