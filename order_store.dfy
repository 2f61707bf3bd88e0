/** The order collection and the user collection, as the controller uses them: create an
    order, set `isPaid` by id, delete by id, and reset a user's cart by id. An update or a
    delete whose id names no document changes nothing and is not an error. */
module OrderStore {
  import opened Domain

  /** A snapshot of both collections. */
  datatype Db = Db(orders: map<OrderId, Order>, users: map<UserId, User>)

  /** `Order.findByIdAndUpdate(id, { isPaid: true })`. */
  function MarkPaid(orders: map<OrderId, Order>, id: OrderId): (r: map<OrderId, Order>)
    ensures r.Keys == orders.Keys
    ensures id in orders ==> r[id] == orders[id].(isPaid := true)
    ensures forall k :: k in orders && k != id ==> r[k] == orders[k]
  {
    if id in orders then orders[id := orders[id].(isPaid := true)] else orders
  }

  /** `Order.findByIdAndDelete(id)`. */
  function DeleteOrder(orders: map<OrderId, Order>, id: OrderId): (r: map<OrderId, Order>)
    ensures r.Keys == orders.Keys - {id}
    ensures forall k :: k in r ==> r[k] == orders[k]
  {
    orders - {id}
  }

  /** `User.findByIdAndUpdate(userId, { cartItems: {} })`. */
  function ClearCart(users: map<UserId, User>, userId: UserId): (r: map<UserId, User>)
    ensures r.Keys == users.Keys
    ensures userId in users ==> r[userId] == users[userId].(cartItems := map[])
    ensures forall u :: u in users && u != userId ==> r[u] == users[u]
  {
    if userId in users then users[userId := users[userId].(cartItems := map[])] else users
  }

  /** The store. Ids are handed out in increasing order and never reused, so an id that
      was deleted never names another order later. */
  class Store {
    var orders: map<OrderId, Order>
    var users: map<UserId, User>
    var nextId: OrderId

    ghost predicate Valid()
      reads this
    {
      forall k :: k in orders ==> k < nextId
    }

    function State(): Db
      reads this
    {
      Db(orders, users)
    }

    constructor (users: map<UserId, User>)
      ensures Valid()
      ensures this.orders == map[] && this.users == users && nextId == 0
    {
      this.orders := map[];
      this.users := users;
      nextId := 0;
    }

    /** `Order.create(...)`: stores the order under a fresh id and returns that id. */
    method Create(order: Order) returns (id: OrderId)
      requires Valid()
      modifies this
      ensures Valid()
      ensures id == old(nextId) && id !in old(orders) && nextId == old(nextId) + 1
      ensures orders == old(orders)[id := order] && users == old(users)
    {
      id := nextId;
      orders := orders[id := order];
      nextId := nextId + 1;
    }

    method FindByIdAndMarkPaid(id: OrderId)
      requires Valid()
      modifies this
      ensures Valid() && nextId == old(nextId)
      ensures orders == MarkPaid(old(orders), id) && users == old(users)
    {
      if id in orders {
        orders := orders[id := orders[id].(isPaid := true)];
      }
    }

    method FindByIdAndDelete(id: OrderId)
      requires Valid()
      modifies this
      ensures Valid() && nextId == old(nextId)
      ensures orders == DeleteOrder(old(orders), id) && users == old(users)
    {
      orders := orders - {id};
    }

    method ClearCartOf(userId: UserId)
      requires Valid()
      modifies this
      ensures Valid() && nextId == old(nextId)
      ensures users == ClearCart(old(users), userId) && orders == old(orders)
    {
      if userId in users {
        users := users[userId := users[userId].(cartItems := map[])];
      }
    }
  }
}
