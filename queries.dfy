/** The two listings, `getUserOrders` and `getAllOrders`: the orders that are cash on
    delivery or paid (for the buyer listing, only the buyer's own), newest first. */
module Queries {
  import opened Domain

  /** `$or: [{ paymentType: "COD" }, { isPaid: true }]`. */
  predicate Visible(o: Order) {
    o.paymentType == COD || o.isPaid
  }

  /** The seller sees every user's orders; a buyer sees their own. */
  datatype Scope = AllUsers | OnlyUser(userId: UserId)

  predicate Selected(o: Order, scope: Scope) {
    Visible(o) && (scope.OnlyUser? ==> o.userId == scope.userId)
  }

  /** A listed order together with its id. */
  type Entry = (OrderId, Order)

  lemma {:induction false} MinimumExists(ks: set<OrderId>)
    requires ks != {}
    ensures exists k :: k in ks && forall j :: j in ks ==> k <= j
  {
    var x :| x in ks;
    var rest := ks - {x};
    var least := x;
    if rest != {} {
      MinimumExists(rest);
      var m :| m in rest && forall j :: j in rest ==> m <= j;
      least := if x < m then x else m;
    }
    forall j | j in ks
      ensures least <= j
    {
      if j != x {
        assert j in rest;
      }
    }
    assert least in ks;
  }

  /** The ids of the collection in increasing order: the order a scan visits them in. */
  function IdsAscending(ks: set<OrderId>): seq<OrderId>
    decreases ks
  {
    if ks == {} then []
    else
      MinimumExists(ks);
      var k :| k in ks && forall j :: j in ks ==> k <= j;
      [k] + IdsAscending(ks - {k})
  }

  /** The scan visits every id of the collection once, in increasing order. */
  lemma {:induction false} IdsAscendingExact(ks: set<OrderId>)
    ensures var r := IdsAscending(ks);
            && (forall i :: 0 <= i < |r| ==> r[i] in ks)
            && (forall k :: k in ks ==> k in r)
            && (forall i, j :: 0 <= i < j < |r| ==> r[i] < r[j])
    decreases ks
  {
    if ks != {} {
      var r := IdsAscending(ks);
      var k := r[0];
      assert k in ks && (forall j :: j in ks ==> k <= j) && r == [k] + IdsAscending(ks - {k});
      IdsAscendingExact(ks - {k});
      forall j | j in ks
        ensures j in r
      {
        if j != k {
          assert j in IdsAscending(ks - {k});
        }
      }
    }
  }

  /** The query's filter over the scanned ids. */
  function Select(orders: map<OrderId, Order>, ids: seq<OrderId>, scope: Scope): (r: seq<Entry>)
    requires forall i :: 0 <= i < |ids| ==> ids[i] in orders
    requires forall i, j :: 0 <= i < j < |ids| ==> ids[i] < ids[j]
    ensures forall x :: x in r ==> x.0 in ids && x.1 == orders[x.0] && Selected(x.1, scope)
    ensures forall k :: k in ids && Selected(orders[k], scope) ==> (k, orders[k]) in r
    ensures forall i, j :: 0 <= i < j < |r| ==> r[i].0 < r[j].0
  {
    if ids == [] then []
    else
      var rest := Select(orders, ids[1..], scope);
      assert forall i :: 0 <= i < |rest| ==> ids[0] < rest[i].0;
      if Selected(orders[ids[0]], scope) then [(ids[0], orders[ids[0]])] + rest else rest
  }

  /** `.sort({ createdAt: -1 })`: newest first. */
  predicate NewestFirst(s: seq<Entry>) {
    forall i, j :: 0 <= i < j < |s| ==> s[i].1.createdAt >= s[j].1.createdAt
  }

  /** No order is listed twice. */
  predicate DistinctIds(s: seq<Entry>) {
    forall i, j :: 0 <= i < j < |s| ==> s[i].0 != s[j].0
  }

  /** Places an entry before the first entry that is older than it. */
  function InsertNewest(e: Entry, s: seq<Entry>): seq<Entry> {
    if s == [] || e.1.createdAt >= s[0].1.createdAt then [e] + s
    else [s[0]] + InsertNewest(e, s[1..])
  }

  /** Insertion sort, newest first. */
  function SortNewestFirst(s: seq<Entry>): seq<Entry> {
    if s == [] then [] else InsertNewest(s[0], SortNewestFirst(s[1..]))
  }

  lemma {:induction false} InsertPermutes(e: Entry, s: seq<Entry>)
    ensures multiset(InsertNewest(e, s)) == multiset(s) + multiset{e}
  {
    if s != [] && e.1.createdAt < s[0].1.createdAt {
      InsertPermutes(e, s[1..]);
      assert s == [s[0]] + s[1..];
    }
  }

  lemma InsertMembers(e: Entry, s: seq<Entry>, x: Entry)
    requires x in InsertNewest(e, s)
    ensures x == e || x in s
  {
    InsertPermutes(e, s);
    assert x in multiset(InsertNewest(e, s));
  }

  lemma {:induction false} InsertKeepsOrder(e: Entry, s: seq<Entry>)
    requires NewestFirst(s)
    ensures NewestFirst(InsertNewest(e, s))
  {
    if s != [] && e.1.createdAt < s[0].1.createdAt {
      var rest := InsertNewest(e, s[1..]);
      InsertKeepsOrder(e, s[1..]);
      forall i | 0 <= i < |rest|
        ensures s[0].1.createdAt >= rest[i].1.createdAt
      {
        InsertMembers(e, s[1..], rest[i]);
      }
    }
  }

  lemma {:induction false} InsertKeepsDistinct(e: Entry, s: seq<Entry>)
    requires DistinctIds(s) && forall i :: 0 <= i < |s| ==> s[i].0 != e.0
    ensures DistinctIds(InsertNewest(e, s))
  {
    if s != [] && e.1.createdAt < s[0].1.createdAt {
      var rest := InsertNewest(e, s[1..]);
      InsertKeepsDistinct(e, s[1..]);
      forall i | 0 <= i < |rest|
        ensures s[0].0 != rest[i].0
      {
        InsertMembers(e, s[1..], rest[i]);
      }
    }
  }

  /** Sorting only reorders: the same entries, each as often. */
  lemma {:induction false} SortPermutes(s: seq<Entry>)
    ensures multiset(SortNewestFirst(s)) == multiset(s)
  {
    if s != [] {
      SortPermutes(s[1..]);
      InsertPermutes(s[0], SortNewestFirst(s[1..]));
      assert s == [s[0]] + s[1..];
    }
  }

  lemma SortMembers(s: seq<Entry>, x: Entry)
    ensures x in SortNewestFirst(s) <==> x in s
  {
    SortPermutes(s);
    assert x in SortNewestFirst(s) <==> x in multiset(SortNewestFirst(s));
  }

  lemma {:induction false} SortIsNewestFirst(s: seq<Entry>)
    ensures NewestFirst(SortNewestFirst(s))
  {
    if s != [] {
      SortIsNewestFirst(s[1..]);
      InsertKeepsOrder(s[0], SortNewestFirst(s[1..]));
    }
  }

  lemma {:induction false} SortKeepsDistinct(s: seq<Entry>)
    requires DistinctIds(s)
    ensures DistinctIds(SortNewestFirst(s))
  {
    if s != [] {
      var rest := SortNewestFirst(s[1..]);
      SortKeepsDistinct(s[1..]);
      forall i | 0 <= i < |rest|
        ensures rest[i].0 != s[0].0
      {
        SortMembers(s[1..], rest[i]);
      }
      InsertKeepsDistinct(s[0], rest);
    }
  }

  /** `Order.find(filter).sort({ createdAt: -1 })`. */
  function Find(orders: map<OrderId, Order>, scope: Scope): seq<Entry> {
    IdsAscendingExact(orders.Keys);
    SortNewestFirst(Select(orders, IdsAscending(orders.Keys), scope))
  }

  /** A query returns exactly the selected orders, each once, newest first. */
  lemma FindIsExact(orders: map<OrderId, Order>, scope: Scope)
    ensures var r := Find(orders, scope);
            && (forall i :: 0 <= i < |r| ==>
                  r[i].0 in orders && r[i].1 == orders[r[i].0] && Selected(r[i].1, scope))
            && (forall k :: k in orders && Selected(orders[k], scope) ==> (k, orders[k]) in r)
            && DistinctIds(r) && NewestFirst(r)
  {
    IdsAscendingExact(orders.Keys);
    var selected := Select(orders, IdsAscending(orders.Keys), scope);
    var r := SortNewestFirst(selected);
    SortIsNewestFirst(selected);
    SortKeepsDistinct(selected);
    forall i | 0 <= i < |r|
      ensures r[i].0 in orders && r[i].1 == orders[r[i].0] && Selected(r[i].1, scope)
    {
      SortMembers(selected, r[i]);
    }
    forall k | k in orders && Selected(orders[k], scope)
      ensures (k, orders[k]) in r
    {
      SortMembers(selected, (k, orders[k]));
    }
  }

  /** `getAllOrders`: exactly the COD or paid orders, each once, newest first. */
  function GetAllOrders(orders: map<OrderId, Order>): (r: seq<Entry>)
    ensures forall i :: 0 <= i < |r| ==>
      r[i].0 in orders && r[i].1 == orders[r[i].0] && (r[i].1.paymentType == COD || r[i].1.isPaid)
    ensures forall k :: k in orders && (orders[k].paymentType == COD || orders[k].isPaid) ==>
      (k, orders[k]) in r
    ensures DistinctIds(r) && NewestFirst(r)
  {
    FindIsExact(orders, AllUsers);
    Find(orders, AllUsers)
  }

  /** `getUserOrders`: exactly the requester's COD or paid orders, each once, newest first. */
  function GetUserOrders(orders: map<OrderId, Order>, userId: UserId): (r: seq<Entry>)
    ensures forall i :: 0 <= i < |r| ==>
      r[i].0 in orders && r[i].1 == orders[r[i].0] && r[i].1.userId == userId &&
      (r[i].1.paymentType == COD || r[i].1.isPaid)
    ensures forall k :: (k in orders && orders[k].userId == userId &&
      (orders[k].paymentType == COD || orders[k].isPaid)) ==> (k, orders[k]) in r
    ensures DistinctIds(r) && NewestFirst(r)
  {
    FindIsExact(orders, OnlyUser(userId));
    Find(orders, OnlyUser(userId))
  }

  /** An online order is stored already marked paid, so it is listed to its buyer and to the
      seller before the provider has confirmed any payment. */
  lemma OnlineOrderListedBeforeConfirmation(orders: map<OrderId, Order>, id: OrderId, o: Order)
    requires o.paymentType == Online && o.isPaid
    ensures (id, o) in GetAllOrders(orders[id := o])
    ensures (id, o) in GetUserOrders(orders[id := o], o.userId)
  {
    var stored := orders[id := o];
    assert id in stored && stored[id] == o;
  }
}
