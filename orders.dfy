/**
 * Order queries (functions/order_functions.py): a user's orders, tracking one
 * order by id, and the recent-order history. All are reads; the stored
 * orders are passed in and never written.
 */
module Orders {
  import opened Wrappers
  import opened Values
  import opened Records
  import opened Sequences

  // ---------------------------------------------------------------------
  // get_user_orders

  /** `get_user_orders`: the stored orders of user `u`, in stored order. */
  function UserOrders(orders: seq<Order>, u: string): (r: seq<Order>)
    ensures |r| <= |orders|
    ensures forall o :: o in r ==> o in orders && o.userId == u
  {
    if orders == [] then []
    else
      var rest := UserOrders(orders[1..], u);
      if orders[0].userId == u then [orders[0]] + rest else rest
  }

  /** Every stored order of the user is returned. */
  lemma {:induction false} UserOrdersComplete(orders: seq<Order>, u: string, i: nat)
    requires i < |orders| && orders[i].userId == u
    ensures orders[i] in UserOrders(orders, u)
  {
    if i > 0 {
      UserOrdersComplete(orders[1..], u, i - 1);
    }
  }

  /** The user's orders keep their stored order. */
  lemma {:induction false} UserOrdersKeepOrder(orders: seq<Order>, u: string)
    ensures Embeds(UserOrders(orders, u), orders)
  {
    if orders != [] {
      UserOrdersKeepOrder(orders[1..], u);
      var r := UserOrders(orders, u);
      if orders[0].userId != u && r != [] {
        assert Embeds(r, orders[1..]);
      }
    }
  }

  /** Appending an order appends it to its own user's list and leaves every other user's list alone. */
  lemma {:induction false} UserOrdersAppend(orders: seq<Order>, o: Order, u: string)
    ensures UserOrders(orders + [o], u) == UserOrders(orders, u) + (if o.userId == u then [o] else [])
  {
    if orders == [] {
      assert orders + [o] == [o];
    } else {
      UserOrdersAppend(orders[1..], o, u);
      assert (orders + [o])[1..] == orders[1..] + [o];
    }
  }

  // ---------------------------------------------------------------------
  // track_order and _get_estimated_delivery

  /** The statuses with a fixed delivery sentence. */
  const DeliveryMessages: map<string, string> := map[
    "pending" := "Order is being processed. Estimated delivery: 3-5 business days",
    "processing" := "Order is being prepared. Estimated delivery: 2-4 business days",
    "shipped" := "Order has been shipped. Estimated delivery: 1-2 business days",
    "delivered" := "Order has been delivered",
    "cancelled" := "Order has been cancelled"]

  /** `_get_estimated_delivery`: a fixed sentence per known status, "Status unknown" otherwise. */
  function EstimatedDelivery(status: string): (r: string)
    ensures status in DeliveryMessages ==> r == DeliveryMessages[status] && r != "Status unknown"
    ensures status !in DeliveryMessages ==> r == "Status unknown"
  {
    if status in DeliveryMessages then DeliveryMessages[status] else "Status unknown"
  }

  /** The five known statuses are exactly the five the order model names. */
  lemma KnownStatuses()
    ensures DeliveryMessages.Keys == {"pending", "processing", "shipped", "delivered", "cancelled"}
  {
  }

  datatype Tracking = Tracking(
    orderId: string,
    status: string,
    createdAt: string,
    total: real,
    items: seq<CartItem>,
    estimatedDelivery: string)

  /** What `track_order` reports for an order: its own fields and the estimate for its status. */
  function TrackingOf(o: Order): Tracking
  {
    Tracking(o.id, o.status, o.createdAt, o.total, o.items, EstimatedDelivery(o.status))
  }

  /** `orders[i]` is the first order whose id is `id`. */
  predicate FirstOrderWithId(orders: seq<Order>, id: string, i: int)
  {
    0 <= i < |orders| && orders[i].id == id &&
    forall j :: 0 <= j < i ==> orders[j].id != id
  }

  /** `track_order`: the first order with that id, its fields copied and its delivery estimate added; `None` if there is none. */
  function TrackOrder(orders: seq<Order>, id: string): (r: Option<Tracking>)
    ensures r.None? <==> forall o :: o in orders ==> o.id != id
    ensures r.Some? ==> exists i :: FirstOrderWithId(orders, id, i) && r.value == TrackingOf(orders[i])
  {
    if orders == [] then None
    else if orders[0].id == id then
      assert FirstOrderWithId(orders, id, 0);
      Some(TrackingOf(orders[0]))
    else
      var r := TrackOrder(orders[1..], id);
      if r.Some? then
        var i :| FirstOrderWithId(orders[1..], id, i) && r.value == TrackingOf(orders[1..][i]);
        assert FirstOrderWithId(orders, id, i + 1);
        r
      else
        r
  }

  /** The loop of `track_order`: the orders are scanned in order and the first with the id is reported. */
  method FindOrder(orders: seq<Order>, id: string) returns (r: Option<Tracking>)
    ensures r == TrackOrder(orders, id)
  {
    var i := 0;
    while i < |orders|
      invariant 0 <= i <= |orders|
      invariant TrackOrder(orders[i..], id) == TrackOrder(orders, id)
    {
      assert orders[i..][1..] == orders[i + 1..];
      if orders[i].id == id {
        return Some(TrackingOf(orders[i]));
      }
      i := i + 1;
    }
    return None;
  }

  /** A newly appended order with a fresh id is found by its id. */
  lemma {:induction false} TrackAppendedOrder(orders: seq<Order>, o: Order)
    requires forall x :: x in orders ==> x.id != o.id
    ensures TrackOrder(orders + [o], o.id) == Some(TrackingOf(o))
  {
    if orders == [] {
      assert orders + [o] == [o];
    } else {
      assert (orders + [o])[1..] == orders[1..] + [o];
      TrackAppendedOrder(orders[1..], o);
    }
  }

  /** Appending an order does not change what tracking an id already present reports. */
  lemma {:induction false} TrackOrderAfterAppend(orders: seq<Order>, o: Order, id: string)
    requires TrackOrder(orders, id).Some?
    ensures TrackOrder(orders + [o], id) == TrackOrder(orders, id)
  {
    if orders[0].id != id {
      assert (orders + [o])[1..] == orders[1..] + [o];
      TrackOrderAfterAppend(orders[1..], o, id);
    }
  }

  // ---------------------------------------------------------------------
  // get_order_history: sort by created_at, newest first (a stable sort), then `[:limit]`

  /** Python's `a <= b` on strings: lexicographic by code point, a prefix before its extensions. */
  predicate StrLe(a: string, b: string)
    decreases |a|
  {
    if a == [] then true
    else if b == [] then false
    else a[0] < b[0] || (a[0] == b[0] && StrLe(a[1..], b[1..]))
  }

  lemma {:induction false} StrLeTotal(a: string, b: string)
    ensures StrLe(a, b) || StrLe(b, a)
    decreases |a|
  {
    if a != [] && b != [] && a[0] == b[0] {
      StrLeTotal(a[1..], b[1..]);
    }
  }

  lemma {:induction false} StrLeReflexive(a: string)
    ensures StrLe(a, a)
    decreases |a|
  {
    if a != [] {
      StrLeReflexive(a[1..]);
    }
  }

  lemma {:induction false} StrLeTransitive(a: string, b: string, c: string)
    requires StrLe(a, b) && StrLe(b, c)
    ensures StrLe(a, c)
    decreases |a|
  {
    if a != [] && b != [] && c != [] && a[0] == b[0] && b[0] == c[0] {
      StrLeTransitive(a[1..], b[1..], c[1..]);
    }
  }

  /** Newest first: no order is newer than one before it. */
  predicate NewestFirst(s: seq<Order>)
  {
    forall i, j :: 0 <= i < j < |s| ==> StrLe(s[j].createdAt, s[i].createdAt)
  }

  /** Places `o` before the first order that is not newer than it. */
  function InsertNewest(o: Order, s: seq<Order>): (r: seq<Order>)
    ensures multiset(r) == multiset(s) + multiset{o}
  {
    if s == [] then [o]
    else if StrLe(s[0].createdAt, o.createdAt) then [o] + s
    else
      assert s == [s[0]] + s[1..];
      [s[0]] + InsertNewest(o, s[1..])
  }

  /** `sort(key=created_at, reverse=True)`: an insertion sort that keeps equal keys in their original order. */
  function SortNewestFirst(s: seq<Order>): (r: seq<Order>)
    ensures multiset(r) == multiset(s)
  {
    if s == [] then []
    else
      assert s == [s[0]] + s[1..];
      InsertNewest(s[0], SortNewestFirst(s[1..]))
  }

  /** An order no older than every order of a newest-first list may head it. */
  lemma ConsNewestFirst(x: Order, t: seq<Order>)
    requires NewestFirst(t)
    requires forall j :: 0 <= j < |t| ==> StrLe(t[j].createdAt, x.createdAt)
    ensures NewestFirst([x] + t)
  {
    var r := [x] + t;
    forall i, j | 0 <= i < j < |r| ensures StrLe(r[j].createdAt, r[i].createdAt) {
      assert r[j] == t[j - 1];
      if i > 0 {
        assert r[i] == t[i - 1];
      }
    }
  }

  /** Inserting an order not newer than `at` into orders not newer than `at` keeps them all so. */
  lemma {:induction false} InsertBounded(o: Order, s: seq<Order>, at: string)
    requires forall j :: 0 <= j < |s| ==> StrLe(s[j].createdAt, at)
    requires StrLe(o.createdAt, at)
    ensures forall j :: 0 <= j < |InsertNewest(o, s)| ==> StrLe(InsertNewest(o, s)[j].createdAt, at)
  {
    var r := InsertNewest(o, s);
    if s == [] {
      assert r == [o];
    } else if StrLe(s[0].createdAt, o.createdAt) {
      assert r == [o] + s;
      forall j | 0 < j < |r| ensures StrLe(r[j].createdAt, at) {
        assert r[j] == s[j - 1];
      }
    } else {
      var tail := s[1..];
      forall j | 0 <= j < |tail| ensures StrLe(tail[j].createdAt, at) {
        assert tail[j] == s[j + 1];
      }
      InsertBounded(o, tail, at);
      var t := InsertNewest(o, tail);
      assert r == [s[0]] + t;
      forall j | 0 < j < |r| ensures StrLe(r[j].createdAt, at) {
        assert r[j] == t[j - 1];
      }
    }
  }

  lemma {:induction false} InsertKeepsNewestFirst(o: Order, s: seq<Order>)
    requires NewestFirst(s)
    ensures NewestFirst(InsertNewest(o, s))
  {
    if s == [] {
    } else if StrLe(s[0].createdAt, o.createdAt) {
      forall j | 0 <= j < |s| ensures StrLe(s[j].createdAt, o.createdAt) {
        if j > 0 {
          StrLeTransitive(s[j].createdAt, s[0].createdAt, o.createdAt);
        }
      }
      ConsNewestFirst(o, s);
    } else {
      var tail := s[1..];
      forall j | 0 <= j < |tail| ensures StrLe(tail[j].createdAt, s[0].createdAt) {
        assert tail[j] == s[j + 1];
      }
      assert NewestFirst(tail) by {
        forall i, j | 0 <= i < j < |tail| ensures StrLe(tail[j].createdAt, tail[i].createdAt) {
          assert tail[i] == s[i + 1] && tail[j] == s[j + 1];
        }
      }
      InsertKeepsNewestFirst(o, tail);
      StrLeTotal(s[0].createdAt, o.createdAt);
      InsertBounded(o, tail, s[0].createdAt);
      ConsNewestFirst(s[0], InsertNewest(o, tail));
    }
  }

  /** The sorted history is newest first and a permutation of its input. */
  lemma {:induction false} SortIsNewestFirst(s: seq<Order>)
    ensures NewestFirst(SortNewestFirst(s))
    ensures multiset(SortNewestFirst(s)) == multiset(s)
  {
    if s != [] {
      SortIsNewestFirst(s[1..]);
      InsertKeepsNewestFirst(s[0], SortNewestFirst(s[1..]));
    }
  }

  /** The orders created at exactly `at`, in their order. */
  function CreatedAt(s: seq<Order>, at: string): (r: seq<Order>)
    ensures forall o :: o in r ==> o in s && o.createdAt == at
  {
    if s == [] then []
    else
      var rest := CreatedAt(s[1..], at);
      if s[0].createdAt == at then [s[0]] + rest else rest
  }

  lemma {:induction false} InsertIsStable(o: Order, s: seq<Order>, at: string)
    ensures CreatedAt(InsertNewest(o, s), at) == (if o.createdAt == at then [o] else []) + CreatedAt(s, at)
  {
    if s == [] {
    } else if StrLe(s[0].createdAt, o.createdAt) {
      assert ([o] + s)[1..] == s;
    } else {
      InsertIsStable(o, s[1..], at);
      StrLeReflexive(o.createdAt);
      assert s[0].createdAt != o.createdAt;
      assert ([s[0]] + InsertNewest(o, s[1..]))[1..] == InsertNewest(o, s[1..]);
    }
  }

  /** The sort is stable: orders created at the same moment keep their stored relative order. */
  lemma {:induction false} SortIsStable(s: seq<Order>, at: string)
    ensures CreatedAt(SortNewestFirst(s), at) == CreatedAt(s, at)
  {
    if s != [] {
      SortIsStable(s[1..], at);
      InsertIsStable(s[0], SortNewestFirst(s[1..]), at);
    }
  }

  /** Python's `s[:n]`: a negative `n` counts from the end. */
  function Take<T>(s: seq<T>, n: int): (r: seq<T>)
    ensures r <= s
    ensures n >= 0 ==> |r| == if n < |s| then n else |s|
    ensures n < 0 ==> |r| == if |s| + n > 0 then |s| + n else 0
  {
    if n >= 0 then s[..if n < |s| then n else |s|]
    else s[..if |s| + n > 0 then |s| + n else 0]
  }

  /** `get_order_history` */
  function OrderHistory(orders: seq<Order>, u: string, limit: int): seq<Order>
  {
    Take(SortNewestFirst(UserOrders(orders, u)), limit)
  }

  /** The history holds only the user's orders, newest first. */
  lemma HistoryNewestFirst(orders: seq<Order>, u: string, limit: int)
    ensures NewestFirst(OrderHistory(orders, u, limit))
    ensures forall o :: o in OrderHistory(orders, u, limit) ==> o in orders && o.userId == u
  {
    var sorted := SortNewestFirst(UserOrders(orders, u));
    SortIsNewestFirst(UserOrders(orders, u));
    var r := OrderHistory(orders, u, limit);
    assert r == sorted[..|r|];
    forall o | o in r ensures o in orders && o.userId == u {
      assert o in multiset(sorted);
    }
  }

  /** With a non-negative limit the history holds `min(limit, n)` orders, `n` being the user's order count. */
  lemma HistoryLength(orders: seq<Order>, u: string, limit: int)
    requires limit >= 0
    ensures var n := |UserOrders(orders, u)|;
      |OrderHistory(orders, u, limit)| == if limit < n then limit else n
  {
    assert |SortNewestFirst(UserOrders(orders, u))| == |multiset(UserOrders(orders, u))|;
  }

  /** No order of the user that the limit leaves out is newer than one that is kept. */
  lemma HistoryKeepsNewest(orders: seq<Order>, u: string, limit: int, o: Order, p: Order)
    requires o in OrderHistory(orders, u, limit)
    requires p in UserOrders(orders, u) && p !in OrderHistory(orders, u, limit)
    ensures StrLe(p.createdAt, o.createdAt)
  {
    var all := UserOrders(orders, u);
    var sorted := SortNewestFirst(all);
    SortIsNewestFirst(all);
    var r := OrderHistory(orders, u, limit);
    assert r == sorted[..|r|];
    var i :| 0 <= i < |r| && r[i] == o;
    assert p in multiset(sorted);
    var j :| 0 <= j < |sorted| && sorted[j] == p;
    assert forall k :: 0 <= k < |r| ==> sorted[k] == r[k] != p;
  }

  // ---------------------------------------------------------------------
  // The dictionaries the queries return

  function OrdersToList(orders: seq<Order>): (v: Value)
    ensures v.VList? && |v.elems| == |orders|
    ensures forall i :: 0 <= i < |orders| ==> v.elems[i] == OrderToDict(orders[i])
  {
    VList(seq(|orders|, i requires 0 <= i < |orders| => OrderToDict(orders[i])))
  }

  function TrackingToDict(t: Tracking): Value
  {
    VDict(map[
      "order_id" := VStr(t.orderId),
      "status" := VStr(t.status),
      "created_at" := VStr(t.createdAt),
      "total" := VReal(t.total),
      "items" := ItemsToList(t.items),
      "estimated_delivery" := VStr(t.estimatedDelivery)])
  }
}
