/** The order listing of src/delivery_service/repository.py and the access policy of
    src/delivery_service/access.py: pages of a listing show exactly what the policy allows. */
module Listing {
  import opened Basics
  import opened Domain
  import opened Ordering
  import opened OrderStore
  import opened Text

  // ----- the pointwise policy -----

  datatype Role = Customer | Courier | Dispatcher

  datatype Actor = Actor(userId: Uuid, role: Role, tenantId: Uuid)

  function RoleValue(r: Role): string {
    match r
    case Customer => "customer"
    case Courier => "courier"
    case Dispatcher => "dispatcher"
  }

  predicate CanAccessOrder(actor: Actor, orderTenant: Uuid, customer: Uuid, courier: Option<Uuid>) {
    if actor.tenantId != orderTenant then false
    else
      match actor.role
      case Dispatcher => true
      case Customer => actor.userId == customer
      case Courier => courier.Some? && actor.userId == courier.value
  }

  // ----- the listing query -----

  datatype Query = Query(role: string, actorId: Uuid, tenantId: Uuid, sort: string, status: Option<string>)

  predicate Visible(o: Order, q: Query) {
    o.tenantId == q.tenantId &&
    (q.role == "dispatcher" || (q.role == "customer" && o.customerId == q.actorId)
     || (q.role == "courier" && o.courierId == Some(q.actorId)))
  }

  predicate Matches(o: Order, q: Query) {
    Visible(o, q) && (q.status.Some? ==> StatusValue(o.status) == q.status.value)
  }

  /** The position of a status among the status texts in alphabetical order. */
  function StatusRank(s: OrderStatus): int {
    match s
    case Assigned => 0
    case Cancelled => 1
    case Created => 2
    case Delivered => 3
    case PickedUp => 4
  }

  function SortRank(sort: string, o: Order): int {
    if sort == "status" then StatusRank(o.status) else Rank(o.createdAt)
  }

  function Selected(orders: map<Uuid, Order>, q: Query): set<Key> {
    set id | id in orders && Matches(orders[id], q) :: Key(SortRank(q.sort, orders[id]), id)
  }

  /** Where a slice bound falls: negative bounds count from the end, and all are clipped. */
  function Bound(i: int, length: nat): (r: nat)
    ensures r <= length
    ensures 0 <= i <= length ==> r == i
    ensures i > length ==> r == length
    ensures i < 0 <= i + length ==> r == i + length
    ensures i + length < 0 ==> r == 0
  {
    if i + length < 0 then 0 else if i < 0 then length + i else if i < length then i else length
  }

  /** The slice from `offset` up to `offset + limit`. */
  function Page<T>(s: seq<T>, offset: int, limit: int): seq<T> {
    var from, to := Bound(offset, |s|), Bound(offset + limit, |s|);
    if from <= to then s[from..to] else []
  }

  function OrdersAt(orders: map<Uuid, Order>, keys: seq<Key>): seq<Order>
    requires forall k :: k in keys ==> k.id in orders
  {
    seq(|keys|, i requires 0 <= i < |keys| => assert keys[i] in keys; orders[keys[i].id])
  }

  /** A page of the query: cut out of the sorted listing of everything that matches. */
  ghost predicate IsPage(orders: map<Uuid, Order>, q: Query, limit: int, offset: int, page: seq<Order>) {
    exists all :: Sorts(all, Selected(orders, q)) && IsSlice(orders, all, limit, offset, page)
  }

  ghost predicate IsSlice(orders: map<Uuid, Order>, all: seq<Key>, limit: int, offset: int, page: seq<Order>) {
    (forall k :: k in all ==> k.id in orders) && page == OrdersAt(orders, Page(all, offset, limit))
  }

  /** Refused iff the sort field is not supported. */
  method ListVisible(orders: map<Uuid, Order>, q: Query, limit: int, offset: int) returns (page: Option<seq<Order>>)
    ensures page.Some? <==> q.sort in {"created_at", "status"}
    ensures page.Some? ==> IsPage(orders, q, limit, offset, page.value)
  {
    if q.sort !in {"created_at", "status"} {
      return None;
    }
    var sorted := Sort(Selected(orders, q));
    assert forall k :: k in sorted ==> k.id in orders;
    var keys := Page(sorted, offset, limit);
    assert forall k :: k in keys ==> k in sorted;
    var orders' := OrdersAt(orders, keys);
    assert IsSlice(orders, sorted, limit, offset, orders');
    return Some(orders');
  }

  // ----- main results -----

  /** The policy: same tenant, and dispatchers see all, customers their own, couriers theirs. */
  lemma AccessIff(actor: Actor, orderTenant: Uuid, customer: Uuid, courier: Option<Uuid>)
    ensures CanAccessOrder(actor, orderTenant, customer, courier) <==>
              && orderTenant == actor.tenantId
              && (actor.role == Dispatcher
                  || (actor.role == Customer && customer == actor.userId)
                  || (actor.role == Courier && courier == Some(actor.userId)))
  {
  }

  /** The listing and the policy agree on every order and every actor. */
  lemma ListingAgreesWithPolicy(o: Order, actor: Actor, q: Query)
    requires q.role == RoleValue(actor.role) && q.actorId == actor.userId && q.tenantId == actor.tenantId
    ensures Visible(o, q) <==> CanAccessOrder(actor, o.tenantId, o.customerId, o.courierId)
  {
    assert RoleValue(Customer)[1] == 'u' && RoleValue(Courier)[1] == 'o' && RoleValue(Dispatcher)[1] == 'i';
  }

  /** The first `n` pages put together. */
  function Shown(pages: seq<seq<Order>>, n: nat): seq<Order>
    requires n <= |pages|
  {
    if n == 0 then [] else Shown(pages, n - 1) + pages[n - 1]
  }

  /** The pages a reader gets at offsets 0, limit, 2 * limit, … until one comes back empty. */
  ghost predicate IsWalk(orders: map<Uuid, Order>, q: Query, limit: int, pages: seq<seq<Order>>) {
    && pages != [] && pages[|pages| - 1] == []
    && forall i :: 0 <= i < |pages| ==> IsPage(orders, q, limit, i * limit, pages[i])
  }

  /** The offset of page `i`. */
  function Offset(i: nat, limit: nat): nat {
    if i == 0 then 0 else Offset(i - 1, limit) + limit
  }

  lemma {:induction false} OffsetIsMultiple(i: nat, limit: nat)
    ensures Offset(i, limit) == i * limit
  {
    if i > 0 {
      OffsetIsMultiple(i - 1, limit);
    }
  }

  /** Page `i` is cut out of the listing at its offset. */
  ghost predicate IsCut(orders: map<Uuid, Order>, all: seq<Key>, limit: nat, pages: seq<seq<Order>>, i: int)
    requires 0 <= i < |pages|
  {
    IsSlice(orders, all, limit, Offset(i, limit), pages[i])
  }

  /** All pages are cut out of one and the same listing. */
  lemma OneListing(orders: map<Uuid, Order>, q: Query, limit: nat, pages: seq<seq<Order>>) returns (all: seq<Key>)
    requires IsWalk(orders, q, limit, pages)
    ensures Sorts(all, Selected(orders, q))
    ensures forall i :: 0 <= i < |pages| ==> IsCut(orders, all, limit, pages, i)
  {
    assert IsPage(orders, q, limit, 0 * limit, pages[0]);
    all :| Sorts(all, Selected(orders, q)) && IsSlice(orders, all, limit, 0 * limit, pages[0]);
    forall i | 0 <= i < |pages| ensures IsCut(orders, all, limit, pages, i) {
      assert IsPage(orders, q, limit, i * limit, pages[i]);
      var other :| Sorts(other, Selected(orders, q)) && IsSlice(orders, other, limit, i * limit, pages[i]);
      SortingIsUnique(other, all, Selected(orders, q));
      OffsetIsMultiple(i, limit);
    }
  }

  /** The first `n` pages put together are the orders of the listing up to the next offset. */
  lemma {:induction false} PagesCoverPrefix(orders: map<Uuid, Order>, all: seq<Key>, limit: nat, pages: seq<seq<Order>>, n: nat)
    requires limit >= 1 && n <= |pages| && (forall k :: k in all ==> k.id in orders)
    requires forall i :: 0 <= i < |pages| ==> IsCut(orders, all, limit, pages, i)
    ensures Shown(pages, n) == OrdersAt(orders, all)[..Bound(Offset(n, limit), |all|)]
  {
    if n > 0 {
      PagesCoverPrefix(orders, all, limit, pages, n - 1);
      assert IsCut(orders, all, limit, pages, n - 1);
      NextPage(orders, all, limit, Offset(n - 1, limit), pages[n - 1]);
    }
  }

  lemma NextPage(orders: map<Uuid, Order>, all: seq<Key>, limit: int, offset: nat, page: seq<Order>)
    requires limit >= 1 && IsSlice(orders, all, limit, offset, page)
    ensures OrdersAt(orders, all)[..Bound(offset, |all|)] + page == OrdersAt(orders, all)[..Bound(offset + limit, |all|)]
    ensures page == [] ==> offset >= |all|
  {
  }

  function KeyOf(q: Query, o: Order): Key {
    Key(SortRank(q.sort, o), o.id)
  }

  /** For any actor, filter, sort and page size, walking through the pages until one is empty shows
      every order the policy allows and the filter matches, each exactly once, in strictly
      increasing order, and nothing else. */
  lemma PagesShowExactlyTheAllowed(orders: map<Uuid, Order>, actor: Actor, q: Query, limit: int, pages: seq<seq<Order>>)
    requires limit >= 1 && IsWalk(orders, q, limit, pages)
    requires forall id :: id in orders ==> orders[id].id == id
    requires q.role == RoleValue(actor.role) && q.actorId == actor.userId && q.tenantId == actor.tenantId
    ensures var shown := Shown(pages, |pages|);
            && (forall o :: o in shown <==>
                  && o.id in orders && orders[o.id] == o && o.tenantId == actor.tenantId
                  && (match actor.role
                      case Dispatcher => true
                      case Customer => o.customerId == actor.userId
                      case Courier => o.courierId == Some(actor.userId))
                  && (q.status.Some? ==> StatusValue(o.status) == q.status.value))
            && (forall i, j :: 0 <= i < j < |shown| ==> ComesFirst(q.sort, shown[i], shown[j]))
            && (forall o :: o in shown ==> CanAccessOrder(actor, o.tenantId, o.customerId, o.courierId))
  {
    var all := OneListing(orders, q, limit, pages);
    var last := |pages| - 1;
    assert IsCut(orders, all, limit, pages, last);
    PagesCoverPrefix(orders, all, limit, pages, last);
    NextPage(orders, all, limit, Offset(last, limit), pages[last]);
    var shown := Shown(pages, |pages|);
    assert shown == OrdersAt(orders, all);
    ListedKeys(orders, q, all);
    forall o: Order ensures o in shown <==> o.id in orders && orders[o.id] == o && Matches(o, q) {
      ListedIff(orders, q, all, o);
    }
    forall o: Order ensures Visible(o, q) <==> CanAccessOrder(actor, o.tenantId, o.customerId, o.courierId) {
      ListingAgreesWithPolicy(o, actor, q);
    }
    forall i, j | 0 <= i < j < |shown| ensures ComesFirst(q.sort, shown[i], shown[j]) {
      assert Less(KeyOf(q, shown[i]), KeyOf(q, shown[j]));
      KeysSortAsAsked(q, shown[i], shown[j]);
    }
  }

  /** The order of a listing: by status text or by age, and then by identifier. */
  predicate ComesFirst(sort: string, a: Order, b: Order) {
    if sort == "status" then
      TextBefore(StatusValue(a.status), StatusValue(b.status)) || (a.status == b.status && a.id < b.id)
    else Before(a.createdAt, b.createdAt) || (a.createdAt == b.createdAt && a.id < b.id)
  }

  lemma KeysSortAsAsked(q: Query, a: Order, b: Order)
    ensures Less(KeyOf(q, a), KeyOf(q, b)) <==> ComesFirst(q.sort, a, b)
  {
    StatusRankIsTextOrder(a.status, b.status);
    RankIsChronological(a.createdAt, b.createdAt);
  }

  /** Each listed order has the key it was sorted by. */
  lemma ListedKeys(orders: map<Uuid, Order>, q: Query, all: seq<Key>)
    requires Sorts(all, Selected(orders, q)) && (forall k :: k in all ==> k.id in orders)
    requires forall id :: id in orders ==> orders[id].id == id
    ensures var shown := OrdersAt(orders, all);
            |shown| == |all| && forall i :: 0 <= i < |shown| ==> KeyOf(q, shown[i]) == all[i]
  {
    forall i | 0 <= i < |all| ensures KeyOf(q, OrdersAt(orders, all)[i]) == all[i] {
      assert all[i] in Selected(orders, q);
    }
  }

  lemma ListedIff(orders: map<Uuid, Order>, q: Query, all: seq<Key>, o: Order)
    requires Sorts(all, Selected(orders, q)) && (forall k :: k in all ==> k.id in orders)
    requires forall id :: id in orders ==> orders[id].id == id
    ensures o in OrdersAt(orders, all) <==> o.id in orders && orders[o.id] == o && Matches(o, q)
  {
    if o.id in orders && orders[o.id] == o && Matches(o, q) {
      assert KeyOf(q, o) in all;
      var i :| 0 <= i < |all| && all[i] == KeyOf(q, o);
      assert OrdersAt(orders, all)[i] == o;
    }
    forall i | 0 <= i < |all| && OrdersAt(orders, all)[i] == o ensures Matches(o, q) {
      assert all[i] in Selected(orders, q);
    }
  }

  // ----- the ranks are what the listing sorts by -----

  /** Text order, character by character. */
  predicate TextBefore(a: string, b: string) {
    b != "" && (a == "" || a[0] < b[0] || (a[0] == b[0] && TextBefore(a[1..], b[1..])))
  }

  lemma StatusRankIsTextOrder(a: OrderStatus, b: OrderStatus)
    ensures StatusRank(a) < StatusRank(b) <==> TextBefore(StatusValue(a), StatusValue(b))
  {
    var x, y := StatusValue(a), StatusValue(b);
    if a == b {
      NotBeforeItself(x);
    } else if x[0] == y[0] {
      assert TextBefore(x, y) <==> TextBefore(x[1..], y[1..]);
      assert x[1..][0] != y[1..][0];
    }
  }

  lemma {:induction false} NotBeforeItself(s: string)
    ensures !TextBefore(s, s)
  {
    if s != "" {
      NotBeforeItself(s[1..]);
    }
  }
}
