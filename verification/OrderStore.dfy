/** The in-memory order repository of src/delivery_service/repository.py and the order service of
    src/delivery_service/service.py that commands it. */
module OrderStore {
  import opened Basics
  import opened Domain
  import opened Ordering
  import opened Text

  /** What a create command replied, with the request it replied to. */
  datatype Remembered = Remembered(request: CreateRequest, reply: Order)

  /** The four collections. */
  datatype Store = Store(
    orders: map<Uuid, Order>,
    idempotency: map<string, Remembered>,
    outbox: seq<Payload>,
    history: seq<StatusChanged>)

  /** Orders are filed under their own identifiers. */
  ghost predicate Keyed(s: Store) {
    forall id :: id in s.orders ==> s.orders[id].id == id
  }

  const EMPTY := Store(map[], map[], [], [])

  // ----- repository operations -----

  function Save(s: Store, o: Order, expected: int): Result<Store> {
    if o.id !in s.orders || s.orders[o.id].version != expected then Refused(ConcurrentUpdate)
    else if o.version != expected + 1 then Refused(Inconsistent)
    else Ok(s.(orders := s.orders[o.id := o]))
  }

  function SaveTransition(s: Store, o: Order, expected: int, event: StatusChanged): Result<Store> {
    if event.orderId != o.id || event.orderVersion != o.version then Refused(Inconsistent)
    else
      match Save(s, o, expected)
      case Refused(why) => Refused(why)
      case Ok(saved) => Ok(saved.(history := s.history + [event], outbox := s.outbox + [ChangedMessage(event)]))
  }

  predicate IsBusy(o: Order, tenant: Uuid, courier: Uuid) {
    o.tenantId == tenant && o.courierId == Some(courier) && (o.status.Assigned? || o.status.PickedUp?)
  }

  predicate Busy(s: Store, tenant: Uuid, courier: Uuid) {
    exists id :: id in s.orders && IsBusy(s.orders[id], tenant, courier)
  }

  /** The tenant's orders waiting for a courier, by age and then identifier. */
  function Waiting(s: Store, tenant: Uuid): set<Key> {
    set id | id in s.orders && s.orders[id].tenantId == tenant && s.orders[id].status.Created? ::
      Key(Rank(s.orders[id].createdAt), id)
  }

  /** `next` is the waiting order that comes first, if any is waiting. */
  ghost predicate IsNext(s: Store, tenant: Uuid, next: Option<Uuid>) {
    match next
    case None => Waiting(s, tenant) == {}
    case Some(id) =>
      && id in s.orders && s.orders[id].tenantId == tenant && s.orders[id].status.Created?
      && forall k :: k in Waiting(s, tenant) && k.id != id ==> Less(Key(Rank(s.orders[id].createdAt), id), k)
  }

  /** Give the order to the courier: what a claim does once it has found its order. */
  function TakeOrder(s: Store, id: Uuid, courier: Uuid, audit: Audit): Store
    requires id in s.orders && s.orders[id].status.Created?
  {
    var claimed := Assign(s.orders[id], courier).value;
    var event := ChangedFact(s.orders[id], claimed, audit).value;
    s.(orders := s.orders[id := claimed], history := s.history + [event], outbox := s.outbox + [ChangedMessage(event)])
  }

  /** Exactly one order changed, with the one history entry and the one message that go with it. */
  ghost predicate MovedTo(s: Store, after: Store, before: Order, o: Order, audit: Audit) {
    && after.orders == s.orders[o.id := o] && after.idempotency == s.idempotency
    && after.history == s.history + [StatusChanged(o.id, o.tenantId, before.status, o.status, o.version, audit)]
    && after.outbox == s.outbox +
         [ChangedPayload(1, audit.eventId, o.id, o.version, o.tenantId, before.status, o.status, audit.actorId,
                         audit.actorRole, audit.occurredAt, audit.correlationId)]
  }

  /** A claim, from its answer and the store it leaves: refused iff the courier is busy, empty
      iff nothing waits, and otherwise the first waiting order, given to the courier. */
  ghost predicate ClaimedAs(s: Store, tenant: Uuid, courier: Uuid, audit: Audit, r: Result<Option<Order>>, after: Store) {
    match r
    case Refused(why) => Busy(s, tenant, courier) && why == CourierAlreadyBusy && after == s
    case Ok(None) => !Busy(s, tenant, courier) && IsNext(s, tenant, None) && after == s
    case Ok(Some(o)) =>
      && !Busy(s, tenant, courier) && IsNext(s, tenant, Some(o.id))
      && after == TakeOrder(s, o.id, courier, audit) && o.id in after.orders && o == after.orders[o.id]
  }

  // ----- service commands -----

  /** The text under which a create reply is remembered. */
  function ScopeText(tenant: Uuid, customer: Uuid, key: string): string {
    "create_order:" + UuidText(tenant) + ":" + UuidText(customer) + ":" + key
  }

  /** Two requests share a scope iff tenant, customer and key all agree; keys may hold colons. */
  lemma ScopeTextInjective(t: Uuid, c: Uuid, k: string, t': Uuid, c': Uuid, k': string)
    ensures ScopeText(t, c, k) == ScopeText(t', c', k') <==> t == t' && c == c' && k == k'
  {
    var a, b := ScopeText(t, c, k), ScopeText(t', c', k');
    if a == b {
      ScopeParts(t, c, k);
      ScopeParts(t', c', k');
      UuidTextInjective(t, t');
      UuidTextInjective(c, c');
    }
  }

  lemma ScopeParts(t: Uuid, c: Uuid, k: string)
    ensures var s := ScopeText(t, c, k);
            |s| >= 87 && s[13..49] == UuidText(t) && s[50..86] == UuidText(c) && s[87..] == k
  {
  }

  /** A create command as the service receives it, with the identifiers and the time it draws. */
  datatype CreateCommand = CreateCommand(
    request: CreateRequest, tenantId: Uuid, key: Option<string>, orderId: Uuid, eventId: Uuid, now: Moment)

  /** No key, or an empty one, means no idempotency. */
  function Scope(c: CreateCommand): Option<string> {
    if c.key.None? || c.key.value == "" then None
    else Some(ScopeText(c.tenantId, c.request.customerId, c.key.value))
  }

  function Remember(s: Store, scope: Option<string>, request: CreateRequest, o: Order): map<string, Remembered> {
    if scope.Some? then s.idempotency[scope.value := Remembered(request, o)] else s.idempotency
  }

  function Create(s: Store, c: CreateCommand): (Store, Result<Order>) {
    var scope := Scope(c);
    if scope.Some? && scope.value in s.idempotency then
      var known := s.idempotency[scope.value];
      if known.request != c.request then (s, Refused(IdempotencyConflict)) else (s, Ok(known.reply))
    else
      match NewOrder(c.orderId, c.tenantId, c.request, c.now)
      case Refused(why) => (s, Refused(why))
      case Ok(o) =>
        (Store(s.orders[o.id := o], Remember(s, scope, c.request, o),
               s.outbox + [CreatedMessage(CreatedFact(c.eventId, o))], s.history),
         Ok(o))
  }

  /** The commands that read an order first and save it later. */
  datatype Intent =
    | Update(orderId: Uuid, changes: Changes, expected: int)
    | Move(orderId: Uuid, target: OrderStatus, expected: int, audit: Audit)
    | Give(orderId: Uuid, courier: Uuid, audit: Audit)

  const NO_CHANGES := Changes(None, None, None)

  /** An order that was read, what should replace it, the details asked for, and the event that
      goes with it. */
  datatype Prepared = Prepared(current: Order, updated: Order, changes: Changes, event: Option<StatusChanged>)

  function WithEvent(current: Order, updated: Result<Order>, audit: Audit): Result<Prepared> {
    match updated
    case Refused(why) => Refused(why)
    case Ok(o) =>
      match ChangedFact(current, o, audit)
      case Refused(why) => Refused(why)
      case Ok(event) => Ok(Prepared(current, o, NO_CHANGES, Some(event)))
  }

  /** The reading half of `update`, `transition` and `assign`. */
  function Prepare(s: Store, i: Intent): Result<Prepared> {
    if i.orderId !in s.orders then Refused(OrderNotFound)
    else
      var current := s.orders[i.orderId];
      match i
      case Update(_, changes, expected) =>
        if current.version != expected then Refused(ConcurrentUpdate)
        else (match UpdateDetails(current, changes)
              case Refused(why) => Refused(why)
              case Ok(o) => Ok(Prepared(current, o, changes, None)))
      case Move(_, target, expected, audit) =>
        if current.version != expected then Refused(ConcurrentUpdate)
        else WithEvent(current, Transition(current, target), audit)
      case Give(_, courier, audit) => WithEvent(current, Assign(current, courier), audit)
  }

  /** The saving half: the version read is the version expected. */
  function Commit(s: Store, p: Prepared): Result<Store> {
    match p.event
    case None => Save(s, p.updated, p.current.version)
    case Some(event) => SaveTransition(s, p.updated, p.current.version, event)
  }

  /** A whole command with nothing in between: it never loses the race against itself, so it is
      refused exactly when the reading half refuses it. */
  function Execute(s: Store, i: Intent): (Store, Result<Order>) {
    match Prepare(s, i)
    case Refused(why) => (s, Refused(why))
    case Ok(p) =>
      match Commit(s, p)
      case Refused(why) => (s, Refused(why))
      case Ok(s') => (s', Ok(p.updated))
  }

  // ----- the repository object -----

  class InMemoryOrderRepository {
    var orders: map<Uuid, Order>
    var idempotency: map<string, Remembered>
    var outbox: seq<Payload>
    var history: seq<StatusChanged>

    ghost function Value(): Store
      reads this
    {
      Store(orders, idempotency, outbox, history)
    }

    ghost predicate Valid()
      reads this
    {
      Keyed(Value())
    }

    constructor ()
      ensures Valid() && Value() == EMPTY
    {
      orders, idempotency, outbox, history := map[], map[], [], [];
    }

    method Get(id: Uuid) returns (o: Option<Order>)
      ensures o == if id in orders then Some(orders[id]) else None
    {
      if id in orders {
        return Some(orders[id]);
      }
      return None;
    }

    method SaveOrder(o: Order, expected: int) returns (r: Result<()>)
      requires Valid()
      modifies this
      ensures Valid()
      ensures r.Ok? <==> Save(old(Value()), o, expected).Ok?
      ensures r.Refused? ==> r.why == Save(old(Value()), o, expected).why && Value() == old(Value())
      ensures r.Ok? ==> Value() == Save(old(Value()), o, expected).value
      ensures r.Ok? <==> o.id in old(orders) && old(orders)[o.id].version == expected && o.version == expected + 1
      ensures r.Ok? ==> orders == old(orders)[o.id := o] && outbox == old(outbox) && history == old(history)
      ensures r.Refused? ==>
                r.why == if o.id in old(orders) && old(orders)[o.id].version == expected then Inconsistent else ConcurrentUpdate
      ensures idempotency == old(idempotency)
    {
      if o.id !in orders || orders[o.id].version != expected {
        return Refused(ConcurrentUpdate);
      }
      if o.version != expected + 1 {
        return Refused(Inconsistent);
      }
      orders := orders[o.id := o];
      return Ok(());
    }

    method SaveOrderTransition(o: Order, expected: int, event: StatusChanged) returns (r: Result<()>)
      requires Valid()
      modifies this
      ensures Valid()
      ensures r.Ok? <==> SaveTransition(old(Value()), o, expected, event).Ok?
      ensures r.Refused? ==> r.why == SaveTransition(old(Value()), o, expected, event).why && Value() == old(Value())
      ensures r.Ok? ==> Value() == SaveTransition(old(Value()), o, expected, event).value
      ensures r.Ok? <==>
                && event.orderId == o.id && event.orderVersion == o.version
                && o.id in old(orders) && old(orders)[o.id].version == expected && o.version == expected + 1
      ensures r.Ok? ==>
                && orders == old(orders)[o.id := o] && history == old(history) + [event]
                && |outbox| == |old(outbox)| + 1 && outbox[..|old(outbox)|] == old(outbox)
                && outbox[|old(outbox)|] == ChangedPayload(1, event.audit.eventId, event.orderId, event.orderVersion, event.tenantId,
                     event.fromStatus, event.toStatus, event.audit.actorId, event.audit.actorRole, event.audit.occurredAt,
                     event.audit.correlationId)
      ensures idempotency == old(idempotency)
    {
      if event.orderId != o.id || event.orderVersion != o.version {
        return Refused(Inconsistent);
      }
      r := SaveOrder(o, expected);
      if r.Ok? {
        history := history + [event];
        outbox := outbox + [ChangedMessage(event)];
      }
    }

    /** The order map is written before the event is built; the event cannot fail. */
    method ClaimNext(courier: Uuid, tenant: Uuid, eventId: Uuid, occurredAt: Moment, correlationId: string)
      returns (r: Result<Option<Order>>)
      requires Valid()
      modifies this
      ensures Valid()
      ensures ClaimedAs(old(Value()), tenant, courier, Audit(eventId, courier, "courier", occurredAt, correlationId), r, Value())
      ensures r.Refused? <==>
                exists id :: id in old(orders) && old(orders)[id].tenantId == tenant && old(orders)[id].courierId == Some(courier)
                             && (old(orders)[id].status == Assigned || old(orders)[id].status == PickedUp)
      ensures r.Refused? || r.value.None? ==> Value() == old(Value())
      ensures r.Ok? && r.value.None? ==>
                forall id :: id in old(orders) && old(orders)[id].tenantId == tenant ==> old(orders)[id].status != Created
      ensures r.Ok? && r.value.Some? ==>
                var o := r.value.value;
                && o.id in old(orders) && old(orders)[o.id].tenantId == tenant && old(orders)[o.id].status == Created
                && o == old(orders)[o.id].(status := Assigned, courierId := Some(courier), version := old(orders)[o.id].version + 1)
                && orders == old(orders)[o.id := o] && idempotency == old(idempotency)
                && history == old(history) + [StatusChanged(o.id, tenant, Created, Assigned, o.version,
                     Audit(eventId, courier, "courier", occurredAt, correlationId))]
                && outbox == old(outbox) + [ChangedPayload(1, eventId, o.id, o.version, tenant, Created, Assigned, courier,
                     "courier", occurredAt, correlationId)]
    {
      var audit := Audit(eventId, courier, "courier", occurredAt, correlationId);
      var busy := HasActiveOrder(tenant, courier);
      if busy {
        return Refused(CourierAlreadyBusy);
      }
      var next := FindNext(tenant);
      if next.None? {
        return Ok(None);
      }
      var before := orders[next.value];
      MovesHaveEvents(before, Assigned, courier, audit);
      var claimed := Assign(before, courier).value;
      orders := orders[claimed.id := claimed];
      var event := ChangedFact(before, claimed, audit).value;
      history := history + [event];
      outbox := outbox + [ChangedMessage(event)];
      return Ok(Some(claimed));
    }

    /** The first of the tenant's waiting orders, sorted by age and identifier. */
    method FindNext(tenant: Uuid) returns (next: Option<Uuid>)
      ensures IsNext(Value(), tenant, next)
      ensures next.None? ==> forall id :: id in orders && orders[id].tenantId == tenant ==> orders[id].status != Created
    {
      var waiting := Waiting(Store(orders, idempotency, outbox, history), tenant);
      assert forall id :: id in orders && orders[id].tenantId == tenant && orders[id].status == Created ==>
               Key(Rank(orders[id].createdAt), id) in waiting;
      var candidates := Sort(waiting);
      if candidates == [] {
        assert forall k :: k in waiting ==> k in candidates;
        return None;
      }
      FirstIsLeast(candidates, waiting);
      return Some(candidates[0].id);
    }

    method HasActiveOrder(tenant: Uuid, courier: Uuid) returns (busy: bool)
      ensures busy <==> Busy(Value(), tenant, courier)
      ensures busy <==>
                exists id :: id in orders && orders[id].tenantId == tenant && orders[id].courierId == Some(courier)
                             && (orders[id].status == Assigned || orders[id].status == PickedUp)
    {
      busy := exists id :: id in orders && IsBusy(orders[id], tenant, courier);
    }
  }

  class OrderService {
    const repository: InMemoryOrderRepository

    constructor (repository: InMemoryOrderRepository)
      ensures this.repository == repository
    {
      this.repository := repository;
    }

    /** Refused or replayed without touching anything; otherwise order, event and memory at once. */
    method CreateOrder(c: CreateCommand) returns (r: Result<Order>)
      requires repository.Valid()
      modifies repository
      ensures repository.Valid()
      ensures (repository.Value(), r) == Create(old(repository.Value()), c)
      ensures r.Refused? ==> repository.Value() == old(repository.Value())
      ensures repository.history == old(repository.history)
      ensures repository.orders != old(repository.orders) || repository.outbox != old(repository.outbox) ==>
                && r.Ok? && 1 <= c.request.weightGrams <= 100_000
                && r.value == Order(c.orderId, c.tenantId, c.request.customerId, c.request.pickupAddress,
                     c.request.destinationAddress, c.request.weightGrams, Created, None, 1, c.now)
                && repository.orders == old(repository.orders)[c.orderId := r.value]
                && repository.outbox == old(repository.outbox) +
                     [CreatedPayload(1, c.eventId, c.orderId, 1, c.tenantId, c.request.customerId, c.now)]
      ensures c.key.None? || c.key.value == "" ==>
                && repository.idempotency == old(repository.idempotency)
                && (r.Ok? <==> 1 <= c.request.weightGrams <= 100_000) && (r.Ok? ==> repository.outbox != old(repository.outbox))
      ensures c.key.Some? && c.key.value != "" ==>
                var scope := "create_order:" + UuidText(c.tenantId) + ":" + UuidText(c.request.customerId) + ":" + c.key.value;
                if scope in old(repository.idempotency) then
                  && repository.Value() == old(repository.Value())
                  && r == if old(repository.idempotency)[scope].request == c.request
                          then Ok(old(repository.idempotency)[scope].reply) else Refused(IdempotencyConflict)
                else
                  && (r.Ok? <==> 1 <= c.request.weightGrams <= 100_000)
                  && (r.Ok? ==>
                        && repository.outbox != old(repository.outbox)
                        && repository.idempotency == old(repository.idempotency)[scope := Remembered(c.request, r.value)])
    {
      var scope := Scope(c);
      if scope.Some? && scope.value in repository.idempotency {
        var known := repository.idempotency[scope.value];
        if known.request != c.request {
          return Refused(IdempotencyConflict);
        }
        return Ok(known.reply);
      }
      r := NewOrder(c.orderId, c.tenantId, c.request, c.now);
      if r.Refused? {
        return;
      }
      var o := r.value;
      repository.orders := repository.orders[o.id := o];
      repository.outbox := repository.outbox + [CreatedMessage(CreatedFact(c.eventId, o))];
      if scope.Some? {
        repository.idempotency := repository.idempotency[scope.value := Remembered(c.request, o)];
      }
    }

    method UpdateOrder(id: Uuid, changes: Changes, expected: int) returns (r: Result<Order>)
      requires repository.Valid()
      modifies repository
      ensures repository.Valid()
      ensures (repository.Value(), r) == Execute(old(repository.Value()), Update(id, changes, expected))
      ensures r.Refused? ==> repository.Value() == old(repository.Value())
      ensures id !in old(repository.orders) ==> r == Refused(OrderNotFound)
      ensures id in old(repository.orders) ==>
                var o := old(repository.orders)[id];
                var pickup := if changes.pickupAddress.Some? then changes.pickupAddress.value else o.pickupAddress;
                var destination := if changes.destinationAddress.Some? then changes.destinationAddress.value else o.destinationAddress;
                var weight := if changes.weightGrams.Some? then changes.weightGrams.value else o.weightGrams;
                && (r.Ok? <==> o.version == expected && CaseFold(pickup) != CaseFold(destination) && 1 <= weight <= 100_000)
                && (o.version != expected ==> r == Refused(ConcurrentUpdate))
                && (r.Ok? ==>
                      && r.value == o.(pickupAddress := pickup, destinationAddress := destination, weightGrams := weight,
                                       version := expected + 1)
                      && repository.orders == old(repository.orders)[id := r.value])
      ensures repository.history == old(repository.history) && repository.outbox == old(repository.outbox)
      ensures repository.idempotency == old(repository.idempotency)
    {
      var found := repository.Get(id);
      if found.None? {
        return Refused(OrderNotFound);
      }
      if found.value.version != expected {
        return Refused(ConcurrentUpdate);
      }
      UpdatedFields(found.value, changes);
      r := UpdateDetails(found.value, changes);
      if r.Refused? {
        return;
      }
      var saved := repository.SaveOrder(r.value, expected);
      match saved
      case Ok(_) =>
      case Refused(why) => r := Refused(why);
    }

    method TransitionOrder(id: Uuid, target: OrderStatus, expected: int, audit: Audit) returns (r: Result<Order>)
      requires repository.Valid()
      modifies repository
      ensures repository.Valid()
      ensures (repository.Value(), r) == Execute(old(repository.Value()), Move(id, target, expected, audit))
      ensures r.Refused? ==> repository.Value() == old(repository.Value())
      ensures r.Ok? <==>
                && id in old(repository.orders) && old(repository.orders)[id].version == expected
                && var status := old(repository.orders)[id].status;
                   || (status == Created && (target == Assigned || target == Cancelled))
                   || (status == Assigned && (target == PickedUp || target == Cancelled))
                   || (status == PickedUp && target == Delivered)
      ensures r.Ok? ==>
                var o := old(repository.orders)[id];
                && r.value == o.(status := target, version := expected + 1)
                && MovedTo(old(repository.Value()), repository.Value(), o, r.value, audit)
    {
      var found := repository.Get(id);
      if found.None? {
        return Refused(OrderNotFound);
      }
      if found.value.version != expected {
        return Refused(ConcurrentUpdate);
      }
      r := Transition(found.value, target);
      if r.Refused? {
        return;
      }
      r := SaveWithEvent(found.value, r.value, expected, audit);
    }

    method AssignOrder(id: Uuid, courier: Uuid, eventId: Uuid, now: Moment) returns (r: Result<Order>)
      requires repository.Valid()
      modifies repository
      ensures repository.Valid()
      ensures (repository.Value(), r) ==
              Execute(old(repository.Value()), Give(id, courier, Audit(eventId, courier, "courier", now, "assignment")))
      ensures r.Refused? ==> repository.Value() == old(repository.Value())
      ensures r.Ok? <==> id in old(repository.orders) && old(repository.orders)[id].status == Created
      ensures r.Ok? ==>
                var o := old(repository.orders)[id];
                && r.value == o.(status := Assigned, courierId := Some(courier), version := o.version + 1)
                && MovedTo(old(repository.Value()), repository.Value(), o, r.value, Audit(eventId, courier, "courier", now, "assignment"))
    {
      var audit := Audit(eventId, courier, "courier", now, "assignment");
      var found := repository.Get(id);
      if found.None? {
        return Refused(OrderNotFound);
      }
      r := Assign(found.value, courier);
      if r.Refused? {
        return;
      }
      r := SaveWithEvent(found.value, r.value, found.value.version, audit);
    }

    /** The common end of the two commands that change the status. */
    method SaveWithEvent(before: Order, after: Order, expected: int, audit: Audit) returns (r: Result<Order>)
      requires repository.Valid() && expected == before.version
      modifies repository
      ensures repository.Valid()
      ensures var p := WithEvent(before, Ok(after), audit);
              var s := if p.Ok? then Commit(old(repository.Value()), p.value) else Refused(p.why);
              if s.Ok? then repository.Value() == s.value && r == Ok(after)
              else repository.Value() == old(repository.Value()) && r == Refused(s.why)
    {
      var event := ChangedFact(before, after, audit);
      if event.Refused? {
        return Refused(event.why);
      }
      var saved := repository.SaveOrderTransition(after, expected, event.value);
      if saved.Refused? {
        return Refused(saved.why);
      }
      return Ok(after);
    }
  }
}
