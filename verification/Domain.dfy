/** The order aggregate of src/delivery_service/domain.py and its events in
    src/delivery_service/events.py: immutable values and the functions between them. */
module Domain {
  import opened Basics
  import opened Text

  datatype OrderStatus = Created | Assigned | PickedUp | Delivered | Cancelled

  function StatusValue(s: OrderStatus): string {
    match s
    case Created => "created"
    case Assigned => "assigned"
    case PickedUp => "picked_up"
    case Delivered => "delivered"
    case Cancelled => "cancelled"
  }

  function ParseStatus(s: string): Option<OrderStatus> {
    if s == "created" then Some(Created)
    else if s == "assigned" then Some(Assigned)
    else if s == "picked_up" then Some(PickedUp)
    else if s == "delivered" then Some(Delivered)
    else if s == "cancelled" then Some(Cancelled)
    else None
  }

  predicate Allows(current: OrderStatus, target: OrderStatus) {
    match current
    case Created => target.Assigned? || target.Cancelled?
    case Assigned => target.PickedUp? || target.Cancelled?
    case PickedUp => target.Delivered?
    case Delivered => false
    case Cancelled => false
  }

  datatype Order = Order(
    id: Uuid,
    tenantId: Uuid,
    customerId: Uuid,
    pickupAddress: string,
    destinationAddress: string,
    weightGrams: int,
    status: OrderStatus,
    courierId: Option<Uuid>,
    version: int,
    createdAt: Moment)

  /** Every way a command can be refused. */
  datatype Refusal =
    | BadWeight
    | SameAddress
    | InvalidTransition(current: OrderStatus, target: OrderStatus)
    | Inconsistent
    | ConcurrentUpdate
    | IdempotencyConflict
    | CourierAlreadyBusy
    | OrderNotFound

  datatype Result<+T> = Ok(value: T) | Refused(why: Refusal)

  predicate ValidWeight(grams: int) {
    0 < grams <= 100_000
  }

  /** What a customer asks for; also the canonical form whose digest identifies the request. */
  datatype CreateRequest = CreateRequest(
    customerId: Uuid, pickupAddress: string, destinationAddress: string, weightGrams: int)

  function NewOrder(id: Uuid, tenantId: Uuid, r: CreateRequest, createdAt: Moment): Result<Order> {
    if !ValidWeight(r.weightGrams) then Refused(BadWeight)
    else Ok(Order(id, tenantId, r.customerId, r.pickupAddress, r.destinationAddress, r.weightGrams,
                  Created, None, 1, createdAt))
  }

  function Transition(o: Order, target: OrderStatus): Result<Order> {
    if !Allows(o.status, target) then Refused(InvalidTransition(o.status, target))
    else Ok(o.(status := target, version := o.version + 1))
  }

  function Assign(o: Order, courier: Uuid): Result<Order> {
    match Transition(o, Assigned)
    case Refused(why) => Refused(why)
    case Ok(moved) => Ok(moved.(courierId := Some(courier)))
  }

  datatype Changes = Changes(
    pickupAddress: Option<string>, destinationAddress: Option<string>, weightGrams: Option<int>)

  function Pick<T>(change: Option<T>, current: T): T {
    if change.Some? then change.value else current
  }

  /** Case folding of the basic Latin letters. */
  function CaseFold(s: string): string {
    seq(|s|, i requires 0 <= i < |s| => if 'A' <= s[i] <= 'Z' then (s[i] as int + 32) as char else s[i])
  }

  /** Two characters are the same letter up to the case of the basic Latin alphabet. */
  predicate SameLetter(a: char, b: char) {
    a == b
    || ('A' <= a <= 'Z' && 'a' <= b <= 'z' && b as int - a as int == 32)
    || ('a' <= a <= 'z' && 'A' <= b <= 'Z' && a as int - b as int == 32)
  }

  lemma CaseFoldIff(s: string, t: string)
    ensures CaseFold(s) == CaseFold(t) <==> |s| == |t| && forall i :: 0 <= i < |s| ==> SameLetter(s[i], t[i])
  {
    if CaseFold(s) == CaseFold(t) {
      assert |CaseFold(s)| == |s| && |CaseFold(t)| == |t|;
      forall i | 0 <= i < |s| ensures SameLetter(s[i], t[i]) {
        assert CaseFold(s)[i] == CaseFold(t)[i];
      }
    }
  }

  function UpdateDetails(o: Order, c: Changes): Result<Order> {
    var updated := o.(pickupAddress := Pick(c.pickupAddress, o.pickupAddress),
                      destinationAddress := Pick(c.destinationAddress, o.destinationAddress),
                      weightGrams := Pick(c.weightGrams, o.weightGrams),
                      version := o.version + 1);
    if CaseFold(updated.pickupAddress) == CaseFold(updated.destinationAddress) then Refused(SameAddress)
    else if !ValidWeight(updated.weightGrams) then Refused(BadWeight)
    else Ok(updated)
  }

  // ----- events -----

  datatype OrderCreated = OrderCreated(
    eventId: Uuid, orderId: Uuid, customerId: Uuid, tenantId: Uuid, occurredAt: Moment, orderVersion: int)

  function CreatedFact(eventId: Uuid, o: Order): OrderCreated {
    OrderCreated(eventId, o.id, o.customerId, o.tenantId, o.createdAt, o.version)
  }

  /** Who did it, when, and under which correlation. */
  datatype Audit = Audit(
    eventId: Uuid, actorId: Uuid, actorRole: string, occurredAt: Moment, correlationId: string)

  datatype StatusChanged = StatusChanged(
    orderId: Uuid, tenantId: Uuid, fromStatus: OrderStatus, toStatus: OrderStatus, orderVersion: int, audit: Audit)

  function ChangedFact(before: Order, after: Order, audit: Audit): Result<StatusChanged> {
    if before.id != after.id || after.version != before.version + 1 then Refused(Inconsistent)
    else if before.status == after.status then Refused(Inconsistent)
    else Ok(StatusChanged(after.id, after.tenantId, before.status, after.status, after.version, audit))
  }

  /** The integration payloads; each carries schema version 1. */
  datatype Payload =
    | CreatedPayload(
        schemaVersion: int, eventId: Uuid, aggregateId: Uuid, aggregateVersion: int, tenantId: Uuid,
        customerId: Uuid, occurredAt: Moment)
    | ChangedPayload(
        schemaVersion: int, eventId: Uuid, aggregateId: Uuid, aggregateVersion: int, tenantId: Uuid,
        fromStatus: OrderStatus, toStatus: OrderStatus, actorId: Uuid, actorRole: string,
        occurredAt: Moment, correlationId: string)

  function CreatedMessage(e: OrderCreated): Payload {
    CreatedPayload(1, e.eventId, e.orderId, e.orderVersion, e.tenantId, e.customerId, e.occurredAt)
  }

  function ChangedMessage(e: StatusChanged): Payload {
    ChangedPayload(1, e.audit.eventId, e.orderId, e.orderVersion, e.tenantId, e.fromStatus, e.toStatus,
                   e.audit.actorId, e.audit.actorRole, e.audit.occurredAt, e.audit.correlationId)
  }

  /** A legal move always yields its event: a claim that has written the order map cannot fail
      afterwards. */
  lemma MovesHaveEvents(o: Order, target: OrderStatus, courier: Uuid, audit: Audit)
    ensures Transition(o, target).Ok? ==> ChangedFact(o, Transition(o, target).value, audit).Ok?
    ensures Assign(o, courier).Ok? ==> ChangedFact(o, Assign(o, courier).value, audit).Ok?
    ensures Assign(o, courier).Ok? <==> o.status.Created?
  {
  }

  // ----- the same, field by field -----

  /** The whole transition table: five edges. */
  lemma FiveEdges(current: OrderStatus, target: OrderStatus)
    ensures Allows(current, target) <==>
              || (current == Created && (target == Assigned || target == Cancelled))
              || (current == Assigned && (target == PickedUp || target == Cancelled))
              || (current == PickedUp && target == Delivered)
  {
  }

  /** The texts of the statuses. */
  lemma StatusTexts()
    ensures StatusValue(Created) == "created" && StatusValue(Assigned) == "assigned" && StatusValue(PickedUp) == "picked_up"
    ensures StatusValue(Delivered) == "delivered" && StatusValue(Cancelled) == "cancelled"
  {
  }

  /** What a new order holds. */
  lemma NewOrderFields(id: Uuid, tenantId: Uuid, r: CreateRequest, createdAt: Moment)
    ensures var made := NewOrder(id, tenantId, r, createdAt);
            if 1 <= r.weightGrams <= 100_000 then
              && made.Ok? && made.value.id == id && made.value.tenantId == tenantId
              && made.value.customerId == r.customerId && made.value.pickupAddress == r.pickupAddress
              && made.value.destinationAddress == r.destinationAddress && made.value.weightGrams == r.weightGrams
              && made.value.status == Created && made.value.courierId == None && made.value.version == 1
              && made.value.createdAt == createdAt
            else made == Refused(BadWeight)
  {
  }

  /** What an update writes: each detail is the one given, or else the one stored. */
  lemma UpdatedFields(o: Order, c: Changes)
    ensures var pickup := if c.pickupAddress.Some? then c.pickupAddress.value else o.pickupAddress;
            var destination := if c.destinationAddress.Some? then c.destinationAddress.value else o.destinationAddress;
            var weight := if c.weightGrams.Some? then c.weightGrams.value else o.weightGrams;
            UpdateDetails(o, c) ==
              if CaseFold(pickup) == CaseFold(destination) then Refused(SameAddress)
              else if !(1 <= weight <= 100_000) then Refused(BadWeight)
              else Ok(o.(pickupAddress := pickup, destinationAddress := destination, weightGrams := weight, version := o.version + 1))
  {
  }

  /** What the published messages hold. */
  lemma MessageFields(created: OrderCreated, changed: StatusChanged)
    ensures var m := CreatedMessage(created);
            && m.CreatedPayload? && m.schemaVersion == 1 && m.eventId == created.eventId && m.aggregateId == created.orderId
            && m.aggregateVersion == created.orderVersion && m.tenantId == created.tenantId
            && m.customerId == created.customerId && m.occurredAt == created.occurredAt
    ensures var m := ChangedMessage(changed);
            && m.ChangedPayload? && m.schemaVersion == 1 && m.eventId == changed.audit.eventId && m.aggregateId == changed.orderId
            && m.aggregateVersion == changed.orderVersion && m.tenantId == changed.tenantId
            && m.fromStatus == changed.fromStatus && m.toStatus == changed.toStatus
            && m.actorId == changed.audit.actorId && m.actorRole == changed.audit.actorRole
            && m.occurredAt == changed.audit.occurredAt && m.correlationId == changed.audit.correlationId
  {
  }

  // ----- payloads on the wire -----

  /** What a payload is published as: texts and numbers only. */
  datatype Wire =
    | CreatedWire(
        schemaVersion: int, eventId: string, eventType: string, aggregateId: string, aggregateVersion: int,
        tenantId: string, customerId: string, occurredAt: string)
    | ChangedWire(
        schemaVersion: int, eventId: string, eventType: string, aggregateId: string, aggregateVersion: int,
        tenantId: string, fromStatus: string, toStatus: string, actorId: string, actorRole: string,
        occurredAt: string, correlationId: string)

  function ToWire(p: Payload): Wire {
    match p
    case CreatedPayload(schema, event, aggregate, version, tenant, customer, at) =>
      CreatedWire(schema, UuidText(event), "order.created", UuidText(aggregate), version, UuidText(tenant),
                  UuidText(customer), IsoText(at))
    case ChangedPayload(schema, event, aggregate, version, tenant, from, to, actor, role, at, correlation) =>
      ChangedWire(schema, UuidText(event), "order.status_changed", UuidText(aggregate), version, UuidText(tenant),
                  StatusValue(from), StatusValue(to), UuidText(actor), role, IsoText(at), correlation)
  }

  /** A consumer reading it back; None when a text does not parse. */
  function FromWire(wire: Wire): Option<Payload> {
    var event, aggregate := ParseUuid(wire.eventId), ParseUuid(wire.aggregateId);
    var tenant, at := ParseUuid(wire.tenantId), ParseIso(wire.occurredAt);
    if event.None? || aggregate.None? || tenant.None? || at.None? then None
    else
      match wire
      case CreatedWire(schema, _, _, _, version, _, customerText, _) =>
        (match ParseUuid(customerText)
         case None => None
         case Some(customer) =>
           Some(CreatedPayload(schema, event.value, aggregate.value, version, tenant.value, customer, at.value)))
      case ChangedWire(schema, _, _, _, version, _, fromText, toText, actorText, role, _, correlation) =>
        var from, to, actor := ParseStatus(fromText), ParseStatus(toText), ParseUuid(actorText);
        if from.None? || to.None? || actor.None? then None
        else Some(ChangedPayload(schema, event.value, aggregate.value, version, tenant.value, from.value, to.value,
                                 actor.value, role, at.value, correlation))
  }

  /** Nothing is lost on the wire. */
  lemma WireRoundTrip(p: Payload)
    ensures FromWire(ToWire(p)) == Some(p)
  {
    if p.CreatedPayload? {
      CreatedRoundTrip(p);
    } else {
      ChangedRoundTrip(p);
    }
  }

  lemma CreatedRoundTrip(p: Payload)
    requires p.CreatedPayload?
    ensures FromWire(ToWire(p)) == Some(p)
  {
    UuidRoundTrip(p.eventId);
    UuidRoundTrip(p.aggregateId);
    UuidRoundTrip(p.tenantId);
    UuidRoundTrip(p.customerId);
    IsoRoundTrip(p.occurredAt);
  }

  lemma ChangedRoundTrip(p: Payload)
    requires p.ChangedPayload?
    ensures FromWire(ToWire(p)) == Some(p)
  {
    UuidRoundTrip(p.eventId);
    UuidRoundTrip(p.aggregateId);
    UuidRoundTrip(p.tenantId);
    UuidRoundTrip(p.actorId);
    IsoRoundTrip(p.occurredAt);
    StatusRoundTrip(p.fromStatus);
    StatusRoundTrip(p.toStatus);
  }

  /** So the published texts tell a status change apart from every other one. */
  lemma ChangedMessageInjective(a: StatusChanged, b: StatusChanged)
    ensures ToWire(ChangedMessage(a)) == ToWire(ChangedMessage(b)) <==> a == b
  {
    WireRoundTrip(ChangedMessage(a));
    WireRoundTrip(ChangedMessage(b));
  }

  // ----- the stored reply -----

  /** The response snapshot as it is stored: texts and numbers only. */
  datatype Snapshot = Snapshot(
    id: string, tenantId: string, customerId: string, pickupAddress: string, destinationAddress: string,
    weightGrams: int, status: string, courierId: Option<string>, version: int, createdAt: string)

  function ToSnapshot(o: Order): Snapshot {
    Snapshot(UuidText(o.id), UuidText(o.tenantId), UuidText(o.customerId), o.pickupAddress, o.destinationAddress,
             o.weightGrams, StatusValue(o.status),
             if o.courierId.Some? then Some(UuidText(o.courierId.value)) else None,
             o.version, IsoText(o.createdAt))
  }

  /** None where parsing fails; an empty courier text counts as absent. */
  function FromSnapshot(s: Snapshot): Option<Order> {
    var id, tenant, customer := ParseUuid(s.id), ParseUuid(s.tenantId), ParseUuid(s.customerId);
    var status, created := ParseStatus(s.status), ParseIso(s.createdAt);
    var hasCourier := s.courierId.Some? && s.courierId.value != "";
    var courier := if hasCourier then ParseUuid(s.courierId.value) else None;
    if id.Some? && tenant.Some? && customer.Some? && status.Some? && created.Some? && (hasCourier ==> courier.Some?)
    then Some(Order(id.value, tenant.value, customer.value, s.pickupAddress, s.destinationAddress, s.weightGrams,
                    status.value, courier, s.version, created.value))
    else None
  }

  /** The stored reply decodes back to the very order it was made from. */
  lemma SnapshotRoundTrip(o: Order)
    ensures FromSnapshot(ToSnapshot(o)) == Some(o)
  {
    UuidRoundTrip(o.id);
    UuidRoundTrip(o.tenantId);
    UuidRoundTrip(o.customerId);
    IsoRoundTrip(o.createdAt);
    StatusRoundTrip(o.status);
    if o.courierId.Some? {
      UuidRoundTrip(o.courierId.value);
    }
  }

  lemma StatusRoundTrip(s: OrderStatus)
    ensures ParseStatus(StatusValue(s)) == Some(s)
  {
  }
}
