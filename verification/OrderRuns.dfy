/** Every run of the order store with any number of clients: reads and saves of different clients
    interleave, creates and claims happen in one step.  The log of accepted writes is what the
    versions, the history and the outbox are measured against. */
module OrderRuns {
  import opened Basics
  import opened Domain
  import opened Ordering
  import opened OrderStore
  import opened Text
  import opened Traces

  type Client = nat

  /** One accepted write. */
  datatype Write =
    | Placed(after: Order, fact: OrderCreated, request: CreateRequest, scope: Option<string>)
    | Edited(before: Order, after: Order, changes: Changes)
    | Moved(before: Order, after: Order, event: StatusChanged)

  datatype World = World(store: Store, pending: map<Client, Prepared>, log: Trace<Write>)

  datatype Event =
    | Place(command: CreateCommand)
    | Read(client: Client, intent: Intent)
    | SaveRead(client: Client)
    | Claim(tenant: Uuid, courier: Uuid, audit: Audit, next: Option<Uuid>)

  /** Identifiers drawn for new orders are fresh; a client saves only what it has read; a claim
      looks at the first waiting order. */
  ghost predicate Proper(w: World, e: Event) {
    match e
    case Place(c) => c.orderId !in w.store.orders
    case Read(client, _) => client !in w.pending
    case SaveRead(client) => client in w.pending
    case Claim(tenant, _, _, next) => IsNext(w.store, tenant, next)
  }

  /** The command is neither a replay nor a conflict nor invalid: it creates its order. */
  predicate Creates(s: Store, c: CreateCommand) {
    (Scope(c).Some? ==> Scope(c).value !in s.idempotency) && ValidWeight(c.request.weightGrams)
  }

  function PlacedBy(c: CreateCommand): Write
    requires ValidWeight(c.request.weightGrams)
  {
    var o := NewOrder(c.orderId, c.tenantId, c.request, c.now).value;
    Placed(o, CreatedFact(c.eventId, o), c.request, Scope(c))
  }

  function SavedBy(p: Prepared): Write {
    if p.event.None? then Edited(p.current, p.updated, p.changes) else Moved(p.current, p.updated, p.event.value)
  }

  function ClaimedBy(s: Store, id: Uuid, courier: Uuid, audit: Audit): Write
    requires id in s.orders && s.orders[id].status.Created?
  {
    var after := Assign(s.orders[id], courier).value;
    Moved(s.orders[id], after, ChangedFact(s.orders[id], after, audit).value)
  }

  ghost function Step(w: World, e: Event): World
    requires Proper(w, e)
  {
    match e
    case Place(c) =>
      World(Create(w.store, c).0, w.pending, if Creates(w.store, c) then Then(w.log, PlacedBy(c)) else w.log)
    case Read(client, intent) =>
      (match Prepare(w.store, intent)
       case Refused(_) => w
       case Ok(p) => World(w.store, w.pending[client := p], w.log))
    case SaveRead(client) =>
      var p := w.pending[client];
      (match Commit(w.store, p)
       case Refused(_) => World(w.store, w.pending - {client}, w.log)
       case Ok(s) => World(s, w.pending - {client}, Then(w.log, SavedBy(p))))
    case Claim(tenant, courier, audit, next) =>
      if Busy(w.store, tenant, courier) || next.None? then w
      else World(TakeOrder(w.store, next.value, courier, audit), w.pending,
                 Then(w.log, ClaimedBy(w.store, next.value, courier, audit)))
  }

  ghost function Run(t: Trace<Event>): Option<World> {
    match t
    case Start => Some(World(EMPTY, map[], Start))
    case Then(before, e) =>
      var w := Run(before);
      if w.Some? && Proper(w.value, e) then Some(Step(w.value, e)) else None
  }

  // ----- what the log says about one order -----

  function Last(log: Trace<Write>, id: Uuid): Option<Order> {
    match log
    case Start => None
    case Then(before, write) => if write.after.id == id then Some(write.after) else Last(before, id)
  }

  predicate Wrote(log: Trace<Write>, o: Order) {
    log.Then? && (log.step.after == o || Wrote(log.before, o))
  }

  /** The write is a legal next version of what it replaces. */
  predicate Legal(write: Write, last: Option<Order>) {
    match write
    case Placed(after, fact, request, _) =>
      && last.None? && after.version == 1 && after.status.Created? && after.courierId.None?
      && after.customerId == request.customerId && after.pickupAddress == request.pickupAddress
      && after.destinationAddress == request.destinationAddress && after.weightGrams == request.weightGrams
      && 1 <= after.weightGrams <= 100_000
      && fact == CreatedFact(fact.eventId, after)
    case Edited(before, after, changes) =>
      && last == Some(before)
      && after == before.(
           pickupAddress := if changes.pickupAddress.Some? then changes.pickupAddress.value else before.pickupAddress,
           destinationAddress := if changes.destinationAddress.Some? then changes.destinationAddress.value else before.destinationAddress,
           weightGrams := if changes.weightGrams.Some? then changes.weightGrams.value else before.weightGrams,
           version := before.version + 1)
      && CaseFold(after.pickupAddress) != CaseFold(after.destinationAddress) && 1 <= after.weightGrams <= 100_000
    case Moved(before, after, event) =>
      && last == Some(before)
      && after == before.(status := after.status, courierId := after.courierId, version := before.version + 1)
      && Allows(before.status, after.status)
      && (after.courierId == before.courierId || (after.status.Assigned? && after.courierId.Some?))
      && event == StatusChanged(after.id, after.tenantId, before.status, after.status, after.version, event.audit)
  }

  predicate LogOk(log: Trace<Write>) {
    log.Then? ==> LogOk(log.before) && Legal(log.step, Last(log.before, log.step.after.id))
  }

  function Changes(log: Trace<Write>): seq<StatusChanged> {
    match log
    case Start => []
    case Then(before, write) => if write.Moved? then Changes(before) + [write.event] else Changes(before)
  }

  function Messages(log: Trace<Write>): seq<Payload> {
    match log
    case Start => []
    case Then(before, write) =>
      match write
      case Placed(_, fact, _, _) => Messages(before) + [CreatedMessage(fact)]
      case Edited(_, _, _) => Messages(before)
      case Moved(_, _, event) => Messages(before) + [ChangedMessage(event)]
  }

  predicate Stored(orders: map<Uuid, Order>, log: Trace<Write>, id: Uuid) {
    Last(log, id) == (if id in orders then Some(orders[id]) else None)
  }

  /** What a client holds was stored once, and its replacement is legal on top of it. */
  predicate Sound(log: Trace<Write>, p: Prepared) {
    Wrote(log, p.current) && Legal(SavedBy(p), Some(p.current))
  }

  ghost predicate Invariant(w: World) {
    && LogOk(w.log)
    && Keyed(w.store)
    && (forall id :: Stored(w.store.orders, w.log, id))
    && (forall c :: c in w.pending ==> Sound(w.log, w.pending[c]))
    && w.store.history == Changes(w.log)
    && w.store.outbox == Messages(w.log)
  }

  // ----- one version, one content -----

  /** A value once stored is no newer than the stored one, and equal to it if as new. */
  lemma {:induction false} WrittenIsOlderOrCurrent(log: Trace<Write>, o: Order)
    requires LogOk(log) && Wrote(log, o)
    ensures Last(log, o.id).Some? && o.version <= Last(log, o.id).value.version
    ensures o.version == Last(log, o.id).value.version ==> o == Last(log, o.id).value
  {
    if log.step.after != o {
      WrittenIsOlderOrCurrent(log.before, o);
    }
  }

  lemma {:induction false} LastIsWritten(log: Trace<Write>, id: Uuid)
    ensures Last(log, id).Some? ==> Wrote(log, Last(log, id).value) && Last(log, id).value.id == id
  {
    if log.Then? && log.step.after.id != id {
      LastIsWritten(log.before, id);
    }
  }

  /** A save goes through only on top of exactly the value that was read. */
  lemma SaveReplacesWhatWasRead(w: World, p: Prepared)
    requires Invariant(w) && Sound(w.log, p) && Commit(w.store, p).Ok?
    ensures p.current.id in w.store.orders && w.store.orders[p.current.id] == p.current
    ensures p.updated.id == p.current.id
    ensures Commit(w.store, p).value.orders == w.store.orders[p.current.id := p.updated]
  {
    WrittenIsOlderOrCurrent(w.log, p.current);
    assert Stored(w.store.orders, w.log, p.current.id);
  }

  // ----- the invariant, step by step -----

  lemma PlaceKeepsInvariant(w: World, c: CreateCommand)
    requires Invariant(w) && Proper(w, Place(c))
    ensures Invariant(Step(w, Place(c)))
  {
    if Creates(w.store, c) {
      var w' := Step(w, Place(c));
      assert Stored(w.store.orders, w.log, c.orderId);
      forall id ensures Stored(w'.store.orders, w'.log, id) { assert Stored(w.store.orders, w.log, id); }
    }
  }

  lemma PreparedIsSound(w: World, intent: Intent)
    requires Invariant(w) && Prepare(w.store, intent).Ok?
    ensures Sound(w.log, Prepare(w.store, intent).value)
  {
    assert Stored(w.store.orders, w.log, intent.orderId);
    LastIsWritten(w.log, intent.orderId);
  }

  lemma SaveKeepsInvariant(w: World, client: Client)
    requires Invariant(w) && Proper(w, SaveRead(client))
    ensures Invariant(Step(w, SaveRead(client)))
  {
    var p := w.pending[client];
    if Commit(w.store, p).Ok? {
      var s := Commit(w.store, p).value;
      var log := Then(w.log, SavedBy(p));
      SaveReplacesWhatWasRead(w, p);
      SaveExtendsLogs(w, p);
      assert Stored(w.store.orders, w.log, p.current.id);
      forall id ensures Stored(s.orders, log, id) { assert Stored(w.store.orders, w.log, id); }
      assert Step(w, SaveRead(client)) == World(s, w.pending - {client}, log);
    }
  }

  lemma SaveExtendsLogs(w: World, p: Prepared)
    requires Commit(w.store, p).Ok?
    requires w.store.history == Changes(w.log) && w.store.outbox == Messages(w.log)
    ensures Commit(w.store, p).value.history == Changes(Then(w.log, SavedBy(p)))
    ensures Commit(w.store, p).value.outbox == Messages(Then(w.log, SavedBy(p)))
  {
  }

  lemma ClaimKeepsInvariant(w: World, tenant: Uuid, courier: Uuid, audit: Audit, next: Option<Uuid>)
    requires Invariant(w) && Proper(w, Claim(tenant, courier, audit, next))
    ensures Invariant(Step(w, Claim(tenant, courier, audit, next)))
  {
    if !Busy(w.store, tenant, courier) && next.Some? {
      var w' := Step(w, Claim(tenant, courier, audit, next));
      assert Stored(w.store.orders, w.log, next.value);
      forall id ensures Stored(w'.store.orders, w'.log, id) { assert Stored(w.store.orders, w.log, id); }
    }
  }

  lemma StepKeepsInvariant(w: World, e: Event)
    requires Invariant(w) && Proper(w, e)
    ensures Invariant(Step(w, e))
  {
    match e
    case Place(c) => PlaceKeepsInvariant(w, c);
    case Read(_, intent) => if Prepare(w.store, intent).Ok? { PreparedIsSound(w, intent); }
    case SaveRead(client) => SaveKeepsInvariant(w, client);
    case Claim(tenant, courier, audit, next) => ClaimKeepsInvariant(w, tenant, courier, audit, next);
  }

  lemma {:induction false} RunKeepsInvariant(t: Trace<Event>)
    requires Run(t).Some?
    ensures Invariant(Run(t).value)
  {
    if t.Then? {
      RunKeepsInvariant(t.before);
      StepKeepsInvariant(Run(t.before).value, t.step);
    }
  }

  // ----- no lost update -----

  /** In every run, a save that goes through replaces exactly the value its client read, however
      many other clients saved meanwhile; a save that is refused changes nothing. */
  lemma NoLostUpdate(t: Trace<Event>, client: Client)
    requires Run(t).Some? && client in Run(t).value.pending
    ensures var w := Run(t).value;
            var p := w.pending[client];
            var w' := Step(w, SaveRead(client));
            if Commit(w.store, p).Ok? then
              && p.current.id in w.store.orders && w.store.orders[p.current.id] == p.current
              && w'.store.orders == w.store.orders[p.current.id := p.updated]
            else w'.store == w.store
  {
    RunKeepsInvariant(t);
    var w := Run(t).value;
    if Commit(w.store, w.pending[client]).Ok? {
      SaveReplacesWhatWasRead(w, w.pending[client]);
    }
  }

  /** How often the log wrote version `v` of the order. */
  function WritesAt(log: Trace<Write>, id: Uuid, v: int): nat {
    match log
    case Start => 0
    case Then(before, write) =>
      WritesAt(before, id, v) + (if write.after.id == id && write.after.version == v then 1 else 0)
  }

  /** Versions run 1, 2, 3, ... without gaps or repeats: each version up to the stored one was
      written exactly once, and none beyond it. */
  lemma EachVersionWrittenOnce(t: Trace<Event>, id: Uuid, v: int)
    requires Run(t).Some?
    ensures var w := Run(t).value;
            WritesAt(w.log, id, v) ==
            if id in w.store.orders && 1 <= v <= w.store.orders[id].version then 1 else 0
  {
    RunKeepsInvariant(t);
    assert Stored(Run(t).value.store.orders, Run(t).value.log, id);
    LogVersions(Run(t).value.log, id, v);
  }

  lemma {:induction false} LogVersions(log: Trace<Write>, id: Uuid, v: int)
    requires LogOk(log)
    ensures WritesAt(log, id, v) == if Last(log, id).Some? && 1 <= v <= Last(log, id).value.version then 1 else 0
    ensures Last(log, id).Some? ==> Last(log, id).value.version >= 1
  {
    if log.Then? {
      LogVersions(log.before, id, v);
    }
  }

  // ----- history replays to state -----

  function MovesOf(log: Trace<Write>, id: Uuid): nat {
    match log
    case Start => 0
    case Then(before, write) => MovesOf(before, id) + (if write.Moved? && write.after.id == id then 1 else 0)
  }

  function EditsOf(log: Trace<Write>, id: Uuid): nat {
    match log
    case Start => 0
    case Then(before, write) => EditsOf(before, id) + (if write.Edited? && write.after.id == id then 1 else 0)
  }

  /** Where following the order's entries among the first `n` leads; None if one does not follow. */
  function Replay(history: seq<StatusChanged>, n: nat, id: Uuid): Option<OrderStatus>
    requires n <= |history|
  {
    if n == 0 then Some(Created)
    else
      var before, e := Replay(history, n - 1, id), history[n - 1];
      if e.orderId != id then before
      else if before == Some(e.fromStatus) && Allows(e.fromStatus, e.toStatus) then Some(e.toStatus)
      else None
  }

  function EntriesOf(history: seq<StatusChanged>, n: nat, id: Uuid): nat
    requires n <= |history|
  {
    if n == 0 then 0 else EntriesOf(history, n - 1, id) + (if history[n - 1].orderId == id then 1 else 0)
  }

  /** The version of the order's latest entry among the first `n`, and 1 before any. */
  function LatestVersion(history: seq<StatusChanged>, n: nat, id: Uuid): int
    requires n <= |history|
  {
    if n == 0 then 1
    else if history[n - 1].orderId == id then history[n - 1].orderVersion
    else LatestVersion(history, n - 1, id)
  }

  predicate VersionsRise(history: seq<StatusChanged>, n: nat, id: Uuid)
    requires n <= |history|
  {
    n == 0 ||
    (VersionsRise(history, n - 1, id) &&
     (history[n - 1].orderId == id ==> history[n - 1].orderVersion > LatestVersion(history, n - 1, id)))
  }

  /** Appending an entry does not change what the earlier ones say. */
  lemma {:induction false} EarlierEntriesStand(h: seq<StatusChanged>, e: StatusChanged, n: nat, id: Uuid)
    requires n <= |h|
    ensures Replay(h + [e], n, id) == Replay(h, n, id)
    ensures EntriesOf(h + [e], n, id) == EntriesOf(h, n, id)
    ensures LatestVersion(h + [e], n, id) == LatestVersion(h, n, id)
    ensures VersionsRise(h + [e], n, id) <==> VersionsRise(h, n, id)
  {
    if n > 0 {
      EarlierEntriesStand(h, e, n - 1, id);
    }
  }

  /** Steps a status is away from `created`. */
  function Depth(s: OrderStatus): nat {
    match s
    case Created => 0
    case Assigned => 1
    case PickedUp => 2
    case Delivered => 3
    case Cancelled => 3
  }

  /** In every run the history of an order is a path of allowed edges from `created` to its
      status, with strictly rising versions above 1 and up to the stored one, at most three
      entries; and the version counts accepted moves and edits. */
  lemma HistoryReplaysToState(t: Trace<Event>, id: Uuid)
    requires Run(t).Some? && id in Run(t).value.store.orders
    ensures var w := Run(t).value;
            var o, h := w.store.orders[id], w.store.history;
            && Replay(h, |h|, id) == Some(o.status)
            && VersionsRise(h, |h|, id) && LatestVersion(h, |h|, id) <= o.version
            && EntriesOf(h, |h|, id) == MovesOf(w.log, id) <= 3
            && o.version == 1 + MovesOf(w.log, id) + EditsOf(w.log, id)
  {
    RunKeepsInvariant(t);
    assert Stored(Run(t).value.store.orders, Run(t).value.log, id);
    LogReplays(Run(t).value.log, id);
    LogCounts(Run(t).value.log, id);
  }

  lemma {:induction false} LogReplays(log: Trace<Write>, id: Uuid)
    requires LogOk(log)
    ensures var h, last := Changes(log), Last(log, id);
            && Replay(h, |h|, id) == Some(if last.Some? then last.value.status else Created)
            && VersionsRise(h, |h|, id)
            && (if last.Some? then LatestVersion(h, |h|, id) <= last.value.version else LatestVersion(h, |h|, id) == 1)
  {
    if log.Then? {
      LogReplays(log.before, id);
      if log.step.Moved? {
        EarlierEntriesStand(Changes(log.before), log.step.event, |Changes(log.before)|, id);
      } else if log.step.Placed? && log.step.after.id == id {
        NoEntryYet(log.before, id);
      }
    }
  }

  lemma {:induction false} NoEntryYet(log: Trace<Write>, id: Uuid)
    requires LogOk(log) && Last(log, id).None?
    ensures LatestVersion(Changes(log), |Changes(log)|, id) == 1
  {
    if log.Then? {
      NoEntryYet(log.before, id);
      if log.step.Moved? {
        EarlierEntriesStand(Changes(log.before), log.step.event, |Changes(log.before)|, id);
      }
    }
  }

  lemma {:induction false} LogCounts(log: Trace<Write>, id: Uuid)
    requires LogOk(log)
    ensures var last := Last(log, id);
            && EntriesOf(Changes(log), |Changes(log)|, id) == MovesOf(log, id)
            && (if last.Some? then
                  && MovesOf(log, id) <= Depth(last.value.status)
                  && last.value.version == 1 + MovesOf(log, id) + EditsOf(log, id)
                else MovesOf(log, id) == 0 && EditsOf(log, id) == 0)
  {
    if log.Then? {
      LogCounts(log.before, id);
      if log.step.Moved? {
        EarlierEntriesStand(Changes(log.before), log.step.event, |Changes(log.before)|, id);
      }
    }
  }

  // ----- the outbox mirrors the store -----

  /** The status messages among the first `n` of the outbox, in order. */
  function StatusMessages(outbox: seq<Payload>, n: nat): seq<Payload>
    requires n <= |outbox|
  {
    if n == 0 then []
    else StatusMessages(outbox, n - 1) + (if outbox[n - 1].ChangedPayload? then [outbox[n - 1]] else [])
  }

  /** The messages of the first `n` history entries. */
  function MessagesOf(history: seq<StatusChanged>, n: nat): seq<Payload>
    requires n <= |history|
  {
    if n == 0 then [] else MessagesOf(history, n - 1) + [ChangedMessage(history[n - 1])]
  }

  function CreatedMessagesFor(outbox: seq<Payload>, n: nat, id: Uuid): nat
    requires n <= |outbox|
  {
    if n == 0 then 0
    else
      CreatedMessagesFor(outbox, n - 1, id) +
      (if outbox[n - 1].CreatedPayload? && outbox[n - 1].aggregateId == id then 1 else 0)
  }

  lemma {:induction false} EarlierMessagesStand(m: seq<Payload>, p: Payload, n: nat, id: Uuid)
    requires n <= |m|
    ensures StatusMessages(m + [p], n) == StatusMessages(m, n)
    ensures CreatedMessagesFor(m + [p], n, id) == CreatedMessagesFor(m, n, id)
  {
    if n > 0 {
      EarlierMessagesStand(m, p, n - 1, id);
    }
  }

  lemma {:induction false} EarlierFactsStand(h: seq<StatusChanged>, e: StatusChanged, n: nat)
    requires n <= |h|
    ensures MessagesOf(h + [e], n) == MessagesOf(h, n)
  {
    if n > 0 {
      EarlierFactsStand(h, e, n - 1);
    }
  }

  /** In every run the status messages of the outbox are, in order, the messages of the history;
      each stored order has exactly one created message; and nothing else is in the outbox. */
  lemma {:induction false} OutboxMirrorsStore(t: Trace<Event>, id: Uuid)
    requires Run(t).Some?
    ensures var s := Run(t).value.store;
            && StatusMessages(s.outbox, |s.outbox|) == MessagesOf(s.history, |s.history|)
            && CreatedMessagesFor(s.outbox, |s.outbox|, id) == (if id in s.orders then 1 else 0)
            && |s.outbox| == |s.orders| + |s.history|
  {
    RunKeepsInvariant(t);
    assert Stored(Run(t).value.store.orders, Run(t).value.log, id);
    LogMirrors(Run(t).value.log, id);
    OutboxCounts(t);
  }

  lemma LogMirrors(log: Trace<Write>, id: Uuid)
    requires LogOk(log)
    ensures StatusMessages(Messages(log), |Messages(log)|) == MessagesOf(Changes(log), |Changes(log)|)
    ensures CreatedMessagesFor(Messages(log), |Messages(log)|, id) == if Last(log, id).Some? then 1 else 0
  {
    StatusMessagesMirror(log);
    CreatedOncePerOrder(log, id);
  }

  lemma {:induction false} StatusMessagesMirror(log: Trace<Write>)
    ensures StatusMessages(Messages(log), |Messages(log)|) == MessagesOf(Changes(log), |Changes(log)|)
  {
    if log.Then? {
      StatusMessagesMirror(log.before);
      var m, h := Messages(log.before), Changes(log.before);
      match log.step
      case Placed(_, fact, _, _) => NextMessage(m, CreatedMessage(fact));
      case Edited(_, _, _) =>
      case Moved(_, _, event) =>
        NextMessage(m, ChangedMessage(event));
        NextFact(h, event);
    }
  }

  lemma NextMessage(m: seq<Payload>, p: Payload)
    ensures StatusMessages(m + [p], |m| + 1) == StatusMessages(m, |m|) + if p.ChangedPayload? then [p] else []
  {
    EarlierMessagesStand(m, p, |m|, 0);
  }

  lemma NextFact(h: seq<StatusChanged>, e: StatusChanged)
    ensures MessagesOf(h + [e], |h| + 1) == MessagesOf(h, |h|) + [ChangedMessage(e)]
  {
    EarlierFactsStand(h, e, |h|);
  }

  lemma {:induction false} CreatedOncePerOrder(log: Trace<Write>, id: Uuid)
    requires LogOk(log)
    ensures CreatedMessagesFor(Messages(log), |Messages(log)|, id) == if Last(log, id).Some? then 1 else 0
  {
    if log.Then? {
      CreatedOncePerOrder(log.before, id);
      var m := Messages(log.before);
      match log.step
      case Placed(_, fact, _, _) => CreatedCounts(m, fact, id);
      case Edited(_, _, _) =>
      case Moved(_, _, event) => EarlierMessagesStand(m, ChangedMessage(event), |m|, id);
    }
  }

  lemma CreatedCounts(m: seq<Payload>, fact: OrderCreated, id: Uuid)
    ensures CreatedMessagesFor(m + [CreatedMessage(fact)], |m| + 1, id) ==
            CreatedMessagesFor(m, |m|, id) + if fact.orderId == id then 1 else 0
  {
    EarlierMessagesStand(m, CreatedMessage(fact), |m|, id);
  }

  lemma {:induction false} OutboxCounts(t: Trace<Event>)
    requires Run(t).Some?
    ensures var s := Run(t).value.store; |s.outbox| == |s.orders| + |s.history|
  {
    if t.Then? {
      OutboxCounts(t.before);
      RunKeepsInvariant(t.before);
      StepCounts(Run(t.before).value, t.step);
    }
  }

  lemma StepCounts(w: World, e: Event)
    requires Invariant(w) && Proper(w, e)
    ensures var s, s' := w.store, Step(w, e).store;
            |s'.outbox| - |s.outbox| == |s'.orders| - |s.orders| + |s'.history| - |s.history|
  {
    if e.SaveRead? && Commit(w.store, w.pending[e.client]).Ok? {
      SaveReplacesWhatWasRead(w, w.pending[e.client]);
    }
  }

  // ----- where the details come from -----

  /** The last pickup address, destination and weight anyone accepted for the order: the request's,
      unless a later update gave another. */
  function LatestPickup(log: Trace<Write>, id: Uuid): Option<string> {
    match log
    case Start => None
    case Then(before, write) =>
      if write.after.id == id && write.Placed? then Some(write.request.pickupAddress)
      else if write.after.id == id && write.Edited? && write.changes.pickupAddress.Some? then write.changes.pickupAddress
      else LatestPickup(before, id)
  }

  function LatestDestination(log: Trace<Write>, id: Uuid): Option<string> {
    match log
    case Start => None
    case Then(before, write) =>
      if write.after.id == id && write.Placed? then Some(write.request.destinationAddress)
      else if write.after.id == id && write.Edited? && write.changes.destinationAddress.Some? then write.changes.destinationAddress
      else LatestDestination(before, id)
  }

  function LatestWeight(log: Trace<Write>, id: Uuid): Option<int> {
    match log
    case Start => None
    case Then(before, write) =>
      if write.after.id == id && write.Placed? then Some(write.request.weightGrams)
      else if write.after.id == id && write.Edited? && write.changes.weightGrams.Some? then write.changes.weightGrams
      else LatestWeight(before, id)
  }

  /** In every run a stored order carries exactly those details, and its weight is within bounds. */
  lemma DetailsAreTheLatestGiven(t: Trace<Event>, id: Uuid)
    requires Run(t).Some? && id in Run(t).value.store.orders
    ensures var w := Run(t).value; var o := w.store.orders[id];
            && Some(o.pickupAddress) == LatestPickup(w.log, id)
            && Some(o.destinationAddress) == LatestDestination(w.log, id)
            && Some(o.weightGrams) == LatestWeight(w.log, id) && 1 <= o.weightGrams <= 100_000
  {
    RunKeepsInvariant(t);
    assert Stored(Run(t).value.store.orders, Run(t).value.log, id);
    LogDetails(Run(t).value.log, id);
  }

  lemma {:induction false} LogDetails(log: Trace<Write>, id: Uuid)
    requires LogOk(log) && Last(log, id).Some?
    ensures var o := Last(log, id).value;
            && Some(o.pickupAddress) == LatestPickup(log, id)
            && Some(o.destinationAddress) == LatestDestination(log, id)
            && Some(o.weightGrams) == LatestWeight(log, id) && 1 <= o.weightGrams <= 100_000
  {
    if log.step.after.id != id || !log.step.Placed? {
      LogDetails(log.before, id);
    }
  }

  // ----- whole commands are runs -----

  /** A command with nobody in between is its reading step and, unless that refused, its saving
      step.  Refused, it leaves the store and the log alone; otherwise it logs one write. */
  lemma CommandIsARun(t: Trace<Event>, client: Client, intent: Intent)
    requires Run(t).Some? && client !in Run(t).value.pending
    ensures var w := Run(t).value;
            var read, prepared := Then(t, Read(client, intent)), Prepare(w.store, intent);
            var done := Run(if prepared.Ok? then Then(read, SaveRead(client)) else read);
            var (s, r) := Execute(w.store, intent);
            && done.Some? && done.value.store == s && done.value.pending == w.pending
            && (r.Ok? <==> prepared.Ok?)
            && done.value.log == if r.Ok? then Then(w.log, SavedBy(prepared.value)) else w.log
  {
    var w := Run(t).value;
    var prepared := Prepare(w.store, intent);
    if prepared.Ok? {
      UndisturbedCommandSucceeds(t, intent);
      assert w.pending[client := prepared.value] - {client} == w.pending;
    }
  }

  lemma NextIsUnique(s: Store, tenant: Uuid, a: Option<Uuid>, b: Option<Uuid>)
    requires IsNext(s, tenant, a) && IsNext(s, tenant, b)
    ensures a == b
  {
    if a.Some? {
      assert Key(Rank(s.orders[a.value].createdAt), a.value) in Waiting(s, tenant);
    }
    if b.Some? {
      assert Key(Rank(s.orders[b.value].createdAt), b.value) in Waiting(s, tenant);
    }
  }

  /** What the repository's claim answers and leaves is the one claiming step possible there. */
  lemma ClaimIsARun(t: Trace<Event>, tenant: Uuid, courier: Uuid, audit: Audit, r: Result<Option<Order>>, after: Store)
    requires Run(t).Some? && ClaimedAs(Run(t).value.store, tenant, courier, audit, r, after)
    ensures exists next :: Run(Then(t, Claim(tenant, courier, audit, next))).Some?
    ensures forall next :: Run(Then(t, Claim(tenant, courier, audit, next))).Some? ==>
              && Run(Then(t, Claim(tenant, courier, audit, next))).value.store == after
              && (r.Ok? && r.value.Some? ==> next == Some(r.value.value.id))
  {
    var s := Run(t).value.store;
    var first := SomeNext(s, tenant);
    assert Run(Then(t, Claim(tenant, courier, audit, first))).Some?;
    forall next | IsNext(s, tenant, next) ensures next == first {
      NextIsUnique(s, tenant, next, first);
    }
  }

  lemma SomeNext(s: Store, tenant: Uuid) returns (next: Option<Uuid>)
    ensures IsNext(s, tenant, next)
  {
    if Waiting(s, tenant) == {} {
      next := None;
    } else {
      var least := LeastExists(Waiting(s, tenant));
      next := Some(least.id);
    }
  }

  /** With no other client in between, a command is refused only by its reading half. */
  lemma UndisturbedCommandSucceeds(t: Trace<Event>, intent: Intent)
    requires Run(t).Some? && Prepare(Run(t).value.store, intent).Ok?
    ensures var s := Run(t).value.store;
            Execute(s, intent).1 == Ok(Prepare(s, intent).value.updated)
  {
    RunKeepsInvariant(t);
  }
}
