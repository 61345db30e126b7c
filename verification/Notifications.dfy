/** The idempotent notification dispatcher of src/delivery_service/notifications.py: at-least-once
    delivery with crashes at any point, including after the provider accepted. */
module Notifications {
  import opened Basics
  import opened Text
  import opened Traces

  const ORDER_CREATED := "order.created"

  datatype Status = Pending | Skipped | Sent

  datatype Notification = Notification(
    eventId: Uuid,
    orderId: Uuid,
    message: string,
    channel: string,
    status: Status,
    providerMessageId: Option<string>,
    sentAt: Option<int>)

  /** The payload fields the dispatcher reads, each of which may be missing. */
  datatype Payload = Payload(
    aggregateId: Option<string>,
    orderId: Option<string>,
    tenantId: Option<string>,
    customerId: Option<string>)

  datatype Delivery = Delivery(eventId: Uuid, eventType: string, payload: Payload, channel: string, now: int)

  datatype Subject = Subject(orderId: Uuid, tenantId: Uuid, customerId: Uuid)

  /** Who a preference is about. */
  datatype Recipient = Recipient(tenantId: Uuid, userId: Uuid, channel: string)

  function ParsedField(text: Option<string>): Option<Uuid> {
    if text.Some? then ParseUuid(text.value) else None
  }

  /** The aggregate id if it is a non-empty text, else the order id. */
  function ReadSubject(p: Payload): Option<Subject> {
    var order := ParsedField(if p.aggregateId.Some? && p.aggregateId.value != "" then p.aggregateId else p.orderId);
    var tenant, customer := ParsedField(p.tenantId), ParsedField(p.customerId);
    if order.Some? && tenant.Some? && customer.Some?
    then Some(Subject(order.value, tenant.value, customer.value))
    else None
  }

  function NewRow(d: Delivery, subject: Subject, enabled: bool): Notification {
    Notification(d.eventId, subject.orderId, "Order " + UuidText(subject.orderId) + " was created", d.channel,
                 if enabled then Pending else Skipped, None, None)
  }

  function SentRow(row: Notification, receipt: string, now: int): Notification {
    row.(status := Sent, providerMessageId := Some(receipt), sentAt := Some(now))
  }

  function Enabled(preferences: map<Recipient, bool>, d: Delivery, subject: Subject): bool {
    var r := Recipient(subject.tenantId, subject.customerId, d.channel);
    r !in preferences || preferences[r]
  }

  // ----- the provider honouring an idempotency key -----

  /** The receipt a key has, or the one it gets. */
  function ReceiptFor(receipts: map<string, string>, key: string): string {
    if key in receipts then receipts[key] else "local-" + key
  }

  class Provider {
    var receipts: map<string, string>
    var attempts: seq<string>

    constructor ()
      ensures receipts == map[] && attempts == []
    {
      receipts, attempts := map[], [];
    }

    /** Every attempt is logged; only the first attempt of a key creates a receipt. */
    method Send(key: string) returns (receipt: string)
      modifies this
      ensures attempts == old(attempts) + [key]
      ensures receipt == ReceiptFor(old(receipts), key) && receipts == old(receipts)[key := receipt]
      ensures forall k :: k in old(receipts) ==> k in receipts && receipts[k] == old(receipts)[k]
      ensures key !in old(receipts) ==> receipt == "local-" + key
    {
      attempts := attempts + [key];
      if key !in receipts {
        receipts := receipts[key := "local-" + key];
      }
      receipt := receipts[key];
    }
  }

  // ----- one dispatch inside one transaction -----

  datatype Outcome = Applied | AlreadyDone | Unsupported | Malformed

  /** The text that names the order: the aggregate id unless it is missing or empty. */
  ghost predicate NamesOrder(p: Payload, text: string) {
    if p.aggregateId.Some? && p.aggregateId.value != "" then text == p.aggregateId.value
    else p.orderId == Some(text)
  }

  /** The tenant, the customer and the order can all be read. */
  ghost predicate Readable(p: Payload) {
    && p.tenantId.Some? && ParseUuid(p.tenantId.value).Some?
    && p.customerId.Some? && ParseUuid(p.customerId.value).Some?
    && exists text :: NamesOrder(p, text) && ParseUuid(text).Some?
  }

  /** A preference is stored for exactly this tenant, customer and channel, and it says no. */
  ghost predicate OptedOut(preferences: map<Recipient, bool>, d: Delivery) {
    && d.payload.tenantId.Some? && d.payload.customerId.Some?
    && exists who :: who in preferences && !preferences[who] && who.channel == d.channel
         && ParseUuid(d.payload.tenantId.value) == Some(who.tenantId)
         && ParseUuid(d.payload.customerId.value) == Some(who.userId)
  }

  /** The row is about this event, its order and its channel. */
  ghost predicate DescribesDelivery(row: Notification, d: Delivery) {
    && row.eventId == d.eventId && row.channel == d.channel
    && row.message == "Order " + UuidText(row.orderId) + " was created"
    && exists text :: NamesOrder(d.payload, text) && ParseUuid(text) == Some(row.orderId)
  }

  lemma ReadableIff(p: Payload)
    ensures Readable(p) <==> ReadSubject(p).Some?
    ensures ReadSubject(p).Some? ==>
              && p.tenantId.Some? && ParseUuid(p.tenantId.value) == Some(ReadSubject(p).value.tenantId)
              && p.customerId.Some? && ParseUuid(p.customerId.value) == Some(ReadSubject(p).value.customerId)
              && exists text :: NamesOrder(p, text) && ParseUuid(text) == Some(ReadSubject(p).value.orderId)
  {
    if p.aggregateId.Some? && p.aggregateId.value != "" {
      assert NamesOrder(p, p.aggregateId.value);
    } else if p.orderId.Some? {
      assert NamesOrder(p, p.orderId.value);
    }
  }

  lemma OptedOutIff(preferences: map<Recipient, bool>, d: Delivery)
    requires ReadSubject(d.payload).Some?
    ensures OptedOut(preferences, d) <==> !Enabled(preferences, d, ReadSubject(d.payload).value)
  {
    ReadableIff(d.payload);
    var subject := ReadSubject(d.payload).value;
    var who := Recipient(subject.tenantId, subject.customerId, d.channel);
    assert forall x: Recipient :: x.tenantId == who.tenantId && x.userId == who.userId && x.channel == who.channel ==> x == who;
  }

  class Session {
    var inbox: map<Uuid, string>
    var notifications: seq<Notification>
    var preferences: map<Recipient, bool>

    /** Claim, record and send; nothing changes unless the claim is new. */
    method DispatchOnce(provider: Provider, d: Delivery) returns (outcome: Outcome)
      modifies this, provider
      ensures preferences == old(preferences)
      ensures outcome.Unsupported? <==> d.eventType != ORDER_CREATED
      ensures outcome.Malformed? <==> d.eventType == ORDER_CREATED && ReadSubject(d.payload).None?
      ensures outcome.AlreadyDone? <==>
                d.eventType == ORDER_CREATED && ReadSubject(d.payload).Some? && d.eventId in old(inbox)
      ensures !outcome.Applied? ==>
                && inbox == old(inbox) && notifications == old(notifications)
                && provider.receipts == old(provider.receipts) && provider.attempts == old(provider.attempts)
      ensures outcome.Applied? ==>
                var subject := ReadSubject(d.payload).value;
                var enabled := Enabled(old(preferences), d, subject);
                var row := NewRow(d, subject, enabled);
                var key := UuidText(d.eventId);
                var receipt := ReceiptFor(old(provider.receipts), key);
                && inbox == old(inbox)[d.eventId := ORDER_CREATED]
                && notifications == old(notifications) + [if enabled then SentRow(row, receipt, d.now) else row]
                && provider.attempts == old(provider.attempts) + (if enabled then [key] else [])
                && provider.receipts == if enabled then old(provider.receipts)[key := receipt] else old(provider.receipts)
      ensures outcome.Applied? || outcome.AlreadyDone? <==> d.eventType == "order.created" && Readable(d.payload)
      ensures outcome.Applied? ==>
                && d.eventId !in old(inbox) && inbox == old(inbox)[d.eventId := "order.created"]
                && |notifications| == |old(notifications)| + 1 && notifications[..|old(notifications)|] == old(notifications)
                && var row := notifications[|old(notifications)|];
                   && DescribesDelivery(row, d)
                   && (row.status == Skipped <==> OptedOut(old(preferences), d))
                   && (row.status == Skipped ==>
                         && row.providerMessageId.None? && row.sentAt.None?
                         && provider.attempts == old(provider.attempts) && provider.receipts == old(provider.receipts))
                   && (row.status != Skipped ==>
                         && row.status == Sent && row.sentAt == Some(d.now)
                         && provider.attempts == old(provider.attempts) + [UuidText(d.eventId)]
                         && UuidText(d.eventId) in provider.receipts
                         && row.providerMessageId == Some(provider.receipts[UuidText(d.eventId)]))
    {
      if d.eventType != ORDER_CREATED {
        return Unsupported;
      }
      ReadableIff(d.payload);
      var parsed := ReadSubject(d.payload);
      if parsed.None? {
        return Malformed;
      }
      if d.eventId in inbox {
        return AlreadyDone;
      }
      OptedOutIff(preferences, d);
      inbox := inbox[d.eventId := d.eventType];
      var recipient := Recipient(parsed.value.tenantId, parsed.value.customerId, d.channel);
      var enabled := recipient !in preferences || preferences[recipient];
      var row := NewRow(d, parsed.value, enabled);
      notifications := notifications + [row];
      if !enabled {
        return Applied;
      }
      var receipt := provider.Send(UuidText(d.eventId));
      notifications := notifications[|notifications| - 1 := SentRow(row, receipt, d.now)];
      return Applied;
    }
  }

  // ----- redeliveries, crashes and concurrent workers -----

  type Tx = nat

  datatype Stage = Claimed | Recorded(row: Notification) | Accepted(row: Notification, receipt: string) | Marked(row: Notification)

  datatype Work = Work(eventId: Uuid, now: int, stage: Stage)

  /** Committed tables, uncommitted claims with their owners, and the provider, which no
      rollback reaches. */
  datatype World = World(
    inbox: map<Uuid, string>,
    rows: Trace<Notification>,
    claims: map<Uuid, Tx>,
    open: map<Tx, Work>,
    receipts: map<string, string>)

  /** `Redeliver` is a well-formed `order.created` delivery; `Record` writes the new row, whichever
      way the preference lookup went; `OtherClaim` is another consumer of the same inbox. */
  datatype Event =
    | Redeliver(tx: Tx, eventId: Uuid, now: int)
    | Record(tx: Tx, row: Notification)
    | Send(tx: Tx)
    | MarkSent(tx: Tx)
    | Commit(tx: Tx)
    | Rollback(tx: Tx)
    | OtherClaim(eventId: Uuid, eventType: string)

  predicate Done(stage: Stage) {
    stage.Marked? || (stage.Recorded? && stage.row.status.Skipped?)
  }

  /** An insert of an id that another open transaction has claimed waits, so it is not a step.
      A transaction commits only when the dispatcher has returned. */
  predicate Proper(w: World, e: Event) {
    match e
    case Redeliver(tx, id, _) => tx !in w.open && id !in w.claims
    case Record(tx, row) =>
      tx in w.open && w.open[tx].stage.Claimed? && row.eventId == w.open[tx].eventId && !row.status.Sent?
    case Send(tx) => tx in w.open && w.open[tx].stage.Recorded? && w.open[tx].stage.row.status.Pending?
    case MarkSent(tx) => tx in w.open && w.open[tx].stage.Accepted?
    case Commit(tx) => tx in w.open && Done(w.open[tx].stage)
    case Rollback(tx) => tx in w.open
    case OtherClaim(id, eventType) => id !in w.claims && eventType != ORDER_CREATED
  }

  function Advance(w: World, tx: Tx, stage: Stage): map<Tx, Work>
    requires tx in w.open
  {
    w.open[tx := Work(w.open[tx].eventId, w.open[tx].now, stage)]
  }

  function Step(w: World, e: Event): World
    requires Proper(w, e)
  {
    match e
    case Redeliver(tx, id, now) =>
      if id in w.inbox then w
      else World(w.inbox, w.rows, w.claims[id := tx], w.open[tx := Work(id, now, Claimed)], w.receipts)
    case Record(tx, row) => World(w.inbox, w.rows, w.claims, Advance(w, tx, Recorded(row)), w.receipts)
    case Send(tx) =>
      var key := UuidText(w.open[tx].eventId);
      var receipt := ReceiptFor(w.receipts, key);
      World(w.inbox, w.rows, w.claims, Advance(w, tx, Accepted(w.open[tx].stage.row, receipt)), w.receipts[key := receipt])
    case MarkSent(tx) =>
      var stage := w.open[tx].stage;
      World(w.inbox, w.rows, w.claims,
            Advance(w, tx, Marked(SentRow(stage.row, stage.receipt, w.open[tx].now))), w.receipts)
    case Commit(tx) =>
      var work := w.open[tx];
      World(w.inbox[work.eventId := ORDER_CREATED], Then(w.rows, work.stage.row),
            w.claims - {work.eventId}, w.open - {tx}, w.receipts)
    case Rollback(tx) => World(w.inbox, w.rows, w.claims - {w.open[tx].eventId}, w.open - {tx}, w.receipts)
    case OtherClaim(id, eventType) =>
      if id in w.inbox then w else World(w.inbox[id := eventType], w.rows, w.claims, w.open, w.receipts)
  }

  function Run(t: Trace<Event>): Option<World> {
    match t
    case Start => Some(World(map[], Start, map[], map[], map[]))
    case Then(before, e) =>
      var w := Run(before);
      if w.Some? && Proper(w.value, e) then Some(Step(w.value, e)) else None
  }

  // ----- what every run keeps -----

  /** Committed notification rows of an event. */
  function RowsOf(rows: Trace<Notification>, id: Uuid): nat {
    match rows
    case Start => 0
    case Then(before, row) => RowsOf(before, id) + (if row.eventId == id then 1 else 0)
  }

  function SentRowsOf(rows: Trace<Notification>, id: Uuid): nat {
    match rows
    case Start => 0
    case Then(before, row) => SentRowsOf(before, id) + (if row.eventId == id && row.status.Sent? then 1 else 0)
  }

  /** A committed row is finished, and a sent one carries the provider's receipt for its event. */
  predicate Finished(row: Notification, receipts: map<string, string>) {
    var key := UuidText(row.eventId);
    row.status.Skipped? ||
    (row.status.Sent? && key in receipts && receipts[key] == "local-" + key && row.providerMessageId == Some(receipts[key]))
  }

  predicate AllFinished(rows: Trace<Notification>, receipts: map<string, string>) {
    rows.Then? ==> Finished(rows.step, receipts) && AllFinished(rows.before, receipts)
  }

  predicate LocalReceipts(receipts: map<string, string>) {
    forall k :: k in receipts ==> receipts[k] == "local-" + k
  }

  /** The provider has accepted this piece of work. */
  predicate WasAccepted(work: Work) {
    work.stage.Accepted? || work.stage.Marked?
  }

  predicate WorkFits(w: World, tx: Tx)
    requires tx in w.open
  {
    var work := w.open[tx];
    var id, key := work.eventId, UuidText(work.eventId);
    && id in w.claims && w.claims[id] == tx && id !in w.inbox
    && (!work.stage.Claimed? ==> work.stage.row.eventId == id)
    && (work.stage.Recorded? ==> !work.stage.row.status.Sent?)
    && (work.stage.Accepted? ==> key in w.receipts && work.stage.receipt == w.receipts[key])
    && (work.stage.Marked? ==> work.stage.row.status.Sent? && Finished(work.stage.row, w.receipts))
  }

  ghost predicate OpenWorkFits(w: World) {
    && LocalReceipts(w.receipts)
    && (forall tx :: tx in w.open ==> WorkFits(w, tx))
    && (forall id :: id in w.claims ==> w.claims[id] in w.open && w.open[w.claims[id]].eventId == id)
  }

  ghost predicate TablesAgree(w: World, id: Uuid) {
    RowsOf(w.rows, id) == if id in w.inbox && w.inbox[id] == ORDER_CREATED then 1 else 0
  }

  lemma {:induction false} MoreReceiptsKeepRows(rows: Trace<Notification>, a: map<string, string>, b: map<string, string>)
    requires AllFinished(rows, a) && forall k :: k in a ==> k in b && b[k] == a[k]
    ensures AllFinished(rows, b)
  {
    if rows.Then? {
      MoreReceiptsKeepRows(rows.before, a, b);
    }
  }

  lemma ReceiptsOnlyGrow(w: World, e: Event)
    requires Proper(w, e) && LocalReceipts(w.receipts)
    ensures forall k :: k in w.receipts ==> k in Step(w, e).receipts && Step(w, e).receipts[k] == w.receipts[k]
    ensures LocalReceipts(Step(w, e).receipts)
  {
  }

  lemma StepKeepsOneWork(w: World, e: Event, tx: Tx)
    requires OpenWorkFits(w) && Proper(w, e) && tx in Step(w, e).open
    ensures WorkFits(Step(w, e), tx)
  {
    ReceiptsOnlyGrow(w, e);
    assert tx in w.open ==> WorkFits(w, tx);
    if e.Commit? || e.Rollback? { assert WorkFits(w, e.tx); }
  }

  lemma StepKeepsClaim(w: World, e: Event, id: Uuid)
    requires OpenWorkFits(w) && Proper(w, e) && id in Step(w, e).claims
    ensures var w' := Step(w, e);
            w'.claims[id] in w'.open && w'.open[w'.claims[id]].eventId == id
  {
    if e.Commit? || e.Rollback? { assert WorkFits(w, e.tx); }
  }

  lemma StepKeepsWork(w: World, e: Event)
    requires OpenWorkFits(w) && Proper(w, e)
    ensures OpenWorkFits(Step(w, e))
  {
    var w' := Step(w, e);
    ReceiptsOnlyGrow(w, e);
    forall tx | tx in w'.open ensures WorkFits(w', tx) {
      StepKeepsOneWork(w, e, tx);
    }
    forall id | id in w'.claims ensures w'.claims[id] in w'.open && w'.open[w'.claims[id]].eventId == id {
      StepKeepsClaim(w, e, id);
    }
  }

  lemma StepKeepsTables(w: World, e: Event, id: Uuid)
    requires OpenWorkFits(w) && Proper(w, e) && TablesAgree(w, id)
    ensures TablesAgree(Step(w, e), id)
  {
    if e.Commit? { assert WorkFits(w, e.tx); }
  }

  lemma StepKeepsFinished(w: World, e: Event)
    requires OpenWorkFits(w) && Proper(w, e) && AllFinished(w.rows, w.receipts)
    ensures AllFinished(Step(w, e).rows, Step(w, e).receipts)
  {
    ReceiptsOnlyGrow(w, e);
    MoreReceiptsKeepRows(w.rows, w.receipts, Step(w, e).receipts);
    if e.Commit? { assert WorkFits(w, e.tx); }
  }

  lemma {:induction false} RunKeepsWork(t: Trace<Event>)
    requires Run(t).Some?
    ensures OpenWorkFits(Run(t).value) && AllFinished(Run(t).value.rows, Run(t).value.receipts)
  {
    if t.Then? {
      RunKeepsWork(t.before);
      StepKeepsWork(Run(t.before).value, t.step);
      StepKeepsFinished(Run(t.before).value, t.step);
    }
  }

  // ----- main results -----

  /** Exactly-once effect: an event has at most one notification row, and it has one iff its
      `order.created` claim is committed. */
  lemma {:induction false} OneRowPerClaim(t: Trace<Event>, id: Uuid)
    requires Run(t).Some?
    ensures var w := Run(t).value;
            && RowsOf(w.rows, id) <= 1
            && (RowsOf(w.rows, id) == 1 <==> id in w.inbox && w.inbox[id] == ORDER_CREATED)
  {
    if t.Then? {
      OneRowPerClaim(t.before, id);
      RunKeepsWork(t.before);
      StepKeepsTables(Run(t.before).value, t.step, id);
    }
  }

  /** Every committed row is skipped, or sent and carrying the provider's receipt for its event. */
  lemma SentRowsCarryTheReceipt(t: Trace<Event>)
    requires Run(t).Some?
    ensures AllFinished(Run(t).value.rows, Run(t).value.receipts)
  {
    RunKeepsWork(t);
  }

  /** A receipt, once given, is the receipt of that event for ever. */
  lemma {:induction false} ReceiptsAreStable(earlier: Trace<Event>, later: Trace<Event>, key: string)
    requires Run(later).Some? && Extends(later, earlier)
    requires Run(earlier).Some? && key in Run(earlier).value.receipts
    ensures key in Run(later).value.receipts && Run(later).value.receipts[key] == Run(earlier).value.receipts[key]
  {
    if later != earlier {
      ReceiptsAreStable(earlier, later.before, key);
      RunKeepsWork(later.before);
      ReceiptsOnlyGrow(Run(later.before).value, later.step);
    }
  }

  /** How often the provider was asked to send for the event. */
  function Sends(t: Trace<Event>, id: Uuid): nat {
    match t
    case Start => 0
    case Then(before, e) =>
      Sends(before, id) +
      (if e.Send? && Run(before).Some? && Proper(Run(before).value, e)
          && Run(before).value.open[e.tx].eventId == id then 1 else 0)
  }

  /** How many transactions for the event were rolled back after the provider had accepted. */
  function LostAfterSend(t: Trace<Event>, id: Uuid): nat {
    match t
    case Start => 0
    case Then(before, e) =>
      LostAfterSend(before, id) +
      (if e.Rollback? && Run(before).Some? && Proper(Run(before).value, e)
          && Run(before).value.open[e.tx].eventId == id && WasAccepted(Run(before).value.open[e.tx]) then 1 else 0)
  }

  predicate AcceptedNow(w: World, id: Uuid) {
    id in w.claims && w.claims[id] in w.open && WasAccepted(w.open[w.claims[id]])
  }

  /** Every request to the provider is accounted for: its row is committed as sent, its
      transaction is still open, or that transaction was rolled back. */
  lemma {:induction false} SendsAreAccountedFor(t: Trace<Event>, id: Uuid)
    requires Run(t).Some?
    ensures var w := Run(t).value;
            Sends(t, id) == LostAfterSend(t, id) + SentRowsOf(w.rows, id) + (if AcceptedNow(w, id) then 1 else 0)
  {
    if t.Then? {
      SendsAreAccountedFor(t.before, id);
      RunKeepsWork(t.before);
      StepMovesSend(Run(t.before).value, t.step, id);
    }
  }

  /** The step sends for the event, or ends a transaction the provider had accepted for it. */
  predicate SendsFor(w: World, e: Event, id: Uuid)
    requires Proper(w, e)
  {
    e.Send? && w.open[e.tx].eventId == id
  }

  predicate EndsSendFor(w: World, e: Event, id: Uuid)
    requires Proper(w, e)
  {
    (e.Commit? || e.Rollback?) && w.open[e.tx].eventId == id && WasAccepted(w.open[e.tx])
  }

  /** What one step does to the two places where a send is remembered. */
  lemma StepMovesSend(w: World, e: Event, id: Uuid)
    requires OpenWorkFits(w) && Proper(w, e)
    ensures SendsFor(w, e, id) ==> !AcceptedNow(w, id) && AcceptedNow(Step(w, e), id)
    ensures EndsSendFor(w, e, id) ==> AcceptedNow(w, id) && !AcceptedNow(Step(w, e), id)
    ensures !SendsFor(w, e, id) && !EndsSendFor(w, e, id) ==> (AcceptedNow(Step(w, e), id) <==> AcceptedNow(w, id))
    ensures SentRowsOf(Step(w, e).rows, id) ==
            SentRowsOf(w.rows, id) + (if EndsSendFor(w, e, id) && e.Commit? then 1 else 0)
  {
    assert id in w.claims ==> w.claims[id] in w.open && WorkFits(w, w.claims[id]);
    if !e.Redeliver? && !e.OtherClaim? { assert WorkFits(w, e.tx); }
  }

  /** A row that says `sent` was asked of the provider once, plus once per crash after acceptance. */
  lemma SentOncePlusCrashes(t: Trace<Event>, id: Uuid)
    requires Run(t).Some? && SentRowsOf(Run(t).value.rows, id) == 1
    ensures Sends(t, id) == 1 + LostAfterSend(t, id)
  {
    SendsAreAccountedFor(t, id);
    RunKeepsWork(t);
    OneRowPerClaim(t, id);
    SentRowsAreRows(Run(t).value.rows, id);
    CommittedIsNotOpen(Run(t).value, id);
  }

  lemma {:induction false} SentRowsAreRows(rows: Trace<Notification>, id: Uuid)
    ensures SentRowsOf(rows, id) <= RowsOf(rows, id)
  {
    if rows.Then? {
      SentRowsAreRows(rows.before, id);
    }
  }

  lemma CommittedIsNotOpen(w: World, id: Uuid)
    requires OpenWorkFits(w)
    ensures !(id in w.inbox && AcceptedNow(w, id))
  {
    assert id in w.claims ==> w.claims[id] in w.open && WorkFits(w, w.claims[id]);
  }

  lemma OneStep(t: Trace<Event>, w: World, e: Event) returns (t': Trace<Event>, w': World)
    requires Run(t) == Some(w) && Proper(w, e)
    ensures t' == Then(t, e) && w' == Step(w, e) && Run(t') == Some(w')
  {
    t', w' := Then(t, e), Step(w, e);
  }

  /** A worker that dies after the provider accepted and before its commit makes the next one ask
      again; the provider answers with the same receipt. */
  lemma CrashRepeatsTheRequest(row: Notification, now: int) returns (t: Trace<Event>)
    requires row.status.Pending?
    ensures Run(t).Some? && RowsOf(Run(t).value.rows, row.eventId) == 1 && Sends(t, row.eventId) == 2
  {
    var w: World;
    var id := row.eventId;
    t, w := OneStep(Start, World(map[], Start, map[], map[], map[]), Redeliver(1, id, now));
    assert Sends(t, id) == 0;
    t, w := OneStep(t, w, Record(1, row));
    assert Sends(t, id) == 0;
    t, w := OneStep(t, w, Send(1));
    assert Sends(t, id) == 1;
    t, w := OneStep(t, w, Rollback(1));
    assert w.claims == map[] && w.open == map[] && w.rows == Start && Sends(t, id) == 1;
    t, w := OneStep(t, w, Redeliver(2, id, now));
    assert Sends(t, id) == 1;
    t, w := OneStep(t, w, Record(2, row));
    assert w.open[2] == Work(id, now, Recorded(row)) && Sends(t, id) == 1;
    t, w := OneStep(t, w, Send(2));
    assert w.open[2].stage.Accepted? && w.open[2].eventId == id && w.open[2].stage.row == row && Sends(t, id) == 2;
    t, w := OneStep(t, w, MarkSent(2));
    assert Sends(t, id) == 2 && w.rows == Start;
    t, w := OneStep(t, w, Commit(2));
    assert w.rows.step.eventId == id && w.rows.before == Start;
  }

  // ----- the dispatcher is such a run -----

  /** The steps of one undisturbed dispatch. */
  function DispatchSteps(t: Trace<Event>, tx: Tx, d: Delivery, row: Notification): Trace<Event> {
    var recorded := Then(Then(t, Redeliver(tx, d.eventId, d.now)), Record(tx, row));
    Then(if row.status.Pending? then Then(Then(recorded, Send(tx)), MarkSent(tx)) else recorded, Commit(tx))
  }

  /** An undisturbed run of these steps commits what `DispatchOnce` leaves in its session. */
  lemma DispatchIsARun(t: Trace<Event>, tx: Tx, d: Delivery, subject: Subject, enabled: bool)
    requires Run(t).Some? && tx !in Run(t).value.open
    requires d.eventId !in Run(t).value.claims && d.eventId !in Run(t).value.inbox
    ensures var w := Run(t).value;
            var row := NewRow(d, subject, enabled);
            var key := UuidText(d.eventId);
            var receipt := ReceiptFor(w.receipts, key);
            var after := Run(DispatchSteps(t, tx, d, row));
            && after.Some?
            && after.value.inbox == w.inbox[d.eventId := ORDER_CREATED]
            && after.value.rows == Then(w.rows, if enabled then SentRow(row, receipt, d.now) else row)
            && after.value.receipts == if enabled then w.receipts[key := receipt] else w.receipts
  {
    var w := Run(t).value;
    var row := NewRow(d, subject, enabled);
    var t1 := Then(t, Redeliver(tx, d.eventId, d.now));
    var t2 := Then(t1, Record(tx, row));
    assert Run(t1).value.open[tx] == Work(d.eventId, d.now, Claimed);
    assert Run(t2).value.open[tx] == Work(d.eventId, d.now, Recorded(row));
    if enabled {
      var t3 := Then(t2, Send(tx));
      var t4 := Then(t3, MarkSent(tx));
      var receipt := ReceiptFor(w.receipts, UuidText(d.eventId));
      assert Run(t3).value.open[tx] == Work(d.eventId, d.now, Accepted(row, receipt));
      assert Run(t4).value.open[tx] == Work(d.eventId, d.now, Marked(SentRow(row, receipt, d.now)));
    }
  }
}
