/** Position records of src/delivery_service/tracking.py: one sequence-numbered snapshot per
    order, the payload that carries it, and the stream that filters updates for a reader. */
module Tracking {
  import opened Basics
  import opened Text
  import opened Traces

  datatype TrackingEvent = TrackingEvent(
    orderId: Uuid, status: string, sequence: int,
    latitude: Option<real>, longitude: Option<real>, recordedAt: Option<Moment>)

  datatype Snapshot = Snapshot(
    orderId: Uuid, tenantId: Uuid, status: string, sequence: int,
    latitude: real, longitude: real, recordedAt: Moment, clientEventId: Uuid)

  function AsEvent(s: Snapshot): TrackingEvent {
    TrackingEvent(s.orderId, s.status, s.sequence, Some(s.latitude), Some(s.longitude), Some(s.recordedAt))
  }

  datatype Payload = Payload(
    orderId: string, status: string, sequence: int,
    latitude: Option<real>, longitude: Option<real>, recordedAt: Option<string>)

  function ToPayload(e: TrackingEvent): Payload {
    Payload(UuidText(e.orderId), e.status, e.sequence, e.latitude, e.longitude,
            if e.recordedAt.Some? then Some(IsoText(e.recordedAt.value)) else None)
  }

  /** None when the identifier or a non-empty moment does not parse. */
  function FromPayload(p: Payload): Option<TrackingEvent> {
    match ParseUuid(p.orderId)
    case None => None
    case Some(id) =>
      if p.recordedAt.None? || p.recordedAt.value == "" then
        Some(TrackingEvent(id, p.status, p.sequence, p.latitude, p.longitude, None))
      else match ParseIso(p.recordedAt.value)
        case None => None
        case Some(at) => Some(TrackingEvent(id, p.status, p.sequence, p.latitude, p.longitude, Some(at)))
  }

  /** What is put on the bus is what every process takes off it. */
  lemma PayloadRoundTrip(e: TrackingEvent)
    ensures FromPayload(ToPayload(e)) == Some(e)
  {
    UuidRoundTrip(e.orderId);
    if e.recordedAt.Some? {
      IsoRoundTrip(e.recordedAt.value);
    }
  }

  // ----- recording -----

  /** What is announced; on the wire the event travels as its payload. */
  datatype OutboxEntry = OutboxEntry(eventId: Uuid, event: TrackingEvent)

  datatype Records = Records(
    snapshots: map<Uuid, Snapshot>, eventOrders: map<Uuid, Uuid>, outbox: seq<OutboxEntry>)

  const NO_RECORDS := Records(map[], map[], [])

  datatype Report = Report(
    orderId: Uuid, tenantId: Uuid, status: string, latitude: real, longitude: real,
    clientEventId: Uuid, recordedAt: Moment)

  /** `Recorded` says whether the report was new; `Conflict` is the refusal. */
  datatype Outcome = Conflict | Recorded(snapshot: Snapshot, changed: bool)

  function Accept(r: Report, sequence: int): Snapshot {
    Snapshot(r.orderId, r.tenantId, r.status, sequence, r.latitude, r.longitude, r.recordedAt, r.clientEventId)
  }

  function EntryFor(s: Snapshot): OutboxEntry {
    OutboxEntry(s.clientEventId, AsEvent(s))
  }

  function Keep(w: Records, s: Snapshot): Records {
    Records(w.snapshots[s.orderId := s], w.eventOrders[s.clientEventId := s.orderId], w.outbox + [EntryFor(s)])
  }

  function Decide(w: Records, r: Report): Outcome {
    if r.clientEventId in w.eventOrders && w.eventOrders[r.clientEventId] != r.orderId then Conflict
    else if r.orderId !in w.snapshots then Recorded(Accept(r, 1), true)
    else
      var current := w.snapshots[r.orderId];
      if current.clientEventId == r.clientEventId then Recorded(current, false)
      else Recorded(Accept(r, current.sequence + 1), true)
  }

  function Record(w: Records, r: Report): Records {
    var outcome := Decide(w, r);
    if outcome.Recorded? && outcome.changed then Keep(w, outcome.snapshot) else w
  }

  /** A recorded report, field by field: the snapshot it becomes and the event that announces it. */
  lemma RecordedFields(r: Report, sequence: int)
    ensures var s := Accept(r, sequence);
            && s.orderId == r.orderId && s.tenantId == r.tenantId && s.status == r.status && s.sequence == sequence
            && s.latitude == r.latitude && s.longitude == r.longitude && s.recordedAt == r.recordedAt
            && s.clientEventId == r.clientEventId
            && AsEvent(s) == TrackingEvent(r.orderId, r.status, sequence, Some(r.latitude), Some(r.longitude), Some(r.recordedAt))
  {
  }

  class SnapshotRepository {
    var snapshots: map<Uuid, Snapshot>
    var eventOrders: map<Uuid, Uuid>
    var outbox: seq<OutboxEntry>

    ghost function Value(): Records
      reads this
    {
      Records(snapshots, eventOrders, outbox)
    }

    constructor ()
      ensures Value() == NO_RECORDS
    {
      snapshots, eventOrders, outbox := map[], map[], [];
    }

    method Get(orderId: Uuid) returns (found: Option<Snapshot>)
      ensures found == if orderId in snapshots then Some(snapshots[orderId]) else None
    {
      if orderId in snapshots {
        return Some(snapshots[orderId]);
      }
      return None;
    }

    method RecordReport(r: Report) returns (outcome: Outcome)
      modifies this
      ensures outcome == Decide(old(Value()), r) && Value() == Record(old(Value()), r)
      ensures outcome == Conflict <==> r.clientEventId in old(eventOrders) && old(eventOrders)[r.clientEventId] != r.orderId
      ensures outcome == Conflict || !outcome.changed ==> Value() == old(Value())
      ensures outcome.Recorded? && !outcome.changed <==>
                && outcome != Conflict && r.orderId in old(snapshots)
                && old(snapshots)[r.orderId].clientEventId == r.clientEventId
      ensures outcome.Recorded? && !outcome.changed ==> outcome.snapshot == old(snapshots)[r.orderId]
      ensures outcome.Recorded? && outcome.changed ==>
                var sequence := if r.orderId in old(snapshots) then old(snapshots)[r.orderId].sequence + 1 else 1;
                && outcome.snapshot == Snapshot(r.orderId, r.tenantId, r.status, sequence, r.latitude, r.longitude,
                     r.recordedAt, r.clientEventId)
                && snapshots == old(snapshots)[r.orderId := outcome.snapshot]
                && eventOrders == old(eventOrders)[r.clientEventId := r.orderId]
                && outbox == old(outbox) + [OutboxEntry(r.clientEventId,
                     TrackingEvent(r.orderId, r.status, sequence, Some(r.latitude), Some(r.longitude), Some(r.recordedAt)))]
    {
      if r.clientEventId in eventOrders && eventOrders[r.clientEventId] != r.orderId {
        return Conflict;
      }
      var sequence := 1;
      if r.orderId in snapshots {
        var current := snapshots[r.orderId];
        if current.clientEventId == r.clientEventId {
          return Recorded(current, false);
        }
        sequence := current.sequence + 1;
      }
      var snapshot := Snapshot(r.orderId, r.tenantId, r.status, sequence, r.latitude, r.longitude,
                               r.recordedAt, r.clientEventId);
      snapshots := snapshots[r.orderId := snapshot];
      eventOrders := eventOrders[r.clientEventId := r.orderId];
      outbox := outbox + [OutboxEntry(r.clientEventId, AsEvent(snapshot))];
      return Recorded(snapshot, true);
    }
  }

  // ----- runs of reports -----

  function Run(t: Trace<Report>): Records {
    match t
    case Start => NO_RECORDS
    case Then(before, r) => Record(Run(before), r)
  }

  /** The answers of a run that were new records of one order, oldest first. */
  function Accepted(t: Trace<Report>, orderId: Uuid): seq<Snapshot> {
    match t
    case Start => []
    case Then(before, r) =>
      var outcome := Decide(Run(before), r);
      if r.orderId == orderId && outcome.Recorded? && outcome.changed
      then Accepted(before, orderId) + [outcome.snapshot]
      else Accepted(before, orderId)
  }

  /** The outbox entries of one order, oldest first. */
  function EntriesOf(outbox: seq<OutboxEntry>, n: nat, orderId: Uuid): seq<OutboxEntry>
    requires n <= |outbox|
  {
    if n == 0 then []
    else if outbox[n - 1].event.orderId == orderId
    then EntriesOf(outbox, n - 1, orderId) + [outbox[n - 1]]
    else EntriesOf(outbox, n - 1, orderId)
  }

  ghost predicate Mirrors(log: seq<Snapshot>, entries: seq<OutboxEntry>) {
    |entries| == |log| && forall i :: 0 <= i < |log| ==> entries[i] == EntryFor(log[i])
  }

  ghost predicate Numbered(log: seq<Snapshot>, orderId: Uuid) {
    forall i :: 0 <= i < |log| ==> log[i].sequence == i + 1 && log[i].orderId == orderId
  }

  ghost predicate Latest(log: seq<Snapshot>, snapshots: map<Uuid, Snapshot>, orderId: Uuid) {
    && (orderId in snapshots <==> log != [])
    && (log != [] ==> snapshots[orderId] == log[|log| - 1])
  }

  /** In every run an order's records are numbered 1, 2, 3, … without gaps, and the stored
      snapshot is the last of them. */
  lemma {:induction false} RecordsAreNumbered(t: Trace<Report>, orderId: Uuid)
    ensures Numbered(Accepted(t, orderId), orderId)
    ensures Latest(Accepted(t, orderId), Run(t).snapshots, orderId)
  {
    if t.Then? {
      RecordsAreNumbered(t.before, orderId);
    }
  }

  /** The reports of one order that were recorded, oldest first. */
  function Reported(t: Trace<Report>, orderId: Uuid): seq<Report> {
    match t
    case Start => []
    case Then(before, r) =>
      var outcome := Decide(Run(before), r);
      if r.orderId == orderId && outcome.Recorded? && outcome.changed then Reported(before, orderId) + [r]
      else Reported(before, orderId)
  }

  /** Each record carries the tenant, status, position, time and event of its own report. */
  lemma {:induction false} RecordsCarryTheirReports(t: Trace<Report>, orderId: Uuid)
    ensures var log, reports := Accepted(t, orderId), Reported(t, orderId);
            && |log| == |reports|
            && forall i :: 0 <= i < |log| ==>
                 && log[i].tenantId == reports[i].tenantId && log[i].status == reports[i].status
                 && log[i].latitude == reports[i].latitude && log[i].longitude == reports[i].longitude
                 && log[i].recordedAt == reports[i].recordedAt && log[i].clientEventId == reports[i].clientEventId
  {
    if t.Then? {
      RecordsCarryTheirReports(t.before, orderId);
    }
  }

  /** An order's outbox entries announce exactly its records, in order. */
  lemma {:induction false} OutboxAnnouncesRecords(t: Trace<Report>, orderId: Uuid)
    ensures Mirrors(Accepted(t, orderId), EntriesOf(Run(t).outbox, |Run(t).outbox|, orderId))
  {
    if t.Then? {
      OutboxAnnouncesRecords(t.before, orderId);
      var outcome := Decide(Run(t.before), t.step);
      if outcome.Recorded? && outcome.changed {
        RecordsAreNumbered(t.before, t.step.orderId);
        OneMoreEntry(Run(t.before).outbox, outcome.snapshot, orderId);
      }
    }
  }

  lemma OneMoreEntry(outbox: seq<OutboxEntry>, s: Snapshot, orderId: Uuid)
    ensures EntriesOf(outbox + [EntryFor(s)], |outbox| + 1, orderId) ==
              EntriesOf(outbox, |outbox|, orderId) + if s.orderId == orderId then [EntryFor(s)] else []
  {
    EntriesAppend(outbox, EntryFor(s), |outbox|, orderId);
  }

  lemma {:induction false} EntriesAppend(outbox: seq<OutboxEntry>, entry: OutboxEntry, n: nat, orderId: Uuid)
    requires n <= |outbox|
    ensures EntriesOf(outbox + [entry], n, orderId) == EntriesOf(outbox, n, orderId)
  {
    if n > 0 {
      EntriesAppend(outbox, entry, n - 1, orderId);
    }
  }

  /** Every event of the log is bound to the log's order. */
  ghost predicate Bound(log: seq<Snapshot>, eventOrders: map<Uuid, Uuid>, orderId: Uuid) {
    forall i :: 0 <= i < |log| ==>
      log[i].clientEventId in eventOrders && eventOrders[log[i].clientEventId] == orderId
  }

  /** A client event stays bound to the order it was first recorded for. */
  lemma {:induction false} EventsStayBound(t: Trace<Report>, orderId: Uuid)
    ensures Bound(Accepted(t, orderId), Run(t).eventOrders, orderId)
  {
    if t.Then? {
      EventsStayBound(t.before, orderId);
      DecisionKeepsBinding(Run(t.before), t.step, Accepted(t.before, orderId), orderId);
    }
  }

  lemma DecisionKeepsBinding(w: Records, r: Report, log: seq<Snapshot>, orderId: Uuid)
    requires Bound(log, w.eventOrders, orderId)
    ensures Bound(log, Record(w, r).eventOrders, orderId)
    ensures Decide(w, r).Recorded? && Decide(w, r).changed && r.orderId == orderId ==>
              Bound(log + [Decide(w, r).snapshot], Record(w, r).eventOrders, orderId)
  {
  }

  /** So no client event is ever recorded for two orders. */
  lemma EventBelongsToOneOrder(t: Trace<Report>, a: Uuid, i: nat, b: Uuid, j: nat)
    requires i < |Accepted(t, a)| && j < |Accepted(t, b)|
    requires Accepted(t, a)[i].clientEventId == Accepted(t, b)[j].clientEventId
    ensures a == b
  {
    EventsStayBound(t, a);
    EventsStayBound(t, b);
  }

  /** The answer to a report whose event the order has already seen. */
  ghost predicate AbsorbedIffLatest(log: seq<Snapshot>, r: Report, outcome: Outcome)
    requires log != []
  {
    && outcome.Recorded?
    && (!outcome.changed <==> log[|log| - 1].clientEventId == r.clientEventId)
    && (!outcome.changed ==> outcome.snapshot == log[|log| - 1])
    && (outcome.changed ==> outcome.snapshot == Accept(r, |log| + 1))
  }

  /** Sending again an event already recorded never fails; it is answered with the stored record
      and changes nothing if and only if it is the order's latest, and is otherwise recorded a
      second time. */
  lemma {:induction false} ResentIsAbsorbedIffLatest(t: Trace<Report>, r: Report, i: nat)
    requires i < |Accepted(t, r.orderId)| && Accepted(t, r.orderId)[i].clientEventId == r.clientEventId
    ensures AbsorbedIffLatest(Accepted(t, r.orderId), r, Decide(Run(t), r))
    ensures Record(Run(t), r) == Run(t) <==> !Decide(Run(t), r).changed
  {
    EventsStayBound(t, r.orderId);
    RecordsAreNumbered(t, r.orderId);
    DecideFromLog(Run(t), Accepted(t, r.orderId), r, i);
  }

  lemma DecideFromLog(w: Records, log: seq<Snapshot>, r: Report, i: nat)
    requires i < |log| && log[i].clientEventId == r.clientEventId
    requires Numbered(log, r.orderId) && Latest(log, w.snapshots, r.orderId) && Bound(log, w.eventOrders, r.orderId)
    ensures AbsorbedIffLatest(log, r, Decide(w, r))
    ensures Record(w, r) == w <==> !Decide(w, r).changed
  {
    assert log[|log| - 1].sequence == |log|;
    assert Decide(w, r).changed ==> |Record(w, r).outbox| == |w.outbox| + 1;
  }

  /** The family above is not empty: a, b, a is recorded three times. */
  lemma OlderEventIsRecordedAgain(r: Report, a: Uuid, b: Uuid)
    requires a != b
    ensures var t := Then(Then(Then(Start, r.(clientEventId := a)), r.(clientEventId := b)), r.(clientEventId := a));
            && |Accepted(t, r.orderId)| == 3
            && Accepted(t, r.orderId)[0].clientEventId == Accepted(t, r.orderId)[2].clientEventId == a
  {
    var t1 := Then(Start, r.(clientEventId := a));
    var t2 := Then(t1, r.(clientEventId := b));
    var t3 := Then(t2, r.(clientEventId := a));
    assert Accepted(t1, r.orderId) == [Accept(r.(clientEventId := a), 1)];
    RecordsAreNumbered(t1, r.orderId);
    assert Accepted(t2, r.orderId) == [Accept(r.(clientEventId := a), 1), Accept(r.(clientEventId := b), 2)];
    EventsStayBound(t2, r.orderId);
    RecordsAreNumbered(t2, r.orderId);
    assert Accepted(t3, r.orderId) == Accepted(t2, r.orderId) + [Accept(r.(clientEventId := a), 3)];
  }

  ghost predicate Contains(log: seq<Snapshot>, clientEventId: Uuid) {
    exists i :: 0 <= i < |log| && log[i].clientEventId == clientEventId
  }

  lemma {:induction false} BindingHasRecord(t: Trace<Report>, clientEventId: Uuid)
    requires clientEventId in Run(t).eventOrders
    ensures Contains(Accepted(t, Run(t).eventOrders[clientEventId]), clientEventId)
  {
    var w, outcome := Run(t.before), Decide(Run(t.before), t.step);
    var bound := Run(t).eventOrders[clientEventId];
    var log, log' := Accepted(t.before, bound), Accepted(t, bound);
    if clientEventId in w.eventOrders && w.eventOrders[clientEventId] == bound {
      BindingHasRecord(t.before, clientEventId);
      var i :| 0 <= i < |log| && log[i].clientEventId == clientEventId;
      assert log'[i] == log[i];
    } else {
      assert log'[|log|] == outcome.snapshot;
    }
  }

  ghost predicate RecordedFor(t: Trace<Report>, orderId: Uuid, clientEventId: Uuid) {
    Contains(Accepted(t, orderId), clientEventId)
  }

  /** A report is refused, and then leaves no trace, exactly when its event was recorded for
      another order. */
  lemma ConflictIffRecordedElsewhere(t: Trace<Report>, r: Report)
    ensures Decide(Run(t), r).Conflict? <==>
              exists other: Uuid :: other != r.orderId && RecordedFor(t, other, r.clientEventId)
    ensures Decide(Run(t), r).Conflict? ==> Record(Run(t), r) == Run(t)
  {
    var w := Run(t);
    if Decide(w, r).Conflict? {
      BindingHasRecord(t, r.clientEventId);
      var other := w.eventOrders[r.clientEventId];
      assert other != r.orderId && RecordedFor(t, other, r.clientEventId);
    }
    forall other: Uuid | other != r.orderId && RecordedFor(t, other, r.clientEventId)
      ensures r.clientEventId in w.eventOrders && w.eventOrders[r.clientEventId] == other
    {
      EventsStayBound(t, other);
    }
  }

  // ----- the event stream -----

  datatype Frame = SnapshotFrame(event: TrackingEvent) | UpdateFrame(event: TrackingEvent)

  function Max(a: int, b: int): int {
    if a >= b then a else b
  }

  /** Update `i` is new to the reader: above the starting floor and above every earlier update. */
  ghost predicate IsRecord(updates: seq<TrackingEvent>, floor: int, i: int)
    requires 0 <= i < |updates|
  {
    updates[i].sequence > floor && forall j :: 0 <= j < i ==> updates[j].sequence < updates[i].sequence
  }

  /** The running maxima above `floor` among the first `n` updates, in order. */
  ghost function Maxima(updates: seq<TrackingEvent>, floor: int, n: nat): seq<TrackingEvent>
    requires n <= |updates|
  {
    if n == 0 then []
    else if IsRecord(updates, floor, n - 1) then Maxima(updates, floor, n - 1) + [updates[n - 1]]
    else Maxima(updates, floor, n - 1)
  }

  /** What the reader's position is after these updates. */
  function Highest(updates: seq<TrackingEvent>, floor: int, n: nat): int
    requires n <= |updates|
  {
    if n == 0 then floor else Max(Highest(updates, floor, n - 1), updates[n - 1].sequence)
  }

  lemma {:induction false} HighestBounds(updates: seq<TrackingEvent>, floor: int, n: nat, i: nat)
    requires i < n <= |updates|
    ensures updates[i].sequence <= Highest(updates, floor, n)
  {
    if i < n - 1 {
      HighestBounds(updates, floor, n - 1, i);
    }
  }

  /** Comparing with the single highest value so far finds exactly the running maxima. */
  lemma {:induction false} RecordIffAboveHighest(updates: seq<TrackingEvent>, floor: int, n: nat, i: nat)
    requires n <= i < |updates|
    ensures updates[i].sequence > Highest(updates, floor, n) <==>
              updates[i].sequence > floor && forall j :: 0 <= j < n ==> updates[j].sequence < updates[i].sequence
  {
    if n > 0 {
      RecordIffAboveHighest(updates, floor, n - 1, i);
    }
  }

  /** What a reader may rely on: the maxima rise strictly, start above the floor, and the last
      one is the highest update of all. */
  lemma {:induction false} MaximaRise(updates: seq<TrackingEvent>, floor: int, n: nat)
    requires n <= |updates|
    ensures var m := Maxima(updates, floor, n);
            && (forall k :: 0 <= k < |m| ==> floor < m[k].sequence <= Highest(updates, floor, n))
            && (forall j, k :: 0 <= j < k < |m| ==> m[j].sequence < m[k].sequence)
            && Highest(updates, floor, n) == (if m == [] then floor else m[|m| - 1].sequence)
  {
    if n > 0 {
      MaximaRise(updates, floor, n - 1);
      RecordIffAboveHighest(updates, floor, n - 1, n - 1);
    }
  }

  function Frames(snapshot: TrackingEvent, updates: seq<TrackingEvent>): (frames: seq<Frame>)
    ensures |frames| == 1 + |updates|
  {
    [SnapshotFrame(snapshot)] + seq(|updates|, i requires 0 <= i < |updates| => UpdateFrame(updates[i]))
  }

  /** The stream, over whatever its queue yields: the snapshot, then, when following, exactly the
      running maxima above the reader's position, each once and in order. */
  method OrderEventStream(snapshot: TrackingEvent, lastSequence: int, follow: bool, updates: seq<TrackingEvent>)
    returns (frames: seq<Frame>)
    ensures frames == Frames(snapshot, if follow then Maxima(updates, Max(lastSequence, snapshot.sequence), |updates|) else [])
  {
    var floor := if lastSequence >= snapshot.sequence then lastSequence else snapshot.sequence;
    ghost var start := floor;
    frames := [SnapshotFrame(snapshot)];
    if !follow {
      return;
    }
    for n := 0 to |updates|
      invariant frames == Frames(snapshot, Maxima(updates, start, n))
      invariant floor == Highest(updates, start, n)
    {
      RecordIffAboveHighest(updates, start, n, n);
      var update := updates[n];
      if update.sequence <= floor {
        continue;
      }
      floor := update.sequence;
      frames := frames + [UpdateFrame(update)];
    }
  }
}
