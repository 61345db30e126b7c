/** Catching up on an order's position: reports are recorded, background tasks publish them, and
    clients subscribe, load the snapshot and read their queues, all as separate steps in any
    interleaving (src/delivery_service/main.py, the handlers around the hub and the records). */
module CatchUp {
  import opened Basics
  import opened Traces
  import opened Tracking
  import TH = TrackingHub

  /** `since` counts the updates published for the order when the client subscribed, `initial`
      is the sequence of the snapshot it loaded (0 when there was none), and `highest` the greatest
      sequence among the updates it took from its queue. */
  datatype Client = Client(orderId: Uuid, queue: Option<nat>, since: nat, initial: Option<int>, highest: Option<int>)

  /** `tasks` holds, per order, the updates recorded but not yet published, oldest first. */
  datatype World = World(
    records: Records, hub: TH.Hub, tasks: map<Uuid, seq<TrackingEvent>>,
    published: map<Uuid, seq<TrackingEvent>>, clients: map<nat, Client>)

  datatype Event =
    | Reported(report: Report)
    | Announced(orderId: Uuid, index: nat)
    | Connected(client: nat, orderId: Uuid)
    | Subscribed(client: nat)
    | Loaded(client: nat)
    | Sent(client: nat)
    | Disconnected(client: nat)

  function Log(logs: map<Uuid, seq<TrackingEvent>>, orderId: Uuid): seq<TrackingEvent> {
    if orderId in logs then logs[orderId] else []
  }

  function Raise(highest: Option<int>, sequence: int): int {
    if highest.Some? then Max(highest.value, sequence) else sequence
  }

  function CurrentSequence(r: Records, orderId: Uuid): int {
    if orderId in r.snapshots then r.snapshots[orderId].sequence else 0
  }

  /** Updates are sent only once the client has subscribed and loaded. */
  predicate Proper(w: World, e: Event) {
    match e
    case Reported(_) => true
    case Announced(orderId, index) => index < |Log(w.tasks, orderId)|
    case Connected(client, _) => client !in w.clients
    case Subscribed(client) => client in w.clients && w.clients[client].queue.None?
    case Loaded(client) => client in w.clients && w.clients[client].initial.None?
    case Sent(client) =>
      && client in w.clients && w.clients[client].initial.Some?
      && w.clients[client].queue.Some? && TH.CanTake(w.hub, w.clients[client].queue.value)
    case Disconnected(client) => client in w.clients
  }

  function Report(w: World, r: Report): World {
    var outcome := Decide(w.records, r);
    World(Record(w.records, r), w.hub,
          if outcome.Recorded? && outcome.changed
          then w.tasks[r.orderId := Log(w.tasks, r.orderId) + [AsEvent(outcome.snapshot)]] else w.tasks,
          w.published, w.clients)
  }

  function Announce(w: World, orderId: Uuid, index: nat): World
    requires index < |Log(w.tasks, orderId)|
  {
    var waiting := Log(w.tasks, orderId);
    w.(tasks := w.tasks[orderId := waiting[..index] + waiting[index + 1..]],
       hub := TH.Publish(w.hub, waiting[index]),
       published := w.published[orderId := Log(w.published, orderId) + [waiting[index]]])
  }

  function Step(w: World, e: Event): World
    requires Proper(w, e)
  {
    match e
    case Reported(r) => Report(w, r)
    case Announced(orderId, index) => Announce(w, orderId, index)
    case Connected(client, orderId) => w.(clients := w.clients[client := Client(orderId, None, 0, None, None)])
    case Subscribed(client) =>
      var c := w.clients[client];
      w.(hub := TH.Subscribe(w.hub, c.orderId),
         clients := w.clients[client := c.(queue := Some(|w.hub.queues|), since := |Log(w.published, c.orderId)|)])
    case Loaded(client) =>
      var c := w.clients[client];
      w.(clients := w.clients[client := c.(initial := Some(CurrentSequence(w.records, c.orderId)))])
    case Sent(client) =>
      var c := w.clients[client];
      w.(hub := TH.Take(w.hub, c.queue.value),
         clients := w.clients[client := c.(highest := Some(Raise(c.highest, w.hub.queues[c.queue.value][0].sequence)))])
    case Disconnected(client) =>
      var c := w.clients[client];
      w.(hub := if c.queue.Some? then TH.Unsubscribe(w.hub, c.orderId, c.queue.value) else w.hub,
         clients := w.clients - {client})
  }

  function Run(size: int, t: Trace<Event>): Option<World> {
    match t
    case Start => Some(World(NO_RECORDS, TH.Empty(size), map[], map[], map[]))
    case Then(before, e) =>
      var w := Run(size, before);
      if w.Some? && Proper(w.value, e) then Some(Step(w.value, e)) else None
  }

  // ----- clients and queues -----

  /** The client's queue is subscribed to its order and to no other. */
  ghost predicate Joined(hub: TH.Hub, c: Client) {
    if c.queue.None? then c.highest.None?
    else
      && c.queue.value < |hub.queues|
      && forall o: Uuid :: c.queue.value in TH.Subscribers(hub.subscribers, o) <==> o == c.orderId
  }

  ghost predicate Distinct(clients: map<nat, Client>) {
    forall c, d :: c in clients && d in clients && clients[c].queue.Some? && clients[c].queue == clients[d].queue ==> c == d
  }

  ghost predicate Wired(w: World) {
    && TH.Sound(w.hub)
    && (forall c :: c in w.clients ==> Joined(w.hub, w.clients[c]))
    && Distinct(w.clients)
  }

  lemma MembersAfterJoin(h: TH.Hub, joined: Uuid, o: Uuid, queue: nat)
    ensures queue in TH.Subscribers(TH.Subscribe(h, joined).subscribers, o) <==>
              queue in TH.Subscribers(h.subscribers, o) || (o == joined && queue == |h.queues|)
  {
  }

  lemma MembersAfterLeave(h: TH.Hub, left: Uuid, gone: nat, o: Uuid, queue: nat)
    ensures queue in TH.Subscribers(TH.Unsubscribe(h, left, gone).subscribers, o) <==>
              queue in TH.Subscribers(h.subscribers, o) && !(o == left && queue == gone)
  {
  }

  lemma JoinKeepsOthers(h: TH.Hub, joined: Uuid, c: Client)
    requires TH.Sound(h) && Joined(h, c)
    ensures Joined(TH.Subscribe(h, joined), c)
  {
    if c.queue.Some? {
      forall o: Uuid
        ensures c.queue.value in TH.Subscribers(TH.Subscribe(h, joined).subscribers, o) <==> o == c.orderId
      {
        MembersAfterJoin(h, joined, o, c.queue.value);
      }
    }
  }

  lemma NewcomerJoins(h: TH.Hub, c: Client)
    requires TH.Sound(h) && c.queue == Some(|h.queues|)
    ensures Joined(TH.Subscribe(h, c.orderId), c)
  {
    forall o: Uuid
      ensures c.queue.value in TH.Subscribers(TH.Subscribe(h, c.orderId).subscribers, o) <==> o == c.orderId
    {
      MembersAfterJoin(h, c.orderId, o, c.queue.value);
    }
  }

  lemma LeaveKeepsOthers(h: TH.Hub, left: Uuid, gone: nat, c: Client)
    requires Joined(h, c) && c.queue != Some(gone)
    ensures Joined(TH.Unsubscribe(h, left, gone), c)
  {
    if c.queue.Some? {
      forall o: Uuid
        ensures c.queue.value in TH.Subscribers(TH.Unsubscribe(h, left, gone).subscribers, o) <==> o == c.orderId
      {
        MembersAfterLeave(h, left, gone, o, c.queue.value);
      }
    }
  }

  lemma ClientStaysJoined(w: World, e: Event, client: nat)
    requires Wired(w) && Proper(w, e) && client in Step(w, e).clients
    ensures Joined(Step(w, e).hub, Step(w, e).clients[client])
  {
    if e == Subscribed(client) {
      NewcomerJoins(w.hub, Step(w, e).clients[client]);
    } else if e != Connected(client, Step(w, e).clients[client].orderId) {
      assert Joined(w.hub, w.clients[client]);
      if e.Subscribed? {
        JoinKeepsOthers(w.hub, w.clients[e.client].orderId, w.clients[client]);
      } else if e.Disconnected? && w.clients[e.client].queue.Some? {
        LeaveKeepsOthers(w.hub, w.clients[e.client].orderId, w.clients[e.client].queue.value, w.clients[client]);
      }
    }
  }

  lemma HubStepSound(w: World, e: Event)
    requires Proper(w, e) && TH.Sound(w.hub)
    ensures TH.Sound(Step(w, e).hub)
  {
  }

  lemma QueuesStayDistinct(w: World, e: Event)
    requires Proper(w, e) && Wired(w)
    ensures Distinct(Step(w, e).clients)
  {
    assert forall c :: c in w.clients && w.clients[c].queue.Some? ==> Joined(w.hub, w.clients[c]);
  }

  lemma {:induction false} RunStaysWired(size: int, t: Trace<Event>)
    requires Run(size, t).Some?
    ensures Wired(Run(size, t).value)
  {
    if t.Then? {
      RunStaysWired(size, t.before);
      var w := Run(size, t.before).value;
      HubStepSound(w, t.step);
      QueuesStayDistinct(w, t.step);
      forall c | c in Step(w, t.step).clients ensures Joined(Step(w, t.step).hub, Step(w, t.step).clients[c]) {
        ClientStaysJoined(w, t.step, c);
      }
    }
  }

  // ----- the hub inside is a run of the hub -----

  /** What the hub does at a step of the run, if it does anything. */
  function HubEvent(w: World, e: Event): Option<TH.Event>
    requires Proper(w, e)
  {
    match e
    case Announced(orderId, index) => Some(TH.Published(Log(w.tasks, orderId)[index]))
    case Subscribed(client) => Some(TH.Subscribed(w.clients[client].orderId))
    case Sent(client) => Some(TH.Took(w.clients[client].queue.value))
    case Disconnected(client) =>
      var c := w.clients[client];
      if c.queue.Some? then Some(TH.Unsubscribed(c.orderId, c.queue.value)) else None
    case _ => None
  }

  function HubTrace(size: int, t: Trace<Event>): Trace<TH.Event>
    requires Run(size, t).Some?
  {
    match t
    case Start => Start
    case Then(before, e) =>
      var did := HubEvent(Run(size, before).value, e);
      if did.Some? then Then(HubTrace(size, before), did.value) else HubTrace(size, before)
  }

  lemma {:induction false} HubIsARun(size: int, t: Trace<Event>)
    requires Run(size, t).Some?
    ensures TH.Run(size, HubTrace(size, t)) == Some(Run(size, t).value.hub)
  {
    if t.Then? {
      HubIsARun(size, t.before);
      HubStepAgrees(Run(size, t.before).value, t.step);
    }
  }

  lemma HubStepAgrees(w: World, e: Event)
    requires Proper(w, e)
    ensures var did := HubEvent(w, e);
            if did.Some? then TH.Proper(w.hub, did.value) && Step(w, e).hub == TH.Step(w.hub, did.value)
            else Step(w, e).hub == w.hub
  {
  }

  // ----- numbering, whatever order updates are published in -----

  /** Every update of the order recorded so far, published or waiting. */
  ghost function Recorded(w: World, orderId: Uuid): multiset<TrackingEvent> {
    multiset(Log(w.published, orderId)) + multiset(Log(w.tasks, orderId))
  }

  /** Updates of one order are told apart by their sequences, none of which exceeds the latest. */
  ghost predicate ToldApart(all: multiset<TrackingEvent>, latest: int, orderId: Uuid) {
    && latest >= 0
    && (forall x :: x in all ==> all[x] == 1 && 1 <= x.sequence <= latest && x.orderId == orderId)
    && (forall x, y :: x in all && y in all && x.sequence == y.sequence ==> x == y)
  }

  /** In particular none is above the snapshot's. */
  ghost predicate Numbered(w: World, orderId: Uuid) {
    ToldApart(Recorded(w, orderId), CurrentSequence(w.records, orderId), orderId)
  }

  lemma NextIsToldApart(all: multiset<TrackingEvent>, latest: int, orderId: Uuid, x: TrackingEvent)
    requires ToldApart(all, latest, orderId) && x.sequence == latest + 1 && x.orderId == orderId
    ensures ToldApart(all + multiset{x}, latest + 1, orderId)
  {
  }

  lemma PublishingMoves(p: seq<TrackingEvent>, k: seq<TrackingEvent>, i: nat)
    requires i < |k|
    ensures multiset(p + [k[i]]) + multiset(k[..i] + k[i + 1..]) == multiset(p) + multiset(k)
  {
    assert k == k[..i] + [k[i]] + k[i + 1..];
  }

  lemma AnnounceKeepsNumbers(w: World, announced: Uuid, index: nat, orderId: Uuid)
    requires index < |Log(w.tasks, announced)| && Numbered(w, orderId)
    ensures Numbered(Announce(w, announced, index), orderId)
  {
    if announced == orderId {
      PublishingMoves(Log(w.published, orderId), Log(w.tasks, orderId), index);
      assert Recorded(Announce(w, announced, index), orderId) == Recorded(w, orderId);
    }
  }

  /** Whether the report is new, and the update it then becomes. */
  function NewUpdate(r: Records, report: Report): Option<TrackingEvent> {
    var outcome := Decide(r, report);
    if outcome.Recorded? && outcome.changed then Some(AsEvent(outcome.snapshot)) else None
  }

  lemma ReportNumbersNext(w: World, r: Report, orderId: Uuid)
    ensures var x := NewUpdate(w.records, r); var latest := CurrentSequence(w.records, orderId);
            if x.Some? && r.orderId == orderId then
              && x.value.sequence == latest + 1 && x.value.orderId == orderId
              && CurrentSequence(Report(w, r).records, orderId) == latest + 1
              && Log(Report(w, r).tasks, orderId) == Log(w.tasks, orderId) + [x.value]
            else
              && CurrentSequence(Report(w, r).records, orderId) == latest
              && Log(Report(w, r).tasks, orderId) == Log(w.tasks, orderId)
  {
  }

  lemma ReportKeepsNumbers(w: World, r: Report, orderId: Uuid)
    requires Numbered(w, orderId)
    ensures Numbered(Report(w, r), orderId)
  {
    ReportNumbersNext(w, r, orderId);
    var x := NewUpdate(w.records, r);
    if x.Some? && r.orderId == orderId {
      NextIsToldApart(Recorded(w, orderId), CurrentSequence(w.records, orderId), orderId, x.value);
      OneMoreWaiting(Log(w.published, orderId), Log(w.tasks, orderId), x.value);
    }
  }

  lemma OneMoreWaiting(p: seq<TrackingEvent>, k: seq<TrackingEvent>, x: TrackingEvent)
    ensures multiset(p) + multiset(k + [x]) == multiset(p) + multiset(k) + multiset{x}
  {
  }

  lemma {:induction false} RunKeepsNumbers(size: int, t: Trace<Event>, orderId: Uuid)
    requires Run(size, t).Some?
    ensures Numbered(Run(size, t).value, orderId)
  {
    if t.Then? {
      RunKeepsNumbers(size, t.before, orderId);
      var w := Run(size, t.before).value;
      match t.step
      case Reported(r) => ReportKeepsNumbers(w, r, orderId);
      case Announced(announced, index) => AnnounceKeepsNumbers(w, announced, index, orderId);
      case _ => assert Recorded(Step(w, t.step), orderId) == Recorded(w, orderId);
    }
  }

  /** How often an update is in its order's published log is how often the hub published it. */
  lemma {:induction false} LogCountsPublications(size: int, t: Trace<Event>, x: TrackingEvent)
    requires Run(size, t).Some?
    ensures TH.PublishedTimes(HubTrace(size, t), x) == multiset(Log(Run(size, t).value.published, x.orderId))[x]
  {
    if t.Then? {
      LogCountsPublications(size, t.before, x);
      if t.step.Announced? {
        RunKeepsNumbers(size, t.before, t.step.orderId);
        AnnounceCounts(Run(size, t.before).value, t.step.orderId, t.step.index, x);
      }
    }
  }

  lemma AnnounceCounts(w: World, orderId: Uuid, index: nat, x: TrackingEvent)
    requires index < |Log(w.tasks, orderId)| && Numbered(w, orderId)
    ensures var e := Log(w.tasks, orderId)[index];
            && e.orderId == orderId && e !in Log(w.published, orderId)
            && multiset(Log(Announce(w, orderId, index).published, x.orderId))[x] ==
               multiset(Log(w.published, x.orderId))[x] + if e == x then 1 else 0
  {
    var e := Log(w.tasks, orderId)[index];
    assert e in Recorded(w, orderId);
    assert e in multiset(Log(w.tasks, orderId));
  }

  // ----- what a client's queue was sent -----

  /** What one step sends to a queue. */
  lemma SentStep(size: int, t: Trace<Event>, queue: nat, x: TrackingEvent)
    requires t.Then? && Run(size, t).Some?
    ensures var w := Run(size, t.before).value;
            TH.SentTimes(HubTrace(size, t), queue, x) == TH.SentTimes(HubTrace(size, t.before), queue, x) +
              if HubEvent(w, t.step) == Some(TH.Published(x)) && queue in TH.Subscribers(w.hub.subscribers, x.orderId) then 1 else 0
  {
    HubIsARun(size, t.before);
    TH.ListenersAreSubscribers(size, HubTrace(size, t.before), x.orderId, queue);
  }

  /** The queue was sent the i-th published update of the order iff it was published since. */
  ghost predicate SentIffSince(hub: Trace<TH.Event>, c: Client, log: seq<TrackingEvent>, i: nat)
    requires c.queue.Some? && i < |log|
  {
    TH.SentTimes(hub, c.queue.value, log[i]) == if i < c.since then 0 else 1
  }

  lemma SentByAnnouncement(size: int, t: Trace<Event>, client: nat, i: nat)
    requires t.Then? && Run(size, t).Some? && t.step.Announced?
    requires client in Run(size, t).value.clients && Run(size, t).value.clients[client].queue.Some?
    requires var w := Run(size, t.before).value; var c := w.clients[client]; var log := Log(w.published, c.orderId);
             && i <= |log| && c.since <= |log| && (i < |log| ==> SentIffSince(HubTrace(size, t.before), c, log, i))
    ensures var c := Run(size, t).value.clients[client]; var log := Log(Run(size, t).value.published, c.orderId);
            i < |log| ==> SentIffSince(HubTrace(size, t), c, log, i)
  {
    var w := Run(size, t.before).value;
    var c := w.clients[client];
    var log := Log(Run(size, t).value.published, c.orderId);
    if i < |log| {
      RunStaysWired(size, t.before);
      RunKeepsNumbers(size, t.before, t.step.orderId);
      AnnounceCounts(w, t.step.orderId, t.step.index, log[i]);
      SentStep(size, t, c.queue.value, log[i]);
      LogCountsPublications(size, t.before, log[i]);
      TH.SentWasPublished(HubTrace(size, t.before), c.queue.value, log[i]);
      assert Joined(w.hub, c);
    }
  }

  /** A connected client's queue was sent exactly the updates published since it subscribed, each
      once. */
  lemma {:induction false} SentSinceSubscribing(size: int, t: Trace<Event>, client: nat, i: nat)
    requires Run(size, t).Some? && client in Run(size, t).value.clients
    requires Run(size, t).value.clients[client].queue.Some?
    ensures var c := Run(size, t).value.clients[client]; var log := Log(Run(size, t).value.published, c.orderId);
            c.since <= |log| && (i < |log| ==> SentIffSince(HubTrace(size, t), c, log, i))
  {
    var w, w' := Run(size, t.before).value, Run(size, t).value;
    var c := w'.clients[client];
    var log := Log(w'.published, c.orderId);
    if t.step == Subscribed(client) {
      HubIsARun(size, t.before);
      if i < |log| {
        SentStep(size, t, c.queue.value, log[i]);
        TH.NothingBefore(size, HubTrace(size, t.before), c.queue.value, log[i]);
      }
    } else {
      SentSinceSubscribing(size, t.before, client, i);
      if t.step.Announced? {
        if i <= |Log(w.published, c.orderId)| {
          SentByAnnouncement(size, t, client, i);
        }
      } else if i < |log| {
        SentStep(size, t, c.queue.value, log[i]);
      }
    }
  }

  // ----- what a client was shown -----

  /** What one step gives the reader of a queue. */
  lemma ReceivedStep(size: int, t: Trace<Event>, queue: nat, x: TrackingEvent)
    requires t.Then? && Run(size, t).Some?
    ensures TH.Run(size, HubTrace(size, t.before)).Some? && TH.Run(size, HubTrace(size, t)).Some?
    ensures var w := Run(size, t.before).value;
            TH.ReceivedTimes(size, HubTrace(size, t), queue, x) == TH.ReceivedTimes(size, HubTrace(size, t.before), queue, x) +
              if HubEvent(w, t.step) == Some(TH.Took(queue)) && w.hub.queues[queue][0] == x then 1 else 0
  {
    HubIsARun(size, t.before);
    HubIsARun(size, t);
  }

  ghost predicate WasShown(size: int, t: Trace<Event>, queue: nat, x: TrackingEvent)
    requires Run(size, t).Some?
  {
    TH.Run(size, HubTrace(size, t)).Some? && TH.ReceivedTimes(size, HubTrace(size, t), queue, x) > 0
  }

  /** Nothing a client was given is above its `highest` … */
  lemma {:induction false} HighestBoundsShown(size: int, t: Trace<Event>, client: nat, x: TrackingEvent)
    requires Run(size, t).Some? && client in Run(size, t).value.clients
    requires Run(size, t).value.clients[client].queue.Some?
    requires WasShown(size, t, Run(size, t).value.clients[client].queue.value, x)
    ensures var c := Run(size, t).value.clients[client]; c.highest.Some? && x.sequence <= c.highest.value
  {
    var w := Run(size, t.before).value;
    var c := Run(size, t).value.clients[client];
    ReceivedStep(size, t, c.queue.value, x);
    HubIsARun(size, t.before);
    RunStaysWired(size, t.before);
    if t.step == Subscribed(client) {
      TH.NothingBefore(size, HubTrace(size, t.before), c.queue.value, x);
    } else if WasShown(size, t.before, c.queue.value, x) {
      HighestBoundsShown(size, t.before, client, x);
    } else {
      assert t.step == Sent(client);
    }
  }

  /** … which is the sequence of one of those updates. */
  lemma {:induction false} HighestWasShown(size: int, t: Trace<Event>, client: nat) returns (x: TrackingEvent)
    requires Run(size, t).Some? && client in Run(size, t).value.clients
    requires Run(size, t).value.clients[client].highest.Some?
    ensures var c := Run(size, t).value.clients[client];
            c.queue.Some? && WasShown(size, t, c.queue.value, x) && x.sequence == c.highest.value
  {
    var w := Run(size, t.before).value;
    var c := Run(size, t).value.clients[client];
    if t.step == Sent(client) && c.highest.value == w.hub.queues[c.queue.value][0].sequence {
      x := w.hub.queues[c.queue.value][0];
    } else {
      x := HighestWasShown(size, t.before, client);
    }
    ReceivedStep(size, t, c.queue.value, x);
  }

  /** Whatever a client's queue was sent is in its order's published log. */
  lemma {:induction false} SentIsOfTheOrder(size: int, t: Trace<Event>, client: nat, x: TrackingEvent)
    requires Run(size, t).Some? && client in Run(size, t).value.clients
    requires Run(size, t).value.clients[client].queue.Some?
    requires TH.SentTimes(HubTrace(size, t), Run(size, t).value.clients[client].queue.value, x) > 0
    ensures var c := Run(size, t).value.clients[client];
            x.orderId == c.orderId && x in Log(Run(size, t).value.published, c.orderId)
  {
    var c := Run(size, t).value.clients[client];
    LogCountsPublications(size, t, x);
    TH.SentWasPublished(HubTrace(size, t), c.queue.value, x);
    SentStep(size, t, c.queue.value, x);
    HubIsARun(size, t.before);
    RunStaysWired(size, t.before);
    if t.step == Subscribed(client) {
      TH.NothingBefore(size, HubTrace(size, t.before), c.queue.value, x);
    } else {
      assert Joined(Run(size, t.before).value.hub, Run(size, t.before).value.clients[client]);
      if TH.SentTimes(HubTrace(size, t.before), c.queue.value, x) > 0 {
        SentIsOfTheOrder(size, t.before, client, x);
      }
    }
  }

  // ----- main results -----

  /** The highest sequence a client has been shown. */
  function Seen(c: Client): int
    requires c.initial.Some?
  {
    Raise(c.highest, c.initial.value)
  }

  /** No update published for the client's order is above what it has been shown. */
  ghost predicate CaughtUp(w: World, c: Client)
    requires c.initial.Some?
  {
    forall e :: e in Log(w.published, c.orderId) ==> e.sequence <= Seen(c)
  }

  /** Connected, subscribed, loaded, and nothing left in its queue. */
  ghost predicate Drained(w: World, client: nat) {
    && client in w.clients && w.clients[client].initial.Some? && w.clients[client].queue.Some?
    && w.clients[client].queue.value < |w.hub.queues| && w.hub.queues[w.clients[client].queue.value] == []
  }

  ghost predicate IsTop(log: seq<TrackingEvent>, top: TrackingEvent) {
    top in log && forall e :: e in log ==> e.sequence <= top.sequence
  }

  lemma {:induction false} TopExists(log: seq<TrackingEvent>) returns (top: TrackingEvent)
    requires log != []
    ensures IsTop(log, top)
  {
    var last := log[|log| - 1];
    assert log == log[..|log| - 1] + [last];
    if |log| == 1 {
      top := last;
    } else {
      top := TopExists(log[..|log| - 1]);
      if last.sequence > top.sequence {
        top := last;
      }
    }
  }

  /** The update was published to the queue … */
  ghost predicate PutIn(size: int, t: Trace<Event>, queue: nat, x: TrackingEvent)
    requires Run(size, t).Some?
  {
    TH.SentTimes(HubTrace(size, t), queue, x) > 0
  }

  /** … and stood at its head, the queue being full, when another one was. */
  ghost predicate PushedOut(size: int, t: Trace<Event>, queue: nat, x: TrackingEvent)
    requires Run(size, t).Some?
  {
    TH.Run(size, HubTrace(size, t)).Some? && TH.PushedOutTimes(size, HubTrace(size, t), queue, x) > 0
  }

  /** Of what a drained client's queue was sent, each update was shown or pushed out, not both. */
  lemma ShownUnlessPushedOut(size: int, t: Trace<Event>, client: nat, x: TrackingEvent)
    requires Run(size, t).Some? && Drained(Run(size, t).value, client)
    ensures var queue := Run(size, t).value.clients[client].queue.value;
            WasShown(size, t, queue, x) <==> PutIn(size, t, queue, x) && !PushedOut(size, t, queue, x)
  {
    var w := Run(size, t).value;
    var queue := w.clients[client].queue.value;
    HubIsARun(size, t);
    TH.SentIsReceivedPushedOutOrWaiting(size, HubTrace(size, t), queue, x);
    TH.SentWasPublished(HubTrace(size, t), queue, x);
    LogCountsPublications(size, t, x);
    RunKeepsNumbers(size, t, x.orderId);
    assert multiset(Log(w.published, x.orderId))[x] <= Recorded(w, x.orderId)[x];
    assert x in Recorded(w, x.orderId) ==> Recorded(w, x.orderId)[x] == 1;
  }

  /** The update is at most the snapshot, or reached the client's queue and was not pushed out. */
  ghost predicate Kept(size: int, t: Trace<Event>, c: Client, x: TrackingEvent)
    requires Run(size, t).Some? && c.initial.Some? && c.queue.Some?
  {
    x.sequence <= c.initial.value || (PutIn(size, t, c.queue.value, x) && !PushedOut(size, t, c.queue.value, x))
  }

  lemma SeesTopIffKept(size: int, t: Trace<Event>, client: nat, top: TrackingEvent)
    requires Run(size, t).Some? && Drained(Run(size, t).value, client)
    requires IsTop(Log(Run(size, t).value.published, Run(size, t).value.clients[client].orderId), top)
    ensures var c := Run(size, t).value.clients[client];
            top.sequence <= Seen(c) <==> Kept(size, t, c, top)
  {
    var w := Run(size, t).value;
    var c := w.clients[client];
    ShownUnlessPushedOut(size, t, client, top);
    if WasShown(size, t, c.queue.value, top) {
      HighestBoundsShown(size, t, client, top);
    }
    if c.highest.Some? && top.sequence <= c.highest.value {
      var x := HighestWasShown(size, t, client);
      ShownUnlessPushedOut(size, t, client, x);
      SentIsOfTheOrder(size, t, client, x);
      RunKeepsNumbers(size, t, c.orderId);
      assert x in Recorded(w, c.orderId) && top in Recorded(w, c.orderId);
    }
  }

  /** For any order of publication: a drained client is caught up if and only if the newest
      published update was covered by its snapshot, or was published to its queue and never pushed
      out of it. */
  lemma DrainedIsCaughtUpIffKept(size: int, t: Trace<Event>, client: nat)
    requires Run(size, t).Some? && Drained(Run(size, t).value, client)
    ensures var w := Run(size, t).value; var c := w.clients[client];
            CaughtUp(w, c) <==> forall top :: IsTop(Log(w.published, c.orderId), top) ==> Kept(size, t, c, top)
  {
    var w := Run(size, t).value;
    var c := w.clients[client];
    var log := Log(w.published, c.orderId);
    forall top | IsTop(log, top) ensures top.sequence <= Seen(c) <==> Kept(size, t, c, top) {
      SeesTopIffKept(size, t, client, top);
    }
    if log != [] {
      var top := TopExists(log);
    }
  }

  /** The client never loads its snapshot before it has subscribed. */
  ghost predicate SubscribesFirst(size: int, t: Trace<Event>, client: nat) {
    t.Then? ==>
      && SubscribesFirst(size, t.before, client)
      && (t.step == Loaded(client) ==>
            Run(size, t.before).Some? && client in Run(size, t.before).value.clients &&
            Run(size, t.before).value.clients[client].queue.Some?)
  }

  /** A snapshot loaded after subscribing covers everything published before. */
  lemma {:induction false} SnapshotCoversThePast(size: int, t: Trace<Event>, client: nat, i: nat)
    requires Run(size, t).Some? && SubscribesFirst(size, t, client)
    requires client in Run(size, t).value.clients && Run(size, t).value.clients[client].initial.Some?
    ensures var c := Run(size, t).value.clients[client]; var log := Log(Run(size, t).value.published, c.orderId);
            c.queue.Some? && c.since <= |log| && (i < c.since ==> log[i].sequence <= c.initial.value)
  {
    var w := Run(size, t.before).value;
    if client in w.clients && w.clients[client].initial.Some? {
      SnapshotCoversThePast(size, t.before, client, i);
      LogOnlyGrows(w, t.step, w.clients[client].orderId, i);
    } else {
      SentSinceSubscribing(size, t.before, client, i);
      if i < w.clients[client].since {
        PublishedIsBelowSnapshot(size, t.before, w.clients[client].orderId, i);
      }
    }
  }

  lemma LogOnlyGrows(w: World, e: Event, orderId: Uuid, i: nat)
    requires Proper(w, e)
    ensures var log, log' := Log(w.published, orderId), Log(Step(w, e).published, orderId);
            |log| <= |log'| && (i < |log| ==> log'[i] == log[i])
  {
  }

  lemma PublishedIsBelowSnapshot(size: int, t: Trace<Event>, orderId: Uuid, i: nat)
    requires Run(size, t).Some? && i < |Log(Run(size, t).value.published, orderId)|
    ensures Log(Run(size, t).value.published, orderId)[i].sequence <= CurrentSequence(Run(size, t).value.records, orderId)
  {
    RunKeepsNumbers(size, t, orderId);
    assert Log(Run(size, t).value.published, orderId)[i] in Recorded(Run(size, t).value, orderId);
  }

  /** For a client that subscribes first, as the websocket handler does, being pushed out of its
      queue is the only way to miss the newest update. */
  lemma SubscribedFirstIsCaughtUpIffNotPushedOut(size: int, t: Trace<Event>, client: nat)
    requires Run(size, t).Some? && SubscribesFirst(size, t, client) && Drained(Run(size, t).value, client)
    ensures var w := Run(size, t).value; var c := w.clients[client];
            CaughtUp(w, c) <==>
              forall top :: IsTop(Log(w.published, c.orderId), top) ==>
                top.sequence <= c.initial.value || !PushedOut(size, t, c.queue.value, top)
  {
    var w := Run(size, t).value;
    var c := w.clients[client];
    var log := Log(w.published, c.orderId);
    DrainedIsCaughtUpIffKept(size, t, client);
    forall top | IsTop(log, top) && top.sequence > c.initial.value ensures PutIn(size, t, c.queue.value, top) {
      var i: nat :| i < |log| && log[i] == top;
      SnapshotCoversThePast(size, t, client, i);
      SentSinceSubscribing(size, t, client, i);
      assert SentIffSince(HubTrace(size, t), c, log, i);
    }
  }

  // ----- publishing in order -----

  /** Each order's updates are published in the order they were recorded. */
  predicate InOrder(t: Trace<Event>) {
    t.Then? ==> InOrder(t.before) && (t.step.Announced? ==> t.step.index == 0)
  }

  /** The published updates of an order are 1, 2, … and the waiting ones go on from there. */
  ghost predicate InLine(done: seq<TrackingEvent>, waiting: seq<TrackingEvent>, orderId: Uuid) {
    && (forall i :: 0 <= i < |done| ==> done[i].sequence == i + 1)
    && (forall i :: 0 <= i < |waiting| ==> waiting[i].sequence == |done| + 1 + i && waiting[i].orderId == orderId)
  }

  /** The snapshot carries the last number of all. */
  ghost predicate Line(w: World, orderId: Uuid) {
    && InLine(Log(w.published, orderId), Log(w.tasks, orderId), orderId)
    && CurrentSequence(w.records, orderId) == |Log(w.published, orderId)| + |Log(w.tasks, orderId)|
    && (orderId in w.records.snapshots ==> w.records.snapshots[orderId].orderId == orderId)
  }

  lemma FirstMovesOn(done: seq<TrackingEvent>, waiting: seq<TrackingEvent>, orderId: Uuid)
    requires waiting != [] && InLine(done, waiting, orderId)
    ensures InLine(done + [waiting[0]], waiting[1..], orderId)
  {
  }

  lemma ReportKeepsLine(w: World, r: Report, orderId: Uuid)
    requires Line(w, orderId)
    ensures Line(Report(w, r), orderId)
  {
  }

  lemma AnnounceKeepsLine(w: World, announced: Uuid, orderId: Uuid)
    requires |Log(w.tasks, announced)| > 0 && Line(w, orderId)
    ensures Line(Announce(w, announced, 0), orderId)
  {
    var w' := Announce(w, announced, 0);
    if announced == orderId {
      var done, waiting := Log(w.published, orderId), Log(w.tasks, orderId);
      FirstMovesOn(done, waiting, orderId);
      assert Log(w'.published, orderId) == done + [waiting[0]];
      assert Log(w'.tasks, orderId) == waiting[1..];
    } else {
      assert Log(w'.published, orderId) == Log(w.published, orderId) && Log(w'.tasks, orderId) == Log(w.tasks, orderId);
    }
  }

  lemma LineStep(w: World, e: Event, orderId: Uuid)
    requires Proper(w, e) && Line(w, orderId) && (e.Announced? ==> e.index == 0)
    ensures Line(Step(w, e), orderId)
  {
    match e
    case Reported(r) => ReportKeepsLine(w, r, orderId);
    case Announced(announced, _) => AnnounceKeepsLine(w, announced, orderId);
    case _ =>
      assert Log(Step(w, e).tasks, orderId) == Log(w.tasks, orderId);
      assert Log(Step(w, e).published, orderId) == Log(w.published, orderId);
  }

  lemma {:induction false} RunKeepsLine(size: int, t: Trace<Event>, orderId: Uuid)
    requires Run(size, t).Some? && InOrder(t)
    ensures Line(Run(size, t).value, orderId)
  {
    if t.Then? {
      RunKeepsLine(size, t.before, orderId);
      LineStep(Run(size, t.before).value, t.step, orderId);
    }
  }

  /** What one step pushes out of a queue. */
  lemma PushedOutStep(size: int, t: Trace<Event>, queue: nat, x: TrackingEvent)
    requires t.Then? && Run(size, t).Some?
    ensures var w := Run(size, t.before).value; var did := HubEvent(w, t.step);
            PushedOut(size, t, queue, x) <==>
              || PushedOut(size, t.before, queue, x)
              || (did.Some? && TH.Loses(w.hub, did.value, queue) && w.hub.queues[queue][0] == x)
  {
    HubIsARun(size, t.before);
    HubIsARun(size, t);
    TH.HubStaysSound(size, HubTrace(size, t.before));
  }

  /** In order, what is pushed out is never the newest. */
  lemma {:induction false} InOrderPushesOutOlder(size: int, t: Trace<Event>, client: nat, x: TrackingEvent)
    requires Run(size, t).Some? && InOrder(t) && client in Run(size, t).value.clients
    requires Run(size, t).value.clients[client].queue.Some?
    requires PushedOut(size, t, Run(size, t).value.clients[client].queue.value, x)
    ensures x.sequence < |Log(Run(size, t).value.published, Run(size, t).value.clients[client].orderId)|
  {
    var w := Run(size, t.before).value;
    var c := Run(size, t).value.clients[client];
    PushedOutStep(size, t, c.queue.value, x);
    HubIsARun(size, t.before);
    RunStaysWired(size, t.before);
    if t.step == Subscribed(client) {
      TH.NothingBefore(size, HubTrace(size, t.before), c.queue.value, x);
    } else if PushedOut(size, t.before, c.queue.value, x) {
      InOrderPushesOutOlder(size, t.before, client, x);
    } else {
      assert Joined(w.hub, w.clients[client]);
      PushedOutNowIsOlder(size, t.before, client, t.step.orderId);
    }
  }

  /** The update announced to a full queue is newer than the one at its head. */
  lemma PushedOutNowIsOlder(size: int, t: Trace<Event>, client: nat, announced: Uuid)
    requires Run(size, t).Some? && InOrder(t) && client in Run(size, t).value.clients
    requires |Log(Run(size, t).value.tasks, announced)| > 0
    requires var w := Run(size, t).value; var c := w.clients[client];
             c.queue.Some? && Joined(w.hub, c) && TH.Loses(w.hub, TH.Published(Log(w.tasks, announced)[0]), c.queue.value)
    ensures var w := Run(size, t).value; var c := w.clients[client];
            && announced == c.orderId && c.queue.value < |w.hub.queues| && w.hub.queues[c.queue.value] != []
            && w.hub.queues[c.queue.value][0].sequence <= |Log(w.published, announced)|
  {
    RunKeepsLine(size, t, announced);
    HeadIsPublished(size, t, client);
  }

  lemma HeadIsPublished(size: int, t: Trace<Event>, client: nat)
    requires Run(size, t).Some? && client in Run(size, t).value.clients
    requires var c := Run(size, t).value.clients[client];
             c.queue.Some? && TH.CanTake(Run(size, t).value.hub, c.queue.value)
    ensures var w := Run(size, t).value; var c := w.clients[client];
            w.hub.queues[c.queue.value][0] in Log(w.published, c.orderId)
  {
    var c := Run(size, t).value.clients[client];
    var q := Run(size, t).value.hub.queues[c.queue.value];
    HubIsARun(size, t);
    TH.SentIsReceivedPushedOutOrWaiting(size, HubTrace(size, t), c.queue.value, q[0]);
    TH.WithoutHead(q, q[0]);
    SentIsOfTheOrder(size, t, client, q[0]);
  }

  /** In order, drop-oldest does not matter: a drained client is caught up if and only if its
      snapshot covered everything published before it subscribed, or something has been published
      since. */
  lemma DrainedIsCaughtUpIff(size: int, t: Trace<Event>, client: nat)
    requires Run(size, t).Some? && InOrder(t) && Drained(Run(size, t).value, client)
    ensures var w := Run(size, t).value; var c := w.clients[client];
            CaughtUp(w, c) <==> c.initial.value >= c.since || |Log(w.published, c.orderId)| > c.since
  {
    var w := Run(size, t).value;
    var c := w.clients[client];
    var log := Log(w.published, c.orderId);
    DrainedIsCaughtUpIffKept(size, t, client);
    RunKeepsLine(size, t, c.orderId);
    SentSinceSubscribing(size, t, client, 0);
    SnapshotsCountFromZero(size, t, client);
    if log != [] {
      NewestInOrder(size, t, client);
    }
  }

  /** In order, the newest update is the last one published; nothing pushes it out. */
  lemma NewestInOrder(size: int, t: Trace<Event>, client: nat)
    requires Run(size, t).Some? && InOrder(t) && Drained(Run(size, t).value, client)
    requires Log(Run(size, t).value.published, Run(size, t).value.clients[client].orderId) != []
    ensures var c := Run(size, t).value.clients[client]; var log := Log(Run(size, t).value.published, c.orderId);
            && IsTop(log, log[|log| - 1]) && log[|log| - 1].sequence == |log|
            && (forall top :: IsTop(log, top) ==> top == log[|log| - 1])
            && !PushedOut(size, t, c.queue.value, log[|log| - 1])
            && (PutIn(size, t, c.queue.value, log[|log| - 1]) <==> |log| > c.since)
  {
    var c := Run(size, t).value.clients[client];
    var log := Log(Run(size, t).value.published, c.orderId);
    RunKeepsLine(size, t, c.orderId);
    SentSinceSubscribing(size, t, client, |log| - 1);
    assert SentIffSince(HubTrace(size, t), c, log, |log| - 1);
    LastIsTop(log);
    if PushedOut(size, t, c.queue.value, log[|log| - 1]) {
      InOrderPushesOutOlder(size, t, client, log[|log| - 1]);
    }
  }

  lemma LastIsTop(log: seq<TrackingEvent>)
    requires log != [] && forall i :: 0 <= i < |log| ==> log[i].sequence == i + 1
    ensures IsTop(log, log[|log| - 1]) && forall top :: IsTop(log, top) ==> top == log[|log| - 1]
  {
    assert log[|log| - 1] in log;
  }

  lemma {:induction false} SnapshotsCountFromZero(size: int, t: Trace<Event>, client: nat)
    requires Run(size, t).Some? && client in Run(size, t).value.clients
    ensures var c := Run(size, t).value.clients[client]; c.initial.Some? ==> c.initial.value >= 0
  {
    var w := Run(size, t.before).value;
    if client in w.clients {
      SnapshotsCountFromZero(size, t.before, client);
      RunKeepsNumbers(size, t.before, w.clients[client].orderId);
    }
    LoadCountsFromZero(w, t.step, client);
  }

  lemma LoadCountsFromZero(w: World, e: Event, client: nat)
    requires Proper(w, e) && client in Step(w, e).clients
    requires client in w.clients ==>
               && CurrentSequence(w.records, w.clients[client].orderId) >= 0
               && (w.clients[client].initial.Some? ==> w.clients[client].initial.value >= 0)
    ensures var c := Step(w, e).clients[client]; c.initial.Some? ==> c.initial.value >= 0
  {
  }

  /** The websocket handler's order of steps leaves no gap: once its queue is drained the client
      has been shown, by the snapshot or an update, a position at least as new as the latest
      published, whatever drop-oldest discarded. */
  lemma SubscribeThenLoadLeavesNoGap(size: int, t: Trace<Event>, client: nat)
    requires Run(size, t).Some? && InOrder(t) && SubscribesFirst(size, t, client)
    requires Drained(Run(size, t).value, client)
    ensures CaughtUp(Run(size, t).value, Run(size, t).value.clients[client])
  {
    var w := Run(size, t).value;
    var c := w.clients[client];
    var log := Log(w.published, c.orderId);
    SubscribedFirstIsCaughtUpIffNotPushedOut(size, t, client);
    if log != [] {
      NewestInOrder(size, t, client);
    }
  }

  lemma OneStep(size: int, t: Trace<Event>, w: World, e: Event) returns (t': Trace<Event>, w': World)
    requires Run(size, t) == Some(w) && Proper(w, e)
    ensures t' == Then(t, e) && w' == Step(w, e) && Run(size, t') == Some(w')
  {
    t', w' := Then(t, e), Step(w, e);
  }

  /** The order of those two steps is needed: a client that loads first and then subscribes, as
      the event-stream route does, can be drained and still behind. */
  lemma LoadThenSubscribeCanLeaveAGap(size: int, r: Report) returns (t: Trace<Event>)
    ensures Run(size, t).Some? && InOrder(t) && Drained(Run(size, t).value, 0)
    ensures !CaughtUp(Run(size, t).value, Run(size, t).value.clients[0])
  {
    var o, first := r.orderId, AsEvent(Accept(r, 1));
    var w := World(NO_RECORDS, TH.Empty(size), map[], map[], map[]);
    t, w := OneStep(size, Start, w, Connected(0, o));
    t, w := OneStep(size, t, w, Loaded(0));
    assert InOrder(t);
    t, w := OneStep(size, t, w, Reported(r));
    assert InOrder(t) && Log(w.tasks, o) == [first];
    t, w := OneStep(size, t, w, Announced(o, 0));
    assert Log(w.published, o) == [first] && w.hub.queues == [];
    t, w := OneStep(size, t, w, Subscribed(0));
    assert w.clients[0] == Client(o, Some(0), 1, Some(0), None) && w.hub.queues == [[]];
    assert first in Log(w.published, o);
  }

  /** One client, subscribed and then loaded, and two reports of its order waiting. */
  lemma TwoWaiting(r: Report, other: Uuid) returns (t: Trace<Event>, w: World)
    requires other != r.clientEventId
    ensures Run(1, t) == Some(w) && SubscribesFirst(1, t, 0)
    ensures 0 in w.clients && w.clients[0] == Client(r.orderId, Some(0), 0, Some(0), None)
    ensures TH.Subscribers(w.hub.subscribers, r.orderId) == {0} && w.hub.queues == [[]] && w.hub.size == 1
    ensures Log(w.tasks, r.orderId) == [AsEvent(Accept(r, 1)), AsEvent(Accept(r.(clientEventId := other), 2))]
    ensures Log(w.published, r.orderId) == []
  {
    w := World(NO_RECORDS, TH.Empty(1), map[], map[], map[]);
    t, w := OneStep(1, Start, w, Connected(0, r.orderId));
    t, w := OneStep(1, t, w, Subscribed(0));
    assert SubscribesFirst(1, t, 0);
    t, w := OneStep(1, t, w, Loaded(0));
    assert SubscribesFirst(1, t, 0);
    t, w := OneStep(1, t, w, Reported(r));
    assert SubscribesFirst(1, t, 0);
    t, w := OneStep(1, t, w, Reported(r.(clientEventId := other)));
  }

  /** The second report is announced first; the announcement of the first pushes it out. */
  lemma NewerPushedOut(r: Report, other: Uuid) returns (t: Trace<Event>, w: World, first: TrackingEvent, second: TrackingEvent)
    requires other != r.clientEventId
    ensures Run(1, t) == Some(w) && SubscribesFirst(1, t, 0)
    ensures 0 in w.clients && w.clients[0] == Client(r.orderId, Some(0), 0, Some(0), None)
    ensures |w.hub.queues| == 1 && w.hub.queues[0] == [first] && Log(w.published, r.orderId) == [second, first]
    ensures first.sequence == 1 && second.sequence == 2
  {
    t, w := TwoWaiting(r, other);
    var o := r.orderId;
    first, second := Log(w.tasks, o)[0], Log(w.tasks, o)[1];
    t, w := OneStep(1, t, w, Announced(o, 1));
    assert SubscribesFirst(1, t, 0) && Log(w.tasks, o) == [first];
    assert w.hub.queues[0] == [second];
    t, w := OneStep(1, t, w, Announced(o, 0));
  }

  /** So is publishing in order: with a queue of one, an older update published late pushes the
      newer one out, and the drained client is behind although it subscribed first. */
  lemma LatePublishingCanHideTheLatest(r: Report, other: Uuid) returns (t: Trace<Event>)
    requires other != r.clientEventId
    ensures Run(1, t).Some? && SubscribesFirst(1, t, 0) && Drained(Run(1, t).value, 0)
    ensures !CaughtUp(Run(1, t).value, Run(1, t).value.clients[0])
  {
    var w, first, second;
    t, w, first, second := NewerPushedOut(r, other);
    t, w := OneStep(1, t, w, Sent(0));
    assert w.clients[0].highest == Some(1) && w.hub.queues[0] == [];
    assert second in Log(w.published, r.orderId);
  }
}
