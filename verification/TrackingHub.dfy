/** The hub of src/delivery_service/tracking.py: one bounded queue per subscriber, the oldest
    update dropped when a slow reader's queue is full.  Queues are numbered in the order they
    were handed out. */
module TrackingHub {
  import opened Basics
  import opened Traces
  import opened Tracking

  type Queue = seq<TrackingEvent>

  datatype Hub = Hub(size: int, subscribers: map<Uuid, set<nat>>, queues: seq<Queue>, dropped: nat)

  function Empty(size: int): Hub {
    Hub(size, map[], [], 0)
  }

  /** A size of zero or less means no bound. */
  predicate Full(size: int, q: Queue) {
    0 < size <= |q|
  }

  function Push(size: int, q: Queue, e: TrackingEvent): Queue {
    if Full(size, q) then q[1..] + [e] else q + [e]
  }

  function Subscribers(subscribers: map<Uuid, set<nat>>, orderId: Uuid): set<nat> {
    if orderId in subscribers then subscribers[orderId] else {}
  }

  function Subscribe(h: Hub, orderId: Uuid): Hub {
    h.(queues := h.queues + [[]],
       subscribers := h.subscribers[orderId := Subscribers(h.subscribers, orderId) + {|h.queues|}])
  }

  /** An order nobody follows any more is forgotten. */
  function Unsubscribe(h: Hub, orderId: Uuid, queue: nat): Hub {
    var rest := Subscribers(h.subscribers, orderId) - {queue};
    h.(subscribers := if rest == {} then h.subscribers - {orderId} else h.subscribers[orderId := rest])
  }

  function Delivered(size: int, queues: seq<Queue>, to: set<nat>, e: TrackingEvent): (r: seq<Queue>)
    ensures |r| == |queues|
  {
    seq(|queues|, i requires 0 <= i < |queues| => if i in to then Push(size, queues[i], e) else queues[i])
  }

  function FullOnes(size: int, queues: seq<Queue>, to: set<nat>): set<nat> {
    set i | i in to && i < |queues| && Full(size, queues[i])
  }

  function Publish(h: Hub, e: TrackingEvent): Hub {
    var to := Subscribers(h.subscribers, e.orderId);
    h.(queues := Delivered(h.size, h.queues, to, e), dropped := h.dropped + |FullOnes(h.size, h.queues, to)|)
  }

  predicate CanTake(h: Hub, queue: nat) {
    queue < |h.queues| && h.queues[queue] != []
  }

  function Take(h: Hub, queue: nat): Hub
    requires CanTake(h, queue)
  {
    h.(queues := h.queues[queue := h.queues[queue][1..]])
  }

  /** What publishing does, field by field: every subscriber of the order gets the update at the
      end of its queue, a queue that was full loses its head, and these are counted. */
  lemma PublishedFields(h: Hub, e: TrackingEvent)
    requires Sound(h)
    ensures var h' := Publish(h, e);
            var full := set q | 0 <= q < |h.queues| && e.orderId in h.subscribers && q in h.subscribers[e.orderId]
                                && 0 < h.size <= |h.queues[q]|;
            && h'.size == h.size && h'.subscribers == h.subscribers && |h'.queues| == |h.queues|
            && h'.dropped == h.dropped + |full|
            && forall q :: 0 <= q < |h.queues| ==>
                 h'.queues[q] == if !(e.orderId in h.subscribers && q in h.subscribers[e.orderId]) then h.queues[q]
                                 else if q in full then h.queues[q][1..] + [e]
                                 else h.queues[q] + [e]
  {
    var full := set q | 0 <= q < |h.queues| && e.orderId in h.subscribers && q in h.subscribers[e.orderId]
                        && 0 < h.size <= |h.queues[q]|;
    assert FullOnes(h.size, h.queues, Subscribers(h.subscribers, e.orderId)) == full;
  }

  ghost predicate Sound(h: Hub) {
    && (forall o :: o in h.subscribers ==> h.subscribers[o] != {})
    && (forall o, q :: o in h.subscribers && q in h.subscribers[o] ==> q < |h.queues|)
  }

  class LiveHub {
    const queueSize: int
    var subscribers: map<Uuid, set<nat>>
    var queues: seq<Queue>
    var droppedUpdates: nat

    ghost function Value(): Hub
      reads this
    {
      Hub(queueSize, subscribers, queues, droppedUpdates)
    }

    constructor (queueSize: int)
      ensures Value() == Empty(queueSize)
    {
      this.queueSize := queueSize;
      subscribers, queues, droppedUpdates := map[], [], 0;
    }

    method Join(orderId: Uuid) returns (queue: nat)
      modifies this
      ensures queue == |old(queues)| && Value() == Subscribe(old(Value()), orderId)
      ensures queues == old(queues) + [[]] && droppedUpdates == old(droppedUpdates)
      ensures orderId in subscribers && queue in subscribers[orderId]
    {
      queue := |queues|;
      queues := queues + [[]];
      if orderId in subscribers {
        subscribers := subscribers[orderId := subscribers[orderId] + {queue}];
      } else {
        subscribers := subscribers[orderId := {queue}];
        assert {} + {queue} == {queue};
      }
    }

    method Leave(orderId: Uuid, queue: nat)
      requires Sound(Value())
      modifies this
      ensures Value() == Unsubscribe(old(Value()), orderId, queue) && Sound(Value())
    {
      if orderId !in subscribers {
        assert subscribers - {orderId} == subscribers;
        return;
      }
      var rest := subscribers[orderId] - {queue};
      if rest == {} {
        subscribers := subscribers - {orderId};
      } else {
        subscribers := subscribers[orderId := rest];
      }
    }

    method SubscriberCount(orderId: Uuid) returns (n: nat)
      ensures n == |Subscribers(subscribers, orderId)|
    {
      if orderId in subscribers {
        n := |subscribers[orderId]|;
      } else {
        n := 0;
      }
    }

    /** Visits the queues one by one, in any order. */
    method Broadcast(e: TrackingEvent)
      requires Sound(Value())
      modifies this
      ensures Value() == Publish(old(Value()), e) && Sound(Value())
    {
      if e.orderId !in subscribers {
        assert FullOnes(queueSize, queues, {}) == {};
        assert Delivered(queueSize, queues, {}, e) == queues;
        return;
      }
      ghost var was, count := queues, droppedUpdates;
      var to := subscribers[e.orderId];
      var waiting := to;
      ghost var done: set<nat> := {};
      while waiting != {}
        invariant done == to - waiting && waiting <= to
        invariant subscribers == old(subscribers)
        invariant queues == Delivered(queueSize, was, done, e)
        invariant droppedUpdates == count + |FullOnes(queueSize, was, done)|
        decreases waiting
      {
        var q :| q in waiting;
        NextFull(queueSize, was, done, q);
        if 0 < queueSize <= |queues[q]| {
          queues := queues[q := queues[q][1..]];
          droppedUpdates := droppedUpdates + 1;
        }
        queues := queues[q := queues[q] + [e]];
        waiting, done := waiting - {q}, done + {q};
      }
      assert done == to;
    }

    /** The reader's side of a queue; it waits while there is nothing to take. */
    method TakeNext(queue: nat) returns (e: TrackingEvent)
      requires CanTake(Value(), queue)
      modifies this
      ensures e == old(queues[queue][0]) && Value() == Take(old(Value()), queue)
    {
      e := queues[queue][0];
      queues := queues[queue := queues[queue][1..]];
    }
  }

  lemma NextFull(size: int, queues: seq<Queue>, done: set<nat>, q: nat)
    requires q !in done && q < |queues|
    ensures |FullOnes(size, queues, done + {q})| ==
              |FullOnes(size, queues, done)| + if Full(size, queues[q]) then 1 else 0
  {
    assert FullOnes(size, queues, done + {q}) ==
           FullOnes(size, queues, done) + if Full(size, queues[q]) then {q} else {};
  }

  // ----- runs -----

  datatype Event =
    | Subscribed(orderId: Uuid)
    | Unsubscribed(orderId: Uuid, queue: nat)
    | Published(event: TrackingEvent)
    | Took(queue: nat)

  predicate Proper(h: Hub, e: Event) {
    e.Took? ==> CanTake(h, e.queue)
  }

  function Step(h: Hub, e: Event): Hub
    requires Proper(h, e)
  {
    match e
    case Subscribed(orderId) => Subscribe(h, orderId)
    case Unsubscribed(orderId, queue) => Unsubscribe(h, orderId, queue)
    case Published(event) => Publish(h, event)
    case Took(queue) => Take(h, queue)
  }

  function Run(size: int, t: Trace<Event>): Option<Hub> {
    match t
    case Start => Some(Empty(size))
    case Then(before, e) =>
      var h := Run(size, before);
      if h.Some? && Proper(h.value, e) then Some(Step(h.value, e)) else None
  }

  // ----- what a run means, read off the trace alone -----

  /** How many queues have been handed out. */
  function Handed(t: Trace<Event>): nat {
    match t
    case Start => 0
    case Then(before, e) => Handed(before) + if e.Subscribed? then 1 else 0
  }

  predicate Listening(t: Trace<Event>, orderId: Uuid, queue: nat) {
    match t
    case Start => false
    case Then(before, e) =>
      match e
      case Subscribed(o) => (o == orderId && queue == Handed(before)) || Listening(before, orderId, queue)
      case Unsubscribed(o, q) => Listening(before, orderId, queue) && !(o == orderId && q == queue)
      case Published(_) => Listening(before, orderId, queue)
      case Took(_) => Listening(before, orderId, queue)
  }

  /** Everything published for the queue's order while it was subscribed. */
  function Sent(t: Trace<Event>, queue: nat): seq<TrackingEvent> {
    match t
    case Start => []
    case Then(before, e) =>
      if e.Published? && Listening(before, e.event.orderId, queue) then Sent(before, queue) + [e.event]
      else Sent(before, queue)
  }

  /** How many updates the reader of the queue has taken. */
  function Taken(t: Trace<Event>, queue: nat): nat {
    match t
    case Start => 0
    case Then(before, e) => Taken(before, queue) + if e == Took(queue) then 1 else 0
  }

  lemma {:induction false} ListenersAreSubscribers(size: int, t: Trace<Event>, orderId: Uuid, queue: nat)
    requires Run(size, t).Some?
    ensures |Run(size, t).value.queues| == Handed(t)
    ensures queue in Subscribers(Run(size, t).value.subscribers, orderId) <==> Listening(t, orderId, queue)
    ensures Listening(t, orderId, queue) ==> queue < Handed(t)
  {
    if t.Then? {
      ListenersAreSubscribers(size, t.before, orderId, queue);
    }
  }

  lemma {:induction false} HubStaysSound(size: int, t: Trace<Event>)
    requires Run(size, t).Some?
    ensures Sound(Run(size, t).value) && Run(size, t).value.size == size
  {
    if t.Then? {
      HubStaysSound(size, t.before);
    }
  }

  /** `queue` is the tail of `sent`. */
  ghost predicate EndsWith(queue: Queue, sent: seq<TrackingEvent>) {
    |queue| <= |sent| && forall i :: 0 <= i < |queue| ==> queue[i] == sent[|sent| - |queue| + i]
  }

  ghost predicate BoundedTail(size: int, queue: Queue, sent: seq<TrackingEvent>) {
    EndsWith(queue, sent) && (size > 0 ==> |queue| <= size)
  }

  lemma PushKeepsTail(size: int, q: Queue, sent: seq<TrackingEvent>, e: TrackingEvent)
    requires BoundedTail(size, q, sent)
    ensures BoundedTail(size, Push(size, q, e), sent + [e])
  {
    var q', d := Push(size, q, e), if Full(size, q) then 1 else 0;
    assert |q'| == |q| - d + 1;
    forall i | 0 <= i < |q'| ensures q'[i] == (sent + [e])[|sent| + 1 - |q'| + i] {
      if i < |q'| - 1 {
        assert q'[i] == q[i + d] == sent[|sent| - |q| + i + d];
      }
    }
  }

  lemma TakeKeepsTail(size: int, q: Queue, sent: seq<TrackingEvent>)
    requires BoundedTail(size, q, sent) && q != []
    ensures BoundedTail(size, q[1..], sent)
  {
  }

  /** A step on one queue: pushed to if it is subscribed to the published order, shortened if it
      is read, and otherwise left alone. */
  lemma QueueStep(h: Hub, e: Event, queue: nat)
    requires Proper(h, e) && queue < |h.queues|
    ensures |Step(h, e).queues| > queue
    ensures Step(h, e).queues[queue] ==
              if e.Published? && queue in Subscribers(h.subscribers, e.event.orderId) then Push(h.size, h.queues[queue], e.event)
              else if e == Took(queue) then h.queues[queue][1..]
              else h.queues[queue]
  {
  }

  /** In every run each queue is the tail of what was published to it, and never longer than the
      bound. */
  lemma {:induction false} QueuesAreSuffixes(size: int, t: Trace<Event>, queue: nat)
    requires Run(size, t).Some? && queue < |Run(size, t).value.queues|
    ensures BoundedTail(size, Run(size, t).value.queues[queue], Sent(t, queue))
  {
    if queue < |Run(size, t.before).value.queues| {
      QueuesAreSuffixes(size, t.before, queue);
      HubStaysSound(size, t.before);
      SuffixStep(Run(size, t.before).value, t.step, queue, Sent(t.before, queue));
      if t.step.Published? {
        ListenersAreSubscribers(size, t.before, t.step.event.orderId, queue);
      }
    } else {
      NoHistoryBefore(size, t.before, queue);
    }
  }

  lemma SuffixStep(h: Hub, e: Event, queue: nat, sent: seq<TrackingEvent>)
    requires Proper(h, e) && queue < |h.queues| && BoundedTail(h.size, h.queues[queue], sent)
    ensures queue < |Step(h, e).queues|
    ensures BoundedTail(h.size, Step(h, e).queues[queue],
                        if e.Published? && queue in Subscribers(h.subscribers, e.event.orderId) then sent + [e.event] else sent)
  {
    QueueStep(h, e, queue);
    if e.Published? {
      PushKeepsTail(h.size, h.queues[queue], sent, e.event);
    } else if e == Took(queue) {
      TakeKeepsTail(h.size, h.queues[queue], sent);
    }
  }

  /** A queue not yet handed out has no history. */
  lemma {:induction false} NoHistoryBefore(size: int, t: Trace<Event>, queue: nat)
    requires Run(size, t).Some? && queue >= |Run(size, t).value.queues|
    ensures Sent(t, queue) == [] && Taken(t, queue) == 0
  {
    if t.Then? {
      StepGrows(Run(size, t.before).value, t.step);
      NoHistoryBefore(size, t.before, queue);
      if t.step.Published? {
        ListenersAreSubscribers(size, t.before, t.step.event.orderId, queue);
      }
    }
  }

  // ----- what is lost -----

  /** Updates sent to the queue that are neither taken nor still waiting in it. */
  ghost function Lost(size: int, t: Trace<Event>, queue: nat): int
    requires Run(size, t).Some? && queue < |Run(size, t).value.queues|
  {
    |Sent(t, queue)| - Taken(t, queue) - |Run(size, t).value.queues[queue]|
  }

  ghost function Losses(size: int, t: Trace<Event>): (r: seq<int>)
    requires Run(size, t).Some?
    ensures |r| == |Run(size, t).value.queues|
  {
    seq(|Run(size, t).value.queues|, i requires 0 <= i < |Run(size, t).value.queues| => Lost(size, t, i))
  }

  ghost function Sum(s: seq<int>, n: nat): int
    requires n <= |s|
  {
    if n == 0 then 0 else Sum(s, n - 1) + s[n - 1]
  }

  /** The queues below `n` that a step makes lose an update. */
  ghost function Losers(h: Hub, e: Event, n: nat): set<nat> {
    set q | 0 <= q < n && Loses(h, e, q)
  }

  ghost predicate Loses(h: Hub, e: Event, queue: nat) {
    && e.Published? && queue in Subscribers(h.subscribers, e.event.orderId)
    && queue < |h.queues| && Full(h.size, h.queues[queue])
  }

  lemma {:induction false} LostStep(size: int, t: Trace<Event>, queue: nat)
    requires t.Then? && Run(size, t).Some? && queue < |Run(size, t.before).value.queues|
    ensures queue < |Run(size, t).value.queues|
    ensures Lost(size, t, queue) == Lost(size, t.before, queue) +
              if Loses(Run(size, t.before).value, t.step, queue) then 1 else 0
  {
    HubStaysSound(size, t.before);
    QueueStep(Run(size, t.before).value, t.step, queue);
    if t.step.Published? {
      ListenersAreSubscribers(size, t.before, t.step.event.orderId, queue);
    }
  }

  lemma {:induction false} SumGrows(was: seq<int>, now: seq<int>, h: Hub, e: Event, n: nat)
    requires n <= |was| && n <= |now|
    requires forall i :: 0 <= i < n ==> now[i] == was[i] + if Loses(h, e, i) then 1 else 0
    ensures Sum(now, n) == Sum(was, n) + |Losers(h, e, n)|
  {
    if n > 0 {
      SumGrows(was, now, h, e, n - 1);
      OneMoreLoser(h, e, n - 1);
    } else {
      assert Losers(h, e, 0) == {};
    }
  }

  lemma OneMoreLoser(h: Hub, e: Event, n: nat)
    ensures |Losers(h, e, n + 1)| == |Losers(h, e, n)| + if Loses(h, e, n) then 1 else 0
  {
    assert Losers(h, e, n + 1) == Losers(h, e, n) + if Loses(h, e, n) then {n} else {};
  }

  lemma QueuesGrow(size: int, t: Trace<Event>)
    requires t.Then? && Run(size, t).Some?
    ensures |Run(size, t).value.queues| == |Run(size, t.before).value.queues| + if t.step.Subscribed? then 1 else 0
  {
    StepGrows(Run(size, t.before).value, t.step);
  }

  lemma StepGrows(h: Hub, e: Event)
    requires Proper(h, e)
    ensures |Step(h, e).queues| == |h.queues| + if e.Subscribed? then 1 else 0
  {
  }

  lemma NewQueueLosesNothing(size: int, t: Trace<Event>)
    requires t.Then? && t.step.Subscribed? && Run(size, t).Some?
    ensures var n := |Run(size, t.before).value.queues|;
            n < |Run(size, t).value.queues| && Lost(size, t, n) == 0
  {
    var n := |Run(size, t.before).value.queues|;
    NoHistoryBefore(size, t.before, n);
    assert Run(size, t).value.queues[n] == [];
  }

  lemma {:induction false} LossStep(size: int, t: Trace<Event>, i: nat)
    requires t.Then? && Run(size, t).Some? && i < |Losses(size, t.before)|
    ensures i < |Losses(size, t)|
    ensures Losses(size, t)[i] == Losses(size, t.before)[i] + if Loses(Run(size, t.before).value, t.step, i) then 1 else 0
  {
    LostStep(size, t, i);
  }

  lemma {:induction false} TotalStep(size: int, t: Trace<Event>)
    requires t.Then? && Run(size, t).Some?
    ensures var n := |Losses(size, t.before)|;
            && n <= |Losses(size, t)|
            && Sum(Losses(size, t), n) == Sum(Losses(size, t.before), n) + |Losers(Run(size, t.before).value, t.step, n)|
  {
    var was, now := Losses(size, t.before), Losses(size, t);
    QueuesGrow(size, t);
    forall i | 0 <= i < |was|
      ensures now[i] == was[i] + if Loses(Run(size, t.before).value, t.step, i) then 1 else 0
    {
      LossStep(size, t, i);
    }
    SumGrows(was, now, Run(size, t.before).value, t.step, |was|);
  }

  lemma {:induction false} CounterStep(size: int, t: Trace<Event>)
    requires t.Then? && Run(size, t).Some?
    ensures var h := Run(size, t.before).value;
            Run(size, t).value.dropped == h.dropped + |Losers(h, t.step, |h.queues|)|
  {
    var h := Run(size, t.before).value;
    HubStaysSound(size, t.before);
    if t.step.Published? {
      assert Losers(h, t.step, |h.queues|) == FullOnes(size, h.queues, Subscribers(h.subscribers, t.step.event.orderId));
    } else {
      assert Losers(h, t.step, |h.queues|) == {};
    }
  }

  /** Conservation: the hub's counter is, over all queues ever handed out, what was published to
      them minus what was taken from them minus what still waits in them. */
  lemma {:induction false} DroppedIsPublishedMinusTakenMinusQueued(size: int, t: Trace<Event>)
    requires Run(size, t).Some?
    ensures Run(size, t).value.dropped == Sum(Losses(size, t), |Losses(size, t)|)
  {
    if t.Then? {
      DroppedIsPublishedMinusTakenMinusQueued(size, t.before);
      QueuesGrow(size, t);
      TotalStep(size, t);
      CounterStep(size, t);
      if t.step.Subscribed? {
        NewQueueLosesNothing(size, t);
      }
    }
  }

  /** The updates the reader of a queue has been given, oldest first. */
  ghost function Received(size: int, t: Trace<Event>, queue: nat): (r: seq<TrackingEvent>)
    requires Run(size, t).Some?
    ensures |r| == Taken(t, queue)
  {
    match t
    case Start => []
    case Then(before, e) =>
      Received(size, before, queue) + if e == Took(queue) then [Run(size, before).value.queues[queue][0]] else []
  }

  // ----- where one update went -----

  /** How often the update was published. */
  function PublishedTimes(t: Trace<Event>, x: TrackingEvent): nat {
    match t
    case Start => 0
    case Then(before, e) => PublishedTimes(before, x) + if e == Published(x) then 1 else 0
  }

  /** How often the update was published while the queue was subscribed to its order. */
  function SentTimes(t: Trace<Event>, queue: nat, x: TrackingEvent): nat {
    match t
    case Start => 0
    case Then(before, e) =>
      SentTimes(before, queue, x) + if e == Published(x) && Listening(before, x.orderId, queue) then 1 else 0
  }

  /** How often the reader of the queue was given the update. */
  ghost function ReceivedTimes(size: int, t: Trace<Event>, queue: nat, x: TrackingEvent): nat
    requires Run(size, t).Some?
  {
    match t
    case Start => 0
    case Then(before, e) =>
      ReceivedTimes(size, before, queue, x) +
      if e == Took(queue) && Run(size, before).value.queues[queue][0] == x then 1 else 0
  }

  /** How often the update was pushed out: it stood at the head of the full queue when another
      update was published to it. */
  ghost function PushedOutTimes(size: int, t: Trace<Event>, queue: nat, x: TrackingEvent): nat
    requires Run(size, t).Some?
  {
    match t
    case Start => 0
    case Then(before, e) =>
      PushedOutTimes(size, before, queue, x) +
      if Loses(Run(size, before).value, e, queue) && Run(size, before).value.queues[queue][0] == x then 1 else 0
  }

  ghost function WaitingTimes(q: Queue, x: TrackingEvent): nat {
    multiset(q)[x]
  }

  /** Update by update: as often as it was sent to a queue it was received, pushed out, or still
      waits there. */
  lemma {:induction false} SentIsReceivedPushedOutOrWaiting(size: int, t: Trace<Event>, queue: nat, x: TrackingEvent)
    requires Run(size, t).Some? && queue < |Run(size, t).value.queues|
    ensures SentTimes(t, queue, x) ==
            ReceivedTimes(size, t, queue, x) + PushedOutTimes(size, t, queue, x) +
            WaitingTimes(Run(size, t).value.queues[queue], x)
  {
    if queue < |Run(size, t.before).value.queues| {
      SentIsReceivedPushedOutOrWaiting(size, t.before, queue, x);
      HubStaysSound(size, t.before);
      UpdateMoves(Run(size, t.before).value, t.step, queue, x);
      if t.step.Published? {
        ListenersAreSubscribers(size, t.before, t.step.event.orderId, queue);
      }
    } else {
      NothingBefore(size, t.before, queue, x);
      assert Run(size, t).value.queues[queue] == [];
    }
  }

  /** One step adds an update to the queue, takes one from its head, or pushes one out there. */
  lemma UpdateMoves(h: Hub, e: Event, queue: nat, x: TrackingEvent)
    requires Proper(h, e) && queue < |h.queues|
    ensures |Step(h, e).queues| > queue
    ensures WaitingTimes(h.queues[queue], x) +
            (if e == Published(x) && queue in Subscribers(h.subscribers, x.orderId) then 1 else 0) ==
            WaitingTimes(Step(h, e).queues[queue], x) +
            (if e == Took(queue) && h.queues[queue][0] == x then 1 else 0) +
            (if Loses(h, e, queue) && h.queues[queue][0] == x then 1 else 0)
  {
    QueueStep(h, e, queue);
    if h.queues[queue] != [] {
      WithoutHead(h.queues[queue], x);
    }
    if e.Published? {
      WithOneMore(h.queues[queue], e.event, x);
      if h.queues[queue] != [] {
        WithOneMore(h.queues[queue][1..], e.event, x);
      }
    }
  }

  lemma WithoutHead(q: Queue, x: TrackingEvent)
    requires q != []
    ensures WaitingTimes(q, x) == WaitingTimes(q[1..], x) + if q[0] == x then 1 else 0
  {
    assert q == [q[0]] + q[1..];
  }

  lemma WithOneMore(q: Queue, e: TrackingEvent, x: TrackingEvent)
    ensures WaitingTimes(q + [e], x) == WaitingTimes(q, x) + if e == x then 1 else 0
  {
  }

  /** A queue not yet handed out has seen no update. */
  lemma {:induction false} NothingBefore(size: int, t: Trace<Event>, queue: nat, x: TrackingEvent)
    requires Run(size, t).Some? && queue >= |Run(size, t).value.queues|
    ensures SentTimes(t, queue, x) == ReceivedTimes(size, t, queue, x) == PushedOutTimes(size, t, queue, x) == 0
  {
    if t.Then? {
      StepGrows(Run(size, t.before).value, t.step);
      NothingBefore(size, t.before, queue, x);
      if t.step.Published? {
        ListenersAreSubscribers(size, t.before, t.step.event.orderId, queue);
      }
    }
  }

  /** What is sent to one queue was published. */
  lemma {:induction false} SentWasPublished(t: Trace<Event>, queue: nat, x: TrackingEvent)
    ensures SentTimes(t, queue, x) <= PublishedTimes(t, x)
  {
    if t.Then? {
      SentWasPublished(t.before, queue, x);
    }
  }

  // ----- a queue that lost nothing -----

  /** A queue has lost nothing if and only if its reader has received, or will find waiting,
      everything published to it, in order. */
  lemma LosslessIffWholeStream(size: int, t: Trace<Event>, queue: nat)
    requires Run(size, t).Some? && queue < |Run(size, t).value.queues|
    ensures Lost(size, t, queue) >= 0
    ensures Lost(size, t, queue) == 0 <==> WholeStream(size, t, queue)
  {
    LosslessIsWhole(size, t, queue);
  }

  ghost predicate WholeStream(size: int, t: Trace<Event>, queue: nat)
    requires Run(size, t).Some? && queue < |Run(size, t).value.queues|
  {
    Received(size, t, queue) + Run(size, t).value.queues[queue] == Sent(t, queue)
  }

  lemma {:induction false} LosslessIsWhole(size: int, t: Trace<Event>, queue: nat)
    requires Run(size, t).Some? && queue < |Run(size, t).value.queues|
    ensures Lost(size, t, queue) >= 0
    ensures Lost(size, t, queue) == 0 ==> WholeStream(size, t, queue)
  {
    if queue < |Run(size, t.before).value.queues| {
      LosslessIsWhole(size, t.before, queue);
      LostStep(size, t, queue);
      HubStaysSound(size, t.before);
      if Lost(size, t, queue) == 0 {
        WholeStreamStep(Run(size, t.before).value, t.step, queue, Received(size, t.before, queue), Sent(t.before, queue));
        if t.step.Published? {
          ListenersAreSubscribers(size, t.before, t.step.event.orderId, queue);
        }
      }
    } else {
      NoHistoryBefore(size, t.before, queue);
    }
  }

  /** One step that loses nothing, on what was received, what waits and what was sent. */
  lemma WholeStreamStep(h: Hub, e: Event, queue: nat, got: seq<TrackingEvent>, sent: seq<TrackingEvent>)
    requires Proper(h, e) && queue < |h.queues| && !Loses(h, e, queue)
    requires got + h.queues[queue] == sent
    ensures |Step(h, e).queues| > queue
    ensures (got + if e == Took(queue) then [h.queues[queue][0]] else []) + Step(h, e).queues[queue] ==
            sent + if e.Published? && queue in Subscribers(h.subscribers, e.event.orderId) then [e.event] else []
  {
    var q := h.queues[queue];
    QueueStep(h, e, queue);
    if e == Took(queue) {
      Regroup(got, [q[0]], q[1..]);
      assert q == [q[0]] + q[1..];
    } else if e.Published? {
      Regroup(got, q, [e.event]);
    }
  }

  lemma Regroup(a: seq<TrackingEvent>, b: seq<TrackingEvent>, c: seq<TrackingEvent>)
    ensures (a + b) + c == a + (b + c)
  {
  }
}
