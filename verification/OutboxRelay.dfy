/** The outbox relay of src/delivery_service/outbox.py: a bounded batch is locked, handed to the
    broker row by row and marked, and the caller's transaction commits or rolls back. */
module OutboxRelay {
  import opened Basics
  import opened Ordering
  import opened Traces

  datatype Row = Row(
    eventType: string,
    payload: string,
    createdAt: int,
    publishedAt: Option<int>,
    legacyProcessedAt: Option<int>)

  type Rows = map<Uuid, Row>

  predicate Pending(row: Row) {
    row.publishedAt.None? && row.legacyProcessedAt.None?
  }

  function Marked(row: Row, moment: int): Row {
    row.(publishedAt := Some(moment), legacyProcessedAt := Some(moment))
  }

  function MarkedAll(rows: Rows, ids: set<Uuid>, moment: int): Rows {
    map id | id in rows :: if id in ids then Marked(rows[id], moment) else rows[id]
  }

  function AsSet(ids: seq<Uuid>): set<Uuid> {
    set id | id in ids
  }

  // ----- one relay call -----

  datatype OutboxEvent = OutboxEvent(id: Uuid, eventType: string, payload: string)

  datatype RelayResult = Published(ids: seq<Uuid>) | BrokerFailed | NoTransaction | BadBatchSize

  /** A broker that confirms a number of messages and then fails. */
  class Broker {
    var accepted: seq<OutboxEvent>
    var confirmations: nat

    method Publish(event: OutboxEvent) returns (ok: bool)
      modifies this
      ensures ok <==> old(confirmations) > 0
      ensures ok ==> accepted == old(accepted) + [event] && confirmations == old(confirmations) - 1
      ensures !ok ==> accepted == old(accepted) && confirmations == old(confirmations)
    {
      if confirmations == 0 {
        return false;
      }
      accepted := accepted + [event];
      confirmations := confirmations - 1;
      return true;
    }
  }

  /** The rows a relay may take: pending, and locked by nobody else. */
  function Available(rows: Rows, locked: set<Uuid>): set<Key> {
    set id | id in rows && Pending(rows[id]) && id !in locked :: Key(rows[id].createdAt, id)
  }

  function Events(rows: Rows, ids: seq<Uuid>): seq<OutboxEvent>
    requires forall id :: id in ids ==> id in rows
  {
    if ids == [] then []
    else
      var id := ids[|ids| - 1];
      Events(rows, ids[..|ids| - 1]) + [OutboxEvent(id, rows[id].eventType, rows[id].payload)]
  }

  lemma {:induction false} EventsInOrder(rows: Rows, ids: seq<Uuid>)
    requires forall id :: id in ids ==> id in rows
    ensures |Events(rows, ids)| == |ids|
    ensures forall i :: 0 <= i < |ids| ==> ids[i] in ids && Events(rows, ids)[i] == OutboxEvent(ids[i], rows[ids[i]].eventType, rows[ids[i]].payload)
  {
    if ids != [] {
      EventsInOrder(rows, ids[..|ids| - 1]);
    }
  }

  /** The batch is the oldest `batchSize` available rows, in order. */
  ghost predicate IsBatch(rows: Rows, locked: set<Uuid>, batchSize: int, ids: seq<Uuid>) {
    exists s :: Sorts(s, Available(rows, locked)) && ids == Ids(if |s| <= batchSize then s else s[..Natural(batchSize)])
  }

  function Natural(n: int): nat {
    if n < 0 then 0 else n
  }

  function Ids(s: seq<Key>): (ids: seq<Uuid>)
    ensures |ids| == |s| && forall i :: 0 <= i < |s| ==> ids[i] == s[i].id
  {
    seq(|s|, i requires 0 <= i < |s| => s[i].id)
  }

  /** `now` is `was` with both timestamp columns of exactly these rows set to the moment. */
  ghost predicate BothMarksSet(was: Rows, now: Rows, ids: seq<Uuid>, moment: int) {
    now.Keys == was.Keys && forall id :: id in was ==>
      now[id] == if id in ids then was[id].(publishedAt := Some(moment), legacyProcessedAt := Some(moment)) else was[id]
  }

  /** The broker was given, after what it had, the id, type and payload of these rows in order. */
  ghost predicate HandedOn(had: seq<OutboxEvent>, has: seq<OutboxEvent>, rows: Rows, ids: seq<Uuid>) {
    && |has| == |had| + |ids| && has[..|had|] == had
    && forall i :: 0 <= i < |ids| ==>
         ids[i] in rows && has[|had| + i] == OutboxEvent(ids[i], rows[ids[i]].eventType, rows[ids[i]].payload)
  }

  class OutboxTable {
    var rows: Rows

    /** Marks and returns exactly the rows the broker confirmed, oldest first; a broker failure
        part-way leaves the marks made so far in the session, for the caller to roll back. */
    method PublishPending(inTransaction: bool, locked: set<Uuid>, broker: Broker, moment: int, batchSize: int)
      returns (result: RelayResult, ghost batch: seq<Uuid>, ghost sent: nat)
      modifies this, broker
      ensures result.NoTransaction? <==> !inTransaction
      ensures result.BadBatchSize? <==> inTransaction && !(1 <= batchSize <= 200)
      ensures result.NoTransaction? || result.BadBatchSize? ==>
                rows == old(rows) && broker.accepted == old(broker.accepted)
      ensures result.Published? || result.BrokerFailed? ==>
                && IsBatch(old(rows), locked, batchSize, batch)
                && (forall id :: id in batch ==> id in old(rows))
                && sent <= |batch| && Progress(old(rows), batch, sent, moment, rows)
                && broker.accepted == old(broker.accepted) + Events(old(rows), batch[..sent])
      ensures result.Published? ==> result.ids == batch && sent == |batch|
      ensures result.BrokerFailed? ==> sent == old(broker.confirmations) < |batch|
      ensures forall id :: id in batch ==>
                id in old(rows) && old(rows)[id].publishedAt.None? && old(rows)[id].legacyProcessedAt.None? && id !in locked
      ensures (result.Published? || result.BrokerFailed?) && |batch| < batchSize ==>
                forall id :: id in old(rows) && old(rows)[id].publishedAt.None? && old(rows)[id].legacyProcessedAt.None? ==>
                  id in locked || id in batch
      ensures sent <= |batch|
      ensures BothMarksSet(old(rows), rows, batch[..sent], moment) && HandedOn(old(broker.accepted), broker.accepted, old(rows), batch[..sent])
    {
      batch, sent := [], 0;
      if !inTransaction {
        return NoTransaction, batch, sent;
      }
      if !(1 <= batchSize <= 200) {
        return BadBatchSize, batch, sent;
      }
      var taken := SelectBatch(rows, locked, batchSize);
      var ok;
      ok, sent := HandOverAll(taken, broker, moment);
      batch := taken;
      if !ok {
        return BrokerFailed, batch, sent;
      }
      return Published(taken), batch, sent;
    }

    /** Publish each locked row, then mark it, until done or the broker fails. */
    method HandOverAll(taken: seq<Uuid>, broker: Broker, moment: int) returns (ok: bool, ghost sent: nat)
      requires forall id :: id in taken ==> id in rows
      modifies this, broker
      ensures sent <= |taken| && Progress(old(rows), taken, sent, moment, rows)
      ensures broker.accepted == old(broker.accepted) + Events(old(rows), taken[..sent])
      ensures if ok then sent == |taken| else sent == old(broker.confirmations) < |taken|
      ensures BothMarksSet(old(rows), rows, taken[..sent], moment) && HandedOn(old(broker.accepted), broker.accepted, old(rows), taken[..sent])
    {
      ok, sent := HandOverEach(taken, broker, moment);
      EventsInOrder(old(rows), taken[..sent]);
      assert forall i :: 0 <= i < sent ==> taken[..sent][i] == taken[i];
    }

    /** The loop itself. */
    method HandOverEach(taken: seq<Uuid>, broker: Broker, moment: int) returns (ok: bool, ghost sent: nat)
      requires forall id :: id in taken ==> id in rows
      modifies this, broker
      ensures sent <= |taken| && Progress(old(rows), taken, sent, moment, rows)
      ensures broker.accepted == old(broker.accepted) + Events(old(rows), taken[..sent])
      ensures if ok then sent == |taken| else sent == old(broker.confirmations) < |taken|
    {
      var n := 0;
      while n < |taken|
        invariant 0 <= n <= |taken| && Progress(old(rows), taken, n, moment, rows)
        invariant broker.accepted == old(broker.accepted) + Events(old(rows), taken[..n])
        invariant broker.confirmations == old(broker.confirmations) - n
      {
        var id := taken[n];
        assert id in taken;
        MarkOneMore(old(rows), rows, taken, n, moment);
        var confirmed := broker.Publish(OutboxEvent(id, rows[id].eventType, rows[id].payload));
        if !confirmed {
          return false, n;
        }
        rows := rows[id := Marked(rows[id], moment)];
        assert taken[..n + 1][..n] == taken[..n];
        n := n + 1;
      }
      return true, n;
    }
  }

  /** The table after the first `n` of `ids` were marked. */
  predicate Progress(rows: Rows, ids: seq<Uuid>, n: nat, moment: int, now: Rows)
    requires n <= |ids|
  {
    now == MarkedAll(rows, AsSet(ids[..n]), moment)
  }

  method SelectBatch(rows: Rows, locked: set<Uuid>, batchSize: int) returns (ids: seq<Uuid>)
    requires batchSize >= 1
    ensures IsBatch(rows, locked, batchSize, ids) && |ids| <= batchSize
    ensures forall id :: id in ids ==>
              id in rows && rows[id].publishedAt.None? && rows[id].legacyProcessedAt.None? && id !in locked
    ensures |ids| < batchSize ==>
              forall id :: id in rows && rows[id].publishedAt.None? && rows[id].legacyProcessedAt.None? ==> id in locked || id in ids
  {
    var sorted := Sort(Available(rows, locked));
    ids := Ids(if |sorted| <= batchSize then sorted else sorted[..Natural(batchSize)]);
    BatchRowsAreAvailable(rows, locked, sorted, batchSize, ids);
    BatchIsOldestFirst(rows, locked, batchSize, ids);
  }

  /** The same in keys. */
  lemma BatchKeys(rows: Rows, locked: set<Uuid>, batchSize: int, ids: seq<Uuid>)
    requires batchSize >= 1 && IsBatch(rows, locked, batchSize, ids)
    ensures forall i :: 0 <= i < |ids| ==> ids[i] in rows && Key(rows[ids[i]].createdAt, ids[i]) in Available(rows, locked)
    ensures forall i, j :: 0 <= i < j < |ids| ==>
              Less(Key(rows[ids[i]].createdAt, ids[i]), Key(rows[ids[j]].createdAt, ids[j]))
    ensures |ids| == if |Available(rows, locked)| <= batchSize then |Available(rows, locked)| else batchSize
    ensures |ids| < batchSize ==> forall k :: k in Available(rows, locked) ==> k.id in ids
    ensures forall k, i :: k in Available(rows, locked) && k.id !in ids && 0 <= i < |ids| ==>
              Less(Key(rows[ids[i]].createdAt, ids[i]), k)
  {
    var s, n := BatchPrefix(rows, locked, batchSize, ids);
    SortedSize(s, Available(rows, locked));
    forall i | 0 <= i < |ids| ensures Key(rows[ids[i]].createdAt, ids[i]) in Available(rows, locked) {
      assert s[i] in s;
    }
    forall k | k in Available(rows, locked)
      ensures |ids| < batchSize ==> k.id in ids
      ensures k.id !in ids ==> forall i :: 0 <= i < |ids| ==> Less(Key(rows[ids[i]].createdAt, ids[i]), k)
    {
      TakenOrLater(s, n, ids, k);
    }
  }

  /** A batch is the identifiers of the first keys of the sorted supply. */
  lemma BatchPrefix(rows: Rows, locked: set<Uuid>, batchSize: int, ids: seq<Uuid>) returns (s: seq<Key>, n: nat)
    requires batchSize >= 1 && IsBatch(rows, locked, batchSize, ids)
    ensures Sorts(s, Available(rows, locked)) && n == |ids| <= |s| && n == if |s| <= batchSize then |s| else batchSize
    ensures forall i :: 0 <= i < n ==> ids[i] in rows && s[i] == Key(rows[ids[i]].createdAt, ids[i])
  {
    s :| Sorts(s, Available(rows, locked)) && ids == Ids(if |s| <= batchSize then s else s[..Natural(batchSize)]);
    n := |ids|;
    forall i | 0 <= i < n ensures ids[i] in rows && s[i] == Key(rows[ids[i]].createdAt, ids[i]) {
      assert s[i] in Available(rows, locked);
    }
  }

  lemma TakenOrLater(s: seq<Key>, n: nat, ids: seq<Uuid>, k: Key)
    requires Increasing(s) && n == |ids| <= |s| && k in s && forall i :: 0 <= i < n ==> s[i].id == ids[i]
    ensures n == |s| ==> k.id in ids
    ensures k.id !in ids ==> forall i :: 0 <= i < n ==> Less(s[i], k)
  {
    var j :| 0 <= j < |s| && s[j] == k;
    if j < n {
      assert ids[j] in ids;
    }
  }

  /** Row `a` is older than row `b`; identifiers break ties. */
  predicate Older(rows: Rows, a: Uuid, b: Uuid)
    requires a in rows && b in rows
  {
    rows[a].createdAt < rows[b].createdAt || (rows[a].createdAt == rows[b].createdAt && a < b)
  }

  /** What a batch is, in the columns of the table: its rows carry neither mark and are unlocked,
      they come oldest first, no such row left behind is older, and none is left behind unless the
      batch is full. */
  lemma BatchIsOldestFirst(rows: Rows, locked: set<Uuid>, batchSize: int, ids: seq<Uuid>)
    requires batchSize >= 1 && IsBatch(rows, locked, batchSize, ids)
    ensures |ids| <= batchSize
    ensures forall i :: 0 <= i < |ids| ==>
              ids[i] in rows && rows[ids[i]].publishedAt.None? && rows[ids[i]].legacyProcessedAt.None? && ids[i] !in locked
    ensures forall i, j :: 0 <= i < j < |ids| ==> Older(rows, ids[i], ids[j])
    ensures forall id :: id in rows && rows[id].publishedAt.None? && rows[id].legacyProcessedAt.None? && id !in locked ==>
              id in ids || forall i :: 0 <= i < |ids| ==> Older(rows, ids[i], id)
    ensures |ids| < batchSize ==>
              forall id :: id in rows && rows[id].publishedAt.None? && rows[id].legacyProcessedAt.None? && id !in locked ==> id in ids
  {
    BatchKeys(rows, locked, batchSize, ids);
    forall id | id in rows && rows[id].publishedAt.None? && rows[id].legacyProcessedAt.None? && id !in locked
      ensures Key(rows[id].createdAt, id) in Available(rows, locked)
    {
    }
  }

  lemma MarkOneMore(rows: Rows, marked: Rows, ids: seq<Uuid>, n: nat, moment: int)
    requires n < |ids| && ids[n] in rows
    requires Progress(rows, ids, n, moment, marked)
    ensures Progress(rows, ids, n + 1, moment, marked[ids[n] := Marked(marked[ids[n]], moment)])
    ensures marked[ids[n]].eventType == rows[ids[n]].eventType && marked[ids[n]].payload == rows[ids[n]].payload
  {
    assert forall id :: id in ids[..n + 1] <==> id in ids[..n] || id == ids[n];
  }

  lemma BatchRowsAreAvailable(rows: Rows, locked: set<Uuid>, sorted: seq<Key>, batchSize: int, ids: seq<Uuid>)
    requires Sorts(sorted, Available(rows, locked)) && batchSize >= 1
    requires ids == Ids(if |sorted| <= batchSize then sorted else sorted[..Natural(batchSize)])
    ensures forall id :: id in ids ==> id in rows && Pending(rows[id]) && id !in locked
  {
    forall id | id in ids ensures id in rows && Pending(rows[id]) && id !in locked {
      var i :| 0 <= i < |ids| && ids[i] == id;
      assert sorted[i] in Available(rows, locked);
    }
  }

  // ----- any number of relays, commits and crashes -----

  type Tx = nat

  /** An open relay transaction: rows locked and not yet handed over, rows the broker has but
      the session has not marked, and rows marked. */
  datatype Relay = Relay(waiting: set<Uuid>, confirmed: set<Uuid>, marked: set<Uuid>, moment: int)

  function Holds(r: Relay): set<Uuid> {
    r.waiting + r.confirmed + r.marked
  }

  function HandedOver(r: Relay): set<Uuid> {
    r.confirmed + r.marked
  }

  /** The table, the row locks with their owners, and the open relay transactions. */
  datatype World = World(rows: Rows, locks: map<Uuid, Tx>, open: map<Tx, Relay>)

  datatype Event =
    | Insert(id: Uuid, row: Row)
    | Lock(tx: Tx, batch: set<Uuid>, moment: int)
    | HandOver(tx: Tx, id: Uuid)
    | Mark(tx: Tx, id: Uuid)
    | Commit(tx: Tx)
    | Rollback(tx: Tx)

  /** SKIP LOCKED: a batch holds pending rows whose lock is free, in any number and order.
      A relay commits only after its loop is done; it may crash at any point. */
  predicate Proper(w: World, e: Event) {
    match e
    case Insert(id, row) => id !in w.rows && Pending(row)
    case Lock(tx, batch, _) =>
      tx !in w.open && forall id :: id in batch ==> id in w.rows && Pending(w.rows[id]) && id !in w.locks
    case HandOver(tx, id) => tx in w.open && id in w.open[tx].waiting
    case Mark(tx, id) => tx in w.open && id in w.open[tx].confirmed
    case Commit(tx) => tx in w.open && w.open[tx].waiting == {} && w.open[tx].confirmed == {}
    case Rollback(tx) => tx in w.open
  }

  function Step(w: World, e: Event): World
    requires Proper(w, e)
  {
    match e
    case Insert(id, row) => w.(rows := w.rows[id := row])
    case Lock(tx, batch, moment) =>
      World(w.rows, w.locks + (map id | id in batch :: tx), w.open[tx := Relay(batch, {}, {}, moment)])
    case HandOver(tx, id) =>
      var r := w.open[tx];
      w.(open := w.open[tx := r.(waiting := r.waiting - {id}, confirmed := r.confirmed + {id})])
    case Mark(tx, id) =>
      var r := w.open[tx];
      w.(open := w.open[tx := r.(confirmed := r.confirmed - {id}, marked := r.marked + {id})])
    case Commit(tx) =>
      var r := w.open[tx];
      World(MarkedAll(w.rows, r.marked, r.moment), w.locks - Holds(r), w.open - {tx})
    case Rollback(tx) => World(w.rows, w.locks - Holds(w.open[tx]), w.open - {tx})
  }

  function Run(t: Trace<Event>): Option<World> {
    match t
    case Start => Some(World(map[], map[], map[]))
    case Then(before, e) =>
      var w := Run(before);
      if w.Some? && Proper(w.value, e) then Some(Step(w.value, e)) else None
  }

  /** How often the broker has been given the row. */
  function HandOvers(t: Trace<Event>, id: Uuid): nat {
    match t
    case Start => 0
    case Then(before, e) => HandOvers(before, id) + (if e.HandOver? && e.id == id then 1 else 0)
  }

  /** How many transactions were rolled back after they had handed the row over. */
  function RolledBackAfter(t: Trace<Event>, id: Uuid): nat {
    match t
    case Start => 0
    case Then(before, e) =>
      RolledBackAfter(before, id) +
      (if e.Rollback? && Run(before).Some? && Proper(Run(before).value, e)
          && id in HandedOver(Run(before).value.open[e.tx]) then 1 else 0)
  }

  /** Handed over by a transaction that is still open. */
  predicate InFlight(w: World, id: Uuid) {
    id in w.locks && w.locks[id] in w.open && id in HandedOver(w.open[w.locks[id]])
  }

  predicate IsPublished(w: World, id: Uuid) {
    id in w.rows && !Pending(w.rows[id])
  }

  predicate Owns(w: World, tx: Tx, id: Uuid) {
    tx in w.open && id in Holds(w.open[tx])
  }

  /** What is true of a row an open relay holds: the lock is that relay's, the committed row is
      pending, and it is either still waiting or handed over. */
  predicate WellHeld(w: World, tx: Tx, id: Uuid)
    requires tx in w.open
  {
    && id in w.locks && w.locks[id] == tx
    && id in w.rows && Pending(w.rows[id])
    && (id in w.open[tx].waiting ==> id !in HandedOver(w.open[tx]))
  }

  /** Held rows are well held, and no lock outlives its relay. */
  ghost predicate LocksHold(w: World) {
    && (forall tx, id :: Owns(w, tx, id) ==> WellHeld(w, tx, id))
    && (forall id :: id in w.locks ==> Owns(w, w.locks[id], id))
  }

  /** Every hand-over is accounted for: it was rolled back, it is still open, or it is published. */
  ghost predicate Accounted(t: Trace<Event>, w: World, id: Uuid) {
    HandOvers(t, id) ==
      RolledBackAfter(t, id) + (if InFlight(w, id) then 1 else 0) + (if IsPublished(w, id) then 1 else 0)
  }

  lemma StepKeepsLocks(w: World, e: Event)
    requires LocksHold(w) && Proper(w, e)
    ensures LocksHold(Step(w, e))
  {
    var w' := Step(w, e);
    if e.Commit? || e.Rollback? {
      forall id | id in Holds(w.open[e.tx]) ensures id in w.locks && w.locks[id] == e.tx {
        assert Owns(w, e.tx, id);
      }
    }
    forall tx, id | Owns(w', tx, id) ensures WellHeld(w', tx, id) {
      assert tx in w.open ==> Owns(w, tx, id);
    }
    forall id | id in w'.locks ensures Owns(w', w'.locks[id], id) {
      assert id in w.locks ==> Owns(w, w.locks[id], id);
    }
  }

  /** What one step does to the two places where a hand-over is remembered. */
  lemma StepMovesHandOver(w: World, e: Event, id: Uuid)
    requires LocksHold(w) && Proper(w, e)
    ensures var w' := Step(w, e);
            var ended := (e.Commit? || e.Rollback?) && id in HandedOver(w.open[e.tx]);
            && (e.HandOver? && e.id == id ==> !InFlight(w, id) && InFlight(w', id))
            && (ended ==> InFlight(w, id) && !InFlight(w', id))
            && (!(e.HandOver? && e.id == id) && !ended ==> (InFlight(w', id) <==> InFlight(w, id)))
            && (IsPublished(w', id) <==> IsPublished(w, id) || (ended && e.Commit?))
            && (ended ==> !IsPublished(w, id))
  {
    assert id in w.locks ==> Owns(w, w.locks[id], id);
    if !e.Insert? && !e.Lock? {
      assert id in Holds(w.open[e.tx]) ==> Owns(w, e.tx, id);
    }
  }

  lemma StepKeepsAccount(t: Trace<Event>, e: Event, id: Uuid)
    requires Run(Then(t, e)).Some? && LocksHold(Run(t).value) && Accounted(t, Run(t).value, id)
    ensures Accounted(Then(t, e), Run(Then(t, e)).value, id)
  {
    StepMovesHandOver(Run(t).value, e, id);
  }

  lemma {:induction false} RunKeepsLocks(t: Trace<Event>)
    requires Run(t).Some?
    ensures LocksHold(Run(t).value)
  {
    if t.Then? {
      RunKeepsLocks(t.before);
      StepKeepsLocks(Run(t.before).value, t.step);
    }
  }

  lemma {:induction false} RunKeepsAccount(t: Trace<Event>, id: Uuid)
    requires Run(t).Some?
    ensures Accounted(t, Run(t).value, id)
  {
    if t.Then? {
      RunKeepsAccount(t.before, id);
      RunKeepsLocks(t.before);
      StepKeepsAccount(t.before, t.step, id);
    }
  }

  // ----- main results -----

  /** No row is ever held by two open relays, a held row is still pending, and a row is locked
      only while some open relay holds it: a crash frees its rows for the next relay. */
  lemma NoRowHeldTwice(t: Trace<Event>, a: Tx, b: Tx, id: Uuid)
    requires Run(t).Some? && a in Run(t).value.open && b in Run(t).value.open
    requires id in Holds(Run(t).value.open[a]) && id in Holds(Run(t).value.open[b])
    ensures a == b && id in Run(t).value.rows
    ensures Run(t).value.rows[id].publishedAt.None? && Run(t).value.rows[id].legacyProcessedAt.None?
  {
    RunKeepsLocks(t);
    assert Owns(Run(t).value, a, id) && Owns(Run(t).value, b, id);
  }

  /** Once no relay that holds it is open, an unpublished row can be locked again. */
  lemma CrashFreesRows(t: Trace<Event>, id: Uuid, tx: Tx, moment: int)
    requires Run(t).Some? && id in Run(t).value.rows && tx !in Run(t).value.open
    requires Run(t).value.rows[id].publishedAt.None? && Run(t).value.rows[id].legacyProcessedAt.None?
    requires forall a :: a in Run(t).value.open ==> id !in Holds(Run(t).value.open[a])
    ensures Proper(Run(t).value, Lock(tx, {id}, moment))
  {
    RunKeepsLocks(t);
    LockedMeansOwned(Run(t).value, id);
  }

  lemma LockedMeansOwned(w: World, id: Uuid)
    requires LocksHold(w)
    ensures id in w.locks ==> exists tx :: Owns(w, tx, id)
  {
  }

  /** A row committed as published was handed over exactly once plus once for every transaction
      that was rolled back after handing it over; without such crashes, exactly once. */
  lemma PublishedRowsWereHandedOver(t: Trace<Event>, id: Uuid)
    requires Run(t).Some? && id in Run(t).value.rows
    requires Run(t).value.rows[id].publishedAt.Some? || Run(t).value.rows[id].legacyProcessedAt.Some?
    ensures HandOvers(t, id) == 1 + RolledBackAfter(t, id)
  {
    RunKeepsAccount(t, id);
    RunKeepsLocks(t);
    PublishedIsNotInFlight(Run(t).value, id);
  }

  lemma PublishedIsNotInFlight(w: World, id: Uuid)
    requires LocksHold(w)
    ensures !(IsPublished(w, id) && InFlight(w, id))
  {
    assert id in w.locks ==> Owns(w, w.locks[id], id);
  }

  /** A row not yet published was handed over only by crashed relays, or by the one now open. */
  lemma UnpublishedRowsWaitForRetry(t: Trace<Event>, id: Uuid)
    requires Run(t).Some?
    requires id in Run(t).value.rows ==>
               Run(t).value.rows[id].publishedAt.None? && Run(t).value.rows[id].legacyProcessedAt.None?
    ensures HandOvers(t, id) == RolledBackAfter(t, id) + (if InFlight(Run(t).value, id) then 1 else 0)
  {
    RunKeepsAccount(t, id);
  }

  lemma OneStep(t: Trace<Event>, w: World, e: Event) returns (t': Trace<Event>, w': World)
    requires Run(t) == Some(w) && Proper(w, e)
    ensures t' == Then(t, e) && w' == Step(w, e) && Run(t') == Some(w')
  {
    t', w' := Then(t, e), Step(w, e);
  }

  /** A relay that dies between the broker's confirmation and its commit makes the next one hand
      the row over again. */
  lemma CrashRepeatsTheHandOver(id: Uuid, row: Row, moment: int) returns (t: Trace<Event>)
    requires Pending(row)
    ensures Run(t).Some? && IsPublished(Run(t).value, id) && HandOvers(t, id) == 2
  {
    var w: World;
    t, w := OneStep(Start, World(map[], map[], map[]), Insert(id, row));
    assert HandOvers(t, id) == 0;
    t, w := OneStep(t, w, Lock(1, {id}, moment));
    assert HandOvers(t, id) == 0;
    t, w := OneStep(t, w, HandOver(1, id));
    assert HandOvers(t, id) == 1;
    t, w := OneStep(t, w, Rollback(1));
    assert w.rows == map[id := row] && id !in w.locks && w.open == map[] && HandOvers(t, id) == 1;
    t, w := OneStep(t, w, Lock(2, {id}, moment));
    assert HandOvers(t, id) == 1;
    t, w := OneStep(t, w, HandOver(2, id));
    assert w.open[2] == Relay({}, {id}, {}, moment) && HandOvers(t, id) == 2;
    t, w := OneStep(t, w, Mark(2, id));
    assert w.open[2] == Relay({}, {}, {id}, moment) && HandOvers(t, id) == 2;
    t, w := OneStep(t, w, Commit(2));
  }

  // ----- the loop of `PublishPending` is such a run -----

  /** The steps of a relay that has handed over and marked the first `n` rows of its batch. */
  function Drained(t: Trace<Event>, tx: Tx, ids: seq<Uuid>, n: nat): Trace<Event>
    requires n <= |ids|
  {
    if n == 0 then t
    else Then(Then(Drained(t, tx, ids, n - 1), HandOver(tx, ids[n - 1])), Mark(tx, ids[n - 1]))
  }

  ghost predicate Distinct(ids: seq<Uuid>) {
    forall i, j :: 0 <= i < j < |ids| ==> ids[i] != ids[j]
  }

  lemma BatchIsLockable(w: World, tx: Tx, batchSize: int, ids: seq<Uuid>, moment: int)
    requires tx !in w.open && 1 <= batchSize && IsBatch(w.rows, w.locks.Keys, batchSize, ids)
    ensures Proper(w, Lock(tx, AsSet(ids), moment)) && Distinct(ids)
  {
    BatchKeys(w.rows, w.locks.Keys, batchSize, ids);
    forall id | id in AsSet(ids) ensures id in w.rows && Pending(w.rows[id]) && id !in w.locks {
      var i :| 0 <= i < |ids| && ids[i] == id;
    }
  }

  lemma {:induction false} DrainedRun(t: Trace<Event>, tx: Tx, ids: seq<Uuid>, n: nat, moment: int)
    requires n <= |ids| && Distinct(ids)
    requires Run(t).Some? && tx in Run(t).value.open && Run(t).value.open[tx] == Relay(AsSet(ids), {}, {}, moment)
    ensures var w := Run(Drained(t, tx, ids, n));
            && w.Some? && w.value.rows == Run(t).value.rows && tx in w.value.open
            && w.value.open[tx] == Relay(AsSet(ids) - AsSet(ids[..n]), {}, AsSet(ids[..n]), moment)
  {
    if n == 0 {
      assert AsSet(ids[..0]) == {} && AsSet(ids) - AsSet(ids[..0]) == AsSet(ids);
    } else {
      DrainedRun(t, tx, ids, n - 1, moment);
      var id, done := ids[n - 1], AsSet(ids[..n - 1]);
      assert id in AsSet(ids) - done;
      var handed := Run(Then(Drained(t, tx, ids, n - 1), HandOver(tx, id)));
      assert handed.Some? && handed.value.open[tx] == Relay(AsSet(ids) - done - {id}, {} + {id}, done, moment);
      assert AsSet(ids[..n]) == done + {id};
      assert AsSet(ids) - done - {id} == AsSet(ids) - AsSet(ids[..n]);
      assert {} + {id} - {id} == {};
    }
  }

  lemma {:induction false} DrainAndCommit(t: Trace<Event>, tx: Tx, ids: seq<Uuid>, moment: int)
    requires Distinct(ids)
    requires Run(t).Some? && tx in Run(t).value.open && Run(t).value.open[tx] == Relay(AsSet(ids), {}, {}, moment)
    ensures var w := Run(Then(Drained(t, tx, ids, |ids|), Commit(tx)));
            w.Some? && Progress(Run(t).value.rows, ids, |ids|, moment, w.value.rows)
  {
    assert ids[..|ids|] == ids;
    DrainedRun(t, tx, ids, |ids|, moment);
    assert AsSet(ids) - AsSet(ids) == {};
  }

  /** A relay call that selects its batch among the unlocked rows, drains it and commits leaves
      the committed table exactly as the loop left the session; a call that stops after `n` rows
      and is rolled back leaves the table as it was. */
  lemma RelayCallIsARun(t: Trace<Event>, tx: Tx, batchSize: int, ids: seq<Uuid>, n: nat, moment: int)
    requires Run(t).Some? && tx !in Run(t).value.open && 1 <= batchSize && n <= |ids|
    requires IsBatch(Run(t).value.rows, Run(t).value.locks.Keys, batchSize, ids)
    ensures var begun := Then(t, Lock(tx, AsSet(ids), moment));
            var committed := Run(Then(Drained(begun, tx, ids, |ids|), Commit(tx)));
            var undone := Run(Then(Drained(begun, tx, ids, n), Rollback(tx)));
            && committed.Some? && Progress(Run(t).value.rows, ids, |ids|, moment, committed.value.rows)
            && undone.Some? && undone.value.rows == Run(t).value.rows
  {
    BatchIsLockable(Run(t).value, tx, batchSize, ids, moment);
    var begun := Then(t, Lock(tx, AsSet(ids), moment));
    DrainAndCommit(begun, tx, ids, moment);
    DrainedRun(begun, tx, ids, n, moment);
  }
}
