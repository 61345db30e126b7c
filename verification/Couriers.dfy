/** Couriers over whole runs: an assignment is written once, and a courier who only ever claims
    has at most one active order. */
module Couriers {
  import opened Basics
  import opened Domain
  import opened OrderRuns
  import opened Ordering
  import opened OrderStore
  import opened Text
  import opened Traces

  /** In every reachable state an order with a courier has left `created`. */
  lemma {:induction false} CourierMeansStarted(log: Trace<Write>, id: Uuid)
    requires LogOk(log)
    ensures Last(log, id).Some? && Last(log, id).value.courierId.Some? ==> !Last(log, id).value.status.Created?
  {
    if log.Then? {
      CourierMeansStarted(log.before, id);
    }
  }

  /** How one step may change one order: it stays, keeps its tenant, and keeps its courier once
      it has one. */
  lemma StepKeepsCourier(w: World, e: Event, id: Uuid)
    requires Invariant(w) && Proper(w, e) && id in w.store.orders
    ensures var o := w.store.orders[id];
            var s' := Step(w, e).store;
            && id in s'.orders && s'.orders[id].tenantId == o.tenantId
            && (o.courierId.Some? ==> s'.orders[id].courierId == o.courierId)
  {
    assert Stored(w.store.orders, w.log, id);
    CourierMeansStarted(w.log, id);
    if e.SaveRead? && Commit(w.store, w.pending[e.client]).Ok? {
      SaveReplacesWhatWasRead(w, w.pending[e.client]);
    }
  }

  /** A courier, once set, never changes, and its order is no longer `created`. */
  lemma {:induction false} AssignmentIsWrittenOnce(earlier: Trace<Event>, later: Trace<Event>, id: Uuid)
    requires Run(later).Some? && Extends(later, earlier) && Run(earlier).Some?
    requires id in Run(earlier).value.store.orders && Run(earlier).value.store.orders[id].courierId.Some?
    ensures var o, s' := Run(earlier).value.store.orders[id], Run(later).value.store;
            id in s'.orders && s'.orders[id].courierId == o.courierId && !s'.orders[id].status.Created?
  {
    RunKeepsInvariant(later);
    if later != earlier {
      AssignmentIsWrittenOnce(earlier, later.before, id);
      RunKeepsInvariant(later.before);
      StepKeepsCourier(Run(later.before).value, later.step, id);
    }
    assert Stored(Run(later).value.store.orders, Run(later).value.log, id);
    CourierMeansStarted(Run(later).value.log, id);
  }

  /** The order a claim takes is the tenant's oldest waiting order; identifiers break ties. */
  lemma ClaimTakesTheOldest(s: Store, tenant: Uuid, id: Uuid, other: Uuid)
    requires IsNext(s, tenant, Some(id)) && other != id
    requires other in s.orders && s.orders[other].tenantId == tenant && s.orders[other].status.Created?
    ensures var mine, theirs := s.orders[id].createdAt, s.orders[other].createdAt;
            Before(mine, theirs) || (mine == theirs && id < other)
  {
    var k := Key(Rank(s.orders[other].createdAt), other);
    assert k in Waiting(s, tenant);
    RankIsChronological(s.orders[id].createdAt, s.orders[other].createdAt);
  }

  // ----- exclusivity -----

  /** Couriers are attached only by claims: nobody calls `assign`. */
  predicate ClaimOnly(t: Trace<Event>) {
    t.Then? ==> ClaimOnly(t.before) && !(t.step.Read? && t.step.intent.Give?)
  }

  predicate Active(o: Order) {
    o.status.Assigned? || o.status.PickedUp?
  }

  /** Both orders occupy the same courier of the same tenant. */
  predicate Clash(a: Order, b: Order) {
    a.tenantId == b.tenantId && a.courierId.Some? && a.courierId == b.courierId && Active(a) && Active(b)
  }

  ghost predicate Exclusive(s: Store) {
    forall a, b :: a in s.orders && b in s.orders && a != b ==> !Clash(s.orders[a], s.orders[b])
  }

  ghost predicate NoAssignPending(w: World) {
    forall c :: c in w.pending ==> w.pending[c].updated.courierId == w.pending[c].current.courierId
  }

  lemma ReadKeepsNoAssign(w: World, client: Client, intent: Intent)
    requires NoAssignPending(w) && Proper(w, Read(client, intent)) && !intent.Give?
    ensures NoAssignPending(Step(w, Read(client, intent)))
  {
  }

  /** A save moves one order without giving it a courier, so it creates no clash. */
  lemma SaveKeepsExclusive(w: World, client: Client)
    requires Invariant(w) && Exclusive(w.store) && NoAssignPending(w) && Proper(w, SaveRead(client))
    ensures Exclusive(Step(w, SaveRead(client)).store)
  {
    if Commit(w.store, w.pending[client]).Ok? {
      MoveKeepsExclusive(w, w.pending[client]);
    }
  }

  /** A claim hands an order to a courier who holds no active order of the tenant. */
  lemma ClaimKeepsExclusive(w: World, tenant: Uuid, courier: Uuid, audit: Audit, next: Option<Uuid>)
    requires Invariant(w) && Exclusive(w.store) && Proper(w, Claim(tenant, courier, audit, next))
    ensures Exclusive(Step(w, Claim(tenant, courier, audit, next)).store)
  {
    if !Busy(w.store, tenant, courier) && next.Some? {
      var taken := Assign(w.store.orders[next.value], courier).value;
      forall b | b in w.store.orders && b != next.value
        ensures !Clash(taken, w.store.orders[b]) && !Clash(w.store.orders[b], taken)
      {
        assert !IsBusy(w.store.orders[b], tenant, courier);
      }
    }
  }

  lemma PlaceKeepsExclusive(w: World, c: CreateCommand)
    requires Exclusive(w.store) && Proper(w, Place(c))
    ensures Exclusive(Step(w, Place(c)).store)
  {
  }

  /** In every run where couriers are attached only by claims, no courier of a tenant has two
      orders in `assigned` or `picked_up`. */
  lemma {:induction false} ClaimsAreExclusive(t: Trace<Event>)
    requires Run(t).Some? && ClaimOnly(t)
    ensures Exclusive(Run(t).value.store) && NoAssignPending(Run(t).value)
  {
    if t.Then? {
      ClaimsAreExclusive(t.before);
      RunKeepsInvariant(t.before);
      var w := Run(t.before).value;
      match t.step
      case Place(c) => PlaceKeepsExclusive(w, c);
      case Read(client, intent) => ReadKeepsNoAssign(w, client, intent);
      case SaveRead(client) => SaveKeepsExclusive(w, client);
      case Claim(tenant, courier, audit, next) => ClaimKeepsExclusive(w, tenant, courier, audit, next);
    }
  }

  // ----- assigning -----

  /** One command: `assign` gives a waiting order to any courier, and exclusivity survives exactly
      when that courier held no active order of the tenant. */
  lemma AssignIsExclusiveIffFree(s: Store, id: Uuid, courier: Uuid, audit: Audit)
    requires Keyed(s) && Exclusive(s) && id in s.orders && s.orders[id].status.Created?
    ensures var (s', r) := Execute(s, Give(id, courier, audit));
            && r.Ok? && IsBusy(s'.orders[id], s.orders[id].tenantId, courier)
            && (Exclusive(s') <==> !Busy(s, s.orders[id].tenantId, courier))
  {
    var o := s.orders[id];
    var given := Assign(o, courier).value;
    MovesHaveEvents(o, Assigned, courier, audit);
    assert Execute(s, Give(id, courier, audit)).0.orders == s.orders[id := given];
    GiftIsExclusiveIffFree(s, Execute(s, Give(id, courier, audit)).0, given);
  }

  /** Replacing a waiting order by one that is assigned to a courier. */
  lemma GiftIsExclusiveIffFree(s: Store, s': Store, given: Order)
    requires Exclusive(s) && given.id in s.orders && s.orders[given.id].status.Created?
    requires given.courierId.Some? && given.status.Assigned? && s'.orders == s.orders[given.id := given]
    ensures Exclusive(s') <==> !Busy(s, given.tenantId, given.courierId.value)
  {
    if Busy(s, given.tenantId, given.courierId.value) {
      var other :| other in s.orders && IsBusy(s.orders[other], given.tenantId, given.courierId.value);
      assert Clash(s'.orders[given.id], s'.orders[other]);
    } else {
      forall b | b in s.orders && b != given.id
        ensures !Clash(given, s.orders[b]) && !Clash(s.orders[b], given)
      {
        assert !IsBusy(s.orders[b], given.tenantId, given.courierId.value);
      }
    }
  }

  /** The step saves an assignment, and at that moment, not when it was read, the courier holds
      another active order of the tenant. */
  ghost predicate GivesToBusy(w: World, e: Event) {
    && e.SaveRead? && e.client in w.pending && Commit(w.store, w.pending[e.client]).Ok?
    && var p := w.pending[e.client];
       p.updated.courierId != p.current.courierId && p.updated.courierId.Some? &&
       Busy(w.store, p.updated.tenantId, p.updated.courierId.value)
  }

  /** A save that changes nobody's courier. */
  lemma MoveKeepsExclusive(w: World, p: Prepared)
    requires Invariant(w) && Exclusive(w.store) && Sound(w.log, p) && Commit(w.store, p).Ok?
    requires p.updated.courierId == p.current.courierId
    ensures Exclusive(Commit(w.store, p).value)
  {
    SaveReplacesWhatWasRead(w, p);
    var id := p.current.id;
    assert Stored(w.store.orders, w.log, id);
    CourierMeansStarted(w.log, id);
    forall b | b in w.store.orders && b != id
      ensures !Clash(p.updated, w.store.orders[b]) && !Clash(w.store.orders[b], p.updated)
    {
      assert !Clash(p.current, w.store.orders[b]);
    }
  }

  /** From an exclusive state, a step leads to an exclusive one unless it gives to the busy. */
  lemma StepIsExclusiveIff(w: World, e: Event)
    requires Invariant(w) && Proper(w, e) && Exclusive(w.store)
    ensures Exclusive(Step(w, e).store) <==> !GivesToBusy(w, e)
  {
    match e
    case Place(c) => PlaceKeepsExclusive(w, c);
    case Read(_, _) =>
    case SaveRead(client) =>
      var p := w.pending[client];
      if Commit(w.store, p).Ok? {
        if p.updated.courierId == p.current.courierId {
          MoveKeepsExclusive(w, p);
        } else {
          SaveReplacesWhatWasRead(w, p);
          GiftIsExclusiveIffFree(w.store, Commit(w.store, p).value, p.updated);
        }
      }
    case Claim(tenant, courier, audit, next) => ClaimKeepsExclusive(w, tenant, courier, audit, next);
  }

  /** Exclusive at every moment of the run. */
  ghost predicate AlwaysExclusive(t: Trace<Event>) {
    && Run(t).Some? && Exclusive(Run(t).value.store)
    && (t.Then? ==> AlwaysExclusive(t.before))
  }

  /** No assignment of the run was saved for a courier busy at that moment. */
  ghost predicate GivesOnlyToFree(t: Trace<Event>) {
    t.Then? ==> GivesOnlyToFree(t.before) && Run(t.before).Some? && !GivesToBusy(Run(t.before).value, t.step)
  }

  /** For every run, with claims and assignments mixed in any way: no courier of a tenant ever has
      two active orders if and only if every assignment was saved while its courier was free. */
  lemma {:induction false} RunIsExclusiveIff(t: Trace<Event>)
    requires Run(t).Some?
    ensures AlwaysExclusive(t) <==> GivesOnlyToFree(t)
  {
    if t.Then? {
      RunIsExclusiveIff(t.before);
      if AlwaysExclusive(t.before) {
        RunKeepsInvariant(t.before);
        StepIsExclusiveIff(Run(t.before).value, t.step);
      }
    }
  }

  /** Such runs exist: two orders of a tenant are placed, a courier claims the first, and the
      second is then assigned to the same courier. */
  lemma AssignCanGiveASecondOrder(tenant: Uuid, courier: Uuid, audit: Audit, now: Moment) returns (t: Trace<Event>)
    ensures Run(t).Some? && !Exclusive(Run(t).value.store)
  {
    var request := CreateRequest(courier, "Depot 1", "Main Street 2", 500);
    var first, second := CreateCommand(request, tenant, None, 1, 11, now), CreateCommand(request, tenant, None, 2, 12, now);
    var w: World;
    t, w := OneStep(Start, World(EMPTY, map[], Start), Place(first));
    var a := NewOrder(1, tenant, request, now).value;
    assert w.store.orders == map[1 := a];
    t, w := OneStep(t, w, Place(second));
    var b := NewOrder(2, tenant, request, now).value;
    assert w.store.orders == map[1 := a, 2 := b];
    assert IsNext(w.store, tenant, Some(1));
    assert !Busy(w.store, tenant, courier);
    t, w := OneStep(t, w, Claim(tenant, courier, audit, Some(1)));
    var taken := Assign(a, courier).value;
    assert w.store.orders == map[1 := taken, 2 := b];
    t, w := OneStep(t, w, Read(7, Give(2, courier, audit)));
    var given := Assign(b, courier).value;
    assert w.pending[7].updated == given && w.store.orders == map[1 := taken, 2 := b];
    t, w := OneStep(t, w, SaveRead(7));
    assert w.store.orders == map[1 := taken, 2 := given];
    assert Clash(w.store.orders[1], w.store.orders[2]);
  }

  lemma OneStep(t: Trace<Event>, w: World, e: Event) returns (t': Trace<Event>, w': World)
    requires Run(t) == Some(w) && Proper(w, e)
    ensures t' == Then(t, e) && w' == Step(w, e) && Run(t') == Some(w')
  {
    t', w' := Then(t, e), Step(w, e);
  }
}
