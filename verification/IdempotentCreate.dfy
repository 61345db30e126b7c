/** Idempotent creation over whole runs: what a key guarantees, whatever else happens to the
    order between the first request and its retries. */
module IdempotentCreate {
  import opened Basics
  import opened Domain
  import opened OrderRuns
  import opened OrderStore
  import opened Traces

  /** Orders created under a scope so far. */
  function PlacedUnder(log: Trace<Write>, scope: string): nat {
    match log
    case Start => 0
    case Then(before, write) =>
      PlacedUnder(before, scope) + (if write.Placed? && write.scope == Some(scope) then 1 else 0)
  }

  /** The order remembered is one the log placed under that scope for that request. */
  predicate PlacedAs(log: Trace<Write>, scope: string, known: Remembered) {
    log.Then? &&
    ((log.step.Placed? && log.step.scope == Some(scope) && log.step.request == known.request && log.step.after == known.reply)
     || PlacedAs(log.before, scope, known))
  }

  ghost predicate ScopeOk(w: World, scope: string) {
    && PlacedUnder(w.log, scope) == (if scope in w.store.idempotency then 1 else 0)
    && (scope in w.store.idempotency ==> PlacedAs(w.log, scope, w.store.idempotency[scope]))
  }

  /** Only a create that really creates touches the memory, and it never overwrites. */
  lemma StepKeepsMemory(w: World, e: Event, scope: string)
    requires Proper(w, e)
    ensures var m, m' := w.store.idempotency, Step(w, e).store.idempotency;
            && (scope in m ==> scope in m' && m'[scope] == m[scope])
            && (scope in m' && scope !in m ==> e.Place? && Creates(w.store, e.command) && Scope(e.command) == Some(scope))
  {
  }

  /** At most one order, hence one created message, ever exists per scope; the reply remembered
      for it is the order as it was first created. */
  lemma {:induction false} OneOrderPerScope(t: Trace<Event>, scope: string)
    requires Run(t).Some?
    ensures ScopeOk(Run(t).value, scope)
  {
    if t.Then? {
      OneOrderPerScope(t.before, scope);
      StepKeepsMemory(Run(t.before).value, t.step, scope);
    }
  }

  lemma {:induction false} MemoryIsStable(earlier: Trace<Event>, later: Trace<Event>, scope: string)
    requires Run(later).Some? && Extends(later, earlier)
    requires Run(earlier).Some? && scope in Run(earlier).value.store.idempotency
    ensures var m, m' := Run(earlier).value.store.idempotency, Run(later).value.store.idempotency;
            scope in m' && m'[scope] == m[scope]
  {
    if later != earlier {
      MemoryIsStable(earlier, later.before, scope);
      StepKeepsMemory(Run(later.before).value, later.step, scope);
    }
  }

  /** Every retry gets the first reply, whatever updates and transitions happened since; a
      different request under the same scope is refused; neither has any effect. */
  lemma {:induction false} RetriesGetTheFirstReply(earlier: Trace<Event>, first: CreateCommand, later: Trace<Event>, retry: CreateCommand)
    requires Run(earlier).Some? && Proper(Run(earlier).value, Place(first)) && Creates(Run(earlier).value.store, first)
    requires Run(later).Some? && Extends(later, Then(earlier, Place(first)))
    requires first.key.Some? && first.key.value != "" && retry.key == first.key
    requires retry.tenantId == first.tenantId && retry.request.customerId == first.request.customerId
    ensures var s := Run(later).value.store;
            Create(s, retry) ==
              (s, if retry.request == first.request then Create(Run(earlier).value.store, first).1
                  else Refused(IdempotencyConflict))
  {
    MemoryIsStable(Then(earlier, Place(first)), later, Scope(first).value);
  }

  /** Two keyed commands share a scope iff tenant, customer and key all agree. */
  lemma SameScopeIff(a: CreateCommand, b: CreateCommand)
    requires a.key.Some? && a.key.value != "" && b.key.Some? && b.key.value != ""
    ensures Scope(a).Some? && Scope(b).Some?
    ensures Scope(a) == Scope(b) <==>
            a.tenantId == b.tenantId && a.request.customerId == b.request.customerId && a.key == b.key
  {
    ScopeTextInjective(a.tenantId, a.request.customerId, a.key.value, b.tenantId, b.request.customerId, b.key.value);
  }

  /** Without a key, or with an empty one, every create that is valid makes a new order. */
  lemma UnkeyedNeverReplays(t: Trace<Event>, c: CreateCommand)
    requires Run(t).Some? && Proper(Run(t).value, Place(c)) && (c.key.None? || c.key.value == "")
    ensures var w, w' := Run(t).value, Step(Run(t).value, Place(c));
            if 1 <= c.request.weightGrams <= 100_000 then
              w'.store.orders.Keys == w.store.orders.Keys + {c.orderId} && c.orderId !in w.store.orders
            else w'.store == w.store
  {
    NewOrderFields(c.orderId, c.tenantId, c.request, c.now);
  }
}
