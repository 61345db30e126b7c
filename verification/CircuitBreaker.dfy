/** The circuit breaker of src/delivery_service/retry_policy.py, with any number of callers
    holding permits and finishing them late. */
module CircuitBreaker {
  import opened Basics
  import opened Traces

  datatype CircuitState = Closed | Open | HalfOpen

  datatype Settings = Settings(failureThreshold: int, recoveryTimeout: real)

  /** The constructor's validation. */
  predicate Valid(c: Settings) {
    c.failureThreshold >= 1 && c.recoveryTimeout > 0.0
  }

  datatype Breaker = Breaker(state: CircuitState, failures: int, openedAt: Option<real>, probeInFlight: bool)

  datatype Permit = Permit(halfOpenProbe: bool)

  /** `Stuck` is the failed internal assertion on a missing opening time. */
  datatype Answer = Granted(permit: Permit) | StillOpen | ProbeRunning | Stuck

  const INITIAL := Breaker(Closed, 0, None, false)

  function OpenNow(b: Breaker, now: real): Breaker {
    b.(state := Open, openedAt := Some(now))
  }

  function Acquire(c: Settings, b: Breaker, now: real): (Breaker, Answer) {
    if b.state.Closed? then (b, Granted(Permit(false)))
    else if b.openedAt.None? then (b, Stuck)
    else if now - b.openedAt.value < c.recoveryTimeout then (b, StillOpen)
    else if b.probeInFlight then (b.(state := HalfOpen), ProbeRunning)
    else (b.(state := HalfOpen, probeInFlight := true), Granted(Permit(true)))
  }

  function Succeed(b: Breaker, p: Permit): Breaker {
    Breaker(Closed, 0, None, if p.halfOpenProbe then false else b.probeInFlight)
  }

  function Fail(c: Settings, b: Breaker, p: Permit, now: real): Breaker {
    if p.halfOpenProbe then OpenNow(b.(probeInFlight := false), now)
    else
      var counted := b.(failures := b.failures + 1);
      if counted.failures >= c.failureThreshold then OpenNow(counted, now) else counted
  }

  function Abandon(b: Breaker, p: Permit, now: real): Breaker {
    if p.halfOpenProbe then OpenNow(b.(probeInFlight := false), now) else b
  }

  class Circuit {
    const failureThreshold: int
    const recoveryTimeout: real
    var state: CircuitState
    var consecutiveFailures: int
    var openedAt: Option<real>
    var probeInFlight: bool

    ghost function Policy(): Settings { Settings(failureThreshold, recoveryTimeout) }

    ghost function Value(): Breaker
      reads this
    {
      Breaker(state, consecutiveFailures, openedAt, probeInFlight)
    }

    /** Refused, as the constructor refuses, unless the settings are valid. */
    static method Create(failureThreshold: int, recoveryTimeout: real) returns (circuit: Option<Circuit>)
      ensures circuit.Some? <==> failureThreshold >= 1 && recoveryTimeout > 0.0
      ensures circuit.Some? ==>
                && circuit.value.Policy() == Settings(failureThreshold, recoveryTimeout)
                && circuit.value.state == Closed && circuit.value.consecutiveFailures == 0
                && circuit.value.openedAt == None && !circuit.value.probeInFlight
    {
      if failureThreshold < 1 || recoveryTimeout <= 0.0 {
        return None;
      }
      var c := new Circuit(failureThreshold, recoveryTimeout);
      return Some(c);
    }

    constructor (failureThreshold: int, recoveryTimeout: real)
      requires Valid(Settings(failureThreshold, recoveryTimeout))
      ensures Policy() == Settings(failureThreshold, recoveryTimeout) && Value() == INITIAL
    {
      this.failureThreshold := failureThreshold;
      this.recoveryTimeout := recoveryTimeout;
      state, consecutiveFailures, openedAt, probeInFlight := Closed, 0, None, false;
    }

    method AcquirePermit(now: real) returns (answer: Answer)
      modifies this
      ensures (Value(), answer) == Acquire(Policy(), old(Value()), now)
      ensures consecutiveFailures == old(consecutiveFailures) && openedAt == old(openedAt)
      ensures old(state) == Closed ==>
                answer == Granted(Permit(false)) && state == Closed && probeInFlight == old(probeInFlight)
      ensures old(state) != Closed && openedAt.Some? ==>
                if now - openedAt.value < recoveryTimeout then
                  answer == StillOpen && state == old(state) && probeInFlight == old(probeInFlight)
                else
                  state == HalfOpen && probeInFlight && answer == if old(probeInFlight) then ProbeRunning else Granted(Permit(true))
    {
      if state.Closed? {
        return Granted(Permit(false));
      }
      if openedAt.None? {
        return Stuck;
      }
      if now - openedAt.value < recoveryTimeout {
        return StillOpen;
      }
      state := HalfOpen;
      if probeInFlight {
        return ProbeRunning;
      }
      probeInFlight := true;
      return Granted(Permit(true));
    }

    method RecordSuccess(p: Permit)
      modifies this
      ensures Value() == Succeed(old(Value()), p)
      ensures state == Closed && consecutiveFailures == 0 && openedAt == None
      ensures probeInFlight == (old(probeInFlight) && !p.halfOpenProbe)
    {
      state := Closed;
      consecutiveFailures := 0;
      openedAt := None;
      if p.halfOpenProbe {
        probeInFlight := false;
      }
    }

    method RecordFailure(p: Permit, now: real)
      modifies this
      ensures Value() == Fail(Policy(), old(Value()), p, now)
      ensures p.halfOpenProbe ==>
                state == Open && openedAt == Some(now) && !probeInFlight && consecutiveFailures == old(consecutiveFailures)
      ensures !p.halfOpenProbe ==>
                && consecutiveFailures == old(consecutiveFailures) + 1 && probeInFlight == old(probeInFlight)
                && if consecutiveFailures >= failureThreshold then state == Open && openedAt == Some(now)
                   else state == old(state) && openedAt == old(openedAt)
    {
      if p.halfOpenProbe {
        probeInFlight := false;
        OpenCircuit(now);
        return;
      }
      consecutiveFailures := consecutiveFailures + 1;
      if consecutiveFailures >= failureThreshold {
        OpenCircuit(now);
      }
    }

    method AbandonPermit(p: Permit, now: real)
      modifies this
      ensures Value() == Abandon(old(Value()), p, now)
      ensures consecutiveFailures == old(consecutiveFailures)
      ensures if p.halfOpenProbe then state == Open && openedAt == Some(now) && !probeInFlight
              else state == old(state) && openedAt == old(openedAt) && probeInFlight == old(probeInFlight)
    {
      if p.halfOpenProbe {
        probeInFlight := false;
        OpenCircuit(now);
      }
    }

    method OpenCircuit(now: real)
      modifies this
      ensures Value() == OpenNow(old(Value()), now)
      ensures state == Open && openedAt == Some(now)
      ensures consecutiveFailures == old(consecutiveFailures) && probeInFlight == old(probeInFlight)
    {
      state := Open;
      openedAt := Some(now);
    }
  }

  // ----- runs: permits are granted, held, and each finished exactly once -----

  datatype Event =
    | Asked(now: real)
    | Succeeded(permit: Permit)
    | Failed(permit: Permit, now: real)
    | Abandoned(permit: Permit, now: real)

  /** The breaker and the permits now outstanding. */
  datatype World = World(breaker: Breaker, ordinary: nat, probes: nat)

  function Outstanding(w: World, p: Permit): nat {
    if p.halfOpenProbe then w.probes else w.ordinary
  }

  function Finish(w: World, p: Permit, b: Breaker): World
    requires Outstanding(w, p) > 0
  {
    if p.halfOpenProbe then World(b, w.ordinary, w.probes - 1) else World(b, w.ordinary - 1, w.probes)
  }

  /** Only a permit that is outstanding can be finished. */
  predicate Proper(w: World, e: Event) {
    e.Asked? || Outstanding(w, e.permit) > 0
  }

  function Step(c: Settings, w: World, e: Event): World
    requires Proper(w, e)
  {
    match e
    case Asked(now) =>
      var (b, answer) := Acquire(c, w.breaker, now);
      if answer.Granted? then
        if answer.permit.halfOpenProbe then World(b, w.ordinary, w.probes + 1)
        else World(b, w.ordinary + 1, w.probes)
      else World(b, w.ordinary, w.probes)
    case Succeeded(p) => Finish(w, p, Succeed(w.breaker, p))
    case Failed(p, now) => Finish(w, p, Fail(c, w.breaker, p, now))
    case Abandoned(p, now) => Finish(w, p, Abandon(w.breaker, p, now))
  }

  /** None when some step of the trace finished a permit nobody held. */
  function Run(c: Settings, t: Trace<Event>): Option<World> {
    match t
    case Start => Some(World(INITIAL, 0, 0))
    case Then(before, e) =>
      var w := Run(c, before);
      if w.Some? && Proper(w.value, e) then Some(Step(c, w.value, e)) else None
  }

  /** Reference: ordinary failures since the last success, read off the trace. */
  function FailuresSinceSuccess(t: Trace<Event>): nat {
    match t
    case Start => 0
    case Then(before, e) =>
      match e
      case Succeeded(_) => 0
      case Failed(p, _) => FailuresSinceSuccess(before) + (if p.halfOpenProbe then 0 else 1)
      case Asked(_) => FailuresSinceSuccess(before)
      case Abandoned(_, _) => FailuresSinceSuccess(before)
  }

  /** Every run: the probe flag is set iff exactly one probe permit is out, there are never two,
      half-open means a probe is out, the opening time is present whenever it is needed, the
      counter is the failures since the last success and below the threshold while closed. */
  lemma {:induction false} EveryRunIsConsistent(c: Settings, t: Trace<Event>)
    requires Valid(c) && Run(c, t).Some?
    ensures var w := Run(c, t).value;
            && w.probes <= 1
            && (w.breaker.probeInFlight <==> w.probes == 1)
            && (w.breaker.state.HalfOpen? ==> w.breaker.probeInFlight)
            && (!w.breaker.state.Closed? ==> w.breaker.openedAt.Some?)
            && w.breaker.failures == FailuresSinceSuccess(t)
            && (w.breaker.state.Closed? ==> w.breaker.failures < c.failureThreshold)
  {
    if t.Then? {
      EveryRunIsConsistent(c, t.before);
    }
  }

  function AnswerAt(c: Settings, t: Trace<Event>, now: real): Answer
    requires Run(c, t).Some?
  {
    Acquire(c, Run(c, t).value.breaker, now).1
  }

  /** The internal assertion never fails, and a probe is granted only when none is out. */
  lemma AcquireNeverStuck(c: Settings, t: Trace<Event>, now: real)
    requires Valid(c) && Run(c, t).Some?
    ensures !AnswerAt(c, t, now).Stuck?
    ensures AnswerAt(c, t, now) == Granted(Permit(true)) ==> Run(c, t).value.probes == 0
  {
    EveryRunIsConsistent(c, t);
  }

  /** From `earlier` to `later` nothing succeeded, and the clock stayed at or after `moment`. */
  ghost predicate SuccessFree(earlier: Trace<Event>, later: Trace<Event>, moment: real) {
    later == earlier ||
    (later.Then? && SuccessFree(earlier, later.before, moment) && !later.step.Succeeded? &&
     moment <= later.step.now)
  }

  /** With no success between them, two probes are at least the recovery timeout apart. */
  lemma {:induction false} ProbesAreSpaced(c: Settings, earlier: Trace<Event>, first: real, later: Trace<Event>, second: real)
    requires Valid(c) && Run(c, later).Some? && Run(c, earlier).Some?
    requires AnswerAt(c, earlier, first) == Granted(Permit(true))
    requires SuccessFree(Then(earlier, Asked(first)), later, first)
    requires AnswerAt(c, later, second) == Granted(Permit(true))
    ensures second - first >= c.recoveryTimeout
  {
    OpenSinceProbe(c, earlier, first, later);
  }

  lemma {:induction false} OpenSinceProbe(c: Settings, earlier: Trace<Event>, first: real, later: Trace<Event>)
    requires Valid(c) && Run(c, later).Some? && Run(c, earlier).Some?
    requires AnswerAt(c, earlier, first) == Granted(Permit(true))
    requires SuccessFree(Then(earlier, Asked(first)), later, first)
    ensures var b := Run(c, later).value.breaker;
            && !b.state.Closed?
            && (b.probeInFlight || (b.openedAt.Some? && b.openedAt.value >= first))
  {
    if later != Then(earlier, Asked(first)) {
      OpenSinceProbe(c, earlier, first, later.before);
      EveryRunIsConsistent(c, later.before);
    }
  }

  /** While the circuit is not closed and its timeout has not passed, every caller is turned away. */
  lemma OpenCircuitRefuses(c: Settings, t: Trace<Event>, now: real)
    requires Valid(c) && Run(c, t).Some? && !Run(c, t).value.breaker.state.Closed?
    ensures var b := Run(c, t).value.breaker;
            AnswerAt(c, t, now).Granted? <==>
              b.openedAt.Some? && now - b.openedAt.value >= c.recoveryTimeout && Run(c, t).value.probes == 0
  {
    EveryRunIsConsistent(c, t);
  }

  /** A closed circuit grants everybody an ordinary permit, in every run. */
  lemma ClosedCircuitGrants(c: Settings, t: Trace<Event>, now: real)
    requires Valid(c) && Run(c, t).Some? && Run(c, t).value.breaker.state.Closed?
    ensures AnswerAt(c, t, now) == Granted(Permit(false))
    ensures Run(c, Then(t, Asked(now))) == Some(Run(c, t).value.(ordinary := Run(c, t).value.ordinary + 1))
  {
  }

  /** An ordinary failure opens a closed circuit exactly when it is the threshold-th since the last
      success; before that it changes nothing but the count. */
  lemma OpensAtTheThreshold(c: Settings, t: Trace<Event>, now: real)
    requires Valid(c) && Run(c, Then(t, Failed(Permit(false), now))).Some? && Run(c, t).value.breaker.state.Closed?
    ensures var b, b' := Run(c, t).value.breaker, Run(c, Then(t, Failed(Permit(false), now))).value.breaker;
            && b'.probeInFlight == b.probeInFlight
            && if FailuresSinceSuccess(t) + 1 < c.failureThreshold then b'.state.Closed? && b'.openedAt == b.openedAt
               else b'.state.Open? && b'.openedAt == Some(now)
  {
    EveryRunIsConsistent(c, t);
  }

  /** A success closes the circuit and a probe that fails or is abandoned opens it again, whatever
      happened before. */
  lemma EndOfAPermitDecides(c: Settings, t: Trace<Event>, p: Permit, now: real)
    requires Valid(c) && Run(c, t).Some? && Outstanding(Run(c, t).value, p) > 0
    ensures var b := Run(c, Then(t, Succeeded(p))).value.breaker;
            b.state.Closed? && b.failures == 0 && b.openedAt.None? && (p.halfOpenProbe ==> !b.probeInFlight)
    ensures p.halfOpenProbe ==>
              && Run(c, Then(t, Failed(p, now))).value.breaker == Run(c, Then(t, Abandoned(p, now))).value.breaker
              && var b := Run(c, Then(t, Failed(p, now))).value.breaker;
                 b.state.Open? && b.openedAt == Some(now) && !b.probeInFlight && b.failures == FailuresSinceSuccess(t)
    ensures !p.halfOpenProbe ==> Run(c, Then(t, Abandoned(p, now))).value.breaker == Run(c, t).value.breaker
  {
    EveryRunIsConsistent(c, t);
  }
}
