/** The transaction retry policy of src/delivery_service/transactions.py: finding a SQLSTATE in a
    web of wrapped exceptions, which may be cyclic, and re-running a conflicting transaction. */
module Transactions {
  import opened Basics

  /** Exceptions are known by identity; a link is present when it leads to an exception. */
  type ErrorId = nat

  datatype ErrorInfo = ErrorInfo(
    sqlstate: Option<string>,
    pgcode: Option<string>,
    orig: Option<ErrorId>,
    cause: Option<ErrorId>,
    context: Option<ErrorId>)

  type ErrorWeb = map<ErrorId, ErrorInfo>

  /** Every link leads to an exception of the web. */
  ghost predicate LinkClosed(g: ErrorWeb) {
    forall e, f :: e in g && Links(g, e, f) ==> f in g
  }

  predicate Links(g: ErrorWeb, e: ErrorId, f: ErrorId) {
    e in g && (g[e].orig == Some(f) || g[e].cause == Some(f) || g[e].context == Some(f))
  }

  /** An empty `sqlstate` counts as absent; an empty `pgcode` does not. */
  function CodeOf(info: ErrorInfo): Option<string> {
    if info.sqlstate.Some? && info.sqlstate.value != "" then info.sqlstate else info.pgcode
  }

  /** `e` can be reached from `root` over exactly `n` links. */
  ghost predicate ReachedIn(g: ErrorWeb, root: ErrorId, e: ErrorId, n: nat)
    decreases n
  {
    if n == 0 then e == root && root in g
    else exists m :: ReachedIn(g, root, m, n - 1) && Links(g, m, e) && e in g
  }

  ghost predicate Reachable(g: ErrorWeb, root: ErrorId, e: ErrorId) {
    exists n: nat :: ReachedIn(g, root, e, n)
  }

  lemma ReachableStep(g: ErrorWeb, root: ErrorId, m: ErrorId, e: ErrorId)
    requires Reachable(g, root, m) && Links(g, m, e) && e in g
    ensures Reachable(g, root, e)
  {
    var n: nat :| ReachedIn(g, root, m, n);
    assert ReachedIn(g, root, e, n + 1);
  }

  /** A set that holds the root and every link out of it holds everything reachable. */
  lemma {:induction false} ClosedSetHoldsReachable(g: ErrorWeb, root: ErrorId, e: ErrorId, n: nat, closed: set<ErrorId>)
    requires ReachedIn(g, root, e, n) && root in closed
    requires forall a, b :: a in closed && Links(g, a, b) ==> b in closed
    ensures e in closed
    decreases n
  {
    if n > 0 {
      var m :| ReachedIn(g, root, m, n - 1) && Links(g, m, e) && e in g;
      ClosedSetHoldsReachable(g, root, m, n - 1, closed);
    }
  }

  /** Complete on every web: no code is returned only when nothing reachable carries one, and a
      code that is returned belongs to something reachable.  The error itself is asked first. */
  method PostgresSqlstate(g: ErrorWeb, error: ErrorId) returns (code: Option<string>)
    requires error in g && LinkClosed(g)
    ensures code.None? <==> forall e :: Reachable(g, error, e) ==> CodeOf(g[e]).None?
    ensures code.Some? ==> exists e :: Reachable(g, error, e) && CodeOf(g[e]) == code
    ensures CodeOf(g[error]).Some? ==> code == CodeOf(g[error])
    ensures code.None? <==> forall e :: Reachable(g, error, e) ==> g[e].pgcode.None? && (g[e].sqlstate.None? || g[e].sqlstate.value == "")
    ensures code.Some? ==>
              exists e :: (Reachable(g, error, e) &&
                           code == if g[e].sqlstate.Some? && g[e].sqlstate.value != "" then g[e].sqlstate else g[e].pgcode)
  {
    var pending := [error];
    var seen: set<ErrorId> := {};
    assert ReachedIn(g, error, error, 0);
    while pending != []
      invariant forall e :: e in pending || e in seen ==> e in g && Reachable(g, error, e)
      invariant forall e :: e in seen ==> CodeOf(g[e]).None?
      invariant forall e, f :: e in seen && Links(g, e, f) ==> f in seen || f in pending
      invariant error in seen || pending == [error]
      decreases |g.Keys - seen|, |pending|
    {
      var current := pending[|pending| - 1];
      ghost var before := pending;
      pending := pending[..|pending| - 1];
      assert before == pending + [current];
      if current in seen {
        continue;
      }
      ghost var unseen := g.Keys - seen;
      seen := seen + {current};
      assert g.Keys - seen == unseen - {current};
      code := CodeOf(g[current]);
      if code.Some? {
        return;
      }
      pending := pending + Nested(g[current]);
      forall f | Links(g, current, f) ensures f in pending && Reachable(g, error, f) {
        assert f in Nested(g[current]);
        ReachableStep(g, error, current, f);
      }
      assert forall f :: f in Nested(g[current]) ==> Links(g, current, f);
    }
    forall e | Reachable(g, error, e) ensures e in seen {
      var n: nat :| ReachedIn(g, error, e, n);
      ClosedSetHoldsReachable(g, error, e, n, seen);
    }
    return None;
  }

  /** The wrapped exceptions of one exception, in the order they are pushed. */
  function Nested(info: ErrorInfo): (nested: seq<ErrorId>)
    ensures forall f :: f in nested <==> info.orig == Some(f) || info.cause == Some(f) || info.context == Some(f)
  {
    (if info.orig.Some? then [info.orig.value] else []) +
    (if info.cause.Some? then [info.cause.value] else []) +
    (if info.context.Some? then [info.context.value] else [])
  }

  // ----- re-running a conflicting transaction -----

  /** How one attempt ended; a database failure carries the SQLSTATE found for it. */
  datatype Attempt<T> = Committed(value: T) | DatabaseFailure(sqlstate: Option<string>) | OtherFailure

  datatype Outcome<T> = Ended(attempt: Attempt<T>) | BadAttempts | BadDelay

  /** A serialization failure or a deadlock. */
  predicate Retryable<T>(a: Attempt<T>) {
    a.DatabaseFailure? && a.sqlstate.Some? && a.sqlstate.value in {"40001", "40P01"}
  }

  /** The base delay doubled once per attempt already made. */
  function BackOff(baseDelay: real, attempt: nat): real {
    if attempt == 0 then baseDelay else 2.0 * BackOff(baseDelay, attempt - 1)
  }

  /** The first `n` pauses. */
  function Pauses(baseDelay: real, jitter: nat -> real, n: nat): (s: seq<real>)
    ensures |s| == n
  {
    if n == 0 then [] else Pauses(baseDelay, jitter, n - 1) + [BackOff(baseDelay, n - 1) + jitter(n - 1)]
  }

  lemma {:induction false} PauseAt(baseDelay: real, jitter: nat -> real, n: nat, i: nat)
    requires i < n
    ensures Pauses(baseDelay, jitter, n)[i] == BackOff(baseDelay, i) + jitter(i)
  {
    if i < n - 1 {
      PauseAt(baseDelay, jitter, n - 1, i);
    }
  }

  /** The pauses without their jitter: the base delay, then twice as long each time. */
  lemma PausesDouble(baseDelay: real, jitter: nat -> real, n: nat)
    ensures var s := Pauses(baseDelay, jitter, n);
            && (n > 0 ==> s[0] == baseDelay + jitter(0))
            && forall i: nat, j: nat :: j == i + 1 && j < n ==> s[j] - jitter(j) == 2.0 * (s[i] - jitter(i))
  {
    if n > 0 {
      PauseAt(baseDelay, jitter, n, 0);
    }
    forall i: nat, j: nat | j == i + 1 && j < n
      ensures Pauses(baseDelay, jitter, n)[j] - jitter(j) == 2.0 * (Pauses(baseDelay, jitter, n)[i] - jitter(i))
    {
      PauseAt(baseDelay, jitter, n, i);
      PauseAt(baseDelay, jitter, n, j);
    }
  }

  /** The first `n` attempts all ended in a conflict. */
  predicate AllConflicts<T>(ran: nat -> Attempt<T>, n: nat) {
    n == 0 || (AllConflicts(ran, n - 1) && Retryable(ran(n - 1)))
  }

  lemma {:induction false} ConflictAt<T>(ran: nat -> Attempt<T>, n: nat, i: nat)
    requires AllConflicts(ran, n) && i < n
    ensures ran(i) == DatabaseFailure(Some("40001")) || ran(i) == DatabaseFailure(Some("40P01"))
  {
    if i < n - 1 {
      ConflictAt(ran, n - 1, i);
    }
  }

  /** Attempts are fresh and numbered from zero; `jitter(i)` is what the i-th back-off drew.
      The run stops at the first attempt that is not a serialization failure or a deadlock, or at
      the last one allowed, and sleeps exactly between attempts: the base delay first and twice as
      long each time, not counting the jitter. */
  method RunSerializable<T>(ran: nat -> Attempt<T>, attempts: int, baseDelay: real, jitter: nat -> real)
    returns (outcome: Outcome<T>, sleeps: seq<real>)
    ensures outcome.BadAttempts? <==> attempts < 1
    ensures outcome.BadDelay? <==> attempts >= 1 && baseDelay < 0.0
    ensures !outcome.Ended? ==> sleeps == []
    ensures outcome.Ended? ==> |sleeps| < attempts && outcome.attempt == ran(|sleeps|)
    ensures forall i: nat :: i < |sleeps| ==>
              ran(i) == DatabaseFailure(Some("40001")) || ran(i) == DatabaseFailure(Some("40P01"))
    ensures outcome == Ended(DatabaseFailure(Some("40001"))) || outcome == Ended(DatabaseFailure(Some("40P01"))) ==>
              |sleeps| + 1 == attempts
    ensures |sleeps| > 0 ==> sleeps[0] == baseDelay + jitter(0)
    ensures forall i: nat, j: nat :: j == i + 1 && j < |sleeps| ==> sleeps[j] - jitter(j) == 2.0 * (sleeps[i] - jitter(i))
  {
    sleeps := [];
    if attempts < 1 {
      return BadAttempts, sleeps;
    }
    if baseDelay < 0.0 {
      return BadDelay, sleeps;
    }
    for attempt := 0 to attempts
      invariant attempt == 0 || attempt < attempts
      invariant AllConflicts(ran, attempt) && sleeps == Pauses(baseDelay, jitter, attempt)
    {
      var result := ran(attempt);
      if !Retryable(result) || attempt + 1 == attempts {
        PausesDouble(baseDelay, jitter, attempt);
        forall i: nat | i < attempt
          ensures ran(i) == DatabaseFailure(Some("40001")) || ran(i) == DatabaseFailure(Some("40P01"))
        {
          ConflictAt(ran, attempt, i);
        }
        return Ended(result), sleeps;
      }
      var exponential := BackOff(baseDelay, attempt);
      sleeps := sleeps + [exponential + jitter(attempt)];
    }
    assert false;
  }
}
