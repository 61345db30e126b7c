/** The sliding-window rate limiter of src/delivery_service/policy.py.

    Times are whole microseconds.  The limiter keeps one pruned queue of accepted
    moments per key; the reference it is compared with keeps every accepted call for
    ever and counts. */
module RateLimiter {
  import opened Traces

  /** The text under which one budget is counted. */
  datatype Key = Key(text: string)

  type Buckets = map<Key, seq<int>>

  datatype Config = Config(limit: int, window: int)

  datatype Decision = Decision(allowed: bool, retryAfterSeconds: int)

  /** `Broken` is the failed look at the head of an empty queue. */
  datatype Reply = Decided(decision: Decision) | InvalidKeys | Broken

  datatype Call = Call(keys: seq<Key>, now: int)

  const MICROS := 1_000_000

  /** Seconds covering a span of microseconds, rounded up. */
  function CeilSeconds(micros: int): int {
    (micros + 999_999) / 1_000_000
  }

  /** No key occurs twice among the first `n`. */
  predicate Distinct(keys: seq<Key>, n: nat)
    requires n <= |keys|
  {
    n == 0 || (Distinct(keys, n - 1) && keys[n - 1] !in keys[..n - 1])
  }

  /** At least one key, and no key twice. */
  predicate WellFormed(keys: seq<Key>) {
    keys != [] && Distinct(keys, |keys|)
  }

  lemma {:induction false} DistinctAt(keys: seq<Key>, n: nat, i: nat)
    requires i < n <= |keys| && Distinct(keys, n)
    ensures keys[i] !in keys[..i]
  {
    if i < n - 1 {
      DistinctAt(keys, n - 1, i);
    }
  }

  lemma {:induction false} DistinctIff(keys: seq<Key>, n: nat)
    requires n <= |keys|
    ensures Distinct(keys, n) <==> forall i, j :: 0 <= i < j < n ==> keys[i] != keys[j]
  {
    if n > 0 {
      DistinctIff(keys, n - 1);
      assert keys[n - 1] in keys[..n - 1] ==> exists i :: 0 <= i < n - 1 && keys[i] == keys[n - 1];
    }
  }

  lemma WellFormedIff(keys: seq<Key>)
    ensures !WellFormed(keys) <==> keys == [] || exists i, j :: 0 <= i < j < |keys| && keys[i] == keys[j]
  {
    DistinctIff(keys, |keys|);
  }

  function Bucket(b: Buckets, k: Key): seq<int> {
    if k in b then b[k] else []
  }

  // ----- what one check does to the queues -----

  function Prune(q: seq<int>, threshold: int): seq<int> {
    if q != [] && q[0] <= threshold then Prune(q[1..], threshold) else q
  }

  function Pruned(b: Buckets, keys: seq<Key>, threshold: int): Buckets {
    map k | k in b.Keys + (set x | x in keys) ::
      if k in keys then Prune(Bucket(b, k), threshold) else Bucket(b, k)
  }

  lemma PrunedAt(b: Buckets, keys: seq<Key>, threshold: int, k: Key)
    ensures Bucket(Pruned(b, keys, threshold), k) ==
            if k in keys then Prune(Bucket(b, k), threshold) else Bucket(b, k)
  {
  }

  function Appended(b: Buckets, keys: seq<Key>, now: int): Buckets {
    map k | k in b :: if k in keys then b[k] + [now] else b[k]
  }

  predicate Full(c: Config, b: Buckets, k: Key) {
    |Bucket(b, k)| >= c.limit
  }

  /** The longest wait among the full buckets of the first `n` keys, and at least one second. */
  function RetryAfter(c: Config, b: Buckets, keys: seq<Key>, n: nat, now: int): int
    requires n <= |keys|
  {
    if n == 0 then 1
    else
      var rest := RetryAfter(c, b, keys, n - 1, now);
      if Full(c, b, keys[n - 1]) && Bucket(b, keys[n - 1]) != [] then
        var wait := CeilSeconds(Bucket(b, keys[n - 1])[0] + c.window - now);
        if wait > rest then wait else rest
      else rest
  }

  predicate Blocked(c: Config, b: Buckets, keys: seq<Key>) {
    exists k :: k in keys && Full(c, b, k)
  }

  function Check(c: Config, b: Buckets, call: Call): (Buckets, Reply)
    requires c.limit >= 1
  {
    if !WellFormed(call.keys) then (b, InvalidKeys)
    else
      var p := Pruned(b, call.keys, call.now - c.window);
      if Blocked(c, p, call.keys) then
        (p, Decided(Decision(false, RetryAfter(c, p, call.keys, |call.keys|, call.now))))
      else
        (Appended(p, call.keys, call.now), Decided(Decision(true, 0)))
  }

  /** Some bucket to be looked at counts as full although it is empty. */
  predicate LooksIntoEmpty(c: Config, b: Buckets, keys: seq<Key>) {
    exists k :: k in keys && Full(c, b, k) && Bucket(b, k) == []
  }

  /** Whether one of the first `n` buckets is full, and whether one is full and empty. */
  predicate FullAmong(c: Config, b: Buckets, keys: seq<Key>, n: nat)
    requires n <= |keys|
  {
    n > 0 && (FullAmong(c, b, keys, n - 1) || Full(c, b, keys[n - 1]))
  }

  predicate EmptyAmong(c: Config, b: Buckets, keys: seq<Key>, n: nat)
    requires n <= |keys|
  {
    n > 0 && (EmptyAmong(c, b, keys, n - 1) || (Full(c, b, keys[n - 1]) && Bucket(b, keys[n - 1]) == []))
  }

  lemma {:induction false} FullAmongIff(c: Config, b: Buckets, keys: seq<Key>, n: nat)
    requires n <= |keys|
    ensures FullAmong(c, b, keys, n) <==> Blocked(c, b, keys[..n])
    ensures EmptyAmong(c, b, keys, n) <==> LooksIntoEmpty(c, b, keys[..n])
  {
    if n > 0 {
      FullAmongIff(c, b, keys, n - 1);
      assert keys[..n] == keys[..n - 1] + [keys[n - 1]];
    }
  }

  /** Only without a slot is an empty bucket full, and then every bucket is. */
  lemma FullWithoutSlots(c: Config, b: Buckets, keys: seq<Key>)
    ensures c.limit >= 1 ==> !LooksIntoEmpty(c, b, keys)
    ensures c.limit < 1 && keys != [] ==> Blocked(c, b, keys)
  {
    if c.limit < 1 && keys != [] {
      assert keys[0] in keys && Full(c, b, keys[0]);
    }
  }

  /** A check when the limit leaves no slot at all: every bucket is full from the start. */
  function CheckWithoutSlots(c: Config, b: Buckets, call: Call): (Buckets, Reply)
    requires c.limit < 1
  {
    if !WellFormed(call.keys) then (b, InvalidKeys)
    else
      var p := Pruned(b, call.keys, call.now - c.window);
      (p, if LooksIntoEmpty(c, p, call.keys) then Broken
          else Decided(Decision(false, RetryAfter(c, p, call.keys, |call.keys|, call.now))))
  }

  class SlidingWindowRateLimiter {
    const limit: int
    const window: int
    var requests: Buckets

    constructor (limit: int, window: int)
      ensures this.limit == limit && this.window == window && requests == map[]
    {
      this.limit := limit;
      this.window := window;
      requests := map[];
    }

    method CheckMany(keys: seq<Key>, now: int) returns (reply: Reply)
      modifies this
      ensures (requests, reply) == if limit >= 1 then Check(Config(limit, window), old(requests), Call(keys, now))
                                   else CheckWithoutSlots(Config(limit, window), old(requests), Call(keys, now))
      ensures reply == InvalidKeys <==> keys == [] || exists i, j :: 0 <= i < j < |keys| && keys[i] == keys[j]
      ensures reply == InvalidKeys ==> requests == old(requests)
      ensures reply.Decided? && reply.decision.allowed ==> reply.decision.retryAfterSeconds == 0
      ensures reply.Decided? && !reply.decision.allowed ==> reply.decision.retryAfterSeconds >= 1
    {
      WellFormedIff(keys);
      if !WellFormed(keys) {
        return InvalidKeys;
      }
      PruneAll(keys, now - window);
      FullWithoutSlots(Config(limit, window), requests, keys);
      var blocked, broken, retryAfter := FindBlocked(keys, now);
      if broken {
        return Broken;
      }
      if blocked {
        return Decided(Decision(false, retryAfter));
      }
      AppendAll(keys, now);
      return Decided(Decision(true, 0));
    }

    /** The first pass over the buckets: drop every moment that left the window. */
    method PruneAll(keys: seq<Key>, threshold: int)
      modifies this
      ensures requests == Pruned(old(requests), keys, threshold)
    {
      for i := 0 to |keys|
        invariant requests == Pruned(old(requests), keys[..i], threshold)
      {
        var q := Bucket(requests, keys[i]);
        ghost var before := q;
        while q != [] && q[0] <= threshold
          invariant Prune(q, threshold) == Prune(before, threshold)
          decreases |q|
        {
          q := q[1..];
        }
        PruneTwice(Bucket(old(requests), keys[i]), threshold);
        requests := requests[keys[i] := q];
        assert forall k :: k in keys[..i + 1] <==> k in keys[..i] || k == keys[i];
      }
      assert keys[..|keys|] == keys;
    }

    /** The second pass: is some bucket full, and how long until every full one frees a slot? */
    method FindBlocked(keys: seq<Key>, now: int) returns (blocked: bool, broken: bool, retryAfter: int)
      requires forall k :: k in keys ==> k in requests
      ensures blocked <==> Blocked(Config(limit, window), requests, keys)
      ensures broken <==> LooksIntoEmpty(Config(limit, window), requests, keys)
      ensures retryAfter == RetryAfter(Config(limit, window), requests, keys, |keys|, now) >= 1
    {
      ghost var c := Config(limit, window);
      blocked, broken, retryAfter := false, false, 1;
      for i := 0 to |keys|
        invariant blocked == FullAmong(c, requests, keys, i) && broken == EmptyAmong(c, requests, keys, i)
        invariant retryAfter == RetryAfter(c, requests, keys, i, now) >= 1
      {
        var bucket := requests[keys[i]];
        if |bucket| >= limit {
          blocked := true;
          if bucket == [] {
            broken := true;
          } else {
            var wait := CeilSeconds(bucket[0] + window - now);
            if wait > retryAfter {
              retryAfter := wait;
            }
          }
        }
      }
      FullAmongIff(c, requests, keys, |keys|);
      assert keys[..|keys|] == keys;
    }

    /** The last pass: every bucket takes the new moment. */
    method AppendAll(keys: seq<Key>, now: int)
      requires Distinct(keys, |keys|) && forall k :: k in keys ==> k in requests
      modifies this
      ensures requests == Appended(old(requests), keys, now)
    {
      for i := 0 to |keys|
        invariant requests == Appended(old(requests), keys[..i], now)
      {
        DistinctAt(keys, |keys|, i);
        requests := requests[keys[i] := requests[keys[i]] + [now]];
        assert forall k :: k in keys[..i + 1] <==> k in keys[..i] || k == keys[i];
      }
      assert keys[..|keys|] == keys;
    }
  }

  lemma PruneTwice(q: seq<int>, threshold: int)
    ensures Prune(Prune(q, threshold), threshold) == Prune(q, threshold)
  {
  }

  // ----- the reference: keep every accepted call, count in the window -----

  /** How many accepted calls on `k` lie in (lo, hi]. */
  function Used(accepted: Trace<Call>, k: Key, lo: int, hi: int): nat {
    match accepted
    case Start => 0
    case Then(before, call) =>
      Used(before, k, lo, hi) + (if k in call.keys && lo < call.now <= hi then 1 else 0)
  }

  /** The full-log limiter admits a call iff every key still has a free slot. */
  predicate Admits(c: Config, accepted: Trace<Call>, call: Call) {
    WellFormed(call.keys) &&
    forall k :: k in call.keys ==> Used(accepted, k, call.now - c.window, call.now) < c.limit
  }

  function FullLog(c: Config, calls: Trace<Call>): Trace<Call> {
    match calls
    case Start => Start
    case Then(before, call) =>
      var log := FullLog(c, before);
      if Admits(c, log, call) then Then(log, call) else log
  }

  // ----- runs of the real limiter -----

  function Run(c: Config, calls: Trace<Call>): Buckets
    requires c.limit >= 1
  {
    match calls
    case Start => map[]
    case Then(before, call) => Check(c, Run(c, before), call).0
  }

  function ReplyTo(c: Config, calls: Trace<Call>, call: Call): Reply
    requires c.limit >= 1
  {
    Check(c, Run(c, calls), call).1
  }

  predicate IsAllowed(r: Reply) {
    r.Decided? && r.decision.allowed
  }

  /** The clock never runs backwards, and has not passed `now`. */
  predicate Monotone(calls: Trace<Call>, now: int) {
    calls.Then? ==> calls.step.now <= now && Monotone(calls.before, calls.step.now)
  }

  // ----- the invariant tying a queue to the full log of its key -----

  /** The accepted moments of one key, oldest first. */
  function Times(accepted: Trace<Call>, k: Key): seq<int> {
    match accepted
    case Start => []
    case Then(before, call) => if k in call.keys then Times(before, k) + [call.now] else Times(before, k)
  }

  /** How many moments of `ts` lie in (lo, hi]. */
  function Count(ts: seq<int>, lo: int, hi: int): nat {
    if ts == [] then 0
    else Count(ts[..|ts| - 1], lo, hi) + (if lo < ts[|ts| - 1] <= hi then 1 else 0)
  }

  predicate Sorted(ts: seq<int>) {
    |ts| < 2 || (Sorted(ts[..|ts| - 1]) && ts[|ts| - 2] <= ts[|ts| - 1])
  }

  /** Any two accepted moments `limit` places apart are at least a window apart. */
  predicate Spaced(c: Config, ts: seq<int>) {
    ts == [] ||
    (Spaced(c, ts[..|ts| - 1]) &&
     (0 <= |ts| - 1 - c.limit < |ts| ==> ts[|ts| - 1 - c.limit] + c.window <= ts[|ts| - 1]))
  }

  lemma {:induction false} SortedAt(ts: seq<int>, i: nat, j: nat)
    requires Sorted(ts) && i <= j < |ts|
    ensures ts[i] <= ts[j]
  {
    if i < j {
      if j == |ts| - 1 {
        SortedAt(ts[..j], i, j - 1);
      } else {
        SortedAt(ts[..|ts| - 1], i, j);
      }
    }
  }

  lemma {:induction false} SpacedAt(c: Config, ts: seq<int>, i: nat, j: nat)
    requires c.limit >= 1 && Sorted(ts) && Spaced(c, ts) && j < |ts| && i + c.limit <= j
    ensures ts[i] + c.window <= ts[j]
  {
    if j == |ts| - 1 {
      SortedAt(ts, i, j - c.limit);
    } else {
      SpacedAt(c, ts[..|ts| - 1], i, j);
    }
  }

  /** Names a queue position, so that `Tied` is used only at the positions a proof asks for. */
  predicate Place(i: int) { true }

  /** `q` is the tail of `ts`; what was dropped is out of the window at `last`; the queue
      never exceeds the limit; and accepted moments `limit` apart span a whole window. */
  ghost predicate Tied(c: Config, q: seq<int>, ts: seq<int>, last: int) {
    && Sorted(ts) && Spaced(c, ts)
    && |q| <= |ts| && |q| <= c.limit
    && (forall i {:trigger Place(i)} :: Place(i) && 0 <= i < |q| ==> q[i] == ts[|ts| - |q| + i])
    && (forall i :: 0 <= i < |ts| ==> ts[i] <= last)
    && (forall i :: 0 <= i < |ts| - |q| ==> ts[i] <= last - c.window)
  }

  ghost predicate Invariant(c: Config, b: Buckets, accepted: Trace<Call>, last: int) {
    forall k {:trigger Tied(c, Bucket(b, k), Times(accepted, k), last)} :: Tied(c, Bucket(b, k), Times(accepted, k), last)
  }

  lemma {:induction false} PruneIsSuffix(q: seq<int>, threshold: int) returns (n: nat)
    ensures n <= |q| && Prune(q, threshold) == q[n..]
    ensures forall i :: 0 <= i < n ==> q[i] <= threshold
    ensures n < |q| ==> q[n] > threshold
  {
    if q != [] && q[0] <= threshold {
      var m := PruneIsSuffix(q[1..], threshold);
      n := m + 1;
      assert q[1..][m..] == q[n..];
      forall i | 0 < i < n ensures q[i] <= threshold { assert q[i] == q[1..][i - 1]; }
    } else {
      n := 0;
    }
  }

  /** The count of a list whose in-window moments are exactly those from index `m` to `n`. */
  lemma {:induction false} CountRange(ts: seq<int>, lo: int, hi: int, m: nat, n: nat)
    requires m <= n
    requires forall i :: 0 <= i < |ts| && !(m <= i < n) ==> !(lo < ts[i] <= hi)
    ensures Count(ts, lo, hi) <= n - m
    ensures n == |ts| && (forall i :: m <= i < n ==> lo < ts[i] <= hi) ==> Count(ts, lo, hi) == n - m
  {
    if ts != [] {
      var rest := ts[..|ts| - 1];
      if |ts| <= m {
        CountRange(rest, lo, hi, m, n);
        if n == |ts| { CountRange(rest, lo, hi, |rest|, |rest|); }
      } else if |ts| <= n {
        CountRange(rest, lo, hi, m, |rest|);
      } else {
        CountRange(rest, lo, hi, m, n);
      }
    }
  }

  /** After pruning at `now`, the queue length of a key is its count in (now-window, now]. */
  lemma PrunedLengthIsCount(c: Config, q: seq<int>, ts: seq<int>, last: int, now: int)
    requires Tied(c, q, ts, last) && last <= now
    ensures var q' := Prune(q, now - c.window);
            && Tied(c, q', ts, now)
            && |q'| == Count(ts, now - c.window, now)
            && (q' != [] ==> now - c.window < q'[0] <= now)
  {
    var n := PruneIsSuffix(q, now - c.window);
    SplitAtThreshold(c, q, ts, last, now, n);
    var m := |ts| - |q| + n;
    CountRange(ts, now - c.window, now, m, |ts|);
    forall i | Place(i) && 0 <= i < |q| - n ensures q[n..][i] == ts[m + i] { assert Place(n + i); }
    assert n < |q| ==> Place(n) && Place(0);
  }

  lemma SplitAtThreshold(c: Config, q: seq<int>, ts: seq<int>, last: int, now: int, n: nat)
    requires Tied(c, q, ts, last) && last <= now && n <= |q|
    requires forall i :: 0 <= i < n ==> q[i] <= now - c.window
    requires n < |q| ==> q[n] > now - c.window
    ensures forall i :: 0 <= i < |ts| - |q| + n ==> ts[i] <= now - c.window
    ensures forall i :: |ts| - |q| + n <= i < |ts| ==> now - c.window < ts[i] <= now
  {
    var d := |ts| - |q|;
    forall i | 0 <= i < d + n ensures ts[i] <= now - c.window {
      if d <= i { assert Place(i - d); }
    }
    forall i | d + n <= i < |ts| ensures now - c.window < ts[i] <= now {
      SortedAt(ts, d + n, i);
      assert Place(n);
    }
  }

  lemma {:induction false} UsedIsCount(accepted: Trace<Call>, k: Key, lo: int, hi: int)
    ensures Used(accepted, k, lo, hi) == Count(Times(accepted, k), lo, hi)
  {
    if accepted.Then? {
      UsedIsCount(accepted.before, k, lo, hi);
      if k in accepted.step.keys {
        CountAppend(Times(accepted.before, k), accepted.step.now, lo, hi);
      }
    }
  }

  lemma CountAppend(ts: seq<int>, x: int, lo: int, hi: int)
    ensures Count(ts + [x], lo, hi) == Count(ts, lo, hi) + if lo < x <= hi then 1 else 0
  {
    assert (ts + [x])[..|ts|] == ts;
  }

  lemma TiedAfterAppend(c: Config, q: seq<int>, ts: seq<int>, now: int)
    requires c.limit >= 1 && Tied(c, q, ts, now) && |q| < c.limit
    ensures Tied(c, q + [now], ts + [now], now)
  {
    var ts' := ts + [now];
    assert ts'[..|ts|] == ts;
    if c.limit <= |ts| {
      assert |ts| - c.limit < |ts| - |q|;
    }
  }

  lemma AllowedUnlessBlocked(c: Config, b: Buckets, call: Call)
    requires c.limit >= 1
    ensures var p := Pruned(b, call.keys, call.now - c.window);
            var r := Check(c, b, call).1;
            && (IsAllowed(r) <==> WellFormed(call.keys) && !Blocked(c, p, call.keys))
            && (r.InvalidKeys? <==> !WellFormed(call.keys))
            && (WellFormed(call.keys) && Blocked(c, p, call.keys) ==>
                  r == Decided(Decision(false, RetryAfter(c, p, call.keys, |call.keys|, call.now))))
  {
  }

  lemma BucketAfterCheck(c: Config, b: Buckets, call: Call, k: Key)
    requires c.limit >= 1
    ensures var (b', r) := Check(c, b, call);
            Bucket(b', k) ==
            if WellFormed(call.keys) && k in call.keys then
              Prune(Bucket(b, k), call.now - c.window) + (if IsAllowed(r) then [call.now] else [])
            else Bucket(b, k)
  {
    PrunedAt(b, call.keys, call.now - c.window, k);
  }

  lemma PrunedBucket(c: Config, b: Buckets, ts: seq<int>, last: int, call: Call, k: Key)
    requires Tied(c, Bucket(b, k), ts, last) && last <= call.now && k in call.keys
    ensures var q := Bucket(Pruned(b, call.keys, call.now - c.window), k);
            && Tied(c, q, ts, call.now)
            && |q| == Count(ts, call.now - c.window, call.now)
            && (q != [] ==> call.now - c.window < q[0] <= call.now)
  {
    PrunedAt(b, call.keys, call.now - c.window, k);
    PrunedLengthIsCount(c, Bucket(b, k), ts, last, call.now);
  }

  /** One check decides exactly as the full log does. */
  lemma CheckDecidesAsFullLog(c: Config, b: Buckets, accepted: Trace<Call>, last: int, call: Call)
    requires c.limit >= 1 && Invariant(c, b, accepted, last) && last <= call.now
    ensures IsAllowed(Check(c, b, call).1) == Admits(c, accepted, call)
  {
    AllowedUnlessBlocked(c, b, call);
    forall k | k in call.keys
      ensures Full(c, Pruned(b, call.keys, call.now - c.window), k) <==>
              Used(accepted, k, call.now - c.window, call.now) >= c.limit
    {
      FullMeansCount(c, b, accepted, last, call, k);
    }
  }

  /** The accepted moments of a key, tied to its queue and counted by `Used`. */
  lemma MomentsOf(c: Config, b: Buckets, accepted: Trace<Call>, last: int, k: Key) returns (ts: seq<int>)
    requires Invariant(c, b, accepted, last)
    ensures Tied(c, Bucket(b, k), ts, last)
    ensures forall lo, hi :: Used(accepted, k, lo, hi) == Count(ts, lo, hi)
  {
    ts := Times(accepted, k);
    assert Tied(c, Bucket(b, k), Times(accepted, k), last);
    forall lo, hi ensures Used(accepted, k, lo, hi) == Count(ts, lo, hi) {
      UsedIsCount(accepted, k, lo, hi);
    }
  }

  lemma FullMeansCount(c: Config, b: Buckets, accepted: Trace<Call>, last: int, call: Call, k: Key)
    requires Invariant(c, b, accepted, last) && last <= call.now && k in call.keys
    ensures Full(c, Pruned(b, call.keys, call.now - c.window), k) <==>
            Used(accepted, k, call.now - c.window, call.now) >= c.limit
  {
    var ts := MomentsOf(c, b, accepted, last, k);
    PrunedBucket(c, b, ts, last, call, k);
  }

  /** What a check that uses `k` does to the queue of `k` and its accepted moments. */
  lemma UsedKeyStaysTied(c: Config, b: Buckets, ts: seq<int>, last: int, call: Call, k: Key)
    requires c.limit >= 1 && last <= call.now && Tied(c, Bucket(b, k), ts, last)
    requires WellFormed(call.keys) && k in call.keys
    ensures var (b', r) := Check(c, b, call);
            Tied(c, Bucket(b', k), if IsAllowed(r) then ts + [call.now] else ts, call.now)
  {
    BucketAfterCheck(c, b, call, k);
    PrunedBucket(c, b, ts, last, call, k);
    PrunedAt(b, call.keys, call.now - c.window, k);
    AllowedUnlessBlocked(c, b, call);
    var q := Prune(Bucket(b, k), call.now - c.window);
    if IsAllowed(Check(c, b, call).1) {
      assert !Full(c, Pruned(b, call.keys, call.now - c.window), k);
      TiedAfterAppend(c, q, ts, call.now);
    } else {
      assert q + [] == q;
    }
  }

  /** One check keeps the tie between queue and full log for one key. */
  lemma CheckKeepsKey(c: Config, b: Buckets, accepted: Trace<Call>, last: int, call: Call, k: Key)
    requires c.limit >= 1 && last <= call.now && Tied(c, Bucket(b, k), Times(accepted, k), last)
    ensures var (b', r) := Check(c, b, call);
            var accepted' := if IsAllowed(r) then Then(accepted, call) else accepted;
            Tied(c, Bucket(b', k), Times(accepted', k), call.now)
  {
    var ts := Times(accepted, k);
    if WellFormed(call.keys) && k in call.keys {
      UsedKeyStaysTied(c, b, ts, last, call, k);
    } else {
      UnusedKeyStaysTied(c, b, ts, last, call, k);
      assert ts + [] == ts;
    }
  }

  lemma UnusedKeyStaysTied(c: Config, b: Buckets, ts: seq<int>, last: int, call: Call, k: Key)
    requires c.limit >= 1 && last <= call.now && Tied(c, Bucket(b, k), ts, last)
    requires !WellFormed(call.keys) || k !in call.keys
    ensures Tied(c, Bucket(Check(c, b, call).0, k), ts, call.now)
    ensures !WellFormed(call.keys) ==> !IsAllowed(Check(c, b, call).1)
  {
    BucketAfterCheck(c, b, call, k);
  }

  lemma CheckRefinesFullLog(c: Config, b: Buckets, accepted: Trace<Call>, last: int, call: Call)
    requires c.limit >= 1 && Invariant(c, b, accepted, last) && last <= call.now
    ensures var (b', r) := Check(c, b, call);
            var accepted' := if Admits(c, accepted, call) then Then(accepted, call) else accepted;
            IsAllowed(r) == Admits(c, accepted, call) && Invariant(c, b', accepted', call.now)
  {
    var (b', r) := Check(c, b, call);
    CheckDecidesAsFullLog(c, b, accepted, last, call);
    var accepted' := if IsAllowed(r) then Then(accepted, call) else accepted;
    forall k ensures Tied(c, Bucket(b', k), Times(accepted', k), call.now) {
      assert Tied(c, Bucket(b, k), Times(accepted, k), last);
      CheckKeepsKey(c, b, accepted, last, call, k);
    }
  }

  /** Every run with a non-decreasing clock keeps the invariant. */
  lemma {:induction false} RunKeepsInvariant(c: Config, calls: Trace<Call>, now: int)
    requires c.limit >= 1 && Monotone(calls, now)
    ensures Invariant(c, Run(c, calls), FullLog(c, calls), now)
  {
    if calls.Then? {
      var t := calls.step.now;
      RunKeepsInvariant(c, calls.before, t);
      CheckRefinesFullLog(c, Run(c, calls.before), FullLog(c, calls.before), t, calls.step);
      InvariantAtLaterMoment(c, Run(c, calls), FullLog(c, calls), t, now);
    }
  }

  lemma InvariantAtLaterMoment(c: Config, b: Buckets, accepted: Trace<Call>, last: int, now: int)
    requires Invariant(c, b, accepted, last) && last <= now
    ensures Invariant(c, b, accepted, now)
  {
    forall k ensures Tied(c, Bucket(b, k), Times(accepted, k), now) {
      assert Tied(c, Bucket(b, k), Times(accepted, k), last);
    }
  }

  // ----- main results -----

  /** The pruned queues answer every call of every run exactly as the full log would. */
  lemma {:induction false} PrunedQueuesDecideAsFullLog(c: Config, calls: Trace<Call>, call: Call)
    requires c.limit >= 1 && Monotone(calls, call.now)
    ensures var r := ReplyTo(c, calls, call);
            && (r == InvalidKeys <==>
                  call.keys == [] || exists i, j :: 0 <= i < j < |call.keys| && call.keys[i] == call.keys[j])
            && (r != InvalidKeys ==>
                  r.Decided? && (r.decision.allowed ==> r.decision.retryAfterSeconds == 0) &&
                  (!r.decision.allowed <==>
                    exists k :: k in call.keys &&
                      Used(FullLog(c, calls), k, call.now - c.window, call.now) >= c.limit))
  {
    RunKeepsInvariant(c, calls, call.now);
    DecidedByUse(c, Run(c, calls), FullLog(c, calls), call);
    WellFormedIff(call.keys);
  }

  lemma DecidedByUse(c: Config, b: Buckets, accepted: Trace<Call>, call: Call)
    requires c.limit >= 1 && Invariant(c, b, accepted, call.now)
    ensures var r := Check(c, b, call).1;
            && (r == InvalidKeys <==> !WellFormed(call.keys))
            && (WellFormed(call.keys) ==>
                  (!r.decision.allowed <==>
                    exists k :: k in call.keys && Used(accepted, k, call.now - c.window, call.now) >= c.limit))
  {
    CheckDecidesAsFullLog(c, b, accepted, call.now, call);
    if WellFormed(call.keys) {
      RefusedByUse(c, accepted, call);
    }
  }

  lemma RefusedByUse(c: Config, accepted: Trace<Call>, call: Call)
    requires WellFormed(call.keys)
    ensures !Admits(c, accepted, call) <==>
              exists k :: k in call.keys && Used(accepted, k, call.now - c.window, call.now) >= c.limit
  {
  }

  /** No window, wherever it is placed, holds more than `limit` accepted checks of a key. */
  lemma NoWindowExceedsLimit(c: Config, calls: Trace<Call>, now: int, k: Key, t: int)
    requires c.limit >= 1 && Monotone(calls, now)
    ensures Used(FullLog(c, calls), k, t - c.window, t) <= c.limit
  {
    RunKeepsInvariant(c, calls, now);
    var ts := MomentsOf(c, Run(c, calls), FullLog(c, calls), now, k);
    SpacedMomentsFit(c, ts, t);
  }

  lemma SpacedMomentsFit(c: Config, ts: seq<int>, t: int)
    requires c.limit >= 1 && Sorted(ts)
    requires Spaced(c, ts)
    ensures Count(ts, t - c.window, t) <= c.limit
  {
    var lo := t - c.window;
    var m := 0;
    while m < |ts| && ts[m] <= lo
      invariant 0 <= m <= |ts|
      invariant forall i :: 0 <= i < m ==> ts[i] <= lo
    {
      m := m + 1;
    }
    forall i | 0 <= i < |ts| && !(m <= i < m + c.limit) ensures !(lo < ts[i] <= t) {
      if i >= m + c.limit { SpacedAt(c, ts, m, i); }
    }
    CountRange(ts, lo, t, m, m + c.limit);
  }

  /** An accepted call takes one slot of each of its keys; any other call takes none. */
  lemma DeniedConsumesNothing(c: Config, calls: Trace<Call>, call: Call)
    requires c.limit >= 1 && Monotone(calls, call.now)
    ensures FullLog(c, Then(calls, call)) ==
            if IsAllowed(ReplyTo(c, calls, call)) then Then(FullLog(c, calls), call) else FullLog(c, calls)
  {
    RunKeepsInvariant(c, calls, call.now);
    CheckDecidesAsFullLog(c, Run(c, calls), FullLog(c, calls), call.now, call);
  }

  // ----- the advertised waiting time -----

  lemma {:induction false} RetryAfterIsMaximum(c: Config, b: Buckets, keys: seq<Key>, n: nat, now: int)
    requires c.limit >= 1 && n <= |keys|
    ensures RetryAfter(c, b, keys, n, now) >= 1
    ensures forall i :: 0 <= i < n && Full(c, b, keys[i]) ==>
              CeilSeconds(Bucket(b, keys[i])[0] + c.window - now) <= RetryAfter(c, b, keys, n, now)
    ensures RetryAfter(c, b, keys, n, now) == 1 ||
            exists i :: 0 <= i < n && Full(c, b, keys[i]) &&
                        CeilSeconds(Bucket(b, keys[i])[0] + c.window - now) == RetryAfter(c, b, keys, n, now)
  {
    if n > 0 {
      RetryAfterIsMaximum(c, b, keys, n - 1, now);
    }
  }

  /** Every answer that denies names between one second and the window rounded up. */
  lemma RetryAfterIsBounded(c: Config, calls: Trace<Call>, call: Call)
    requires c.limit >= 1 && Monotone(calls, call.now)
    requires var r := ReplyTo(c, calls, call); r.Decided? && !r.decision.allowed
    ensures 1 <= ReplyTo(c, calls, call).decision.retryAfterSeconds <= CeilSeconds(c.window)
  {
    RunKeepsInvariant(c, calls, call.now);
    RetryMomentsAgainstLog(c, Run(c, calls), FullLog(c, calls), call, call.now);
  }

  /** From the moment `since` on, no check on any of `keys` was accepted. */
  ghost predicate QuietSince(c: Config, since: Trace<Call>, calls: Trace<Call>, keys: seq<Key>)
    requires c.limit >= 1
  {
    calls == since ||
    (calls.Then? && QuietSince(c, since, calls.before, keys) &&
     (IsAllowed(ReplyTo(c, calls.before, calls.step)) ==> forall k :: k in keys ==> k !in calls.step.keys))
  }

  lemma {:induction false} QuietKeepsUse(
      c: Config, since: Trace<Call>, calls: Trace<Call>, keys: seq<Key>, now: int, k: Key, lo: int, hi: int)
    requires c.limit >= 1 && Monotone(calls, now) && QuietSince(c, since, calls, keys) && k in keys
    ensures Used(FullLog(c, calls), k, lo, hi) == Used(FullLog(c, since), k, lo, hi)
  {
    if calls != since {
      QuietKeepsUse(c, since, calls.before, keys, calls.step.now, k, lo, hi);
      DeniedConsumesNothing(c, calls.before, calls.step);
    }
  }

  /** The clock at a past moment of a monotone run. */
  lemma {:induction false} QuietIsLater(c: Config, since: Trace<Call>, calls: Trace<Call>, keys: seq<Key>, now: int)
    requires c.limit >= 1 && Monotone(calls, now) && QuietSince(c, since, calls, keys)
    ensures Monotone(since, now)
  {
    if calls != since {
      QuietIsLater(c, since, calls.before, keys, calls.step.now);
    }
  }

  /** The waiting time is exact.  After a denial naming `r` seconds, and as long as no check on
      those keys is accepted meanwhile, the same call `r` seconds later is accepted, and the same
      call one second earlier than that is still refused (when `r` exceeds one). */
  lemma RetryAfterIsExact(c: Config, calls: Trace<Call>, call: Call, before: Trace<Call>, retry: Call)
    requires c.limit >= 1 && Monotone(before, retry.now)
    requires QuietSince(c, Then(calls, call), before, call.keys) && retry.keys == call.keys
    requires var r := ReplyTo(c, calls, call); r.Decided? && !r.decision.allowed
    ensures var r := ReplyTo(c, calls, call).decision.retryAfterSeconds;
            var answer := ReplyTo(c, before, retry);
            && (retry.now >= call.now + r * MICROS ==> IsAllowed(answer))
            && (r > 1 && retry.now <= call.now + (r - 1) * MICROS ==> !IsAllowed(answer))
  {
    QuietIsLater(c, Then(calls, call), before, call.keys, retry.now);
    RunKeepsInvariant(c, before, retry.now);
    RunKeepsInvariant(c, calls, call.now);
    var log, later := FullLog(c, calls), FullLog(c, before);
    DeniedConsumesNothing(c, calls, call);
    forall k | k in call.keys
      ensures Used(later, k, retry.now - c.window, retry.now) == Used(log, k, retry.now - c.window, retry.now)
    {
      QuietKeepsUse(c, Then(calls, call), before, call.keys, retry.now, k, retry.now - c.window, retry.now);
    }
    SameUseSameAnswer(c, Run(c, calls), log, call, Run(c, before), later, retry);
  }

  lemma SameUseSameAnswer(c: Config, b: Buckets, log: Trace<Call>, call: Call, b': Buckets, later: Trace<Call>, retry: Call)
    requires c.limit >= 1 && Invariant(c, b, log, call.now) && Invariant(c, b', later, retry.now)
    requires call.now <= retry.now && retry.keys == call.keys
    requires var r := Check(c, b, call).1; r.Decided? && !r.decision.allowed
    requires forall k :: k in call.keys ==>
               Used(later, k, retry.now - c.window, retry.now) == Used(log, k, retry.now - c.window, retry.now)
    ensures var r := Check(c, b, call).1.decision.retryAfterSeconds;
            var answer := Check(c, b', retry).1;
            && (retry.now >= call.now + r * MICROS ==> IsAllowed(answer))
            && (r > 1 && retry.now <= call.now + (r - 1) * MICROS ==> !IsAllowed(answer))
  {
    RetryMomentsAgainstLog(c, b, log, call, retry.now);
    DenialHasGoodKeys(c, b, call);
    var r := Check(c, b, call).1.decision.retryAfterSeconds;
    if retry.now >= call.now + r * MICROS {
      AllowedWhenFree(c, b', later, retry);
    } else if r > 1 && retry.now <= call.now + (r - 1) * MICROS {
      var k :| k in call.keys && Used(log, k, retry.now - c.window, retry.now) >= c.limit;
      DeniedWhenUsedUp(c, b', later, retry, k);
    }
  }

  lemma AllowedWhenFree(c: Config, b: Buckets, accepted: Trace<Call>, call: Call)
    requires c.limit >= 1 && Invariant(c, b, accepted, call.now) && WellFormed(call.keys)
    requires forall k :: k in call.keys ==> Used(accepted, k, call.now - c.window, call.now) < c.limit
    ensures IsAllowed(Check(c, b, call).1)
  {
    CheckDecidesAsFullLog(c, b, accepted, call.now, call);
  }

  lemma DeniedWhenUsedUp(c: Config, b: Buckets, accepted: Trace<Call>, call: Call, k: Key)
    requires c.limit >= 1 && Invariant(c, b, accepted, call.now)
    requires k in call.keys && Used(accepted, k, call.now - c.window, call.now) >= c.limit
    ensures !IsAllowed(Check(c, b, call).1)
  {
    CheckDecidesAsFullLog(c, b, accepted, call.now, call);
  }

  lemma DenialHasGoodKeys(c: Config, b: Buckets, call: Call)
    requires c.limit >= 1 && Check(c, b, call).1.Decided?
    ensures WellFormed(call.keys)
  {
  }

  function PrunedFor(c: Config, b: Buckets, call: Call): Buckets {
    Pruned(b, call.keys, call.now - c.window)
  }

  /** The wait a full bucket imposes. */
  function Wait(c: Config, p: Buckets, k: Key, now: int): int
    requires c.limit >= 1 && Full(c, p, k)
  {
    CeilSeconds(Bucket(p, k)[0] + c.window - now)
  }

  /** A denial names the greatest wait over the full buckets, and one of them imposes it. */
  lemma DenialNamesGreatestWait(c: Config, b: Buckets, call: Call) returns (k: Key)
    requires c.limit >= 1
    requires var r := Check(c, b, call).1; r.Decided? && !r.decision.allowed
    ensures var p, r := PrunedFor(c, b, call), Check(c, b, call).1.decision.retryAfterSeconds;
            && r >= 1 && k in call.keys && Full(c, p, k) && (r > 1 ==> Wait(c, p, k, call.now) == r)
            && forall x :: x in call.keys && Full(c, p, x) ==> Wait(c, p, x, call.now) <= r
  {
    var p := PrunedFor(c, b, call);
    AllowedUnlessBlocked(c, b, call);
    RetryAfterIsMaximum(c, p, call.keys, |call.keys|, call.now);
    var r := RetryAfter(c, p, call.keys, |call.keys|, call.now);
    if r > 1 {
      var i :| 0 <= i < |call.keys| && Full(c, p, call.keys[i]) && Wait(c, p, call.keys[i], call.now) == r;
      k := call.keys[i];
    } else {
      k :| k in call.keys && Full(c, p, k);
    }
  }

  /** The same, against an unchanged full log: what the count is at the retry moment. */
  lemma RetryMomentsAgainstLog(c: Config, b: Buckets, accepted: Trace<Call>, call: Call, later: int)
    requires c.limit >= 1 && Invariant(c, b, accepted, call.now) && call.now <= later
    requires var r := Check(c, b, call).1; r.Decided? && !r.decision.allowed
    ensures var r := Check(c, b, call).1.decision.retryAfterSeconds;
            && 1 <= r <= CeilSeconds(c.window)
            && (later >= call.now + r * MICROS ==>
                  forall k :: k in call.keys ==> Used(accepted, k, later - c.window, later) < c.limit)
            && (r > 1 && later <= call.now + (r - 1) * MICROS ==>
                  exists k :: k in call.keys && Used(accepted, k, later - c.window, later) >= c.limit)
  {
    var r := Check(c, b, call).1.decision.retryAfterSeconds;
    var k := DenialNamesGreatestWait(c, b, call);
    OldestInWindow(c, b, accepted, call, k);
    if later >= call.now + r * MICROS {
      forall x | x in call.keys ensures Used(accepted, x, later - c.window, later) < c.limit {
        OldestLeaves(c, b, accepted, call, later, x, r);
      }
    }
    if r > 1 && later <= call.now + (r - 1) * MICROS {
      OldestStays(c, b, accepted, call, later, k);
    }
  }

  lemma OldestInWindow(c: Config, b: Buckets, accepted: Trace<Call>, call: Call, k: Key)
    requires c.limit >= 1 && Invariant(c, b, accepted, call.now) && k in call.keys
    requires Full(c, Pruned(b, call.keys, call.now - c.window), k)
    ensures call.now - c.window < Bucket(Pruned(b, call.keys, call.now - c.window), k)[0] <= call.now
  {
    var ts := MomentsOf(c, b, accepted, call.now, k);
    PrunedBucket(c, b, ts, call.now, call, k);
  }

  lemma OldestLeaves(c: Config, b: Buckets, accepted: Trace<Call>, call: Call, later: int, k: Key, r: int)
    requires c.limit >= 1 && Invariant(c, b, accepted, call.now) && k in call.keys
    requires r >= 1 && later >= call.now + r * MICROS
    requires var q := Bucket(Pruned(b, call.keys, call.now - c.window), k);
             |q| >= c.limit ==> CeilSeconds(q[0] + c.window - call.now) <= r
    ensures Used(accepted, k, later - c.window, later) < c.limit
  {
    var ts := MomentsOf(c, b, accepted, call.now, k);
    OldestLeavesQueue(c, b, ts, call, k, later, r);
  }

  lemma OldestStays(c: Config, b: Buckets, accepted: Trace<Call>, call: Call, later: int, k: Key)
    requires c.limit >= 1 && Invariant(c, b, accepted, call.now) && k in call.keys && later >= call.now
    requires var q := Bucket(Pruned(b, call.keys, call.now - c.window), k);
             |q| >= c.limit && later <= call.now + (CeilSeconds(q[0] + c.window - call.now) - 1) * MICROS
    ensures Used(accepted, k, later - c.window, later) >= c.limit
  {
    var ts := MomentsOf(c, b, accepted, call.now, k);
    OldestStaysQueue(c, b, ts, call, k, later);
  }

  lemma OldestLeavesQueue(c: Config, b: Buckets, ts: seq<int>, call: Call, k: Key, later: int, r: int)
    requires c.limit >= 1 && Tied(c, Bucket(b, k), ts, call.now) && k in call.keys
    requires r >= 1 && later >= call.now + r * MICROS
    requires var q := Bucket(Pruned(b, call.keys, call.now - c.window), k);
             |q| >= c.limit ==> CeilSeconds(q[0] + c.window - call.now) <= r
    ensures Count(ts, later - c.window, later) < c.limit
  {
    PrunedBucket(c, b, ts, call.now, call, k);
    var q := Bucket(Pruned(b, call.keys, call.now - c.window), k);
    var d := |ts| - |q|;
    if |q| >= c.limit {
      assert Place(0);
      CountRange(ts, later - c.window, later, d + 1, |ts|);
    } else {
      CountRange(ts, later - c.window, later, d, |ts|);
    }
  }

  lemma OldestStaysQueue(c: Config, b: Buckets, ts: seq<int>, call: Call, k: Key, later: int)
    requires c.limit >= 1 && Tied(c, Bucket(b, k), ts, call.now) && k in call.keys && later >= call.now
    requires var q := Bucket(Pruned(b, call.keys, call.now - c.window), k);
             |q| >= c.limit && later <= call.now + (CeilSeconds(q[0] + c.window - call.now) - 1) * MICROS
    ensures Count(ts, later - c.window, later) >= c.limit
  {
    PrunedBucket(c, b, ts, call.now, call, k);
    var d := |ts| - |Bucket(Pruned(b, call.keys, call.now - c.window), k)|;
    assert Place(0);
    forall i | d <= i < |ts| ensures later - c.window < ts[i] <= later { SortedAt(ts, d, i); }
    CountAtLeast(ts, later - c.window, later, d);
  }

  lemma {:induction false} CountAtLeast(ts: seq<int>, lo: int, hi: int, m: nat)
    requires m <= |ts| && forall i :: m <= i < |ts| ==> lo < ts[i] <= hi
    ensures Count(ts, lo, hi) >= |ts| - m
  {
    if m < |ts| {
      CountAtLeast(ts[..|ts| - 1], lo, hi, m);
    }
  }

  // ----- a limit that leaves no slot -----

  function RunWithoutSlots(c: Config, calls: Trace<Call>): Buckets
    requires c.limit < 1
  {
    match calls
    case Start => map[]
    case Then(before, call) => CheckWithoutSlots(c, RunWithoutSlots(c, before), call).0
  }

  lemma {:induction false} NothingIsQueued(c: Config, calls: Trace<Call>, k: Key)
    requires c.limit < 1
    ensures Bucket(RunWithoutSlots(c, calls), k) == []
  {
    if calls.Then? {
      NothingIsQueued(c, calls.before, k);
      PrunedAt(RunWithoutSlots(c, calls.before), calls.step.keys, calls.step.now - c.window, k);
    }
  }

  /** With a limit below one no check is ever decided: each one fails, instead of being denied. */
  lemma WithoutSlotsEveryCheckFails(c: Config, calls: Trace<Call>, call: Call)
    requires c.limit < 1
    ensures CheckWithoutSlots(c, RunWithoutSlots(c, calls), call).1 ==
            if call.keys == [] || exists i, j :: 0 <= i < j < |call.keys| && call.keys[i] == call.keys[j] then InvalidKeys
            else Broken
  {
    WellFormedIff(call.keys);
    if WellFormed(call.keys) {
      NothingIsQueued(c, Then(calls, call), call.keys[0]);
      assert call.keys[0] in call.keys;
    }
  }
}
