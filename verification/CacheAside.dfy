/** The TTL cache and the cache-aside query of src/delivery_service/cache.py, with loads, source
    changes, lost invalidations and cache outages interleaved in any order.
    Times are whole microseconds. */
module CacheAside {
  import opened Basics
  import opened Text
  import opened Traces

  datatype Zone = Zone(id: Uuid, name: string, version: int)

  /** Text found in the cache: a zone that validates, or anything else. */
  datatype Cached = Valid(zone: Zone) | Garbage(text: string)

  datatype Entry = Entry(content: Cached, expiresAt: int)

  // ----- the in-memory cache -----

  type Entries<K> = map<K, Entry>

  function Evict<K(==)>(entries: Entries<K>, key: K, now: int): Entries<K> {
    if key in entries && entries[key].expiresAt <= now then entries - {key} else entries
  }

  function Lookup<K(==)>(entries: Entries<K>, key: K, now: int): Option<Cached> {
    if key in entries && entries[key].expiresAt > now then Some(entries[key].content) else None
  }

  class InMemoryTTLCache {
    var entries: Entries<string>

    constructor ()
      ensures entries == map[]
    {
      entries := map[];
    }

    /** An entry is served strictly before its expiry and dropped by the first read after it. */
    method Get(key: string, now: int) returns (found: Option<Cached>)
      modifies this
      ensures found == Lookup(old(entries), key, now) && entries == Evict(old(entries), key, now)
      ensures Lookup(entries, key, now) == found
      ensures found == if key in old(entries) && now < old(entries)[key].expiresAt then Some(old(entries)[key].content) else None
      ensures entries == if key in old(entries) && old(entries)[key].expiresAt <= now then old(entries) - {key} else old(entries)
    {
      if key !in entries {
        return None;
      }
      if entries[key].expiresAt <= now {
        entries := entries - {key};
        return None;
      }
      return Some(entries[key].content);
    }

    /** A value set at `now` is found until `now + ttl` and not at or after it. */
    method Set(key: string, content: Cached, ttl: int, now: int) returns (ok: bool)
      modifies this
      ensures ok <==> ttl > 0
      ensures entries == if ok then old(entries)[key := Entry(content, now + ttl)] else old(entries)
      ensures ok ==> forall t :: Lookup(entries, key, t) == if t < now + ttl then Some(content) else None
    {
      if ttl <= 0 {
        return false;
      }
      entries := entries[key := Entry(content, now + ttl)];
      return true;
    }

    method Delete(key: string)
      modifies this
      ensures entries == old(entries) - {key}
    {
      entries := entries - {key};
    }
  }

  /** Which cache operations fail during one query. */
  datatype Faults = Faults(onRead: bool, onDelete: bool, onWrite: bool)

  /** What the cache offers a query: nothing while reading fails. */
  function Offer<K(==)>(entries: Entries<K>, key: K, faults: Faults, now: int): Option<Cached> {
    if faults.onRead then None else Lookup(entries, key, now)
  }

  predicate IsHit(offer: Option<Cached>) {
    offer.Some? && offer.value.Valid?
  }

  /** The entries once a query has read: expired or unreadable content is gone. */
  function AfterRead<K(==)>(entries: Entries<K>, key: K, faults: Faults, now: int): Entries<K> {
    if faults.onRead then entries
    else
      var offer := Lookup(entries, key, now);
      if offer.Some? && offer.value.Garbage? && !faults.onDelete then entries - {key} else Evict(entries, key, now)
  }

  function AfterWrite<K(==)>(entries: Entries<K>, key: K, zone: Zone, ttl: int, faults: Faults, now: int): Entries<K> {
    if faults.onWrite then entries else entries[key := Entry(Valid(zone), now + ttl)]
  }

  /** The text a zone is cached under. */
  function ZoneKey(zone: Uuid): string {
    "delivery:cache:v1:zone:" + UuidText(zone)
  }

  lemma ZoneKeyInjective(a: Uuid, b: Uuid)
    requires ZoneKey(a) == ZoneKey(b)
    ensures a == b
  {
    assert ZoneKey(a)[23..] == UuidText(a) && ZoneKey(b)[23..] == UuidText(b);
    UuidTextInjective(a, b);
  }

  /** One query start to finish.  `loaded` is what the source answers if it is asked (None when
      the loader raises); the cache can only ever change which of the two values is returned. */
  method Query(cache: InMemoryTTLCache, zone: Uuid, loaded: Option<Zone>, ttl: int, faults: Faults, asked: int, stored: int)
    returns (answer: Option<Zone>)
    requires ttl > 0
    modifies cache
    ensures var key, was := ZoneKey(zone), old(cache.entries);
            var offer, read := Offer(was, key, faults, asked), AfterRead(was, key, faults, asked);
            && answer == (if IsHit(offer) then Some(offer.value.zone) else loaded)
            && cache.entries == if IsHit(offer) || loaded.None? then read else AfterWrite(read, key, loaded.value, ttl, faults, stored)
    ensures var key, was := "delivery:cache:v1:zone:" + UuidText(zone), old(cache.entries);
            var served := !faults.onRead && key in was && asked < was[key].expiresAt && was[key].content.Valid?;
            && answer == (if served then Some(was[key].content.zone) else loaded)
            && (served ==> cache.entries == was)
            && (forall k :: k != key ==> (k in cache.entries <==> k in was))
            && (forall k :: k != key && k in cache.entries ==> cache.entries[k] == was[k])
            && (!served && loaded.Some? && !faults.onWrite ==>
                  key in cache.entries && cache.entries[key] == Entry(Valid(loaded.value), stored + ttl))
            && (!served && (loaded.None? || faults.onWrite) ==>
                  if faults.onRead || (key in was && asked < was[key].expiresAt && faults.onDelete) then cache.entries == was
                  else key !in cache.entries)
  {
    var key := ZoneKey(zone);
    var cached := None;
    if !faults.onRead {
      cached := cache.Get(key, asked);
    }
    if cached.Some? {
      match cached.value
      case Valid(zone) => return Some(zone);
      case Garbage(_) =>
        if !faults.onDelete {
          cache.Delete(key);
        }
    }
    if loaded.None? {
      return None;
    }
    if !faults.onWrite {
      var _ := cache.Set(key, Valid(loaded.value), ttl, stored);
    }
    return loaded;
  }

  // ----- many queries at once -----

  type Client = nat

  /** A query that missed: before its load, or holding what it loaded. */
  datatype Flight = Waiting(zone: Uuid) | Loaded(zone: Uuid, value: Zone, at: int)

  datatype Event =
    | Change(zone: Uuid, value: Zone, now: int)
    | Invalidate(zone: Uuid, reaches: bool, now: int)
    | Ask(client: Client, zone: Uuid, faults: Faults, now: int)
    | Load(client: Client, now: int)
    | Finish(client: Client, faults: Faults, now: int)
    | Abort(client: Client, now: int)
    | Corrupt(zone: Uuid, entry: Entry, now: int)

  datatype World = World(source: map<Uuid, Zone>, entries: Entries<Uuid>, flights: map<Client, Flight>)

  /** A client runs one query at a time; a load needs a zone that exists; foreign writes are
      not valid zones. */
  predicate Proper(w: World, e: Event) {
    match e
    case Change(_, _, _) => true
    case Invalidate(_, _, _) => true
    case Ask(client, _, _, _) => client !in w.flights
    case Load(client, _) => client in w.flights && w.flights[client].Waiting? && w.flights[client].zone in w.source
    case Finish(client, _, _) => client in w.flights && w.flights[client].Loaded?
    case Abort(client, _) => client in w.flights
    case Corrupt(_, entry, _) => entry.content.Garbage?
  }

  function Step(ttl: int, w: World, e: Event): World
    requires Proper(w, e)
  {
    match e
    case Change(zone, value, _) => w.(source := w.source[zone := value])
    case Invalidate(zone, reaches, _) => if reaches then w.(entries := w.entries - {zone}) else w
    case Ask(client, zone, faults, now) =>
      var w' := w.(entries := AfterRead(w.entries, zone, faults, now));
      if IsHit(Offer(w.entries, zone, faults, now)) then w' else w'.(flights := w.flights[client := Waiting(zone)])
    case Load(client, now) =>
      var zone := w.flights[client].zone;
      w.(flights := w.flights[client := Loaded(zone, w.source[zone], now)])
    case Finish(client, faults, now) =>
      var flight := w.flights[client];
      World(w.source, AfterWrite(w.entries, flight.zone, flight.value, ttl, faults, now), w.flights - {client})
    case Abort(client, _) => w.(flights := w.flights - {client})
    case Corrupt(zone, entry, _) => w.(entries := w.entries[zone := entry])
  }

  /** What a query returns at this step, if it returns. */
  function Reply(w: World, e: Event): Option<(Uuid, Zone)>
    requires Proper(w, e)
  {
    match e
    case Ask(_, zone, faults, now) =>
      var offer := Offer(w.entries, zone, faults, now);
      if IsHit(offer) then Some((zone, offer.value.zone)) else None
    case Finish(client, _, _) => Some((w.flights[client].zone, w.flights[client].value))
    case _ => None
  }

  function Run(ttl: int, t: Trace<Event>): Option<World> {
    match t
    case Start => Some(World(map[], map[], map[]))
    case Then(before, e) =>
      var w := Run(ttl, before);
      if w.Some? && Proper(w.value, e) then Some(Step(ttl, w.value, e)) else None
  }

  /** The steps of one query with nobody in between. */
  function QuerySteps(ttl: int, t: Trace<Event>, client: Client, zone: Uuid, loads: bool, faults: Faults, asked: int, stored: int): Trace<Event>
    requires Run(ttl, t).Some?
  {
    var began := Then(t, Ask(client, zone, faults, asked));
    if IsHit(Offer(Run(ttl, t).value.entries, zone, faults, asked)) then began
    else if loads then Then(Then(began, Load(client, asked)), Finish(client, faults, stored))
    else Then(began, Abort(client, asked))
  }

  /** Such a run leaves the cache as `Query` leaves it, and replies what `Query` answers. */
  lemma QueryIsARun(ttl: int, t: Trace<Event>, client: Client, zone: Uuid, loads: bool, faults: Faults, asked: int, stored: int)
    requires Run(ttl, t).Some? && client !in Run(ttl, t).value.flights
    requires loads ==> zone in Run(ttl, t).value.source
    ensures var w := Run(ttl, t).value;
            var loaded := if loads then Some(w.source[zone]) else None;
            var offer, read := Offer(w.entries, zone, faults, asked), AfterRead(w.entries, zone, faults, asked);
            var steps := QuerySteps(ttl, t, client, zone, loads, faults, asked, stored);
            && Run(ttl, steps).Some? && Run(ttl, steps).value.flights == w.flights && Run(ttl, steps).value.source == w.source
            && Run(ttl, steps).value.entries ==
               (if IsHit(offer) || loaded.None? then read else AfterWrite(read, zone, loaded.value, ttl, faults, stored))
            && Reply(Run(ttl, steps.before).value, steps.step) ==
               (if IsHit(offer) then Some((zone, offer.value.zone)) else if loads then Some((zone, loaded.value)) else None)
  {
    var w := Run(ttl, t).value;
    if !IsHit(Offer(w.entries, zone, faults, asked)) {
      var began := Then(t, Ask(client, zone, faults, asked));
      var w1 := Run(ttl, began).value;
      assert w1.flights == w.flights[client := Waiting(zone)];
      assert w1.flights - {client} == w.flights;
      if loads {
        var w2 := Run(ttl, Then(began, Load(client, asked))).value;
        assert w2.flights[client] == Loaded(zone, w.source[zone], asked);
        assert w2.flights - {client} == w.flights;
      }
    }
  }

  predicate Monotone(t: Trace<Event>, now: int) {
    t.Then? ==> t.step.now <= now && Monotone(t.before, t.step.now)
  }

  /** Every query finishes within `d` of its load. */
  predicate Prompt(ttl: int, d: int, t: Trace<Event>) {
    t.Then? ==>
      && Prompt(ttl, d, t.before)
      && (t.step.Finish? && Run(ttl, t.before).Some? && Proper(Run(ttl, t.before).value, t.step) ==>
            t.step.now - Run(ttl, t.before).value.flights[t.step.client].at <= d)
  }

  /** At some moment of the run, no earlier than `since`, the source held `value`. */
  ghost predicate Held(ttl: int, t: Trace<Event>, zone: Uuid, value: Zone, since: int) {
    exists p :: HeldAt(ttl, t, p, zone, value, since)
  }

  ghost predicate HeldAt(ttl: int, t: Trace<Event>, p: Trace<Event>, zone: Uuid, value: Zone, since: int) {
    && Extends(t, p) && p.Then? && since <= p.step.now
    && Run(ttl, p).Some? && zone in Run(ttl, p).value.source && Run(ttl, p).value.source[zone] == value
  }

  lemma HeldLater(ttl: int, t: Trace<Event>, e: Event, zone: Uuid, value: Zone, since: int, since': int)
    requires Held(ttl, t, zone, value, since) && since' <= since
    ensures Held(ttl, Then(t, e), zone, value, since')
  {
    var p :| HeldAt(ttl, t, p, zone, value, since);
    assert HeldAt(ttl, Then(t, e), p, zone, value, since');
  }

  /** Everything cached or in flight was the source's value when it was loaded. */
  ghost predicate Honest(ttl: int, d: int, t: Trace<Event>, w: World) {
    && (forall z :: z in w.entries && w.entries[z].content.Valid? ==>
          Held(ttl, t, z, w.entries[z].content.zone, w.entries[z].expiresAt - ttl - d))
    && (forall c :: c in w.flights && w.flights[c].Loaded? ==>
          Held(ttl, t, w.flights[c].zone, w.flights[c].value, w.flights[c].at))
  }

  lemma {:induction false} RunIsHonest(ttl: int, d: int, t: Trace<Event>, now: int)
    requires ttl > 0 && Run(ttl, t).Some? && Monotone(t, now) && Prompt(ttl, d, t)
    ensures Honest(ttl, d, t, Run(ttl, t).value)
  {
    if t.Then? {
      RunIsHonest(ttl, d, t.before, t.step.now);
      StepIsHonest(ttl, d, t.before, t.step);
    }
  }

  lemma EntryIsHonest(ttl: int, d: int, t: Trace<Event>, e: Event, z: Uuid)
    requires ttl > 0 && Run(ttl, Then(t, e)).Some? && Prompt(ttl, d, Then(t, e))
    requires Honest(ttl, d, t, Run(ttl, t).value)
    requires z in Run(ttl, Then(t, e)).value.entries && Run(ttl, Then(t, e)).value.entries[z].content.Valid?
    ensures var entry := Run(ttl, Then(t, e)).value.entries[z];
            Held(ttl, Then(t, e), z, entry.content.zone, entry.expiresAt - ttl - d)
  {
    var w, entry := Run(ttl, t).value, Run(ttl, Then(t, e)).value.entries[z];
    if z in w.entries && w.entries[z] == entry {
      HeldLater(ttl, t, e, z, entry.content.zone, entry.expiresAt - ttl - d, entry.expiresAt - ttl - d);
    } else {
      assert e.Finish?;
      var flight := w.flights[e.client];
      HeldLater(ttl, t, e, z, flight.value, flight.at, entry.expiresAt - ttl - d);
    }
  }

  lemma {:induction false} FlightIsHonest(ttl: int, d: int, t: Trace<Event>, e: Event, c: Client)
    requires Run(ttl, Then(t, e)).Some? && Honest(ttl, d, t, Run(ttl, t).value)
    requires c in Run(ttl, Then(t, e)).value.flights && Run(ttl, Then(t, e)).value.flights[c].Loaded?
    ensures var flight := Run(ttl, Then(t, e)).value.flights[c];
            Held(ttl, Then(t, e), flight.zone, flight.value, flight.at)
  {
    var w, flight := Run(ttl, t).value, Run(ttl, Then(t, e)).value.flights[c];
    if c in w.flights && w.flights[c] == flight {
      HeldLater(ttl, t, e, flight.zone, flight.value, flight.at, flight.at);
    } else {
      assert e.Load?;
      assert HeldAt(ttl, Then(t, e), Then(t, e), flight.zone, flight.value, flight.at);
    }
  }

  lemma StepIsHonest(ttl: int, d: int, t: Trace<Event>, e: Event)
    requires ttl > 0 && Run(ttl, Then(t, e)).Some? && Prompt(ttl, d, Then(t, e))
    requires Honest(ttl, d, t, Run(ttl, t).value)
    ensures Honest(ttl, d, Then(t, e), Run(ttl, Then(t, e)).value)
  {
    var w := Run(ttl, Then(t, e)).value;
    forall z | z in w.entries && w.entries[z].content.Valid?
      ensures Held(ttl, Then(t, e), z, w.entries[z].content.zone, w.entries[z].expiresAt - ttl - d)
    {
      EntryIsHonest(ttl, d, t, e, z);
    }
    forall c | c in w.flights && w.flights[c].Loaded?
      ensures Held(ttl, Then(t, e), w.flights[c].zone, w.flights[c].value, w.flights[c].at)
    {
      FlightIsHonest(ttl, d, t, e, c);
    }
  }

  // ----- main results -----

  /** Staleness is bounded: whatever a query returns at `now` was the source's value at some
      moment in (now - ttl - d, now]. */
  lemma StalenessIsBounded(ttl: int, d: int, t: Trace<Event>, e: Event)
    requires ttl > 0 && Run(ttl, Then(t, e)).Some?
    requires Monotone(Then(t, e), e.now) && Prompt(ttl, d, Then(t, e))
    requires Reply(Run(ttl, t).value, e).Some?
    ensures var (zone, value) := Reply(Run(ttl, t).value, e).value;
            exists p :: HeldAt(ttl, t, p, zone, value, e.now - ttl - d + 1) && p.step.now <= e.now
  {
    var w := Run(ttl, t).value;
    RunIsHonest(ttl, d, t, e.now);
    var (zone, value) := Reply(w, e).value;
    var since := if e.Ask? then w.entries[zone].expiresAt - ttl - d else w.flights[e.client].at;
    var p :| HeldAt(ttl, t, p, zone, value, since);
    PastIsEarlier(t, p, e.now);
    assert HeldAt(ttl, t, p, zone, value, e.now - ttl - d + 1);
  }

  lemma {:induction false} PastIsEarlier(t: Trace<Event>, p: Trace<Event>, now: int)
    requires Monotone(t, now) && Extends(t, p) && p.Then?
    ensures p.step.now <= now
  {
    if t != p {
      PastIsEarlier(t.before, p, t.step.now);
    }
  }

  /** From `since` on the source value of `zone` was left alone. */
  ghost predicate Unchanged(since: Trace<Event>, t: Trace<Event>, zone: Uuid) {
    t == since ||
    (t.Then? && Unchanged(since, t.before, zone) && !(t.step.Change? && t.step.zone == zone))
  }

  /** Every load of the zone now in flight holds the source's present value. */
  ghost predicate FlightsAreCurrent(w: World, zone: Uuid) {
    forall c :: c in w.flights && w.flights[c].Loaded? && w.flights[c].zone == zone ==>
      zone in w.source && w.flights[c].value == w.source[zone]
  }

  ghost predicate Current(w: World, zone: Uuid) {
    && (zone in w.entries && w.entries[zone].content.Valid? ==>
          zone in w.source && w.entries[zone].content.zone == w.source[zone])
    && FlightsAreCurrent(w, zone)
  }

  lemma {:induction false} CurrentSince(ttl: int, before: Trace<Event>, zone: Uuid, now: int, t: Trace<Event>)
    requires ttl > 0 && Run(ttl, t).Some?
    requires Run(ttl, before).Some? && FlightsAreCurrent(Run(ttl, before).value, zone)
    requires Unchanged(Then(before, Invalidate(zone, true, now)), t, zone)
    ensures Current(Run(ttl, t).value, zone)
  {
    if t != Then(before, Invalidate(zone, true, now)) {
      CurrentSince(ttl, before, zone, now, t.before);
      StepStaysCurrent(ttl, Run(ttl, t.before).value, t.step, zone);
    }
  }

  lemma StepStaysCurrent(ttl: int, w: World, e: Event, zone: Uuid)
    requires Proper(w, e) && Current(w, zone) && !(e.Change? && e.zone == zone)
    ensures Current(Step(ttl, w, e), zone)
  {
  }

  /** The step `e` taken after `t` returns nothing for the zone but the source's present value. */
  ghost predicate RepliesCurrent(ttl: int, t: Trace<Event>, e: Event, zone: Uuid)
    requires Run(ttl, Then(t, e)).Some?
  {
    var w, r := Run(ttl, t).value, Reply(Run(ttl, t).value, e);
    r.Some? && r.value.0 == zone ==> zone in w.source && r.value.1 == w.source[zone]
  }

  /** `e` can happen at `t`, which follows the invalidation with no change of the zone between. */
  ghost predicate Follows(ttl: int, before: Trace<Event>, zone: Uuid, now: int, t: Trace<Event>, e: Event) {
    Run(ttl, Then(t, e)).Some? && Unchanged(Then(before, Invalidate(zone, true, now)), t, zone)
  }

  /** An invalidation that reached the cache takes effect, in that every later query of the zone
      returns the current source value until it changes again, whatever outages, garbage and other
      queries come between, if and only if each load of the zone then in flight already holds the
      current value. */
  lemma InvalidationTakesEffectIff(ttl: int, before: Trace<Event>, zone: Uuid, now: int)
    requires ttl > 0 && Run(ttl, before).Some?
    ensures FlightsAreCurrent(Run(ttl, before).value, zone) <==>
              forall t, e :: Follows(ttl, before, zone, now, t, e) ==> RepliesCurrent(ttl, t, e, zone)
  {
    var w := Run(ttl, before).value;
    if FlightsAreCurrent(w, zone) {
      forall t, e | Follows(ttl, before, zone, now, t, e) ensures RepliesCurrent(ttl, t, e, zone) {
        InvalidationTakesEffect(ttl, before, zone, now, t, e);
      }
    } else {
      var c :| c in w.flights && w.flights[c].Loaded? && w.flights[c].zone == zone &&
               !(zone in w.source && w.flights[c].value == w.source[zone]);
      StaleLoadReplies(ttl, before, zone, now, c);
    }
  }

  lemma InvalidationTakesEffect(ttl: int, before: Trace<Event>, zone: Uuid, now: int, t: Trace<Event>, e: Event)
    requires ttl > 0 && Run(ttl, before).Some? && FlightsAreCurrent(Run(ttl, before).value, zone)
    requires Follows(ttl, before, zone, now, t, e)
    ensures RepliesCurrent(ttl, t, e, zone)
  {
    CurrentSince(ttl, before, zone, now, t);
  }

  /** A stale load that finishes right after the invalidation replies stale. */
  lemma StaleLoadReplies(ttl: int, before: Trace<Event>, zone: Uuid, now: int, c: Client)
    requires Run(ttl, before).Some? && c in Run(ttl, before).value.flights
    requires var f := Run(ttl, before).value.flights[c]; f.Loaded? && f.zone == zone
    requires var w := Run(ttl, before).value; !(zone in w.source && w.flights[c].value == w.source[zone])
    ensures var t, e := Then(before, Invalidate(zone, true, now)), Finish(c, Faults(false, false, false), now);
            Follows(ttl, before, zone, now, t, e) && !RepliesCurrent(ttl, t, e, zone)
  {
    var t := Then(before, Invalidate(zone, true, now));
    assert Run(ttl, t).value == Run(ttl, before).value.(entries := Run(ttl, before).value.entries - {zone});
  }

  /** It can do worse: a load begun before the change stores the old value after the
      invalidation, and the next query serves it from the cache. */
  lemma LoadInFlightCanOutliveInvalidation(zone: Uuid) returns (t: Trace<Event>, stale: Zone, current: Zone)
    ensures stale != current
    ensures t.Then? && t.before.Then? && t.before.step == Invalidate(zone, true, 3)
    ensures Run(60_000_000, t).Some? && zone in Run(60_000_000, t).value.source
    ensures Run(60_000_000, t).value.source[zone] == current
    ensures Offer(Run(60_000_000, t).value.entries, zone, Faults(false, false, false), 5) == Some(Valid(stale))
  {
    var none := Faults(false, false, false);
    stale, current := Zone(zone, "north", 1), Zone(zone, "north", 2);
    var t0 := Then(Start, Change(zone, stale, 0));
    var t1 := Then(t0, Ask(7, zone, none, 1));
    var t2 := Then(t1, Load(7, 2));
    var t3 := Then(t2, Change(zone, current, 3));
    var t4 := Then(t3, Invalidate(zone, true, 3));
    t := Then(t4, Finish(7, none, 4));
    assert Run(60_000_000, t0) == Some(World(map[zone := stale], map[], map[]));
    assert Run(60_000_000, t1) == Some(World(map[zone := stale], map[], map[7 := Waiting(zone)]));
    var w2 := Run(60_000_000, t2).value;
    assert 7 in w2.flights && w2.flights[7] == Loaded(zone, stale, 2);
    assert Run(60_000_000, t3).value == w2.(source := w2.source[zone := current]);
    var w4 := Run(60_000_000, t4).value;
    assert w4.flights == w2.flights && w4.source[zone] == current;
  }
}
