/**
 The TTL cache of the public metrics
 (apps/public-portal/src/services/public-metrics-cache.service.js). Filters are represented
 by their JSON text.
 */
module MetricsCache {
  import opened Options
  import opened Strings
  import opened Json

  datatype Entry = Entry(data: Json, expiresAt: int)

  /** What has been asked of the cache: the history its content is to agree with. */
  datatype Event =
    | Stored(metric: string, filters: string, data: Json, expiresAt: int)
    | Invalidated(pattern: string)

  function GetCacheKey(metric: string, filters: string): string
  {
    metric + ":" + filters
  }

  /** Metric names without a colon keep different pairs apart. */
  lemma KeyInjective(metric: string, filters: string, metric': string, filters': string)
    requires ':' !in metric && ':' !in metric'
    requires GetCacheKey(metric, filters) == GetCacheKey(metric', filters')
    ensures metric == metric' && filters == filters'
  {
    SplitHead(metric, filters, ':');
    SplitHead(metric', filters', ':');
    assert metric + [':'] + filters == GetCacheKey(metric, filters);
    assert metric' + [':'] + filters' == GetCacheKey(metric', filters');
    assert Split(GetCacheKey(metric, filters), ':')[0] == metric;
    assert Split(GetCacheKey(metric', filters'), ':')[0] == metric';
    assert GetCacheKey(metric, filters)[|metric| + 1..] == filters;
    assert GetCacheKey(metric', filters')[|metric'| + 1..] == filters';
  }

  /** The second pair divides the first one's text at a colon of its filters. */
  predicate SplitsAt(metric: string, filters: string, metric': string, filters': string, k: int)
  {
    0 <= k < |filters| && filters[k] == ':' &&
    metric' == metric + ":" + filters[..k] && filters' == filters[k + 1..]
  }

  /**
   In general two pairs share a key if and only if they are the same, or the longer metric
   name is the shorter one, a colon and a first piece of its filters up to another colon.
   */
  lemma KeysCollideIff(metric: string, filters: string, metric': string, filters': string)
    requires |metric| <= |metric'|
    ensures GetCacheKey(metric, filters) == GetCacheKey(metric', filters') <==>
            (metric == metric' && filters == filters') ||
            exists k :: SplitsAt(metric, filters, metric', filters', k)
  {
    var key, key' := GetCacheKey(metric, filters), GetCacheKey(metric', filters');
    if key == key' {
      assert key[..|metric|] == metric && key[|metric| + 1..] == filters;
      assert key'[..|metric'|] == metric' && key'[|metric'| + 1..] == filters';
      if |metric| < |metric'| {
        var k := |metric'| - |metric| - 1;
        assert key[..|metric'|] == metric + ":" + filters[..k];
        assert key[|metric'|] == filters[k];
        assert key[|metric'| + 1..] == filters[k + 1..];
        assert SplitsAt(metric, filters, metric', filters', k);
      }
    }
    if exists k :: SplitsAt(metric, filters, metric', filters', k) {
      var k :| SplitsAt(metric, filters, metric', filters', k);
      assert filters == filters[..k] + ":" + filters[k + 1..];
      assert key' == metric + ":" + filters[..k] + ":" + filters[k + 1..];
    }
  }

  // ---------------------------------------------------------------- the history

  /** The last entry stored under this key and not invalidated since. */
  ghost function LastStored(log: seq<Event>, key: string): Option<Entry>
  {
    if log == [] then None
    else
      var before := LastStored(log[..|log| - 1], key);
      match log[|log| - 1]
      case Stored(m, f, data, expiresAt) => if GetCacheKey(m, f) == key then Some(Entry(data, expiresAt)) else before
      case Invalidated(pattern) => if Includes(key, pattern) then None else before
  }

  lemma {:induction false} LastStoredAppend(log: seq<Event>, e: Event, key: string)
    ensures LastStored(log + [e], key) ==
            match e
            case Stored(m, f, data, expiresAt) =>
              if GetCacheKey(m, f) == key then Some(Entry(data, expiresAt)) else LastStored(log, key)
            case Invalidated(pattern) => if Includes(key, pattern) then None else LastStored(log, key)
  {
    assert (log + [e])[..|log|] == log;
  }

  /** What the history allows a reader to see: the last entry, for as long as it lives. */
  ghost function Visible(log: seq<Event>, metric: string, filters: string, now: int): Option<Json>
  {
    var last := LastStored(log, GetCacheKey(metric, filters));
    if last.Some? && now <= last.value.expiresAt then Some(last.value.data) else None
  }

  /** The map holds the last entry of the key, unless that has expired already and was dropped. */
  ghost predicate Agrees(cache: map<string, Entry>, log: seq<Event>, clock: int, key: string)
  {
    var last := LastStored(log, key);
    if key in cache then last == Some(cache[key]) else last.Some? ==> last.value.expiresAt < clock
  }

  ghost predicate AgreesEverywhere(cache: map<string, Entry>, log: seq<Event>, clock: int)
  {
    forall key :: Agrees(cache, log, clock, key)
  }

  lemma StoreAgrees(cache: map<string, Entry>, log: seq<Event>, clock: int, metric: string, filters: string, e: Entry)
    requires AgreesEverywhere(cache, log, clock)
    ensures var stored := Stored(metric, filters, e.data, e.expiresAt);
            AgreesEverywhere(cache[GetCacheKey(metric, filters) := e], log + [stored], clock)
  {
    var stored := Stored(metric, filters, e.data, e.expiresAt);
    var cache', log' := cache[GetCacheKey(metric, filters) := e], log + [stored];
    forall key
      ensures Agrees(cache', log', clock, key)
    {
      LastStoredAppend(log, stored, key);
      assert Agrees(cache, log, clock, key);
    }
  }

  lemma DropExpiredAgrees(cache: map<string, Entry>, log: seq<Event>, clock: int, key: string)
    requires AgreesEverywhere(cache, log, clock) && key in cache && cache[key].expiresAt < clock
    ensures AgreesEverywhere(cache - {key}, log, clock)
  {
    var cache' := cache - {key};
    forall k ensures Agrees(cache', log, clock, k) { assert Agrees(cache, log, clock, k); }
  }

  lemma ClockAgrees(cache: map<string, Entry>, log: seq<Event>, clock: int, later: int)
    requires AgreesEverywhere(cache, log, clock) && clock <= later
    ensures AgreesEverywhere(cache, log, later)
  {
    forall k ensures Agrees(cache, log, later, k) { assert Agrees(cache, log, clock, k); }
  }

  /** The entries whose keys contain the pattern are gone, and only those. */
  function Swept(cache: map<string, Entry>, pattern: string): map<string, Entry>
  {
    map key | key in cache && !Includes(key, pattern) :: cache[key]
  }

  lemma InvalidateAgrees(cache: map<string, Entry>, log: seq<Event>, clock: int, pattern: string)
    requires AgreesEverywhere(cache, log, clock)
    ensures AgreesEverywhere(Swept(cache, pattern), log + [Invalidated(pattern)], clock)
  {
    var cache', log' := Swept(cache, pattern), log + [Invalidated(pattern)];
    forall key
      ensures Agrees(cache', log', clock, key)
    {
      LastStoredAppend(log, Invalidated(pattern), key);
      assert Agrees(cache, log, clock, key);
    }
  }

  // ---------------------------------------------------------------- the cache

  class Cache {
    const enabled: bool
    var cache: map<string, Entry>
    ghost var log: seq<Event>
    ghost var clock: int

    /** The content agrees with the history of the calls so far. */
    ghost predicate Valid()
      reads this
    {
      if enabled then AgreesEverywhere(cache, log, clock) else cache == map[]
    }

    constructor (enabled: bool, now: int)
      ensures Valid() && log == [] && clock == now && this.enabled == enabled
    {
      this.enabled := enabled;
      cache, log, clock := map[], [], now;
    }

    /** The stored data, or null; an expired entry is dropped on the way. */
    method Get(metric: string, filters: string, now: int) returns (data: Json)
      requires Valid() && clock <= now
      modifies this
      ensures Valid() && clock == now && log == old(log)
      ensures data == if enabled && Visible(log, metric, filters, now).Some?
                      then Visible(log, metric, filters, now).value else Null
    {
      if enabled {
        ClockAgrees(cache, log, clock, now);
      }
      clock := now;
      if !enabled {
        return Null;
      }
      var key := GetCacheKey(metric, filters);
      assert Agrees(cache, log, now, key);
      if key !in cache {
        return Null;
      }
      var value := cache[key];
      if value.expiresAt < now {
        DropExpiredAgrees(cache, log, now, key);
        cache := cache - {key};
        return Null;
      }
      return value.data;
    }

    method Set(metric: string, filters: string, data: Json, ttlSeconds: int, now: int)
      requires Valid() && clock <= now
      modifies this
      ensures Valid() && clock == now
      ensures log == if enabled then old(log) + [Stored(metric, filters, data, now + ttlSeconds * 1000)] else old(log)
    {
      if enabled {
        ClockAgrees(cache, log, clock, now);
        var e := Entry(data, now + ttlSeconds * 1000);
        StoreAgrees(cache, log, now, metric, filters, e);
        cache := cache[GetCacheKey(metric, filters) := e];
        log := log + [Stored(metric, filters, data, now + ttlSeconds * 1000)];
      }
      clock := now;
    }

    /** The sweep over the keys. */
    method Invalidate(pattern: string)
      requires Valid()
      modifies this
      ensures Valid() && clock == old(clock)
      ensures log == old(log) + [Invalidated(pattern)] && cache == Swept(old(cache), pattern)
    {
      var keys := cache.Keys;
      while keys != {}
        invariant keys <= old(cache).Keys && log == old(log) && clock == old(clock)
        invariant cache == map k | k in old(cache) && (k in keys || !Includes(k, pattern)) :: old(cache)[k]
      {
        var key :| key in keys;
        if Includes(key, pattern) {
          cache := cache - {key};
        }
        keys := keys - {key};
      }
      if enabled {
        InvalidateAgrees(old(cache), log, clock, pattern);
      }
      log := log + [Invalidated(pattern)];
      assert cache == Swept(old(cache), pattern);
    }

    /** `loaded` is what the loader would return. A falsy cached value counts as a miss. */
    method GetOrSet(metric: string, filters: string, loaded: Json, ttlSeconds: int, now: int)
      returns (data: Json, hit: bool)
      requires Valid() && clock <= now
      modifies this
      ensures Valid() && clock == now
      ensures var visible := Visible(old(log), metric, filters, now);
              hit <==> enabled && visible.Some? && Truthy(visible.value)
      ensures data == if hit then Visible(old(log), metric, filters, now).value else loaded
      ensures log == if hit || !enabled then old(log)
              else old(log) + [Stored(metric, filters, loaded, now + ttlSeconds * 1000)]
    {
      var existing := Get(metric, filters, now);
      if Truthy(existing) {
        return existing, true;
      }
      Set(metric, filters, loaded, ttlSeconds, now);
      return loaded, false;
    }
  }

  // ---------------------------------------------------------------- what a hit is

  /** The call stores under the key, or invalidates it. */
  predicate Affects(e: Event, key: string)
  {
    match e
    case Stored(m, f, _, _) => GetCacheKey(m, f) == key
    case Invalidated(pattern) => Includes(key, pattern)
  }

  /**
   A visible value was stored by an earlier call under the same key, is within its time to
   live, and no later call stored under that key again or invalidated it.
   */
  lemma {:induction false} HitWasStored(log: seq<Event>, metric: string, filters: string, now: int) returns (i: nat)
    requires Visible(log, metric, filters, now).Some?
    ensures i < |log| && log[i].Stored? && GetCacheKey(log[i].metric, log[i].filters) == GetCacheKey(metric, filters)
    ensures log[i].data == Visible(log, metric, filters, now).value && now <= log[i].expiresAt
    ensures forall j :: i < j < |log| ==> !Affects(log[j], GetCacheKey(metric, filters))
  {
    var n := |log| - 1;
    match log[n]
    case Stored(m, f, data, expiresAt) =>
      if GetCacheKey(m, f) == GetCacheKey(metric, filters) {
        i := n;
      } else {
        i := HitWasStored(log[..n], metric, filters, now);
      }
    case Invalidated(pattern) =>
      i := HitWasStored(log[..n], metric, filters, now);
  }

  /**
   In both directions: a value is visible if and only if some call stored it under the key,
   to live until now or later, and no later call affected that key.
   */
  lemma {:induction false} VisibleIff(log: seq<Event>, metric: string, filters: string, now: int, data: Json)
    ensures Visible(log, metric, filters, now) == Some(data) <==>
            exists i :: 0 <= i < |log| && ShowsFrom(log, i, GetCacheKey(metric, filters), now, data)
  {
    if Visible(log, metric, filters, now) == Some(data) {
      var i := HitWasStored(log, metric, filters, now);
      assert ShowsFrom(log, i, GetCacheKey(metric, filters), now, data);
    }
    if i :| 0 <= i < |log| && ShowsFrom(log, i, GetCacheKey(metric, filters), now, data) {
      StoredShows(log, i, GetCacheKey(metric, filters));
    }
  }

  ghost predicate ShowsFrom(log: seq<Event>, i: int, key: string, now: int, data: Json)
    requires 0 <= i < |log|
  {
    log[i].Stored? && GetCacheKey(log[i].metric, log[i].filters) == key && log[i].data == data &&
    now <= log[i].expiresAt && forall j :: i < j < |log| ==> !Affects(log[j], key)
  }

  lemma {:induction false} StoredShows(log: seq<Event>, i: nat, key: string)
    requires i < |log| && log[i].Stored? && GetCacheKey(log[i].metric, log[i].filters) == key
    requires forall j :: i < j < |log| ==> !Affects(log[j], key)
    ensures LastStored(log, key) == Some(Entry(log[i].data, log[i].expiresAt))
  {
    var n := |log| - 1;
    if i < n {
      assert !Affects(log[n], key);
      StoredShows(log[..n], i, key);
    }
  }

  /** Only metric names without a colon have been used. */
  ghost predicate ColonFree(log: seq<Event>)
  {
    forall i :: 0 <= i < |log| && log[i].Stored? ==> ':' !in log[i].metric
  }

  /** Everything stored for a pair came from the pair's loader. */
  ghost predicate LoadedBy(log: seq<Event>, loader: (string, string) -> Json)
  {
    forall i :: 0 <= i < |log| && log[i].Stored? ==> log[i].data == loader(log[i].metric, log[i].filters)
  }

  /** With such names a hit was stored for this very pair, so a cache filled by its loader agrees with it. */
  lemma HitAgreesWithLoader(log: seq<Event>, loader: (string, string) -> Json, metric: string, filters: string,
                            now: int)
    requires LoadedBy(log, loader) && Visible(log, metric, filters, now).Some?
    requires ColonFree(log) && ':' !in metric
    ensures Visible(log, metric, filters, now).value == loader(metric, filters)
  {
    var i := HitWasStored(log, metric, filters, now);
    KeyInjective(log[i].metric, log[i].filters, metric, filters);
  }

  /** Otherwise what is stored for one pair is shown for every pair that shares its key. */
  lemma SharedKeyShows(log: seq<Event>, m: string, f: string, data: Json, expiresAt: int, metric: string,
                       filters: string, now: int)
    requires GetCacheKey(m, f) == GetCacheKey(metric, filters) && now <= expiresAt
    ensures Visible(log + [Stored(m, f, data, expiresAt)], metric, filters, now) == Some(data)
  {
    LastStoredAppend(log, Stored(m, f, data, expiresAt), GetCacheKey(metric, filters));
  }

  /** Invalidating with the empty pattern empties the view of every pair. */
  lemma InvalidateAll(log: seq<Event>, metric: string, filters: string, now: int)
    ensures Visible(log + [Invalidated("")], metric, filters, now).None?
  {
    LastStoredAppend(log, Invalidated(""), GetCacheKey(metric, filters));
    assert "" <= GetCacheKey(metric, filters)[0..];
  }
}
