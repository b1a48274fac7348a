/**
 * `Memoizer` and `AsyncMemoizer`: keyed caches of time-stamped results that
 * answer from the cache while an entry is younger than the configured
 * duration and call the wrapped function otherwise.
 *
 * `Date.now()` is the parameter `now` (milliseconds). The function that
 * `memoize` returns is modelled by its call: `Call(fn, key, now)` is what
 * `memoize(fn)(key)` does at time `now`. Each method is proved against a
 * function on the cache map, and the cache's properties are lemmas about
 * those functions.
 */
module Memoizer {

  /** `5 * 60 * 1000`: five minutes, the default `durationMs` of both classes. */
  const DefaultDuration: int := 5 * 60 * 1000

  /** A cached result and the time it was stored (`MemoizedEntry`, `AsyncMemoizedEntry`). */
  datatype Stamped<V> = Stamped(value: V, timestamp: int)

  /** `memoize`'s hit test: the entry is strictly younger than `duration`. */
  predicate Fresh(timestamp: int, now: int, duration: int)
  {
    now - timestamp < duration
  }

  /** `prune`'s deletion test: the entry is strictly older than `duration`. */
  predicate Expired(timestamp: int, now: int, duration: int)
  {
    now - timestamp > duration
  }

  /** What one call of the memoized function returns and leaves behind. */
  datatype Outcome<K, V> = Outcome(value: V, cache: map<K, Stamped<V>>, called: bool)

  /** One call of `memoize(fn)(key)` at time `now`. */
  function Memoize<K, V>(cache: map<K, Stamped<V>>, duration: int, fn: K -> V, key: K, now: int): (r: Outcome<K, V>)
    ensures r.called <==> !(key in cache && now - cache[key].timestamp < duration)
    ensures key in r.cache && r.cache[key].value == r.value
    ensures r.cache.Keys == cache.Keys + {key}
    ensures forall k :: k in cache && k != key ==> r.cache[k] == cache[k]
  {
    if key in cache && Fresh(cache[key].timestamp, now, duration) then Outcome(cache[key].value, cache, false)
    else Outcome(fn(key), cache[key := Stamped(fn(key), now)], true)
  }

  /** The cache after `prune` at time `now`. */
  function Pruned<K, V>(cache: map<K, Stamped<V>>, now: int, duration: int): (r: map<K, Stamped<V>>)
    ensures r.Keys <= cache.Keys
    ensures forall k :: k in cache ==> (k in r <==> now - cache[k].timestamp <= duration)
    ensures forall k :: k in r ==> r[k] == cache[k]
  {
    map k | k in cache && !Expired(cache[k].timestamp, now, duration) :: cache[k]
  }

  /** The cache while `prune`'s loop still has the keys in `pending` to visit. */
  ghost function Sweeping<K, V>(start: map<K, Stamped<V>>, pending: set<K>, now: int, duration: int): map<K, Stamped<V>>
  {
    map k | k in start && (k in pending || !Expired(start[k].timestamp, now, duration)) :: start[k]
  }

  /** `prune`'s loop: visit every key once and delete the entry when it is expired. */
  method PruneLoop<K, V>(start: map<K, Stamped<V>>, now: int, duration: int) returns (cache: map<K, Stamped<V>>)
    ensures cache == Pruned(start, now, duration)
  {
    cache := start;
    var pending := start.Keys;
    while pending != {}
      invariant pending <= start.Keys
      invariant cache == Sweeping(start, pending, now, duration)
      decreases |pending|
    {
      var k :| k in pending;
      if Expired(cache[k].timestamp, now, duration) {
        cache := cache - {k};
      }
      pending := pending - {k};
    }
    assert cache == Pruned(start, now, duration);
  }

  class Memoizer<K(==), V> {
    var cache: map<K, Stamped<V>>
    const duration: int

    /** `new Memoizer(durationMs)`, five minutes when the argument is omitted. */
    constructor(durationMs: int := DefaultDuration)
      ensures cache == map[] && duration == durationMs
    {
      cache := map[];
      duration := durationMs;
    }

    /** `memoize(fn)(key)` at time `now`; `called` says whether `fn` ran. */
    method Call(fn: K -> V, key: K, now: int) returns (value: V, called: bool)
      modifies this
      ensures Memoize(old(cache), duration, fn, key, now) == Outcome(value, cache, called)
    {
      if key in cache && Fresh(cache[key].timestamp, now, duration) {
        return cache[key].value, false;
      }
      value := fn(key);
      cache := cache[key := Stamped(value, now)];
      called := true;
    }

    method Clear()
      modifies this
      ensures cache == map[]
    {
      cache := map[];
    }

    method Prune(now: int)
      modifies this
      ensures cache == Pruned(old(cache), now, duration)
    {
      cache := PruneLoop(cache, now, duration);
    }
  }

  /**
   * `AsyncMemoizer` keeps the same cache discipline, storing the promise `fn`
   * returns rather than a value; the promise type `P` is opaque here.
   */
  class AsyncMemoizer<K(==), P> {
    var cache: map<K, Stamped<P>>
    const duration: int

    constructor(durationMs: int := DefaultDuration)
      ensures cache == map[] && duration == durationMs
    {
      cache := map[];
      duration := durationMs;
    }

    /** `memoize(fn)(key)` at time `now`: the cached promise or the one `fn` returns. */
    method Call(fn: K -> P, key: K, now: int) returns (promise: P, called: bool)
      modifies this
      ensures Memoize(old(cache), duration, fn, key, now) == Outcome(promise, cache, called)
    {
      if key in cache && Fresh(cache[key].timestamp, now, duration) {
        return cache[key].value, false;
      }
      promise := fn(key);
      cache := cache[key := Stamped(promise, now)];
      called := true;
    }

    method Clear()
      modifies this
      ensures cache == map[]
    {
      cache := map[];
    }

    method Prune(now: int)
      modifies this
      ensures cache == Pruned(old(cache), now, duration)
    {
      cache := PruneLoop(cache, now, duration);
    }
  }

  // ---------------------------------------------------------------- lemmas

  /** A hit returns the stored value without calling `fn` and leaves the cache as it was. */
  lemma HitKeepsCache<K, V>(cache: map<K, Stamped<V>>, duration: int, fn: K -> V, key: K, now: int)
    requires key in cache && now - cache[key].timestamp < duration
    ensures var r := Memoize(cache, duration, fn, key, now);
      !r.called && r.value == cache[key].value && r.cache == cache
  {
  }

  /** A miss or a stale entry calls `fn` once and stores its result, stamped `now`. */
  lemma MissStoresResult<K, V>(cache: map<K, Stamped<V>>, duration: int, fn: K -> V, key: K, now: int)
    requires key !in cache || now - cache[key].timestamp >= duration
    ensures var r := Memoize(cache, duration, fn, key, now);
      r.called && r.value == fn(key) && key in r.cache && r.cache[key] == Stamped(fn(key), now)
  {
  }

  /**
   * The cached value answers a second call at the same time when the duration
   * is positive, whether or not the first call ran `fn`: both calls return the
   * same value and `fn` does not run again.
   */
  lemma SecondCallHits<K, V>(cache: map<K, Stamped<V>>, duration: int, fn: K -> V, key: K, now: int)
    requires duration > 0
    ensures var first := Memoize(cache, duration, fn, key, now);
      var second := Memoize(first.cache, duration, fn, key, now);
      !second.called && second.value == first.value && second.cache == first.cache
  {
  }

  /** Pruning twice at the same time is pruning once. */
  lemma PruneIdempotent<K, V>(cache: map<K, Stamped<V>>, now: int, duration: int)
    ensures Pruned(Pruned(cache, now, duration), now, duration) == Pruned(cache, now, duration)
  {
    var once := Pruned(cache, now, duration);
    assert Pruned(once, now, duration).Keys == once.Keys;
  }

  /**
   * An entry aged exactly `duration` is already a miss for `memoize` but is
   * not yet deleted by `prune`.
   */
  lemma BoundaryEntry<K, V>(cache: map<K, Stamped<V>>, duration: int, fn: K -> V, key: K, now: int)
    requires key in cache && now - cache[key].timestamp == duration
    ensures Memoize(cache, duration, fn, key, now).called
    ensures key in Pruned(cache, now, duration)
  {
  }

  /** Pruning first never changes what a call at the same time returns or whether it runs `fn`. */
  lemma PruneInvisibleToCalls<K, V>(cache: map<K, Stamped<V>>, duration: int, fn: K -> V, key: K, now: int)
    ensures var pruned := Memoize(Pruned(cache, now, duration), duration, fn, key, now);
      var direct := Memoize(cache, duration, fn, key, now);
      pruned.value == direct.value && pruned.called == direct.called
  {
    if key in cache && Fresh(cache[key].timestamp, now, duration) {
      assert key in Pruned(cache, now, duration);
    }
  }

  /** After `clear` every key misses. */
  lemma ClearedMisses<K, V>(duration: int, fn: K -> V, key: K, now: int)
    ensures var r := Memoize(map[], duration, fn, key, now);
      r.called && r.value == fn(key)
  {
  }
}
