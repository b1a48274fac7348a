/**
 * `URLContentCache`: fetched page contents keyed by URL, each stamped with the
 * time it was stored. `get` deletes an entry it finds expired; `prune`
 * sweeps out every expired entry. `Date.now()` is the parameter `now`.
 */
module UrlContentCache {
  import opened Wrappers

  /** `CACHE_DURATION_MS`: `5 * 60 * 1000`. */
  const CacheDurationMs: int := 5 * 60 * 1000

  datatype CacheEntry = CacheEntry(content: string, timestamp: int, url: string)

  /** The cache's expiry test, shared by `get` and `prune`: strictly older than five minutes. */
  predicate Expired(entry: CacheEntry, now: int)
  {
    now - entry.timestamp > CacheDurationMs
  }

  /** What `get(url)` returns and the cache it leaves. */
  datatype Fetched = Fetched(content: Option<string>, cache: map<string, CacheEntry>)

  /** `get(url)` at time `now`. */
  function Fetch(cache: map<string, CacheEntry>, url: string, now: int): (r: Fetched)
    ensures r.content.Some? <==> url in cache && now - cache[url].timestamp <= CacheDurationMs
    ensures r.content.Some? ==> r.content.value == cache[url].content && r.cache == cache
    ensures r.content.None? ==> r.cache == cache - {url}
  {
    if url !in cache then Fetched(None, cache)
    else if Expired(cache[url], now) then Fetched(None, cache - {url})
    else Fetched(Some(cache[url].content), cache)
  }

  /** The cache after `prune` at time `now`. */
  function Pruned(cache: map<string, CacheEntry>, now: int): (r: map<string, CacheEntry>)
    ensures forall u :: u in r <==> u in cache && now - cache[u].timestamp <= CacheDurationMs
    ensures forall u :: u in r ==> r[u] == cache[u]
  {
    map u | u in cache && !Expired(cache[u], now) :: cache[u]
  }

  /** The cache while `prune`'s loop still has the URLs in `pending` to visit. */
  ghost function Sweeping(start: map<string, CacheEntry>, pending: set<string>, now: int): map<string, CacheEntry>
  {
    map u | u in start && (u in pending || !Expired(start[u], now)) :: start[u]
  }

  class UrlContentCache {
    var cache: map<string, CacheEntry>

    /** The private constructor `getInstance` calls once: an empty cache. */
    constructor()
      ensures cache == map[]
    {
      cache := map[];
    }

    /** `set(url, content)`: store the content under its URL, stamped `now`, replacing any earlier entry. */
    method Set(url: string, content: string, now: int)
      modifies this
      ensures cache == old(cache)[url := CacheEntry(content, now, url)]
    {
      cache := cache[url := CacheEntry(content, now, url)];
    }

    /** `get(url)`: `null` for an unknown or expired URL, deleting the expired entry. */
    method Get(url: string, now: int) returns (content: Option<string>)
      modifies this
      ensures Fetch(old(cache), url, now) == Fetched(content, cache)
    {
      if url !in cache {
        return None;
      }
      var entry := cache[url];
      var isExpired := now - entry.timestamp > CacheDurationMs;
      if isExpired {
        cache := cache - {url};
        return None;
      }
      return Some(entry.content);
    }

    method Clear()
      modifies this
      ensures cache == map[]
    {
      cache := map[];
    }

    /** `prune()`: visit every URL once and delete its entry when it is expired. */
    method Prune(now: int)
      modifies this
      ensures cache == Pruned(old(cache), now)
    {
      ghost var start := cache;
      var pending := cache.Keys;
      while pending != {}
        invariant pending <= start.Keys
        invariant cache == Sweeping(start, pending, now)
        decreases |pending|
      {
        var u :| u in pending;
        if now - cache[u].timestamp > CacheDurationMs {
          cache := cache - {u};
        }
        pending := pending - {u};
      }
      assert cache == Pruned(start, now);
    }
  }

  // ---------------------------------------------------------------- lemmas

  /** Reading a URL right after storing it gives back the stored content. */
  lemma GetAfterSet(cache: map<string, CacheEntry>, url: string, content: string, now: int)
    ensures Fetch(cache[url := CacheEntry(content, now, url)], url, now).content == Some(content)
  {
  }

  /** Storing replaces only the stored URL's entry, and the entry records its own URL. */
  lemma SetTouchesOnlyItsUrl(cache: map<string, CacheEntry>, url: string, content: string, now: int, other: string)
    requires other != url
    ensures var after := cache[url := CacheEntry(content, now, url)];
      after[url].url == url && (other in after <==> other in cache) && (other in cache ==> after[other] == cache[other])
  {
  }

  /** Reading at time `now` gives the same answer whether or not the cache was pruned at `now` first. */
  lemma PruneInvisibleToGet(cache: map<string, CacheEntry>, url: string, now: int)
    ensures Fetch(Pruned(cache, now), url, now).content == Fetch(cache, url, now).content
  {
    if url in cache && !Expired(cache[url], now) {
      assert url in Pruned(cache, now);
    }
  }

  /** A sweep leaves nothing for a second sweep or for a read at the same time to delete. */
  lemma PrunedIsStable(cache: map<string, CacheEntry>, url: string, now: int)
    ensures Pruned(Pruned(cache, now), now) == Pruned(cache, now)
    ensures Fetch(Pruned(cache, now), url, now).cache == Pruned(cache, now)
  {
    var once := Pruned(cache, now);
    assert Pruned(once, now).Keys == once.Keys;
  }

  /** After `clear` every URL reads as `null`. */
  lemma ClearedReadsNull(url: string, now: int)
    ensures Fetch(map[], url, now).content == None
  {
  }
}
