/**
 * `NewsCache`: the scraper's in-memory, per-scope cache of article lists. Each entry
 * remembers when it was written; an entry is valid for `ttl` after that instant and
 * expiry is lazy, that is, an expired entry is only removed when it is read.
 * Instants and durations are integers (microseconds); the clock is a parameter.
 */
module Cache {
  import opened Wrappers
  import opened Articles

  /** `timedelta(minutes=1)` in microseconds. */
  const MicrosPerMinute: int := 60_000_000

  /** The `(articles, timestamp)` pair stored for a scope. */
  datatype Entry = Entry(articles: seq<Article>, stamp: int)

  /** `datetime.now() - timestamp < self._ttl` */
  predicate Live(e: Entry, now: int, ttl: int) {
    now - e.stamp < ttl
  }

  /**
   * What `get(scope)` at instant `now` returns, paired with the dictionary it leaves
   * behind: the stored list when the entry exists and is still live; otherwise None,
   * and an expired entry is gone afterwards.
   */
  function Read(entries: map<string, Entry>, ttl: int, scope: string, now: int): (r: (Option<seq<Article>>, map<string, Entry>))
    ensures r.0.Some? <==> scope in entries && Live(entries[scope], now, ttl)
    ensures r.0.Some? ==> r.0.value == entries[scope].articles
    ensures scope !in r.1 <==> r.0.None?
    ensures forall k :: k != scope ==> (k in r.1 <==> k in entries)
    ensures forall k :: k in r.1 ==> r.1[k] == entries[k]
  {
    if scope in entries then
      if Live(entries[scope], now, ttl) then (Some(entries[scope].articles), entries)
      else (None, entries - {scope})
    else (None, entries)
  }

  /** A list written at `written` is read back unchanged at any instant less than `ttl` later,
      and the read leaves the cache as it was. */
  lemma ReadAfterWrite(entries: map<string, Entry>, ttl: int, scope: string, articles: seq<Article>, written: int, now: int)
    requires now - written < ttl
    ensures Read(entries[scope := Entry(articles, written)], ttl, scope, now) ==
      (Some(articles), entries[scope := Entry(articles, written)])
  {
  }

  /** Once `ttl` has passed, the read misses, evicts the entry, and a second read still misses. */
  lemma ReadAfterExpiry(entries: map<string, Entry>, ttl: int, scope: string, articles: seq<Article>, written: int, now: int)
    requires now - written >= ttl
    ensures Read(entries[scope := Entry(articles, written)], ttl, scope, now).0 == None
    ensures Read(entries[scope := Entry(articles, written)], ttl, scope, now).1 == entries - {scope}
    ensures Read(Read(entries[scope := Entry(articles, written)], ttl, scope, now).1, ttl, scope, now).0 == None
  {
    var stored := entries[scope := Entry(articles, written)];
    assert stored - {scope} == entries - {scope};
  }

  /** A write to one scope does not change what a read of another scope returns. */
  lemma WriteIsolated(entries: map<string, Entry>, ttl: int, scope: string, other: string, e: Entry, now: int)
    requires other != scope
    ensures Read(entries[scope := e], ttl, other, now).0 == Read(entries, ttl, other, now).0
  {
  }

  /** The cache object; `entries` is the dictionary `self._cache`. */
  class NewsCache {
    var entries: map<string, Entry>
    const ttl: int

    /** `NewsCache(ttl_minutes)`: empty, with a time-to-live of that many minutes. */
    constructor(ttlMinutes: int)
      ensures entries == map[] && ttl == ttlMinutes * MicrosPerMinute
    {
      entries := map[];
      ttl := ttlMinutes * MicrosPerMinute;
    }

    /** `get(scope)` at instant `now`. */
    method Get(scope: string, now: int) returns (r: Option<seq<Article>>)
      modifies this
      ensures (r, entries) == Read(old(entries), ttl, scope, now)
    {
      if scope in entries {
        var e := entries[scope];
        if now - e.stamp < ttl {
          return Some(e.articles);
        }
        entries := entries - {scope};
      }
      r := None;
    }

    /** `set(scope, articles)` at instant `now`: the whole entry is replaced. */
    method Set(scope: string, articles: seq<Article>, now: int)
      modifies this
      ensures entries == old(entries)[scope := Entry(articles, now)]
    {
      entries := entries[scope := Entry(articles, now)];
    }

    /** `clear()` */
    method Clear()
      modifies this
      ensures entries == map[]
    {
      entries := map[];
    }
  }
}
