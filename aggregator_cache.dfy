/**
 * `AggregatorCache`: two maps from a formatted key to a stored result with
 * an expiry instant, expired lazily on read. The keys are the `fmt.Sprintf`
 * strings of the source, joined by an unescaped `_`.
 */
module ResultCache {
  import opened Wrappers
  import opened Numerals
  import opened Domain

  /** `AggregatedResults` without the wall-clock `SearchTime`. */
  datatype AggregatedResults = AggregatedResults(
    artists: seq<Artist>,
    events: seq<Event>,
    sourceStats: map<string, int>,
    totalResults: int,
    errors: seq<string>)

  datatype CacheEntry = CacheEntry(results: AggregatedResults, expiresAt: Instant)

  /** `fmt.Sprintf("%s_%d", query, limit)`. */
  function ArtistsKey(query: string, limit: int): string
  {
    query + "_" + IntToString(limit)
  }

  /** `fmt.Sprintf("%s_%s_%d", artistName, city, limit)`. */
  function EventsKey(artistName: string, city: string, limit: int): string
  {
    artistName + "_" + city + "_" + IntToString(limit)
  }

  /** A read at `now`: absent and expired entries (now after `ExpiresAt`) read as nothing. */
  function Lookup(m: map<string, CacheEntry>, key: string, now: Instant): Option<AggregatedResults>
  {
    if key !in m || now > m[key].expiresAt then None else Some(m[key].results)
  }

  /** A write at `now`: the entry for `key` is replaced and lives for `ttl`. */
  function Store(m: map<string, CacheEntry>, key: string, results: AggregatedResults, now: Instant, ttl: int): map<string, CacheEntry>
  {
    m[key := CacheEntry(results, now + ttl)]
  }

  /** A stored result is read back until `now + ttl`, and not after that. */
  lemma LookupAfterStore(m: map<string, CacheEntry>, key: string, results: AggregatedResults, now: Instant, ttl: int, later: Instant)
    ensures Lookup(Store(m, key, results, now, ttl), key, later) == if later <= now + ttl then Some(results) else None
  {
  }

  /** A write touches only its own key. */
  lemma StoreKeepsOtherKeys(m: map<string, CacheEntry>, key: string, other: string, results: AggregatedResults, now: Instant, ttl: int, later: Instant)
    requires other != key
    ensures Lookup(Store(m, key, results, now, ttl), other, later) == Lookup(m, other, later)
  {
  }

  /** Where `a_x` has its separator, the same text read as `b_y` has character `i` of `y`. */
  lemma SeparatorAt(a: string, x: string, b: string, y: string, i: int)
    ensures a + "_" + x == b + "_" + y && 0 <= i < |y| && |a| == |b| + 1 + i ==> y[i] == '_' && y[i] in y
  {
    if a + "_" + x == b + "_" + y && 0 <= i < |y| && |a| == |b| + 1 + i {
      var k := a + "_" + x;
      assert k[|a|] == '_';
      assert k[|b| + 1 + i] == y[i];
    }
  }

  /** `a_x == b_y` with no `_` in x or y splits the same way on both sides. */
  lemma {:induction false} LastSeparator(a: string, x: string, b: string, y: string)
    requires '_' !in x && '_' !in y
    requires a + "_" + x == b + "_" + y
    ensures a == b && x == y
  {
    var k := a + "_" + x;
    if |x| < |y| {
      SeparatorAt(a, x, b, y, |y| - |x| - 1);
      assert false;
    } else if |x| > |y| {
      SeparatorAt(b, y, a, x, |x| - |y| - 1);
      assert false;
    } else {
      assert x == k[|k| - |x|..] == y;
      assert a == k[..|a|] == b;
    }
  }

  /** Artist keys never collide: `%d` prints no `_`, so the last `_` separates query and limit. */
  lemma ArtistsKeyInjective(q1: string, l1: int, q2: string, l2: int)
    requires ArtistsKey(q1, l1) == ArtistsKey(q2, l2)
    ensures q1 == q2 && l1 == l2
  {
    IntToStringHasNo(l1, '_');
    IntToStringHasNo(l2, '_');
    LastSeparator(q1, IntToString(l1), q2, IntToString(l2));
    IntToStringInjective(l1, l2);
  }

  /** Event keys do collide: an `_` inside the artist name or the city moves the boundary. */
  lemma EventsKeyCollision()
    ensures EventsKey("a_b", "c", 5) == EventsKey("a", "b_c", 5)
  {
    assert IntToString(5) == "5";
  }

  /** An artist search and a location search can share a key: artist `"_b"` and city `"b_"`. */
  lemma ArtistAndCityKeysCollide()
    ensures EventsKey("_b", "", 5) == EventsKey("", "b_", 5)
  {
    assert IntToString(5) == "5";
  }

  class AggregatorCache {
    var artistCache: map<string, CacheEntry>
    var eventCache: map<string, CacheEntry>
    const ttl: int

    /** `NewAggregatorCache`. */
    constructor (ttl: int)
      ensures this.ttl == ttl && artistCache == map[] && eventCache == map[]
    {
      this.ttl := ttl;
      artistCache := map[];
      eventCache := map[];
    }

    /** `GetArtists` at `now`. */
    function GetArtists(query: string, limit: int, now: Instant): (r: Option<AggregatedResults>)
      reads this
      ensures var key := ArtistsKey(query, limit);
        (r.Some? <==> key in artistCache && now <= artistCache[key].expiresAt) &&
        (r.Some? ==> r.value == artistCache[key].results)
    {
      Lookup(artistCache, ArtistsKey(query, limit), now)
    }

    /** `SetArtists` at `now`: overwrites one key of the artist map, expiring at `now + ttl`. */
    method SetArtists(query: string, limit: int, results: AggregatedResults, now: Instant)
      modifies this`artistCache
      ensures artistCache == Store(old(artistCache), ArtistsKey(query, limit), results, now, ttl)
    {
      artistCache := artistCache[ArtistsKey(query, limit) := CacheEntry(results, now + ttl)];
    }

    /** `GetEvents` at `now`. */
    function GetEvents(artistName: string, city: string, limit: int, now: Instant): (r: Option<AggregatedResults>)
      reads this
      ensures var key := EventsKey(artistName, city, limit);
        (r.Some? <==> key in eventCache && now <= eventCache[key].expiresAt) &&
        (r.Some? ==> r.value == eventCache[key].results)
    {
      Lookup(eventCache, EventsKey(artistName, city, limit), now)
    }

    /** `SetEvents` at `now`: overwrites one key of the event map, expiring at `now + ttl`. */
    method SetEvents(artistName: string, city: string, limit: int, results: AggregatedResults, now: Instant)
      modifies this`eventCache
      ensures eventCache == Store(old(eventCache), EventsKey(artistName, city, limit), results, now, ttl)
    {
      eventCache := eventCache[EventsKey(artistName, city, limit) := CacheEntry(results, now + ttl)];
    }
  }
}
