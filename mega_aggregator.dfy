/**
 * `MegaAggregator`: the single-threaded tail of a federated search. Every
 * source's reply arrives on a channel in whatever order the goroutines
 * finish, so the replies are an input sequence in arbitrary order. The tail
 * collects them, records per-source counts, deduplicates, sorts, truncates
 * and writes the result through to the cache.
 */
module Federated {
  import opened Wrappers
  import opened Domain
  import opened Sorting
  import opened Dedup
  import opened ResultCache
  import Scrapers

  datatype MegaAggregatorConfig = MegaAggregatorConfig(
    maxConcurrentRequests: int,
    requestTimeout: int,
    cacheEnabled: bool,
    cacheTTL: int,
    deduplicationEnabled: bool,
    includeScrapers: bool,
    maxResultsPerSource: int)

  /** The defaults of `NewMegaAggregator`: each numeric field is filled in only when zero. */
  function ConfigDefaults(c: MegaAggregatorConfig): (r: MegaAggregatorConfig)
    ensures r.maxConcurrentRequests != 0 && r.requestTimeout != 0 && r.cacheTTL != 0 && r.maxResultsPerSource != 0
    ensures c.maxConcurrentRequests != 0 ==> r.maxConcurrentRequests == c.maxConcurrentRequests
    ensures c.requestTimeout != 0 ==> r.requestTimeout == c.requestTimeout
    ensures c.cacheTTL != 0 ==> r.cacheTTL == c.cacheTTL
    ensures c.maxResultsPerSource != 0 ==> r.maxResultsPerSource == c.maxResultsPerSource
    ensures c.maxConcurrentRequests == 0 ==> r.maxConcurrentRequests == 10
    ensures c.requestTimeout == 0 ==> r.requestTimeout == 30 * Second
    ensures c.cacheTTL == 0 ==> r.cacheTTL == Hour
    ensures c.maxResultsPerSource == 0 ==> r.maxResultsPerSource == 20
    ensures r.cacheEnabled == c.cacheEnabled && r.deduplicationEnabled == c.deduplicationEnabled
    ensures r.includeScrapers == c.includeScrapers
  {
    c.(maxConcurrentRequests := if c.maxConcurrentRequests == 0 then 10 else c.maxConcurrentRequests,
       requestTimeout := if c.requestTimeout == 0 then 30 * Second else c.requestTimeout,
       cacheTTL := if c.cacheTTL == 0 then Hour else c.cacheTTL,
       maxResultsPerSource := if c.maxResultsPerSource == 0 then 20 else c.maxResultsPerSource)
  }

  /** Filling in defaults twice changes nothing more. */
  lemma ConfigDefaultsIdempotent(c: MegaAggregatorConfig)
    ensures ConfigDefaults(ConfigDefaults(c)) == ConfigDefaults(c)
  {
  }

  /** `limit <= 0` means 50. */
  function EffectiveLimit(limit: int): (l: int)
    ensures l > 0
    ensures limit > 0 ==> l == limit
    ensures limit <= 0 ==> l == 50
  {
    if limit <= 0 then 50 else limit
  }

  /** A registered client; only its identity matters here. */
  datatype SourceRef = SourceRef(id: nat)

  /** One reply on the results channel. */
  datatype SourceResult = SourceResult(sourceName: string, artists: seq<Artist>, events: seq<Event>, error: Option<Error>)

  datatype SourceInfo = SourceInfo(kind: string, status: string)

  function ArtistsOf(r: SourceResult): seq<Artist> { r.artists }

  function EventsOf(r: SourceResult): seq<Event> { r.events }

  // ------------------------------------------------------------ collection

  /** The concatenation of `f` over `xs`, in order. */
  function Gather<S, U>(xs: seq<S>, f: S -> seq<U>): seq<U>
  {
    if |xs| == 0 then [] else Gather(xs[..|xs| - 1], f) + f(xs[|xs| - 1])
  }

  /** What a reply adds to the collected items: all of them, or nothing when it carries an error. */
  function Accepted<T>(r: SourceResult, items: SourceResult -> seq<T>): seq<T>
  {
    if r.error.None? then items(r) else []
  }

  /** What a reply adds to `errors`: one `"<name>: <err>"` line, or nothing when it succeeded. */
  function ErrorsOf(r: SourceResult): seq<string>
  {
    match r.error
    case Some(e) => [r.sourceName + ": " + Message(e)]
    case None => []
  }

  function CollectedItems<T>(rs: seq<SourceResult>, items: SourceResult -> seq<T>): seq<T>
  {
    Gather(rs, (r: SourceResult) => Accepted(r, items))
  }

  function CollectedErrors(rs: seq<SourceResult>): seq<string>
  {
    Gather(rs, ErrorsOf)
  }

  /** `sourceStats` after the replies `rs`: a later success with the same name overwrites. */
  function CollectedStats<T>(rs: seq<SourceResult>, items: SourceResult -> seq<T>): map<string, int>
  {
    if |rs| == 0 then map[]
    else
      var m := CollectedStats(rs[..|rs| - 1], items);
      var r := rs[|rs| - 1];
      if r.error.None? then m[r.sourceName := |items(r)|] else m
  }

  /** The collection loop over the channel. */
  method Collect<T>(rs: seq<SourceResult>, items: SourceResult -> seq<T>) returns (all: seq<T>, stats: map<string, int>, errors: seq<string>)
    ensures all == CollectedItems(rs, items)
    ensures stats == CollectedStats(rs, items)
    ensures errors == CollectedErrors(rs)
  {
    all, stats, errors := [], map[], [];
    for i := 0 to |rs|
      invariant all == CollectedItems(rs[..i], items)
      invariant stats == CollectedStats(rs[..i], items)
      invariant errors == CollectedErrors(rs[..i])
    {
      var r := rs[i];
      assert rs[..i + 1][..i] == rs[..i];
      if r.error.Some? {
        errors := errors + [r.sourceName + ": " + Message(r.error.value)];
      } else {
        stats := stats[r.sourceName := |items(r)|];
        all := all + items(r);
      }
    }
    assert rs[..|rs|] == rs;
  }

  lemma {:induction false} GatherAppend<S, U>(a: seq<S>, b: seq<S>, f: S -> seq<U>)
    ensures Gather(a + b, f) == Gather(a, f) + Gather(b, f)
    decreases |b|
  {
    if |b| == 0 {
      assert a + b == a;
    } else {
      var b' := b[..|b| - 1];
      assert (a + b)[..|a + b| - 1] == a + b';
      GatherAppend(a, b', f);
    }
  }

  /** Taking one element out of the middle takes exactly its contribution out. */
  lemma GatherRemove<S, U>(xs: seq<S>, i: int, f: S -> seq<U>)
    requires 0 <= i < |xs|
    ensures multiset(Gather(xs, f)) == multiset(Gather(xs[..i] + xs[i + 1..], f)) + multiset(f(xs[i]))
  {
    var a, x, b := xs[..i], xs[i], xs[i + 1..];
    assert xs[i..] == [x] + b;
    assert xs == a + xs[i..];
    assert xs == a + [x] + b;
    GatherAppend(a + [x], b, f);
    GatherAppend(a, [x], f);
    GatherAppend(a, b, f);
    assert [x][..0] == [];
    assert Gather([x], f) == f(x);
    MultisetOfThree(Gather(a, f), f(x), Gather(b, f));
  }

  /** Moving the middle part of a concatenation to the end keeps its multiset. */
  lemma MultisetOfThree<U>(p: seq<U>, q: seq<U>, t: seq<U>)
    ensures multiset(p + q + t) == multiset(p + t) + multiset(q)
  {
    assert multiset(p + q + t) == multiset(p) + multiset(q) + multiset(t);
  }

  /** The arrival order changes only the order of what is gathered, not what is gathered. */
  lemma {:induction false} GatherPermutation<S, U>(xs: seq<S>, ys: seq<S>, f: S -> seq<U>)
    requires multiset(xs) == multiset(ys)
    ensures multiset(Gather(xs, f)) == multiset(Gather(ys, f))
    decreases |ys|
  {
    if |ys| == 0 {
      assert |xs| == |multiset(xs)| == 0;
    } else {
      var y, ys' := ys[|ys| - 1], ys[..|ys| - 1];
      assert ys == ys' + [y];
      assert y in multiset(xs);
      var i :| 0 <= i < |xs| && xs[i] == y;
      var xs' := xs[..i] + xs[i + 1..];
      assert xs == xs[..i] + [y] + xs[i + 1..];
      assert multiset(xs) == multiset(xs[..i]) + multiset{y} + multiset(xs[i + 1..]);
      assert multiset(xs') == multiset(xs[..i]) + multiset(xs[i + 1..]);
      assert multiset(ys) == multiset(ys') + multiset{y};
      assert multiset(xs') == multiset(xs) - multiset{y} == multiset(ys) - multiset{y} == multiset(ys');
      GatherPermutation(xs', ys', f);
      GatherRemove(xs, i, f);
    }
  }

  /** Whatever order the replies arrive in, the same items and the same error lines are collected. */
  lemma CollectionOrderFree<T>(rs: seq<SourceResult>, rs': seq<SourceResult>, items: SourceResult -> seq<T>)
    requires multiset(rs) == multiset(rs')
    ensures multiset(CollectedItems(rs, items)) == multiset(CollectedItems(rs', items))
    ensures multiset(CollectedErrors(rs)) == multiset(CollectedErrors(rs'))
  {
    GatherPermutation(rs, rs', (r: SourceResult) => Accepted(r, items));
    GatherPermutation(rs, rs', ErrorsOf);
  }

  /** There is one error line per failed reply, naming it, and none for a success. */
  lemma {:induction false} ErrorsCount(rs: seq<SourceResult>)
    ensures |CollectedErrors(rs)| == |set i | 0 <= i < |rs| && rs[i].error.Some?|
    decreases |rs|
  {
    if |rs| != 0 {
      var n := |rs| - 1;
      var init := rs[..n];
      ErrorsCount(init);
      var before := set i | 0 <= i < |init| && init[i].error.Some?;
      var now := set i | 0 <= i < |rs| && rs[i].error.Some?;
      if rs[n].error.Some? {
        assert now == before + {n};
      } else {
        assert now == before;
      }
    }
  }

  /** Every error line comes from a failed reply and reads `"<name>: <err>"`. */
  lemma {:induction false} ErrorsFromFailures(rs: seq<SourceResult>, line: string)
    requires line in CollectedErrors(rs)
    ensures exists r :: r in rs && r.error.Some? && line == r.sourceName + ": " + Message(r.error.value)
    decreases |rs|
  {
    var n := |rs| - 1;
    var init := rs[..n];
    GatherAppend(init, [rs[n]], ErrorsOf);
    assert [rs[n]][..0] == [];
    assert rs == init + [rs[n]];
    if line in CollectedErrors(init) {
      ErrorsFromFailures(init, line);
      var r :| r in init && r.error.Some? && line == r.sourceName + ": " + Message(r.error.value);
      assert r in rs;
    } else {
      assert line in ErrorsOf(rs[n]);
    }
  }

  /** The names in `sourceStats` are exactly those of the successful replies. */
  lemma {:induction false} StatsKeys<T>(rs: seq<SourceResult>, items: SourceResult -> seq<T>)
    ensures CollectedStats(rs, items).Keys == set r | r in rs && r.error.None? :: r.sourceName
    decreases |rs|
  {
    if |rs| != 0 {
      var init := rs[..|rs| - 1];
      StatsKeys(init, items);
      assert rs == init + [rs[|rs| - 1]];
    }
  }

  /** A success that no later success of the same name overwrites leaves its raw, pre-dedup count. */
  lemma {:induction false} StatsLatest<T>(rs: seq<SourceResult>, items: SourceResult -> seq<T>, i: int)
    requires 0 <= i < |rs| && rs[i].error.None?
    requires forall j :: i < j < |rs| && rs[j].error.None? ==> rs[j].sourceName != rs[i].sourceName
    ensures rs[i].sourceName in CollectedStats(rs, items)
    ensures CollectedStats(rs, items)[rs[i].sourceName] == |items(rs[i])|
    decreases |rs|
  {
    if i < |rs| - 1 {
      StatsLatest(rs[..|rs| - 1], items, i);
    }
  }

  // ------------------------------------------------------ sort and truncate

  /**
   * `out` is a sorted `min(|d|, limit)`-element sub-multiset of `d`, and no
   * element left out ranks before an element kept.
   */
  ghost predicate TopK<T>(d: seq<T>, rank: T -> Rank, limit: int, out: seq<T>)
  {
    && |out| == (if |d| > limit then limit else |d|)
    && SortedBy(out, rank)
    && multiset(out) <= multiset(d)
    && forall x, y :: x in out && y in multiset(d) - multiset(out) ==> NotAfter(rank(x), rank(y))
  }

  /** Cutting a permutation of `d` at `m` leaves the dropped tail as what `d` has beyond the kept head. */
  lemma TakeMultiset<T>(d: seq<T>, sorted: seq<T>, m: int)
    requires multiset(sorted) == multiset(d) && 0 <= m <= |sorted|
    ensures multiset(sorted[..m]) <= multiset(d)
    ensures multiset(d) - multiset(sorted[..m]) == multiset(sorted[m..])
  {
    assert sorted == sorted[..m] + sorted[m..];
  }

  /** `sort.Slice` followed by `if len(s) > limit { s = s[:limit] }`. */
  method Finish<T>(d: seq<T>, rank: T -> Rank, limit: int) returns (out: seq<T>)
    requires limit > 0
    ensures TopK(d, rank, limit, out)
  {
    var sorted := SortByRank(d, rank);
    var m := if |sorted| > limit then limit else |sorted|;
    out := sorted[..m];
    TakeSorted(sorted, rank, m);
    TakeMultiset(d, sorted, m);
    forall x, y | x in out && y in multiset(d) - multiset(out) ensures NotAfter(rank(x), rank(y)) {
      assert y in sorted[m..];
    }
  }

  /** The specification of collect, dedup, sort and truncate. */
  ghost predicate Processed<T>(rs: seq<SourceResult>, items: SourceResult -> seq<T>, dedup: bool, key: T -> string,
                             rank: T -> Rank, limit: int, out: seq<T>, stats: map<string, int>, errors: seq<string>)
  {
    var all := CollectedItems(rs, items);
    var d := if dedup then KeepFirst(all, key) else all;
    TopK(d, rank, limit, out) && stats == CollectedStats(rs, items) && errors == CollectedErrors(rs)
  }

  method Process<T(==)>(rs: seq<SourceResult>, items: SourceResult -> seq<T>, dedup: bool, key: T -> string,
                        rank: T -> Rank, limit: int) returns (out: seq<T>, stats: map<string, int>, errors: seq<string>)
    requires limit > 0
    ensures Processed(rs, items, dedup, key, rank, limit, out, stats, errors)
  {
    var all;
    all, stats, errors := Collect(rs, items);
    var d := all;
    if dedup {
      d := Deduplicate(all, key);
    }
    out := Finish(d, rank, limit);
  }

  // ------------------------------------------------------------------ ranks

  /** Artists: `Popularity` descending. */
  function ArtistRank(a: Artist): Rank { Rank(-a.popularity, 0) }

  function ArtistKey(a: Artist): string { NormalizeArtistName(a.name) }

  predicate Upcoming(e: Event, now: Instant) { e.dateTime.instant > now }

  function EventRankAt(now: Instant, e: Event): Rank
  {
    Rank(if Upcoming(e, now) then 0 else 1, e.dateTime.instant)
  }

  /** Events: upcoming first, then by start time. */
  function EventRank(now: Instant): Event -> Rank
  {
    (e: Event) => EventRankAt(now, e)
  }

  /** The rank order is the source's "less": `a.Popularity > b.Popularity`. */
  lemma ArtistLess(a: Artist, b: Artist)
    ensures Less(ArtistRank(a), ArtistRank(b)) <==> a.popularity > b.popularity
  {
  }

  /** The rank order is the source's "less": an upcoming event before a past one, else by `Before`. */
  lemma EventLess(now: Instant, a: Event, b: Event)
    ensures Less(EventRank(now)(a), EventRank(now)(b)) <==>
            (Upcoming(a, now) && !Upcoming(b, now)) ||
            (Upcoming(a, now) == Upcoming(b, now) && a.dateTime.instant < b.dateTime.instant)
  {
  }

  /** Sorted artists have non-increasing popularity, and conversely. */
  lemma ArtistsByPopularity(s: seq<Artist>)
    ensures SortedBy(s, ArtistRank) <==> forall i, j :: 0 <= i < j < |s| ==> s[i].popularity >= s[j].popularity
  {
    if SortedBy(s, ArtistRank) {
      forall i, j | 0 <= i < j < |s| ensures s[i].popularity >= s[j].popularity {
        assert NotAfter(ArtistRank(s[i]), ArtistRank(s[j]));
      }
    }
  }

  /** Sorted events: upcoming ones first, start times non-decreasing within each group, and conversely. */
  lemma EventsUpcomingFirst(s: seq<Event>, now: Instant)
    ensures SortedBy(s, EventRank(now)) <==>
            forall i, j :: 0 <= i < j < |s| ==>
              (Upcoming(s[j], now) ==> Upcoming(s[i], now)) &&
              (Upcoming(s[i], now) == Upcoming(s[j], now) ==> s[i].dateTime.instant <= s[j].dateTime.instant)
  {
    if SortedBy(s, EventRank(now)) {
      forall i, j | 0 <= i < j < |s|
        ensures (Upcoming(s[j], now) ==> Upcoming(s[i], now)) &&
                (Upcoming(s[i], now) == Upcoming(s[j], now) ==> s[i].dateTime.instant <= s[j].dateTime.instant)
      {
        assert NotAfter(EventRank(now)(s[i]), EventRank(now)(s[j]));
      }
    } else {
      var i, j :| 0 <= i < j < |s| && !NotAfter(EventRank(now)(s[i]), EventRank(now)(s[j]));
      assert Less(EventRankAt(now, s[j]), EventRankAt(now, s[i]));
    }
  }

  // --------------------------------------------------------------- arrivals

  /** A reply from an event source, or from a scraper before its events are converted. */
  datatype Arrival =
    | FromSource(result: SourceResult)
    | FromScraper(scraper: Scrapers.ScraperRef, outcome: Result<seq<Scrapers.ScrapedEvent>>)

  function Converted(scraped: seq<Scrapers.ScrapedEvent>, now: Instant): seq<Event>
  {
    seq(|scraped|, i requires 0 <= i < |scraped| => Scrapers.ToEvent(scraped[i], now))
  }

  /** The reply a scraper goroutine sends: an error alone, or its events converted one by one. */
  function AsResult(a: Arrival, now: Instant): SourceResult
  {
    match a
    case FromSource(r) => r
    case FromScraper(s, Err(e)) => SourceResult(s.name, [], [], Some(e))
    case FromScraper(s, Ok(scraped)) => SourceResult(s.name, [], Converted(scraped, now), None)
  }

  function AsResults(arrivals: seq<Arrival>, now: Instant): seq<SourceResult>
  {
    seq(|arrivals|, i requires 0 <= i < |arrivals| => AsResult(arrivals[i], now))
  }

  /** The conversion loop of a scraper goroutine. */
  method ConvertScraped(scraped: seq<Scrapers.ScrapedEvent>, now: Instant) returns (events: seq<Event>)
    ensures events == Converted(scraped, now)
  {
    events := [];
    for i := 0 to |scraped|
      invariant events == Converted(scraped[..i], now)
    {
      events := events + [Scrapers.ToEvent(scraped[i], now)];
    }
    assert scraped[..|scraped|] == scraped;
  }

  method Receive(arrivals: seq<Arrival>, now: Instant) returns (rs: seq<SourceResult>)
    ensures rs == AsResults(arrivals, now)
  {
    rs := [];
    for i := 0 to |arrivals|
      invariant rs == AsResults(arrivals[..i], now)
    {
      var r: SourceResult;
      match arrivals[i] {
        case FromSource(x) =>
          r := x;
        case FromScraper(s, Err(e)) =>
          r := SourceResult(s.name, [], [], Some(e));
        case FromScraper(s, Ok(scraped)) =>
          var events := ConvertScraped(scraped, now);
          r := SourceResult(s.name, [], events, None);
      }
      rs := rs + [r];
    }
    assert arrivals[..|arrivals|] == arrivals;
  }

  /** Exactly one reply per registered music source. */
  predicate OnePerSource(rs: seq<SourceResult>, sources: set<string>)
  {
    && (forall i, j :: 0 <= i < j < |rs| ==> rs[i].sourceName != rs[j].sourceName)
    && (forall i :: 0 <= i < |rs| ==> rs[i].sourceName in sources)
    && (forall n :: n in sources ==> exists i :: 0 <= i < |rs| && rs[i].sourceName == n)
  }

  predicate SameOrigin(a: Arrival, b: Arrival)
  {
    match a
    case FromSource(r) => b.FromSource? && b.result.sourceName == r.sourceName
    case FromScraper(s, _) => b.FromScraper? && b.scraper.name == s.name
  }

  predicate Registered(a: Arrival, sources: set<string>, scrapers: map<string, Scrapers.ScraperRef>)
  {
    match a
    case FromSource(r) => r.sourceName in sources
    case FromScraper(s, _) => s.name in scrapers && scrapers[s.name] == s
  }

  /** Exactly one reply per registered event source and one per scraper taking part. */
  predicate OnePerOrigin(arrivals: seq<Arrival>, sources: set<string>, scrapers: map<string, Scrapers.ScraperRef>)
  {
    && (forall i, j :: 0 <= i < j < |arrivals| ==> !SameOrigin(arrivals[i], arrivals[j]))
    && (forall i :: 0 <= i < |arrivals| ==> Registered(arrivals[i], sources, scrapers))
    && (forall n :: n in sources ==> exists i :: 0 <= i < |arrivals| && arrivals[i].FromSource? && arrivals[i].result.sourceName == n)
    && (forall n :: n in scrapers ==> exists i :: 0 <= i < |arrivals| && arrivals[i].FromScraper? && arrivals[i].scraper == scrapers[n])
  }

  // ------------------------------------------------------------------ calls

  /** A call a search goroutine makes: the source or scraper, by its registered name, and the arguments. */
  datatype SourceCall =
    | MusicSearch(source: string, query: string, limit: int)
    | ArtistEventSearch(source: string, artist: string, limit: int)
    | ScrapeByArtist(scraper: string, artist: string, limit: int)
    | LocationEventSearch(source: string, city: string, country: string, limit: int)
    | ScrapeByLocation(scraper: string, city: string, country: string, limit: int)

  /** The goroutines of an artist search: every music source searched for `query` with the per-source cap. */
  function MusicCalls(sources: set<string>, query: string, cap: int): (calls: set<SourceCall>)
    ensures forall n :: n in sources ==> MusicSearch(n, query, cap) in calls
    ensures forall c :: c in calls ==> c.MusicSearch? && c.source in sources && c.query == query && c.limit == cap
  {
    set n | n in sources :: MusicSearch(n, query, cap)
  }

  /** The goroutines of an event search: every event source, then every scraper taking part, each asked for `artist` with the cap. */
  function ArtistCalls(sources: set<string>, scrapers: set<string>, artist: string, cap: int): (calls: set<SourceCall>)
    ensures forall n :: n in sources ==> ArtistEventSearch(n, artist, cap) in calls
    ensures forall n :: n in scrapers ==> ScrapeByArtist(n, artist, cap) in calls
    ensures forall c :: c in calls ==>
      && c.limit == cap
      && ((c.ArtistEventSearch? && c.source in sources && c.artist == artist) ||
          (c.ScrapeByArtist? && c.scraper in scrapers && c.artist == artist))
  {
    (set n | n in sources :: ArtistEventSearch(n, artist, cap)) + (set n | n in scrapers :: ScrapeByArtist(n, artist, cap))
  }

  /** The goroutines of a location search: every event source and scraper taking part, each asked for `city` and `country` with the cap. */
  function LocationCalls(sources: set<string>, scrapers: set<string>, city: string, country: string, cap: int): (calls: set<SourceCall>)
    ensures forall n :: n in sources ==> LocationEventSearch(n, city, country, cap) in calls
    ensures forall n :: n in scrapers ==> ScrapeByLocation(n, city, country, cap) in calls
    ensures forall c :: c in calls ==>
      && c.limit == cap
      && ((c.LocationEventSearch? && c.source in sources && c.city == city && c.country == country) ||
          (c.ScrapeByLocation? && c.scraper in scrapers && c.city == city && c.country == country))
  {
    (set n | n in sources :: LocationEventSearch(n, city, country, cap)) +
    (set n | n in scrapers :: ScrapeByLocation(n, city, country, cap))
  }

  // ------------------------------------------------------------- aggregator

  class MegaAggregator {
    var musicSources: map<string, SourceRef>
    var eventSources: map<string, SourceRef>
    const scraperRegistry: Scrapers.ScraperRegistry
    const cache: AggregatorCache?
    const config: MegaAggregatorConfig

    ghost predicate Valid()
      reads this, scraperRegistry
    {
      scraperRegistry.Valid() && (cache != null <==> config.cacheEnabled) &&
      (cache != null ==> cache.ttl == config.cacheTTL)
    }

    /** `NewMegaAggregator`: defaults filled in, no sources, a cache only when enabled. */
    constructor (config: MegaAggregatorConfig)
      ensures this.config == ConfigDefaults(config) && Valid()
      ensures musicSources == map[] && eventSources == map[]
      ensures fresh(scraperRegistry) && scraperRegistry.scrapers == map[]
      ensures cache != null ==> fresh(cache) && cache.artistCache == map[] && cache.eventCache == map[]
    {
      var c := ConfigDefaults(config);
      this.config := c;
      musicSources := map[];
      eventSources := map[];
      scraperRegistry := new Scrapers.ScraperRegistry();
      if c.cacheEnabled {
        cache := new AggregatorCache(c.cacheTTL);
      } else {
        cache := null;
      }
    }

    /** `RegisterMusicSource`: a second source under one name replaces the first. */
    method RegisterMusicSource(name: string, source: SourceRef)
      modifies this`musicSources
      ensures musicSources == old(musicSources)[name := source]
    {
      musicSources := musicSources[name := source];
    }

    /** `RegisterEventSource`: a second source under one name replaces the first. */
    method RegisterEventSource(name: string, source: SourceRef)
      modifies this`eventSources
      ensures eventSources == old(eventSources)[name := source]
    {
      eventSources := eventSources[name := source];
    }

    /** `RegisterScraper`. */
    method RegisterScraper(s: Scrapers.ScraperRef)
      requires Valid()
      modifies scraperRegistry
      ensures Valid()
      ensures scraperRegistry.scrapers == old(scraperRegistry.scrapers)[s.name := s]
    {
      scraperRegistry.Register(s);
    }

    /** The scrapers that take part in an event search. */
    function Participants(): map<string, Scrapers.ScraperRef>
      reads this, scraperRegistry
    {
      if config.includeScrapers then scraperRegistry.scrapers else map[]
    }

    /**
     * `SearchArtists`: a cache hit is returned as it is and no source is
     * consulted; otherwise every music source is asked for the query with
     * the per-source cap (`calls`), their replies, in the order they arrived,
     * are processed and the result is written to the cache.
     */
    method SearchArtists(query: string, limit: int, now: Instant, replies: seq<SourceResult>)
      returns (results: AggregatedResults, consulted: bool, calls: set<SourceCall>)
      requires Valid()
      requires OnePerSource(replies, musicSources.Keys)
      modifies cache
      ensures var lim := EffectiveLimit(limit);
        var hit := if cache != null then old(cache.GetArtists(query, lim, now)) else None;
        && (hit.Some? ==> !consulted && calls == {} && results == hit.value && (cache != null ==> unchanged(cache)))
        && (hit.None? ==>
              && consulted
              && calls == MusicCalls(musicSources.Keys, query, config.maxResultsPerSource)
              && Processed(replies, ArtistsOf, config.deduplicationEnabled, ArtistKey, ArtistRank, lim,
                           results.artists, results.sourceStats, results.errors)
              && results.events == [] && results.totalResults == |results.artists|
              && (cache != null ==>
                    && cache.artistCache == Store(old(cache.artistCache), ArtistsKey(query, lim), results, now, cache.ttl)
                    && cache.eventCache == old(cache.eventCache)))
    {
      var lim := EffectiveLimit(limit);
      if cache != null {
        var cached := cache.GetArtists(query, lim, now);
        if cached.Some? {
          return cached.value, false, {};
        }
      }
      calls := MusicCalls(musicSources.Keys, query, config.maxResultsPerSource);
      var artists, stats, errors := Process(replies, ArtistsOf, config.deduplicationEnabled, ArtistKey, ArtistRank, lim);
      results := AggregatedResults(artists, [], stats, |artists|, errors);
      if cache != null {
        cache.SetArtists(query, lim, results, now);
      }
      consulted := true;
    }

    /**
     * `SearchEvents`: like `SearchArtists`, over the event sources and, when
     * enabled, the scrapers; cached under the key `(artistName, "", limit)`.
     */
    method SearchEvents(artistName: string, limit: int, now: Instant, arrivals: seq<Arrival>)
      returns (results: AggregatedResults, consulted: bool, calls: set<SourceCall>)
      requires Valid()
      requires OnePerOrigin(arrivals, eventSources.Keys, Participants())
      modifies cache
      ensures var lim := EffectiveLimit(limit);
        var hit := if cache != null then old(cache.GetEvents(artistName, "", lim, now)) else None;
        && (hit.Some? ==> !consulted && calls == {} && results == hit.value && (cache != null ==> unchanged(cache)))
        && (hit.None? ==>
              && consulted
              && calls == ArtistCalls(eventSources.Keys, Participants().Keys, artistName, config.maxResultsPerSource)
              && Processed(AsResults(arrivals, now), EventsOf, config.deduplicationEnabled, NormalizeEventKey,
                           EventRank(now), lim, results.events, results.sourceStats, results.errors)
              && results.artists == [] && results.totalResults == |results.events|
              && (cache != null ==>
                    && cache.eventCache == Store(old(cache.eventCache), EventsKey(artistName, "", lim), results, now, cache.ttl)
                    && cache.artistCache == old(cache.artistCache)))
    {
      var lim := EffectiveLimit(limit);
      if cache != null {
        var cached := cache.GetEvents(artistName, "", lim, now);
        if cached.Some? {
          return cached.value, false, {};
        }
      }
      calls := ArtistCalls(eventSources.Keys, Participants().Keys, artistName, config.maxResultsPerSource);
      var rs := Receive(arrivals, now);
      var events, stats, errors := Process(rs, EventsOf, config.deduplicationEnabled, NormalizeEventKey, EventRank(now), lim);
      results := AggregatedResults([], events, stats, |events|, errors);
      if cache != null {
        cache.SetEvents(artistName, "", lim, results, now);
      }
      consulted := true;
    }

    /**
     * `SearchEventsByLocation`: the same pipeline; the cache key is
     * `("", city, limit)`, so `country` plays no part in it.
     */
    method SearchEventsByLocation(city: string, country: string, limit: int, now: Instant, arrivals: seq<Arrival>)
      returns (results: AggregatedResults, consulted: bool, calls: set<SourceCall>)
      requires Valid()
      requires OnePerOrigin(arrivals, eventSources.Keys, Participants())
      modifies cache
      ensures var lim := EffectiveLimit(limit);
        var hit := if cache != null then old(cache.GetEvents("", city, lim, now)) else None;
        && (hit.Some? ==> !consulted && calls == {} && results == hit.value && (cache != null ==> unchanged(cache)))
        && (hit.None? ==>
              && consulted
              && calls == LocationCalls(eventSources.Keys, Participants().Keys, city, country, config.maxResultsPerSource)
              && Processed(AsResults(arrivals, now), EventsOf, config.deduplicationEnabled, NormalizeEventKey,
                           EventRank(now), lim, results.events, results.sourceStats, results.errors)
              && results.artists == [] && results.totalResults == |results.events|
              && (cache != null ==>
                    && cache.eventCache == Store(old(cache.eventCache), EventsKey("", city, lim), results, now, cache.ttl)
                    && cache.artistCache == old(cache.artistCache)))
    {
      var lim := EffectiveLimit(limit);
      if cache != null {
        var cached := cache.GetEvents("", city, lim, now);
        if cached.Some? {
          return cached.value, false, {};
        }
      }
      calls := LocationCalls(eventSources.Keys, Participants().Keys, city, country, config.maxResultsPerSource);
      var rs := Receive(arrivals, now);
      var events, stats, errors := Process(rs, EventsOf, config.deduplicationEnabled, NormalizeEventKey, EventRank(now), lim);
      results := AggregatedResults([], events, stats, |events|, errors);
      if cache != null {
        cache.SetEvents("", city, lim, results, now);
      }
      consulted := true;
    }

    /** `GetSourceStats`: music, then event sources, then (when enabled) scrapers; a later kind wins a shared name. */
    function GetSourceStats(): (stats: map<string, SourceInfo>)
      reads this, scraperRegistry
      ensures stats.Keys == musicSources.Keys + eventSources.Keys + Participants().Keys
      ensures forall n :: n in stats ==> stats[n].status == "active"
      ensures forall n :: n in stats ==>
        stats[n].kind == if n in Participants() then "scraper" else if n in eventSources then "events" else "music"
    {
      var music := map n | n in musicSources :: SourceInfo("music", "active");
      var events := map n | n in eventSources :: SourceInfo("events", "active");
      var scraped := map n | n in Participants() :: SourceInfo("scraper", "active");
      music + events + scraped
    }
  }
}
