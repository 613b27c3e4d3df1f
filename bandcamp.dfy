/**
 * The Bandcamp scraper. A search finds up to five artist pages, then takes
 * a share of the limit from each artist's shows page, or, when an artist has
 * no shows, makes pseudo-events from its releases.
 *
 * The HTML tree walks are not modelled: a page arrives as the list of the
 * nodes the walk would visit, in document order, with the text of the
 * sub-nodes the scraper reads. Each page fetch either fails (`MakeRequest`
 * returned an error), fails to parse, or yields its nodes.
 */
module Bandcamp {
  import opened Wrappers
  import opened Text
  import opened Domain
  import opened Sequences
  import opened Scrapers
  import opened ScraperLocation

  const Name: string := "bandcamp"
  const UnknownArtist: string := "Unknown Artist"
  const ReleaseVenue: string := "Bandcamp Release"

  // ----------------------------------------------------------- artist links

  const ExcludedPaths: seq<string> := ["/search", "/tag/", "/discover", "/signup", "/login"]

  /** Whether `href` contains one of `paths`. */
  function MentionsAny(href: string, paths: seq<string>): (r: bool)
    ensures r <==> exists p :: p in paths && Contains(href, p)
  {
    if |paths| == 0 then false
    else Contains(href, paths[0]) || MentionsAny(href, paths[1..])
  }

  /**
   * `isArtistURL`: no excluded path, and either a `.bandcamp.com` address
   * or a site-relative path without a query.
   */
  function IsArtistURL(href: string): bool
  {
    if MentionsAny(href, ExcludedPaths) then false
    else Contains(href, ".bandcamp.com") || (HasPrefix(href, "/") && !Contains(href, "?"))
  }

  /** An excluded path always disqualifies; otherwise the domain or a plain relative path qualifies. */
  lemma IsArtistURLMeans(href: string)
    ensures (exists p :: p in ExcludedPaths && Contains(href, p)) ==> !IsArtistURL(href)
    ensures (forall p :: p in ExcludedPaths ==> !Contains(href, p)) ==>
      (IsArtistURL(href) <==> Contains(href, ".bandcamp.com") || (HasPrefix(href, "/") && !Contains(href, "?")))
  {
  }

  /** A search-results address is never taken for an artist page, even on an artist's own domain. */
  lemma SearchIsNoArtist(pre: string, post: string)
    ensures !IsArtistURL(pre + "/search" + post)
  {
    var s := pre + "/search" + post;
    assert s[|pre|..|pre| + |"/search"|] == "/search";
    assert OccursAt(s, "/search", |pre|);
    ContainsWitness(s, "/search", |pre|);
    assert "/search" in ExcludedPaths;
  }

  /** An anchor's contribution to the artist list: its normalised address, when it qualifies. */
  function LinkOf(normalize: string -> Option<string>): string -> seq<string>
  {
    (href: string) =>
      if href != "" && IsArtistURL(href) && normalize(href).Some? then [normalize(href).value] else []
  }

  /**
   * The artist-link walk of `searchArtists`: the anchors' `href`s in
   * document order; it stops once `max` addresses are collected.
   * `normalize` is `NormalizeURL` against the site's base address.
   */
  method ArtistLinks(hrefs: seq<string>, normalize: string -> Option<string>, max: int) returns (urls: seq<string>)
    requires max > 0
    ensures urls == Take(FlatMap(hrefs, LinkOf(normalize)), max)
    ensures |urls| <= max
  {
    var f := LinkOf(normalize);
    urls := [];
    var i := 0;
    while i < |hrefs|
      invariant 0 <= i <= |hrefs|
      invariant urls == FlatMap(hrefs[..i], f)
      invariant |urls| < max
    {
      var href := hrefs[i];
      FlatMapStep(hrefs, f, i);
      if href != "" && IsArtistURL(href) {
        var full := normalize(href);
        if full.Some? {
          assert f(href) == [full.value];
          urls := urls + [full.value];
          if |urls| >= max {
            TakeOfPrefix(hrefs, f, i + 1, max);
            return;
          }
        }
      }
      i := i + 1;
    }
    TakeAll(hrefs);
  }

  // ------------------------------------------------------------ artist page

  datatype Place = Place(city: string, country: string)

  /** What the artist page shows: the `<title>` text, the bio text and the tag texts, when present. */
  datatype ArtistPage = ArtistPage(title: Option<string>, bio: Option<string>, tags: seq<string>)

  datatype BandcampArtist = BandcampArtist(url: string, name: string, city: string, country: string, genres: seq<string>)

  /**
   * The artist name from the page title: the text before the first
   * `" | "`, trimmed, when there is one; the title as it is otherwise;
   * `"Unknown Artist"` when that leaves nothing.
   */
  function NameFromTitle(title: Option<string>): (name: string)
    ensures name != ""
    ensures title.None? ==> name == UnknownArtist
  {
    var raw := match title
      case None => ""
      case Some(t) => if Contains(t, " | ") then TrimSpace(Split(t, " | ")[0]) else t;
    if raw == "" then UnknownArtist else raw
  }

  lemma NameFromTitleMeans(t: string)
    ensures !Contains(t, " | ") && t != "" ==> NameFromTitle(Some(t)) == t
    ensures Contains(t, " | ") && TrimSpace(t[..IndexOf(t, " | ")]) != "" ==>
      NameFromTitle(Some(t)) == TrimSpace(t[..IndexOf(t, " | ")])
    ensures Contains(t, " | ") ==> !Contains(NameFromTitle(Some(t)), " | ") || NameFromTitle(Some(t)) == UnknownArtist
  {
    if Contains(t, " | ") {
      SplitHead(t, " | ");
      SplitPartsFree(t, " | ");
      var head := Split(t, " | ")[0];
      TrimSpaceInside(head, " | ");
    }
  }

  /**
   * `getArtistInfo` after the page is fetched and parsed. `locate` is the
   * regular-expression location extraction applied to the bio text.
   */
  function ArtistOf(url: string, page: ArtistPage, locate: string -> Place): (a: BandcampArtist)
    ensures a.url == url && a.name == NameFromTitle(page.title) && a.name != ""
    ensures page.bio.None? ==> a.city == "" && a.country == ""
  {
    var place := if page.bio.Some? then locate(page.bio.value) else Place("", "");
    BandcampArtist(url, NameFromTitle(page.title), place.city, place.country, FlatMap(page.tags, NonEmptyText))
  }

  // ------------------------------------------------------------- shows page

  /** A `show-item` node: the texts of its `date`, `venue` and `location` nodes, when present. */
  datatype ShowNode = ShowNode(date: Option<string>, venue: Option<string>, location: Option<string>)

  /**
   * `parseShowItem`: titled after the artist, dated by `ParseDate`, placed by
   * `parseLocation`; an empty city or country is taken from the artist.
   */
  function ShowItem(node: ShowNode, artist: BandcampArtist, layouts: seq<Parser>, now: Timestamp): (e: ScrapedEvent)
  {
    var e0 := ScrapedEvent(
      artist.name + " Live", artist.name,
      if node.date.Some? then ParseDate(Extracted(node.date.value), layouts, now) else ZeroTime,
      if node.venue.Some? then Extracted(node.venue.value) else "",
      "", "", "", "", "", []);
    var e1 := if node.location.Some? then ParseLocation(Extracted(node.location.value), e0) else e0;
    e1.(city := if e1.city == "" then artist.city else e1.city,
        country := if e1.country == "" then artist.country else e1.country,
        tags := artist.genres)
  }

  /** What the artist supplies to every show, and where the city and country come from. */
  lemma ShowItemMeans(node: ShowNode, artist: BandcampArtist, layouts: seq<Parser>, now: Timestamp)
    ensures var e := ShowItem(node, artist, layouts, now);
      && e.title == artist.name + " Live" && e.artistName == artist.name && e.tags == artist.genres
      && (node.date.None? ==> e.date == ZeroTime)
      && (node.location.None? ==> e.city == artist.city && e.country == artist.country)
      && (artist.city != "" ==> e.city != "")
      && (artist.country != "" ==> e.country != "")
      && (node.location.Some? && ',' !in Extracted(node.location.value) ==> e.country == artist.country)
  {
    if node.location.Some? {
      var e0 := ScrapedEvent(
        artist.name + " Live", artist.name,
        if node.date.Some? then ParseDate(Extracted(node.date.value), layouts, now) else ZeroTime,
        if node.venue.Some? then Extracted(node.venue.value) else "",
        "", "", "", "", "", []);
      ParseLocationMeans(Extracted(node.location.value), e0);
    }
  }

  function ShowOf(artist: BandcampArtist, layouts: seq<Parser>, now: Timestamp): ShowNode -> ScrapedEvent
  {
    (node: ShowNode) => ShowItem(node, artist, layouts, now)
  }

  /** `parseShowsPage`: every show item with a title; the title always carries the artist name. */
  method ParseShowsPage(nodes: seq<ShowNode>, artist: BandcampArtist, layouts: seq<Parser>, now: Timestamp)
    returns (events: seq<ScrapedEvent>)
    requires artist.name != ""
    ensures events == Map(nodes, ShowOf(artist, layouts, now))
  {
    events := [];
    for i := 0 to |nodes|
      invariant events == Map(nodes[..i], ShowOf(artist, layouts, now))
    {
      var e := ShowItem(nodes[i], artist, layouts, now);
      assert nodes[..i + 1] == nodes[..i] + [nodes[i]];
      if e.title != "" {
        events := events + [e];
      } else {
        assert false;
      }
    }
    TakeAll(nodes);
  }

  // ---------------------------------------------------------------- releases

  /** A `music-grid-item` node: the text of its `title` node, when present. */
  datatype ReleaseNode = ReleaseNode(title: Option<string>)

  /**
   * `createEventFromRelease`: a pseudo-event at the "Bandcamp Release" venue,
   * dated `monthAgo` (thirty days before the call), titled
   * `"<artist> - <release>"`, or untitled when the node has no title.
   */
  function ReleaseOf(artist: BandcampArtist, monthAgo: Timestamp): ReleaseNode -> seq<ScrapedEvent>
  {
    (node: ReleaseNode) =>
      if node.title.Some? then
        [ScrapedEvent(artist.name + " - " + Extracted(node.title.value), artist.name, monthAgo, ReleaseVenue,
                      artist.city, artist.country, "", "", "", artist.genres)]
      else []
  }

  /** The release events: from the first `limit` release nodes, those with a title. */
  function ReleaseEvents(nodes: seq<ReleaseNode>, artist: BandcampArtist, limit: int, monthAgo: Timestamp): seq<ScrapedEvent>
  {
    FlatMap(Take(nodes, limit), ReleaseOf(artist, monthAgo))
  }

  /** The loop of `createEventsFromReleases`: it stops at the `limit`-th node. */
  method CreateEventsFromReleases(nodes: seq<ReleaseNode>, artist: BandcampArtist, limit: int, monthAgo: Timestamp)
    returns (events: seq<ScrapedEvent>)
    ensures events == ReleaseEvents(nodes, artist, limit, monthAgo)
  {
    var f := ReleaseOf(artist, monthAgo);
    var n := |Take(nodes, limit)|;
    assert Take(nodes, limit) == nodes[..n];
    events := [];
    for i := 0 to n
      invariant events == FlatMap(nodes[..i], f)
    {
      FlatMapStep(nodes, f, i);
      if nodes[i].title.Some? {
        var e := ScrapedEvent(artist.name + " - " + Extracted(nodes[i].title.value), artist.name, monthAgo, ReleaseVenue,
                              artist.city, artist.country, "", "", "", artist.genres);
        events := events + [e];
      }
    }
  }

  /** Each release node gives at most one event, so there are never more than `limit`. */
  lemma {:induction false} ReleaseEventsBounded(nodes: seq<ReleaseNode>, artist: BandcampArtist, monthAgo: Timestamp)
    ensures |FlatMap(nodes, ReleaseOf(artist, monthAgo))| <= |nodes|
    ensures forall e :: e in FlatMap(nodes, ReleaseOf(artist, monthAgo)) ==>
              e.venueName == ReleaseVenue && e.date == monthAgo && e.artistName == artist.name
    decreases |nodes|
  {
    if |nodes| != 0 {
      ReleaseEventsBounded(nodes[..|nodes| - 1], artist, monthAgo);
    }
  }

  // ---------------------------------------------------------- one artist

  /**
   * `scrapeArtistEvents` for one artist URL: the artist page, then the shows
   * page; when the shows page cannot be fetched or lists no show, the
   * releases page; at most `limit` events either way.
   */
  function ArtistEvents(url: string, info: Fetch<ArtistPage>, shows: Fetch<seq<ShowNode>>, releases: Fetch<seq<ReleaseNode>>,
                        limit: int, locate: string -> Place, layouts: seq<Parser>, now: Timestamp, monthAgo: Timestamp)
    : Result<seq<ScrapedEvent>>
  {
    match info
    case FetchFailed(e) => Err(e)
    case ParseFailed(e) => Err(e)
    case Page(page) =>
      var artist := ArtistOf(url, page, locate);
      var fallback := match releases
        case FetchFailed(e) => Err(e)
        case ParseFailed(e) => Err(e)
        case Page(nodes) => Ok(ReleaseEvents(nodes, artist, limit, monthAgo));
      match shows
      case FetchFailed(_) => fallback
      case ParseFailed(e) => Err(Wrap("failed to parse shows page", e))
      case Page(nodes) =>
        if |nodes| == 0 then fallback
        else Ok(Take(Map(nodes, ShowOf(artist, layouts, now)), limit))
  }

  method ScrapeArtistEvents(url: string, info: Fetch<ArtistPage>, shows: Fetch<seq<ShowNode>>, releases: Fetch<seq<ReleaseNode>>,
                            limit: int, locate: string -> Place, layouts: seq<Parser>, now: Timestamp, monthAgo: Timestamp)
    returns (r: Result<seq<ScrapedEvent>>)
    requires limit > 0
    ensures r == ArtistEvents(url, info, shows, releases, limit, locate, layouts, now, monthAgo)
  {
    if info.FetchFailed? || info.ParseFailed? {
      return Err(info.error);
    }
    var genres := ExtractTexts(info.nodes.tags);
    var place := if info.nodes.bio.Some? then locate(info.nodes.bio.value) else Place("", "");
    var artist := BandcampArtist(url, NameFromTitle(info.nodes.title), place.city, place.country, genres);
    if shows.ParseFailed? {
      return Err(Wrap("failed to parse shows page", shows.error));
    }
    if shows.Page? {
      var events := ParseShowsPage(shows.nodes, artist, layouts, now);
      if |events| > 0 {
        if |events| > limit {
          events := events[..limit];
        }
        return Ok(events);
      }
    }
    if releases.FetchFailed? || releases.ParseFailed? {
      return Err(releases.error);
    }
    var events := CreateEventsFromReleases(releases.nodes, artist, limit, monthAgo);
    r := Ok(events);
  }

  /** With a positive share, one artist never gives more than its share. */
  lemma ArtistEventsBounded(url: string, info: Fetch<ArtistPage>, shows: Fetch<seq<ShowNode>>, releases: Fetch<seq<ReleaseNode>>,
                            limit: int, locate: string -> Place, layouts: seq<Parser>, now: Timestamp, monthAgo: Timestamp)
    requires limit > 0
    ensures var r := ArtistEvents(url, info, shows, releases, limit, locate, layouts, now, monthAgo);
      r.Ok? ==> |r.value| <= limit
  {
    if info.Page? && releases.Page? {
      var artist := ArtistOf(url, info.nodes, locate);
      ReleaseEventsBounded(Take(releases.nodes, limit), artist, monthAgo);
    }
  }

  // ---------------------------------------------------------------- search

  /** The search limit: 10 when unset, at most 50. */
  function SearchLimit(limit: int): (l: int)
    ensures 1 <= l <= 50
    ensures limit <= 0 ==> l == 10
    ensures 1 <= limit <= 50 ==> l == limit
    ensures limit > 50 ==> l == 50
  {
    if limit <= 0 then 10 else if limit > 50 then 50 else limit
  }

  /** What `scrapeArtistEvents(url, share)` gives for each artist URL. */
  type ArtistScrape = (string, int) -> Result<seq<ScrapedEvent>>

  function Found(r: Result<seq<ScrapedEvent>>): seq<ScrapedEvent>
  {
    if r.Ok? then r.value else []
  }

  function Batch(share: int, scrape: ArtistScrape): string -> seq<ScrapedEvent>
  {
    (url: string) => Found(scrape(url, share))
  }

  /** The artist search: its failure wrapped as `searchArtists` and then `ScrapeEvents` wrap it. */
  function SearchFailure(search: Fetch<seq<string>>): Error
    requires !search.Page?
  {
    if search.FetchFailed? then Wrap("failed to search artists", Wrap("failed to fetch search results", search.error))
    else Wrap("failed to search artists", Wrap("failed to parse HTML", search.error))
  }

  /** Each artist's share of the limit, at least one. */
  function Share(limit: int, artists: nat): (s: int)
    requires limit > 0 && artists > 0
    ensures s >= 1 && (s == 1 || s * artists <= limit)
  {
    if limit / artists == 0 then 1 else limit / artists
  }

  /**
   * The artist loop of `ScrapeEvents`: failed artists are skipped, the
   * loop stops once `limit` events are in hand, and the list is cut to
   * `limit`. The result is the first `limit` events of all the batches.
   */
  method CollectEvents(artists: seq<string>, share: int, limit: int, scrape: ArtistScrape) returns (events: seq<ScrapedEvent>)
    requires limit > 0
    ensures events == Take(FlatMap(artists, Batch(share, scrape)), limit)
    ensures |events| <= limit
  {
    var f := Batch(share, scrape);
    var all: seq<ScrapedEvent> := [];
    var i := 0;
    while i < |artists|
      invariant 0 <= i <= |artists|
      invariant all == FlatMap(artists[..i], f)
      invariant |all| < limit
    {
      var r := scrape(artists[i], share);
      FlatMapStep(artists, f, i);
      if r.Ok? {
        all := all + r.value;
        if |all| >= limit {
          TakeOfPrefix(artists, f, i + 1, limit);
          events := all[..limit];
          return;
        }
      }
      i := i + 1;
    }
    TakeAll(artists);
    events := all;
  }

  /** The outcome of the search as written: a division by zero panics. */
  datatype SearchOutcome = Panicked | Completed(result: Result<seq<ScrapedEvent>>)

  /**
   * `ScrapeEvents` as the source writes it: the share is `limit / len(artists)`
   * with no guard, so a search page without a single artist link panics.
   */
  method ScrapeEventsAsWritten(query: string, limit: int, search: Fetch<seq<string>>, normalize: string -> Option<string>,
                               scrape: ArtistScrape) returns (outcome: SearchOutcome)
    ensures outcome.Panicked? <==> TrimSpace(query) != "" && search.Page? && Take(FlatMap(search.nodes, LinkOf(normalize)), 5) == []
    ensures outcome.Completed? ==> outcome.result == SearchEvents(query, limit, search, normalize, scrape)
  {
    if TrimSpace(query) == "" {
      return Completed(Err(Failure("query cannot be empty")));
    }
    var lim := SearchLimit(limit);
    if !search.Page? {
      return Completed(Err(SearchFailure(search)));
    }
    var artists := ArtistLinks(search.nodes, normalize, 5);
    if |artists| == 0 {
      return Panicked;
    }
    var events := CollectEvents(artists, Share(lim, |artists|), lim, scrape);
    outcome := Completed(Ok(events));
  }

  /** A search page whose anchors are all excluded or empty yields no artist, so the search as written panics. */
  lemma {:induction false} NoArtistLinks(hrefs: seq<string>, normalize: string -> Option<string>)
    requires forall h :: h in hrefs ==> h == "" || !IsArtistURL(h)
    ensures FlatMap(hrefs, LinkOf(normalize)) == []
    decreases |hrefs|
  {
    if |hrefs| != 0 {
      NoArtistLinks(hrefs[..|hrefs| - 1], normalize);
    }
  }

  /** The specification of `ScrapeEvents`, with no artist found meaning no events. */
  function SearchEvents(query: string, limit: int, search: Fetch<seq<string>>, normalize: string -> Option<string>,
                        scrape: ArtistScrape): Result<seq<ScrapedEvent>>
  {
    if TrimSpace(query) == "" then Err(Failure("query cannot be empty"))
    else if !search.Page? then Err(SearchFailure(search))
    else
      var lim := SearchLimit(limit);
      var artists := Take(FlatMap(search.nodes, LinkOf(normalize)), 5);
      if |artists| == 0 then Ok([])
      else Ok(Take(FlatMap(artists, Batch(Share(lim, |artists|), scrape)), lim))
  }

  /**
   * `ScrapeEvents` with the division guarded: no artist link means no
   * events. Never more than the clamped limit.
   */
  method ScrapeEvents(query: string, limit: int, search: Fetch<seq<string>>, normalize: string -> Option<string>,
                      scrape: ArtistScrape) returns (r: Result<seq<ScrapedEvent>>)
    ensures r == SearchEvents(query, limit, search, normalize, scrape)
    ensures r.Ok? ==> |r.value| <= SearchLimit(limit)
    ensures TrimSpace(query) == "" ==> r == Err(Failure("query cannot be empty"))
    ensures TrimSpace(query) != "" && search.Page? && FlatMap(search.nodes, LinkOf(normalize)) == [] ==> r == Ok([])
  {
    if TrimSpace(query) == "" {
      return Err(Failure("query cannot be empty"));
    }
    var lim := SearchLimit(limit);
    if !search.Page? {
      return Err(SearchFailure(search));
    }
    var artists := ArtistLinks(search.nodes, normalize, 5);
    if |artists| == 0 {
      return Ok([]);
    }
    var events := CollectEvents(artists, Share(lim, |artists|), lim, scrape);
    r := Ok(events);
  }

  /** `ScrapeEventsByLocation`: a search by the city name; the country is not used. */
  method ScrapeEventsByLocation(city: string, country: string, limit: int, search: Fetch<seq<string>>,
                                normalize: string -> Option<string>, scrape: ArtistScrape) returns (r: Result<seq<ScrapedEvent>>)
    ensures r == SearchEvents(city, limit, search, normalize, scrape)
  {
    r := ScrapeEvents(city, limit, search, normalize, scrape);
  }
}
