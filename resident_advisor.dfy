/**
 * The Resident Advisor scraper: an event listing (from a search, or from a
 * city's listing page when the city has a known code), each listed event
 * then completed from its own detail page.
 *
 * As for Bandcamp, the HTML walks are not modelled: a listing arrives as the
 * event container nodes in document order, each with the texts of the
 * sub-nodes the scraper reads.
 */
module ResidentAdvisor {
  import opened Wrappers
  import opened Text
  import opened Domain
  import opened Sequences
  import opened Scrapers
  import opened ScraperLocation

  const Name: string := "resident_advisor"
  const UnknownArtist: string := "Unknown Artist"

  // ---------------------------------------------------------- location codes

  /** The listing codes of the cities Resident Advisor is known to list, keyed by lower-case city name. */
  const LocationCodes: map<string, string> := map[
    "london" := "london", "berlin" := "berlin", "new york" := "newyork", "paris" := "paris",
    "amsterdam" := "amsterdam", "barcelona" := "barcelona", "melbourne" := "melbourne",
    "sydney" := "sydney", "tokyo" := "tokyo", "montreal" := "montreal", "toronto" := "toronto",
    "chicago" := "chicago", "los angeles" := "losangeles", "san francisco" := "sanfrancisco",
    "detroit" := "detroit", "miami" := "miami", "dublin" := "dublin", "glasgow" := "glasgow",
    "manchester" := "manchester", "birmingham" := "birmingham", "bristol" := "bristol",
    "leeds" := "leeds", "liverpool" := "liverpool", "rome" := "rome", "milan" := "milan",
    "madrid" := "madrid", "valencia" := "valencia", "lisbon" := "lisbon", "prague" := "prague",
    "vienna" := "vienna", "zurich" := "zurich", "oslo" := "oslo", "stockholm" := "stockholm",
    "copenhagen" := "copenhagen", "helsinki" := "helsinki"]

  /** `getLocationCode`: the code of the city, whatever its case; `""` for an unknown city. The country is not used. */
  function LocationCode(city: string, country: string): (code: string)
    ensures ToLower(city) in LocationCodes ==> code == LocationCodes[ToLower(city)]
    ensures ToLower(city) !in LocationCodes ==> code == ""
  {
    if ToLower(city) in LocationCodes then LocationCodes[ToLower(city)] else ""
  }

  /** Every known city has a non-empty code, so `""` means exactly an unknown city. */
  lemma LocationCodeKnown(city: string, country: string)
    ensures LocationCode(city, country) != "" <==> ToLower(city) in LocationCodes
  {
    if ToLower(city) in LocationCodes {
      var c := ToLower(city);
      assert LocationCodes[c] != "";
    }
  }

  /** The lookup ignores case and the country. */
  lemma LocationCodeIgnoresCase(city: string, country: string, other: string)
    ensures LocationCode(city, country) == LocationCode(ToLower(city), other)
  {
    ToLowerIdempotent(city);
  }

  // ------------------------------------------------------------ listing

  /** An event container node: the texts of its `title`, `date`, `venue` and `location` nodes and its first link. */
  datatype EventNode = EventNode(title: Option<string>, date: Option<string>, venue: Option<string>,
                                 location: Option<string>, href: Option<string>)

  /** The title, date and venue texts of a node, on an empty record. */
  function Headline(node: EventNode, layouts: seq<Parser>, now: Timestamp): (e: ScrapedEvent)
    ensures e.artistName == e.title && (node.title.None? ==> e.title == "")
    ensures node.date.None? ==> e.date == ZeroTime
    ensures e.city == "" && e.country == "" && e.url == ""
    ensures e.description == "" && e.price == "" && e.tags == []
  {
    var title := if node.title.Some? then Extracted(node.title.value) else "";
    ScrapedEvent(
      title, title,
      if node.date.Some? then ParseDate(Extracted(node.date.value), layouts, now) else ZeroTime,
      if node.venue.Some? then Extracted(node.venue.value) else "",
      "", "", "", "", "", [])
  }

  /** The location text, when there is one, written in by `parseLocation`. */
  function Located(e: ScrapedEvent, location: Option<string>): (r: ScrapedEvent)
    ensures r == e.(city := r.city, country := r.country)
    ensures location.None? ==> r == e
  {
    if location.Some? then ParseLocation(Extracted(location.value), e) else e
  }

  /** The link, when it is non-empty and normalises, as the event's address. */
  function Linked(e: ScrapedEvent, href: Option<string>, normalize: string -> Option<string>): (r: ScrapedEvent)
    ensures r == e.(url := r.url)
    ensures href.None? ==> r == e
  {
    if href.Some? && href.value != "" && normalize(href.value).Some? then e.(url := normalize(href.value).value) else e
  }

  /** The defaults: "Unknown Artist" for a missing artist, the time of the call for a zero date. */
  function Defaulted(e: ScrapedEvent, now: Timestamp): (r: ScrapedEvent)
    ensures r == e.(artistName := r.artistName, date := r.date)
    ensures r.artistName == (if e.artistName == "" then UnknownArtist else e.artistName)
    ensures r.date == (if IsZero(e.date) then now else e.date)
  {
    e.(artistName := if e.artistName == "" then UnknownArtist else e.artistName,
       date := if IsZero(e.date) then now else e.date)
  }

  /**
   * `parseEventNode`. The artist is the title, or "Unknown Artist"; a
   * missing date is the time of the call; the link goes through
   * `NormalizeURL` against the site, modelled by `normalize`.
   */
  function EventOf(node: EventNode, layouts: seq<Parser>, now: Timestamp, normalize: string -> Option<string>): ScrapedEvent
  {
    Defaulted(Linked(Located(Headline(node, layouts, now), node.location), node.href, normalize), now)
  }

  /** What a listed event always has: an artist, a date that is set unless the clock reads zero, and only the node's own texts. */
  lemma EventOfMeans(node: EventNode, layouts: seq<Parser>, now: Timestamp, normalize: string -> Option<string>)
    ensures var e := EventOf(node, layouts, now, normalize);
      && e.artistName == (if e.title == "" then UnknownArtist else e.title)
      && (node.title.None? ==> e.title == "")
      && (node.date.None? ==> e.date == now)
      && (IsZero(e.date) ==> e.date == now)
      && (node.href.None? ==> e.url == "")
      && (node.location.None? ==> e.city == "" && e.country == "")
      && e.description == "" && e.price == "" && e.tags == []
  {
    var h := Headline(node, layouts, now);
    var l := Located(h, node.location);
    var k := Linked(l, node.href, normalize);
    assert IsZero(ZeroTime);
  }

  /** A node's contribution to the listing: its event, when it has a title. */
  function ListedOf(layouts: seq<Parser>, now: Timestamp, normalize: string -> Option<string>): EventNode -> seq<ScrapedEvent>
  {
    (node: EventNode) =>
      var e := EventOf(node, layouts, now, normalize);
      if e.title != "" then [e] else []
  }

  /** `parseEventList`: the titled events among the first `limit` nodes. */
  function Listing(nodes: seq<EventNode>, limit: int, layouts: seq<Parser>, now: Timestamp, normalize: string -> Option<string>)
    : seq<ScrapedEvent>
  {
    FlatMap(Take(nodes, limit), ListedOf(layouts, now, normalize))
  }

  method ParseEventList(nodes: seq<EventNode>, limit: int, layouts: seq<Parser>, now: Timestamp, normalize: string -> Option<string>)
    returns (events: seq<ScrapedEvent>)
    ensures events == Listing(nodes, limit, layouts, now, normalize)
  {
    var f := ListedOf(layouts, now, normalize);
    events := [];
    var i := 0;
    while i < |nodes|
      invariant 0 <= i <= |nodes|
      invariant events == FlatMap(nodes[..i], f)
      invariant i <= |Take(nodes, limit)|
    {
      if i >= limit {
        break;
      }
      FlatMapStep(nodes, f, i);
      var event := EventOf(nodes[i], layouts, now, normalize);
      if event.title != "" {
        events := events + [event];
      }
      i := i + 1;
    }
    assert Take(nodes, limit) == nodes[..i];
  }

  /** The listing has at most one event per examined node, each titled and attributed to an artist. */
  lemma {:induction false} ListingBounded(nodes: seq<EventNode>, layouts: seq<Parser>, now: Timestamp, normalize: string -> Option<string>)
    ensures |FlatMap(nodes, ListedOf(layouts, now, normalize))| <= |nodes|
    ensures forall e :: e in FlatMap(nodes, ListedOf(layouts, now, normalize)) ==> e.title != "" && e.artistName == e.title
    decreases |nodes|
  {
    if |nodes| != 0 {
      var last := nodes[|nodes| - 1];
      EventOfMeans(last, layouts, now, normalize);
      ListingBounded(nodes[..|nodes| - 1], layouts, now, normalize);
    }
  }

  // ------------------------------------------------------------ details

  /** An event's detail page: the texts of its description and price nodes, when present, and of its tag nodes. */
  datatype DetailPage = DetailPage(description: Option<string>, price: Option<string>, tags: seq<string>)

  /** `scrapeEventDetails` once the page is parsed: only the address, description, price and tags are set. */
  function DetailsOf(url: string, page: DetailPage): ScrapedEvent
  {
    ScrapedEvent("", "", ZeroTime, "", "", "", url,
                 if page.description.Some? then Extracted(page.description.value) else "",
                 if page.price.Some? then Extracted(page.price.value) else "",
                 FlatMap(page.tags, NonEmptyText))
  }

  /** `mergeEventDetails`: a non-empty description, price or tag list from the details replaces the listed one. */
  function MergeEventDetails(base: ScrapedEvent, detailed: ScrapedEvent): (r: ScrapedEvent)
    ensures r == base.(description := r.description, price := r.price, tags := r.tags)
    ensures r.description == (if detailed.description != "" then detailed.description else base.description)
    ensures r.price == (if detailed.price != "" then detailed.price else base.price)
    ensures r.tags == (if |detailed.tags| > 0 then detailed.tags else base.tags)
  {
    var b1 := if detailed.description != "" then base.(description := detailed.description) else base;
    var b2 := if detailed.price != "" then b1.(price := detailed.price) else b1;
    if |detailed.tags| > 0 then b2.(tags := detailed.tags) else b2
  }

  /** Merging the same details twice changes nothing more. */
  lemma MergeIdempotent(base: ScrapedEvent, detailed: ScrapedEvent)
    ensures MergeEventDetails(MergeEventDetails(base, detailed), detailed) == MergeEventDetails(base, detailed)
  {
  }

  /** What the detail fetch gives for an event: the event completed from its page, or the event unchanged. */
  function Completed(details: string -> Fetch<DetailPage>): ScrapedEvent -> ScrapedEvent
  {
    (e: ScrapedEvent) =>
      if e.url != "" && details(e.url).Page? then MergeEventDetails(e, DetailsOf(e.url, details(e.url).nodes)) else e
  }

  /**
   * The detail loop: each event with an address is replaced, in place, by
   * its merge with its detail page; events whose page fails stay as listed.
   */
  method CompleteEvents(events: seq<ScrapedEvent>, details: string -> Fetch<DetailPage>) returns (r: seq<ScrapedEvent>)
    ensures r == Map(events, Completed(details))
  {
    r := events;
    for i := 0 to |r|
      invariant |r| == |events|
      invariant forall j :: 0 <= j < i ==> r[j] == Completed(details)(events[j])
      invariant forall j :: i <= j < |r| ==> r[j] == events[j]
    {
      var url := r[i].url;
      if url != "" {
        var page := details(url);
        if page.Page? {
          r := r[i := MergeEventDetails(r[i], DetailsOf(url, page.nodes))];
        }
      }
    }
  }

  /** Completion keeps what the listing said about an event, and adds only non-empty tags. */
  lemma CompletedKeeps(details: string -> Fetch<DetailPage>, e: ScrapedEvent)
    ensures var c := Completed(details)(e);
      c == e.(description := c.description, price := c.price, tags := c.tags)
      && (e.url == "" ==> c == e)
      && (e.url != "" && details(e.url).Page? ==> forall t :: t in c.tags && c.tags != e.tags ==> t != "")
  {
    if e.url != "" && details(e.url).Page? {
      TextsNonEmpty(details(e.url).nodes.tags);
    }
  }

  // ------------------------------------------------------------- searches

  /** The search limit: 10 when unset, at most 50. */
  function SearchLimit(limit: int): (l: int)
    ensures 1 <= l <= 50
    ensures limit <= 0 ==> l == 10
    ensures 1 <= limit <= 50 ==> l == limit
    ensures limit > 50 ==> l == 50
  {
    if limit <= 0 then 10 else if limit > 50 then 50 else limit
  }

  /** A listing page: its fetch failure, its parse failure, or its completed events. */
  function FromListing(page: Fetch<seq<EventNode>>, fetchContext: string, limit: int, layouts: seq<Parser>, now: Timestamp,
                       normalize: string -> Option<string>, details: string -> Fetch<DetailPage>): Result<seq<ScrapedEvent>>
  {
    match page
    case FetchFailed(e) => Err(Wrap(fetchContext, e))
    case ParseFailed(e) => Err(Wrap("failed to parse HTML", e))
    case Page(nodes) => Ok(Map(Listing(nodes, limit, layouts, now, normalize), Completed(details)))
  }

  /** The steps both searches share once the page is requested: fetch, parse, list, complete. */
  method ListingEvents(page: Fetch<seq<EventNode>>, fetchContext: string, limit: int, layouts: seq<Parser>, now: Timestamp,
                       normalize: string -> Option<string>, details: string -> Fetch<DetailPage>)
    returns (r: Result<seq<ScrapedEvent>>)
    ensures r == FromListing(page, fetchContext, limit, layouts, now, normalize, details)
  {
    if page.FetchFailed? {
      return Err(Wrap(fetchContext, page.error));
    }
    if page.ParseFailed? {
      return Err(Wrap("failed to parse HTML", page.error));
    }
    var events := ParseEventList(page.nodes, limit, layouts, now, normalize);
    events := CompleteEvents(events, details);
    r := Ok(events);
  }

  /** The specification of `ScrapeEvents`. */
  function SearchEvents(query: string, limit: int, search: Fetch<seq<EventNode>>, layouts: seq<Parser>, now: Timestamp,
                        normalize: string -> Option<string>, details: string -> Fetch<DetailPage>): Result<seq<ScrapedEvent>>
  {
    if TrimSpace(query) == "" then Err(Failure("query cannot be empty"))
    else FromListing(search, "failed to fetch search results", SearchLimit(limit), layouts, now, normalize, details)
  }

  /** `ScrapeEvents`: `search` is the search-results page for the trimmed query. */
  method ScrapeEvents(query: string, limit: int, search: Fetch<seq<EventNode>>, layouts: seq<Parser>, now: Timestamp,
                      normalize: string -> Option<string>, details: string -> Fetch<DetailPage>)
    returns (r: Result<seq<ScrapedEvent>>)
    ensures r == SearchEvents(query, limit, search, layouts, now, normalize, details)
  {
    if TrimSpace(query) == "" {
      return Err(Failure("query cannot be empty"));
    }
    r := ListingEvents(search, "failed to fetch search results", SearchLimit(limit), layouts, now, normalize, details);
  }

  /** A listing never has more events than its limit, and every one is titled. */
  lemma FromListingBounded(page: Fetch<seq<EventNode>>, fetchContext: string, limit: int, layouts: seq<Parser>, now: Timestamp,
                           normalize: string -> Option<string>, details: string -> Fetch<DetailPage>)
    requires limit > 0
    ensures var r := FromListing(page, fetchContext, limit, layouts, now, normalize, details);
      r.Ok? ==> |r.value| <= limit && forall e :: e in r.value ==> e.title != ""
  {
    if page.Page? {
      var listed := Listing(page.nodes, limit, layouts, now, normalize);
      ListingBounded(Take(page.nodes, limit), layouts, now, normalize);
      forall e | e in Map(listed, Completed(details)) ensures e.title != "" {
        var j :| 0 <= j < |listed| && Map(listed, Completed(details))[j] == e;
        assert listed[j] in listed;
        CompletedKeeps(details, listed[j]);
      }
    }
  }

  /**
   * `ScrapeEventsByLocation`: the city's listing page when the city has a
   * code, otherwise a search for the city's name. Unlike the search, the
   * listing page is cut to the caller's limit with no upper bound.
   */
  function LocationEvents(city: string, country: string, limit: int, listing: Fetch<seq<EventNode>>, search: Fetch<seq<EventNode>>,
                          layouts: seq<Parser>, now: Timestamp, normalize: string -> Option<string>,
                          details: string -> Fetch<DetailPage>): Result<seq<ScrapedEvent>>
  {
    var c := TrimSpace(city);
    if c == "" then Err(Failure("city cannot be empty"))
    else
      var lim := if limit <= 0 then 10 else limit;
      if LocationCode(c, country) == "" then SearchEvents(c, lim, search, layouts, now, normalize, details)
      else FromListing(listing, "failed to fetch location events", lim, layouts, now, normalize, details)
  }

  method ScrapeEventsByLocation(city: string, country: string, limit: int, listing: Fetch<seq<EventNode>>,
                                search: Fetch<seq<EventNode>>, layouts: seq<Parser>, now: Timestamp,
                                normalize: string -> Option<string>, details: string -> Fetch<DetailPage>)
    returns (r: Result<seq<ScrapedEvent>>)
    ensures r == LocationEvents(city, country, limit, listing, search, layouts, now, normalize, details)
  {
    var c := TrimSpace(city);
    if c == "" {
      return Err(Failure("city cannot be empty"));
    }
    var lim := if limit <= 0 then 10 else limit;
    if LocationCode(c, country) == "" {
      r := ScrapeEvents(c, lim, search, layouts, now, normalize, details);
      return;
    }
    r := ListingEvents(listing, "failed to fetch location events", lim, layouts, now, normalize, details);
  }

  /**
   * A known city is served from its listing page up to the caller's limit;
   * an unknown one by the search, which caps at 50. Either way no more
   * than the positive limit asked for.
   */
  lemma LocationEventsBounded(city: string, country: string, limit: int, listing: Fetch<seq<EventNode>>, search: Fetch<seq<EventNode>>,
                              layouts: seq<Parser>, now: Timestamp, normalize: string -> Option<string>,
                              details: string -> Fetch<DetailPage>)
    requires limit > 0
    ensures var r := LocationEvents(city, country, limit, listing, search, layouts, now, normalize, details);
      && (r.Ok? ==> |r.value| <= limit)
      && (TrimSpace(city) != "" && ToLower(TrimSpace(city)) !in LocationCodes ==>
            r == SearchEvents(TrimSpace(city), limit, search, layouts, now, normalize, details))
  {
    var c := TrimSpace(city);
    if c != "" {
      LocationCodeKnown(c, country);
      if LocationCode(c, country) == "" {
        if TrimSpace(c) != "" {
          FromListingBounded(search, "failed to fetch search results", SearchLimit(limit), layouts, now, normalize, details);
        }
      } else {
        FromListingBounded(listing, "failed to fetch location events", limit, layouts, now, normalize, details);
      }
    }
  }
}
