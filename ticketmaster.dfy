/**
 * The Ticketmaster Discovery client: keyword and city searches for music
 * events and a single-event lookup, behind a 24-hour sliding-window limiter
 * of 5000 requests that is consulted before the arguments are checked.
 */
module Ticketmaster {
  import opened Wrappers
  import opened Text
  import opened Domain
  import opened Remote
  import opened Sequences
  import opened SlidingWindow
  import Songkick

  datatype TicketmasterEventDate = TicketmasterEventDate(localDate: string, localTime: string, dateTime: string)

  datatype TicketmasterVenue = TicketmasterVenue(name: string, city: string, country: string)

  datatype TicketmasterEvent = TicketmasterEvent(
    id: string,
    name: string,
    start: TicketmasterEventDate,
    venues: seq<TicketmasterVenue>,
    attractions: seq<string>)

  /** The four layouts `parseEventDateTime` tries, in its order. */
  datatype Layouts = Layouts(utc: Parser, zoned: Parser, local: Parser, dateOnly: Parser)

  /** The requests the client sends. */
  datatype Request =
    | KeywordSearch(keyword: string, size: int)
    | LocationSearch(city: string, countryCode: Option<string>, size: int)
    | EventLookup(ticketmasterID: string)

  const DailyLimit := 5000

  // ------------------------------------------------------------ dates

  /**
   * The parses `parseEventDateTime` attempts, in order: the full date-time
   * under the `Z` and the numeric-offset layouts, the local date and time
   * joined by `T`, and the local date alone; an attempt whose inputs are
   * empty is skipped.
   */
  function Attempts(start: TicketmasterEventDate, layouts: Layouts): (xs: seq<Option<Timestamp>>)
    ensures |xs| == 4
  {
    [ if start.dateTime != "" then layouts.utc(start.dateTime) else None,
      if start.dateTime != "" then layouts.zoned(start.dateTime) else None,
      if start.localDate != "" && start.localTime != "" then layouts.local(start.localDate + "T" + start.localTime) else None,
      if start.localDate != "" then layouts.dateOnly(start.localDate) else None ]
  }

  /** `k` is the first attempt that succeeds. */
  predicate FirstSuccess(xs: seq<Option<Timestamp>>, k: int)
  {
    0 <= k < |xs| && xs[k].Some? && forall j :: 0 <= j < k ==> xs[j].None?
  }

  /** `parseEventDateTime`: the first layout that accepts its input, or the current time. */
  function ParseEventDateTime(start: TicketmasterEventDate, layouts: Layouts, clock: Timestamp): Timestamp
  {
    if start.dateTime != "" && layouts.utc(start.dateTime).Some? then layouts.utc(start.dateTime).value
    else if start.dateTime != "" && layouts.zoned(start.dateTime).Some? then layouts.zoned(start.dateTime).value
    else if start.localDate != "" && start.localTime != "" && layouts.local(start.localDate + "T" + start.localTime).Some? then
      layouts.local(start.localDate + "T" + start.localTime).value
    else if start.localDate != "" && layouts.dateOnly(start.localDate).Some? then layouts.dateOnly(start.localDate).value
    else clock
  }

  /**
   * The parsed time is the result of the first successful attempt, and the
   * current time exactly when every attempt fails.
   */
  lemma ParseIsFirstSuccess(start: TicketmasterEventDate, layouts: Layouts, clock: Timestamp)
    ensures var xs := Attempts(start, layouts);
      && ((forall j :: 0 <= j < 4 ==> xs[j].None?) ==> ParseEventDateTime(start, layouts, clock) == clock)
      && (forall k :: FirstSuccess(xs, k) ==> ParseEventDateTime(start, layouts, clock) == xs[k].value)
  {
    var xs := Attempts(start, layouts);
    var joined := start.localDate + "T" + start.localTime;
    assert xs[0] == (if start.dateTime != "" then layouts.utc(start.dateTime) else None);
    assert xs[1] == (if start.dateTime != "" then layouts.zoned(start.dateTime) else None);
    assert xs[2] == (if start.localDate != "" && start.localTime != "" then layouts.local(joined) else None);
    assert xs[3] == (if start.localDate != "" then layouts.dateOnly(start.localDate) else None);
    forall k | FirstSuccess(xs, k) ensures ParseEventDateTime(start, layouts, clock) == xs[k].value {
      if k > 0 { assert xs[0].None?; }
      if k > 1 { assert xs[1].None?; }
      if k > 2 { assert xs[2].None?; }
    }
  }

  /** Some attempt always succeeds first unless all fail. */
  lemma FirstSuccessExists(start: TicketmasterEventDate, layouts: Layouts)
    ensures var xs := Attempts(start, layouts);
      (exists j :: 0 <= j < 4 && xs[j].Some?) ==> exists k :: FirstSuccess(xs, k)
  {
    var xs := Attempts(start, layouts);
    if xs[0].Some? { assert FirstSuccess(xs, 0); }
    else if xs[1].Some? { assert FirstSuccess(xs, 1); }
    else if xs[2].Some? { assert FirstSuccess(xs, 2); }
    else if xs[3].Some? { assert FirstSuccess(xs, 3); }
  }

  // ------------------------------------------------------------ conversion

  /** The performer: the first attraction's name, or the event's own name when it has none. */
  function ArtistName(e: TicketmasterEvent): string
  {
    if |e.attractions| > 0 then e.attractions[0] else e.name
  }

  const UnknownVenue := Venue("", "Unknown Venue", "Unknown City", "", "Unknown Country")

  /** The venue of `convertToEvent`: the placeholders, overwritten by the first venue listed. */
  function VenueOf(e: TicketmasterEvent): Venue
  {
    if |e.venues| > 0 then Venue("", e.venues[0].name, e.venues[0].city, "", e.venues[0].country) else UnknownVenue
  }

  /** The event `convertToEvent` builds; it is cached for 24 hours. */
  function ToEvent(e: TicketmasterEvent, layouts: Layouts, clock: Timestamp): Event
  {
    Event(
      "ticketmaster_" + e.id, "ticketmaster_artist_" + Slug(ArtistName(e)), ArtistName(e), "",
      ParseEventDateTime(e.start, layouts, clock), VenueOf(e),
      "", "", None, NoEventExternalIDs, ZeroInstant, ZeroInstant, clock.instant + 24 * Hour)
  }

  /**
   * `convertToEvent`, building the venue field by field as the source does.
   */
  method ConvertToEvent(e: TicketmasterEvent, layouts: Layouts, clock: Timestamp) returns (ev: Event)
    ensures ev == ToEvent(e, layouts, clock)
  {
    var eventTime := ParseEventDateTime(e.start, layouts, clock);
    var artistName := e.name;
    if |e.attractions| > 0 {
      artistName := e.attractions[0];
    }
    var venue := UnknownVenue;
    if |e.venues| > 0 {
      var tm := e.venues[0];
      venue := venue.(name := tm.name);
      venue := venue.(city := tm.city);
      venue := venue.(country := tm.country);
    }
    ev := Event(
      "ticketmaster_" + e.id, "ticketmaster_artist_" + Slug(artistName), artistName, "",
      eventTime, venue, "", "", None, NoEventExternalIDs, ZeroInstant, ZeroInstant, clock.instant + 24 * Hour);
  }

  /**
   * What a converted event says: its ID carries the Ticketmaster ID, its
   * artist ID is the space-free slug of the performer, and the venue is the
   * first one listed or all placeholders.
   */
  lemma ConvertedEvent(e: TicketmasterEvent, f: TicketmasterEvent, layouts: Layouts, clock: Timestamp)
    ensures var ev := ToEvent(e, layouts, clock);
      && (e.id != f.id ==> ev.id != ToEvent(f, layouts, clock).id)
      && ' ' !in ev.artistID
      && ev.artistName == (if |e.attractions| > 0 then e.attractions[0] else e.name)
      && (|e.venues| == 0 ==> ev.venue == UnknownVenue)
      && (|e.venues| > 0 ==> ev.venue.name == e.venues[0].name && ev.venue.city == e.venues[0].city && ev.venue.country == e.venues[0].country)
      && ev.cachedUntil == clock.instant + 24 * Hour
  {
    var p := "ticketmaster_";
    if e.id != f.id {
      assert (p + e.id)[|p|..] == e.id;
      assert (p + f.id)[|p|..] == f.id;
    }
    SlugHasNoSpace(ArtistName(e));
  }

  /** The loop of both searches. */
  method ConvertEvents(data: seq<TicketmasterEvent>, layouts: Layouts, clock: Timestamp) returns (events: seq<Event>)
    ensures events == Map(data, (e: TicketmasterEvent) => ToEvent(e, layouts, clock))
  {
    ghost var f := (e: TicketmasterEvent) => ToEvent(e, layouts, clock);
    events := [];
    for i := 0 to |data|
      invariant events == Map(data[..i], f)
    {
      var ev := ConvertToEvent(data[i], layouts, clock);
      MapExtend(data[..i], f, events, data[i], ev);
      TakeNext(data, i);
      events := events + [ev];
    }
    TakeAll(data);
  }

  // ------------------------------------------------------------ requests and replies

  /** The page size: 10 when unset, at most 200. */
  function Size(limit: int): (l: int)
    ensures 1 <= l <= 200
    ensures 1 <= limit <= 200 ==> l == limit
    ensures limit <= 0 ==> l == 10
    ensures limit > 200 ==> l == 200
  {
    if limit <= 0 then 10 else if limit > 200 then 200 else limit
  }

  /** The country filter: sent uppercased, and only when a country is given. */
  function CountryCode(country: string): (c: Option<string>)
    ensures c.None? <==> country == ""
    ensures c.Some? ==> |c.value| == |country| && forall i :: 0 <= i < |country| ==> !IsLower(c.value[i])
  {
    if country != "" then Some(ToUpper(country)) else None
  }

  /** The converted events of a search reply; `rateLimited` says whether 429 is mapped to the sentinel. */
  function EventsOutcome(reply: Reply<seq<TicketmasterEvent>>, rateLimited: bool, what: string, layouts: Layouts, clock: Timestamp)
    : (r: Result<seq<Event>>)
    ensures rateLimited && reply.Answered? && reply.status == StatusTooManyRequests ==> r == Err(RateLimitExceeded)
    ensures r.Ok? <==> reply.Answered? && reply.status == StatusOK && reply.body.Ok?
    ensures r.Ok? ==> |r.value| == |reply.body.value|
    ensures r.Ok? ==> forall k :: 0 <= k < |r.value| ==> r.value[k] == ToEvent(reply.body.value[k], layouts, clock)
  {
    if rateLimited && reply.Answered? && reply.status == StatusTooManyRequests then Err(RateLimitExceeded)
    else match Expect(reply, "failed to search events", what)
      case Err(e) => Err(e)
      case Ok(data) => Ok(Map(data, (e: TicketmasterEvent) => ToEvent(e, layouts, clock)))
  }

  /** The single event of a lookup: 404 is "event not found". */
  function EventOutcome(reply: Reply<TicketmasterEvent>, layouts: Layouts, clock: Timestamp): (r: Result<Event>)
    ensures reply.Answered? && reply.status == StatusNotFound ==> r == Err(EventNotFound)
    ensures r.Ok? <==> reply.Answered? && reply.status == StatusOK && reply.body.Ok?
    ensures r.Ok? ==> r.value == ToEvent(reply.body.value, layouts, clock)
  {
    if reply.Answered? && reply.status == StatusNotFound then Err(EventNotFound)
    else match Expect(reply, "failed to get event", "ticketmaster get event")
      case Err(e) => Err(e)
      case Ok(ev) => Ok(ToEvent(ev, layouts, clock))
  }

  class TicketmasterClient {
    const apiKey: string
    const limiter: SlidingWindowLimiter

    ghost predicate Valid()
      reads this, limiter
    {
      limiter.Valid() && limiter.limit == DailyLimit && limiter.windowSize == 24 * Hour
    }

    /** `NewTicketmasterClient`: an API key is required. */
    static method New(apiKey: string) returns (r: Result<TicketmasterClient>)
      ensures apiKey == "" <==> r.Err?
      ensures r.Err? ==> r.error == Failure("ticketmaster API key is required")
      ensures r.Ok? ==> fresh(r.value) && fresh(r.value.limiter) && r.value.Valid() && r.value.limiter.requests == []
    {
      if apiKey == "" {
        return Err(Failure("ticketmaster API key is required"));
      }
      var c := new TicketmasterClient.Init(apiKey);
      r := Ok(c);
    }

    constructor Init(apiKey: string)
      ensures this.apiKey == apiKey && fresh(limiter) && Valid() && limiter.requests == []
    {
      var l := Songkick.NewEventRateLimiter(DailyLimit);
      this.apiKey := apiKey;
      limiter := l;
    }

    /** `SearchEventsByKeyword`: the slot is taken even when the keyword turns out blank. */
    method SearchEventsByKeyword(keyword: string, limit: int, clock: Timestamp, reply: Reply<seq<TicketmasterEvent>>, layouts: Layouts)
      returns (r: Result<seq<Event>>, sent: Option<Request>)
      requires Valid()
      modifies limiter
      ensures Valid()
      ensures var (log, gate) := Step(old(limiter.requests), DailyLimit, 24 * Hour, clock.instant);
        && limiter.requests == log
        && (gate.Some? ==> r == Err(RateLimitExceeded) && sent == None)
        && (gate.None? && TrimSpace(keyword) == "" ==> r == Err(InvalidRequest) && sent == None)
        && (gate.None? && TrimSpace(keyword) != "" ==>
              && sent == Some(KeywordSearch(TrimSpace(keyword), Size(limit)))
              && r == EventsOutcome(reply, true, "ticketmaster search", layouts, clock))
    {
      var gate := limiter.Allow(clock.instant);
      if gate.Some? {
        return Err(gate.value), None;
      }
      var k := TrimSpace(keyword);
      if k == "" {
        return Err(InvalidRequest), None;
      }
      sent := Some(KeywordSearch(k, Size(limit)));
      if reply.Answered? && reply.status == StatusTooManyRequests {
        return Err(RateLimitExceeded), sent;
      }
      var body := Expect(reply, "failed to search events", "ticketmaster search");
      if body.Err? {
        return Err(body.error), sent;
      }
      var events := ConvertEvents(body.value, layouts, clock);
      r := Ok(events);
    }

    /**
     * `SearchEventsByLocation`: the city is trimmed, the country is not;
     * a 429 here is an ordinary status error.
     */
    method SearchEventsByLocation(city: string, country: string, limit: int, clock: Timestamp,
                                  reply: Reply<seq<TicketmasterEvent>>, layouts: Layouts)
      returns (r: Result<seq<Event>>, sent: Option<Request>)
      requires Valid()
      modifies limiter
      ensures Valid()
      ensures var (log, gate) := Step(old(limiter.requests), DailyLimit, 24 * Hour, clock.instant);
        && limiter.requests == log
        && (gate.Some? ==> r == Err(RateLimitExceeded) && sent == None)
        && (gate.None? && TrimSpace(city) == "" ==> r == Err(InvalidRequest) && sent == None)
        && (gate.None? && TrimSpace(city) != "" ==>
              && sent == Some(LocationSearch(TrimSpace(city), CountryCode(country), Size(limit)))
              && r == EventsOutcome(reply, false, "ticketmaster location search", layouts, clock))
    {
      var gate := limiter.Allow(clock.instant);
      if gate.Some? {
        return Err(gate.value), None;
      }
      var c := TrimSpace(city);
      if c == "" {
        return Err(InvalidRequest), None;
      }
      sent := Some(LocationSearch(c, CountryCode(country), Size(limit)));
      var body := Expect(reply, "failed to search events", "ticketmaster location search");
      if body.Err? {
        return Err(body.error), sent;
      }
      var events := ConvertEvents(body.value, layouts, clock);
      r := Ok(events);
    }

    /** `GetEvent`. */
    method GetEvent(ticketmasterID: string, clock: Timestamp, reply: Reply<TicketmasterEvent>, layouts: Layouts)
      returns (r: Result<Event>, sent: Option<Request>)
      requires Valid()
      modifies limiter
      ensures Valid()
      ensures var (log, gate) := Step(old(limiter.requests), DailyLimit, 24 * Hour, clock.instant);
        && limiter.requests == log
        && (gate.Some? ==> r == Err(RateLimitExceeded) && sent == None)
        && (gate.None? ==> sent == Some(EventLookup(ticketmasterID)) && r == EventOutcome(reply, layouts, clock))
    {
      var gate := limiter.Allow(clock.instant);
      if gate.Some? {
        return Err(gate.value), None;
      }
      sent := Some(EventLookup(ticketmasterID));
      if reply.Answered? && reply.status == StatusNotFound {
        return Err(EventNotFound), sent;
      }
      var body := Expect(reply, "failed to get event", "ticketmaster get event");
      if body.Err? {
        return Err(body.error), sent;
      }
      var ev := ConvertToEvent(body.value, layouts, clock);
      r := Ok(ev);
    }
  }
}
