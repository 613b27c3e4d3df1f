/**
 * The Songkick client. Every search first resolves a name to a Songkick ID
 * and then fetches that ID's calendar; both steps take a slot of the
 * client's 24-hour sliding-window limiter (1000 requests).
 */
module Songkick {
  import opened Wrappers
  import opened Text
  import opened Numerals
  import opened Domain
  import opened Remote
  import opened Sequences
  import opened SlidingWindow

  datatype SongkickPerformance = SongkickPerformance(billing: string, billingIndex: int, artistName: string)

  datatype SongkickEventDate = SongkickEventDate(date: string, time: string, dateTime: string)

  datatype SongkickEvent = SongkickEvent(
    id: int,
    displayName: string,
    start: SongkickEventDate,
    venueName: string,
    metroArea: string,
    country: string,
    performances: seq<SongkickPerformance>)

  /** The four layouts `parseEventDateTime` tries. */
  datatype Layouts = Layouts(zoned: Parser, utc: Parser, local: Parser, dateOnly: Parser)

  /** The requests a search sends, in order. */
  datatype Request =
    | ArtistLookup(query: string)
    | LocationLookup(query: string)
    | ArtistCalendar(artistID: int, perPage: int)
    | MetroCalendar(locationID: int, perPage: int)

  const UnknownArtist: string := "Unknown Artist"

  predicate IsHeadliner(p: SongkickPerformance) { p.billing == "headline" || p.billingIndex == 1 }

  /** The specification of `getMainPerformer`. */
  function MainPerformer(ps: seq<SongkickPerformance>): (name: string)
    ensures |ps| == 0 ==> name == UnknownArtist
    ensures |ps| > 0 && (forall k :: 0 <= k < |ps| ==> !IsHeadliner(ps[k])) ==> name == ps[0].artistName
    ensures forall k :: 0 <= k < |ps| && IsHeadliner(ps[k]) && (forall j :: 0 <= j < k ==> !IsHeadliner(ps[j])) ==>
              name == ps[k].artistName
  {
    if |ps| == 0 then UnknownArtist
    else match FirstHeadliner(ps)
      case Some(k) => ps[k].artistName
      case None => ps[0].artistName
  }

  function FirstHeadliner(ps: seq<SongkickPerformance>): (r: Option<nat>)
    ensures r.Some? ==> r.value < |ps| && IsHeadliner(ps[r.value]) && forall j :: 0 <= j < r.value ==> !IsHeadliner(ps[j])
    ensures r.None? ==> forall j :: 0 <= j < |ps| ==> !IsHeadliner(ps[j])
  {
    if |ps| == 0 then None
    else if IsHeadliner(ps[0]) then Some(0)
    else match FirstHeadliner(ps[1..])
      case None => None
      case Some(k) => Some(k + 1)
  }

  /** `getMainPerformer`, with its loop. */
  method GetMainPerformer(ps: seq<SongkickPerformance>) returns (name: string)
    ensures name == MainPerformer(ps)
  {
    if |ps| == 0 {
      return UnknownArtist;
    }
    for i := 0 to |ps|
      invariant forall j :: 0 <= j < i ==> !IsHeadliner(ps[j])
    {
      if IsHeadliner(ps[i]) {
        assert FirstHeadliner(ps) == Some(i);
        return ps[i].artistName;
      }
    }
    name := ps[0].artistName;
  }

  /**
   * `parseEventDateTime`: the full date-time in two layouts, then date and
   * time joined by `T`, then the date alone, and finally the current time.
   */
  function ParseEventDateTime(start: SongkickEventDate, layouts: Layouts, clock: Timestamp): (t: Timestamp)
    ensures start.dateTime != "" && layouts.zoned(start.dateTime).Some? ==> t == layouts.zoned(start.dateTime).value
    ensures start.dateTime == "" && start.date == "" ==> t == clock
    ensures t != clock ==>
      (start.dateTime != "" && (Some(t) == layouts.zoned(start.dateTime) || Some(t) == layouts.utc(start.dateTime))) ||
      (start.date != "" && start.time != "" && Some(t) == layouts.local(start.date + "T" + start.time)) ||
      (start.date != "" && Some(t) == layouts.dateOnly(start.date))
  {
    var full := if start.dateTime == "" then None
                else if layouts.zoned(start.dateTime).Some? then layouts.zoned(start.dateTime)
                else layouts.utc(start.dateTime);
    var joined := if start.date != "" && start.time != "" then layouts.local(start.date + "T" + start.time) else None;
    var day := if start.date != "" then layouts.dateOnly(start.date) else None;
    if full.Some? then full.value
    else if joined.Some? then joined.value
    else if day.Some? then day.value
    else clock
  }

  /** `convertToEvent`. */
  function ToEvent(e: SongkickEvent, mainArtist: string, layouts: Layouts, clock: Timestamp): Event
  {
    Event(
      "songkick_" + IntToString(e.id), "songkick_artist_" + Slug(mainArtist), mainArtist, "",
      ParseEventDateTime(e.start, layouts, clock),
      Venue("", e.venueName, e.metroArea, "", e.country),
      "", "", None, NoEventExternalIDs, ZeroInstant, ZeroInstant, clock.instant + 24 * Hour)
  }

  /** The conversion used by a search: a fixed artist name, or each event's main performer. */
  function Converter(name: Option<string>, layouts: Layouts, clock: Timestamp): SongkickEvent -> Event
  {
    (e: SongkickEvent) => ToEvent(e, if name.Some? then name.value else MainPerformer(e.performances), layouts, clock)
  }

  /** Distinct Songkick event IDs give distinct event IDs, and the artist ID is the slug of the name. */
  lemma ToEventIDs(e: SongkickEvent, f: SongkickEvent, name: string, name': string, layouts: Layouts, clock: Timestamp)
    ensures e.id != f.id ==> ToEvent(e, name, layouts, clock).id != ToEvent(f, name', layouts, clock).id
    ensures ' ' !in ToEvent(e, name, layouts, clock).artistID
  {
    var p := "songkick_";
    if e.id != f.id && ToEvent(e, name, layouts, clock).id == ToEvent(f, name', layouts, clock).id {
      assert (p + IntToString(e.id))[|p|..] == IntToString(e.id);
      assert (p + IntToString(f.id))[|p|..] == IntToString(f.id);
      IntToStringInjective(e.id, f.id);
    }
    SlugHasNoSpace(name);
  }

  /** The search limit: 10 when unset, at most 50. */
  function PerPage(limit: int): (l: int)
    ensures 1 <= l <= 50
    ensures 1 <= limit <= 50 ==> l == limit
    ensures limit <= 0 ==> l == 10
    ensures limit > 50 ==> l == 50
  {
    if limit <= 0 then 10 else if limit > 50 then 50 else limit
  }

  /** The location query: `"city, country"`, or the city alone when there is no country. */
  function LocationQuery(city: string, country: string): string
  {
    if country != "" then city + ", " + country else city
  }

  lemma LocationQueryShape(city: string, country: string)
    ensures country == "" ==> LocationQuery(city, country) == city
    ensures country != "" ==> HasPrefix(LocationQuery(city, country), city + ", ") &&
                              LocationQuery(city, country)[|city| + 2..] == country
  {
  }

  /** The first ID of a lookup, 0 when nothing matched. */
  function Lookup(reply: Reply<seq<int>>, failed: string, what: string): (r: Result<int>)
    ensures r.Ok? && r.value != 0 ==> reply.Answered? && reply.body.Ok? && |reply.body.value| > 0 && r.value == reply.body.value[0]
  {
    match Expect(reply, failed, what)
    case Err(e) => Err(e)
    case Ok(ids) => Ok(if |ids| == 0 then 0 else ids[0])
  }

  /** The calendar step of the artist search: 429 means the remote rate limit. */
  function ArtistCalendarOutcome(reply: Reply<seq<SongkickEvent>>, f: SongkickEvent -> Event): Result<seq<Event>>
  {
    var body := Expect(reply, "failed to search events", "songkick search");
    if reply.Answered? && reply.status == StatusTooManyRequests then Err(RateLimitExceeded)
    else if body.Err? then Err(body.error)
    else Ok(Map(body.value, f))
  }

  function MetroCalendarOutcome(reply: Reply<seq<SongkickEvent>>, f: SongkickEvent -> Event): Result<seq<Event>>
  {
    var body := Expect(reply, "failed to search events", "songkick location search");
    if body.Err? then Err(body.error) else Ok(Map(body.value, f))
  }

  /** The artist search after its first limiter slot and the blank check; `gate` is the second slot. */
  function ArtistSearch(gate: Option<Error>, name: string, limit: int, find: Reply<seq<int>>,
                        calendar: Reply<seq<SongkickEvent>>, layouts: Layouts, clock: Timestamp): (Result<seq<Event>>, seq<Request>)
  {
    var id := Lookup(find, "failed to search artist", "songkick artist search");
    if gate.Some? then (Err(gate.value), [])
    else if id.Err? then (Err(id.error), [ArtistLookup(name)])
    else if id.value == 0 then (Ok([]), [ArtistLookup(name)])
    else (ArtistCalendarOutcome(calendar, Converter(Some(name), layouts, clock)),
          [ArtistLookup(name), ArtistCalendar(id.value, PerPage(limit))])
  }

  /** The location search after its first limiter slot and the blank check; `gate` is the second slot. */
  function LocationSearch(gate: Option<Error>, city: string, country: string, limit: int, find: Reply<seq<int>>,
                          calendar: Reply<seq<SongkickEvent>>, layouts: Layouts, clock: Timestamp): (Result<seq<Event>>, seq<Request>)
  {
    var q := LocationQuery(city, country);
    var id := Lookup(find, "failed to search location", "songkick location search");
    if gate.Some? then (Err(gate.value), [])
    else if id.Err? then (Err(id.error), [LocationLookup(q)])
    else if id.value == 0 then (Ok([]), [LocationLookup(q)])
    else (MetroCalendarOutcome(calendar, Converter(None, layouts, clock)),
          [LocationLookup(q), MetroCalendar(id.value, PerPage(limit))])
  }

  /** An unknown artist is an empty result, and no calendar is fetched for it. */
  lemma NoCalendarWithoutID(name: string, limit: int, find: Reply<seq<int>>, calendar: Reply<seq<SongkickEvent>>, layouts: Layouts, clock: Timestamp)
    requires find.Answered? && find.status == StatusOK && find.body.Ok? && (|find.body.value| == 0 || find.body.value[0] == 0)
    ensures ArtistSearch(None, name, limit, find, calendar, layouts, clock) == (Ok([]), [ArtistLookup(name)])
    ensures LocationSearch(None, name, "", limit, find, calendar, layouts, clock) == (Ok([]), [LocationLookup(name)])
  {
  }

  /** Every event an artist search returns is named after the searched artist and has a Songkick ID. */
  lemma ArtistSearchEvents(name: string, limit: int, find: Reply<seq<int>>, calendar: Reply<seq<SongkickEvent>>, layouts: Layouts, clock: Timestamp)
    ensures var (r, sent) := ArtistSearch(None, name, limit, find, calendar, layouts, clock);
      && (r.Ok? && |sent| == 2 ==> calendar.Answered? && calendar.body.Ok? && |r.value| == |calendar.body.value|)
      && (r.Ok? ==> forall e :: e in r.value ==> e.artistName == name && HasPrefix(e.id, "songkick_"))
      && (forall q :: q in sent ==> q.ArtistCalendar? ==> 1 <= q.perPage <= 50)
  {
  }

  /** The artist lookup and the calendar fetch of `SearchEventsByArtist`. */
  method ArtistEvents(name: string, limit: int, find: Reply<seq<int>>, calendar: Reply<seq<SongkickEvent>>,
                      layouts: Layouts, clock: Timestamp) returns (r: Result<seq<Event>>, sent: seq<Request>)
    ensures (r, sent) == ArtistSearch(None, name, limit, find, calendar, layouts, clock)
  {
    var id := Lookup(find, "failed to search artist", "songkick artist search");
    sent := [ArtistLookup(name)];
    if id.Err? {
      return Err(id.error), sent;
    }
    if id.value == 0 {
      return Ok([]), sent;
    }
    sent := [ArtistLookup(name), ArtistCalendar(id.value, PerPage(limit))];
    if calendar.Answered? && calendar.status == StatusTooManyRequests {
      return Err(RateLimitExceeded), sent;
    }
    var body := Expect(calendar, "failed to search events", "songkick search");
    if body.Err? {
      return Err(body.error), sent;
    }
    var events := MapAll(body.value, Converter(Some(name), layouts, clock));
    r := Ok(events);
  }

  /** The location lookup and the calendar fetch of `SearchEventsByLocation`. */
  method MetroEvents(city: string, country: string, limit: int, find: Reply<seq<int>>, calendar: Reply<seq<SongkickEvent>>,
                     layouts: Layouts, clock: Timestamp) returns (r: Result<seq<Event>>, sent: seq<Request>)
    ensures (r, sent) == LocationSearch(None, city, country, limit, find, calendar, layouts, clock)
  {
    var id := Lookup(find, "failed to search location", "songkick location search");
    sent := [LocationLookup(LocationQuery(city, country))];
    if id.Err? {
      return Err(id.error), sent;
    }
    if id.value == 0 {
      return Ok([]), sent;
    }
    sent := [LocationLookup(LocationQuery(city, country)), MetroCalendar(id.value, PerPage(limit))];
    var body := Expect(calendar, "failed to search events", "songkick location search");
    if body.Err? {
      return Err(body.error), sent;
    }
    var events := MapAll(body.value, Converter(None, layouts, clock));
    r := Ok(events);
  }

  class SongkickClient {
    const apiKey: string
    const limiter: SlidingWindowLimiter

    ghost predicate Valid()
      reads this, limiter
    {
      limiter.Valid() && limiter.limit == 1000 && limiter.windowSize == 24 * Hour
    }

    /** `NewSongkickClient`: an API key is required. */
    static method New(apiKey: string) returns (r: Result<SongkickClient>)
      ensures apiKey == "" <==> r.Err?
      ensures r.Err? ==> r.error == Failure("songkick API key is required")
      ensures r.Ok? ==> fresh(r.value) && fresh(r.value.limiter) && r.value.Valid() && r.value.limiter.requests == []
    {
      if apiKey == "" {
        return Err(Failure("songkick API key is required"));
      }
      var c := new SongkickClient.Init(apiKey);
      r := Ok(c);
    }

    constructor Init(apiKey: string)
      ensures this.apiKey == apiKey && fresh(limiter) && Valid() && limiter.requests == []
    {
      var l := NewEventRateLimiter(1000);
      this.apiKey := apiKey;
      limiter := l;
    }

    /** `SearchEventsByArtist`: one limiter slot for the search, one more for the artist lookup. */
    method SearchEventsByArtist(artistName: string, limit: int, clock: Timestamp, find: Reply<seq<int>>,
                                calendar: Reply<seq<SongkickEvent>>, layouts: Layouts)
      returns (r: Result<seq<Event>>, sent: seq<Request>)
      requires Valid()
      modifies limiter
      ensures Valid()
      ensures var (log1, gate1) := Step(old(limiter.requests), 1000, 24 * Hour, clock.instant);
        var (log2, gate2) := Step(log1, 1000, 24 * Hour, clock.instant);
        var name := TrimSpace(artistName);
        && (gate1.Some? ==> r == Err(RateLimitExceeded) && sent == [] && limiter.requests == log1)
        && (gate1.None? && name == "" ==> r == Err(InvalidRequest) && sent == [] && limiter.requests == log1)
        && (gate1.None? && name != "" ==>
              limiter.requests == log2 && (r, sent) == ArtistSearch(gate2, name, limit, find, calendar, layouts, clock))
    {
      var gate := limiter.Allow(clock.instant);
      if gate.Some? {
        return Err(gate.value), [];
      }
      var name := TrimSpace(artistName);
      if name == "" {
        return Err(InvalidRequest), [];
      }
      gate := limiter.Allow(clock.instant);
      if gate.Some? {
        return Err(gate.value), [];
      }
      r, sent := ArtistEvents(name, limit, find, calendar, layouts, clock);
    }

    /** `SearchEventsByLocation`: as the artist search, with each event named after its main performer. */
    method SearchEventsByLocation(city: string, country: string, limit: int, clock: Timestamp, find: Reply<seq<int>>,
                                  calendar: Reply<seq<SongkickEvent>>, layouts: Layouts)
      returns (r: Result<seq<Event>>, sent: seq<Request>)
      requires Valid()
      modifies limiter
      ensures Valid()
      ensures var (log1, gate1) := Step(old(limiter.requests), 1000, 24 * Hour, clock.instant);
        var (log2, gate2) := Step(log1, 1000, 24 * Hour, clock.instant);
        && (gate1.Some? ==> r == Err(RateLimitExceeded) && sent == [] && limiter.requests == log1)
        && (gate1.None? && TrimSpace(city) == "" ==> r == Err(InvalidRequest) && sent == [] && limiter.requests == log1)
        && (gate1.None? && TrimSpace(city) != "" ==>
              && limiter.requests == log2
              && (r, sent) == LocationSearch(gate2, TrimSpace(city), TrimSpace(country), limit, find, calendar, layouts, clock))
    {
      var gate := limiter.Allow(clock.instant);
      if gate.Some? {
        return Err(gate.value), [];
      }
      var c, k := TrimSpace(city), TrimSpace(country);
      if c == "" {
        return Err(InvalidRequest), [];
      }
      gate := limiter.Allow(clock.instant);
      if gate.Some? {
        return Err(gate.value), [];
      }
      r, sent := MetroEvents(c, k, limit, find, calendar, layouts, clock);
    }

    /** `GetEvent`: 404 is "event not found"; the event is named after its main performer. */
    method GetEvent(songkickID: string, clock: Timestamp, reply: Reply<SongkickEvent>, layouts: Layouts) returns (r: Result<Event>)
      requires Valid()
      modifies limiter
      ensures Valid()
      ensures var (log, gate) := Step(old(limiter.requests), 1000, 24 * Hour, clock.instant);
        && limiter.requests == log
        && (gate.Some? ==> r == Err(RateLimitExceeded))
        && (gate.None? && reply.Answered? && reply.status == StatusNotFound ==> r == Err(EventNotFound))
        && (gate.None? && !(reply.Answered? && reply.status == StatusNotFound) ==>
              r == match Expect(reply, "failed to get event", "songkick get event")
                   case Err(e) => Err(e)
                   case Ok(ev) => Ok(ToEvent(ev, MainPerformer(ev.performances), layouts, clock)))
    {
      var gate := limiter.Allow(clock.instant);
      if gate.Some? {
        return Err(gate.value);
      }
      if reply.Answered? && reply.status == StatusNotFound {
        return Err(EventNotFound);
      }
      var body := Expect(reply, "failed to get event", "songkick get event");
      if body.Err? {
        return Err(body.error);
      }
      var main := GetMainPerformer(body.value.performances);
      r := Ok(ToEvent(body.value, main, layouts, clock));
    }
  }

  /** `newEventRateLimiter(dailyLimit)`: the window is 24 hours for every client of the package. */
  method NewEventRateLimiter(dailyLimit: int) returns (r: SlidingWindowLimiter)
    ensures fresh(r) && r.Valid() && r.requests == [] && r.limit == dailyLimit && r.windowSize == 24 * Hour
  {
    r := new SlidingWindowLimiter(dailyLimit, 24 * Hour);
  }
}
