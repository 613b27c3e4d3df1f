/**
 * The Eventbrite client: query and location searches in the music
 * category and a single-event lookup. Converting an event with a venue ID
 * fetches that venue, and the venue request takes a slot of the same
 * 24-hour sliding-window limiter (1000 requests) as the search itself.
 */
module Eventbrite {
  import opened Wrappers
  import opened Text
  import opened Domain
  import opened Remote
  import opened Sequences
  import opened SlidingWindow
  import Songkick

  datatype EventbriteDateTime = EventbriteDateTime(utc: string, local: string)

  /** An event as decoded: its ID, `name.text`, start time and venue ID. */
  datatype EventbriteEvent = EventbriteEvent(id: string, name: string, start: EventbriteDateTime, venueID: string)

  /** A venue as decoded: its name and the city and country of its address. */
  datatype EventbriteVenue = EventbriteVenue(name: string, city: string, country: string)

  /** The layouts `parseEventDateTime` tries: `Z`-suffixed UTC, then local wall time. */
  datatype Layouts = Layouts(utc: Parser, local: Parser)

  /** The requests the client sends. */
  datatype Request =
    | QuerySearch(q: string, pageSize: int)
    | LocationSearch(address: string, pageSize: int)
    | EventLookup(eventbriteID: string)
    | VenueLookup(venueID: string)

  function VenueRequest(venueID: string): Request { VenueLookup(venueID) }

  const Limit := 1000
  const Window := 24 * Hour

  const UnknownArtist := "Unknown Artist"
  const UnknownVenue := Venue("", "Unknown Venue", "Unknown City", "", "Unknown Country")

  // ------------------------------------------------------------ dates and venues

  /** `parseEventDateTime`: the UTC time, else the local time, else the current time. */
  function ParseEventDateTime(start: EventbriteDateTime, layouts: Layouts, clock: Timestamp): (t: Timestamp)
    ensures start.utc != "" && layouts.utc(start.utc).Some? ==> t == layouts.utc(start.utc).value
    ensures (start.utc == "" || layouts.utc(start.utc).None?) && start.local != "" && layouts.local(start.local).Some? ==>
              t == layouts.local(start.local).value
    ensures (start.utc == "" || layouts.utc(start.utc).None?) && (start.local == "" || layouts.local(start.local).None?) ==>
              t == clock
  {
    if start.utc != "" && layouts.utc(start.utc).Some? then layouts.utc(start.utc).value
    else if start.local != "" && layouts.local(start.local).Some? then layouts.local(start.local).value
    else clock
  }

  /** `getVenue`'s reading of the venue reply. */
  function VenueOutcome(reply: Reply<EventbriteVenue>): (r: Result<EventbriteVenue>)
    ensures r.Ok? <==> reply.Answered? && reply.status == StatusOK && reply.body.Ok?
    ensures r.Ok? ==> r.value == reply.body.value
    ensures r.Err? ==> r.error.Failure?
    ensures reply.Answered? && reply.status == StatusOK && reply.body.Err? ==>
              r == Err(Wrap("failed to decode venue response", reply.body.error))
  {
    match reply
    case NoReply(e) => Err(Wrap("failed to get venue", e))
    case Answered(code, body) =>
      if code != StatusOK then Err(StatusError("eventbrite get venue", code))
      else if body.Err? then Err(Wrap("failed to decode venue response", body.error))
      else Ok(body.value)
  }

  /** The event `convertToEvent` builds from the venue it could fetch, if any. */
  function ToEvent(e: EventbriteEvent, venue: Option<EventbriteVenue>, layouts: Layouts, clock: Timestamp): Event
  {
    var artist := if e.name == "" then UnknownArtist else e.name;
    Event(
      "eventbrite_" + e.id, "eventbrite_artist_" + Slug(artist), artist, "",
      ParseEventDateTime(e.start, layouts, clock),
      if venue.Some? then Venue("", venue.value.name, venue.value.city, "", venue.value.country) else UnknownVenue,
      "", "", None, NoEventExternalIDs, ZeroInstant, ZeroInstant, clock.instant + 24 * Hour)
  }

  /** What an event says whatever its venue: the IDs, the artist name and its fallback, the cache time. */
  lemma ToEventFields(e: EventbriteEvent, f: EventbriteEvent, v: Option<EventbriteVenue>, w: Option<EventbriteVenue>,
                      layouts: Layouts, clock: Timestamp)
    ensures var ev := ToEvent(e, v, layouts, clock);
      && (e.id != f.id ==> ev.id != ToEvent(f, w, layouts, clock).id)
      && ev.artistName == (if e.name == "" then UnknownArtist else e.name) && ev.artistName != ""
      && ' ' !in ev.artistID
      && (v.None? ==> ev.venue == UnknownVenue)
      && ev.cachedUntil == clock.instant + 24 * Hour
  {
    var p := "eventbrite_";
    if e.id != f.id {
      assert (p + e.id)[|p|..] == e.id;
      assert (p + f.id)[|p|..] == f.id;
    }
    SlugHasNoSpace(ToEvent(e, v, layouts, clock).artistName);
  }

  // ------------------------------------------------------------ conversion with venue lookups

  /**
   * One `Allow` on the limiter log: the new log and the refusal, if any.
   * The client's is `Allowing(now)`; the lemmas below hold for any.
   */
  type Admission = seq<Instant> -> (seq<Instant>, Option<Error>)

  function Allowing(now: Instant): Admission
  {
    (log: seq<Instant>) => Step(log, Limit, Window, now)
  }

  /** What the venue step of one conversion leaves behind: the limiter log, the venue found, the venue ID requested. */
  datatype Lookup = Lookup(log: seq<Instant>, found: Option<EventbriteVenue>, lookups: seq<string>)

  /**
   * The venue step of `convertToEvent` with the limiter log `log`: an event
   * with a venue ID takes a limiter slot; the venue is used only when the
   * slot was granted and the lookup succeeded, and a failed lookup leaves
   * the placeholders.
   */
  function VenueStep(log: seq<Instant>, venueID: string, venues: string -> Reply<EventbriteVenue>, admit: Admission): (o: Lookup)
    ensures o.lookups == [] || o.lookups == [venueID]
    ensures o.log == (if venueID == "" then log else admit(log).0)
    ensures venueID == "" ==> o.lookups == [] && o.found.None?
  {
    if venueID == "" then Lookup(log, None, [])
    else
      var (log', gate) := admit(log);
      var found := if gate.None? && VenueOutcome(venues(venueID)).Ok? then Some(VenueOutcome(venues(venueID)).value) else None;
      Lookup(log', found, if gate.None? then [venueID] else [])
  }

  /** The venue steps of a search's conversion loop, one event after another. */
  datatype Lookups = Lookups(log: seq<Instant>, found: seq<Option<EventbriteVenue>>, lookups: seq<string>)

  function LookupAll(log: seq<Instant>, data: seq<EventbriteEvent>, venues: string -> Reply<EventbriteVenue>, admit: Admission)
    : (p: Lookups)
    ensures |p.found| == |data|
    decreases |data|
  {
    if |data| == 0 then Lookups(log, [], [])
    else
      var p := LookupAll(log, data[..|data| - 1], venues, admit);
      var o := VenueStep(p.log, data[|data| - 1].venueID, venues, admit);
      Lookups(o.log, p.found + [o.found], p.lookups + o.lookups)
  }

  /** The conversion of a record with the venue found for it. */
  function Converter(layouts: Layouts, clock: Timestamp): (EventbriteEvent, Option<EventbriteVenue>) -> Event
  {
    (e: EventbriteEvent, v: Option<EventbriteVenue>) => ToEvent(e, v, layouts, clock)
  }

  /** `n` admissions in a row. */
  function Steps(log: seq<Instant>, n: nat, admit: Admission): seq<Instant>
  {
    if n == 0 then log else admit(Steps(log, n - 1, admit)).0
  }

  /** The number of events that carry a venue ID. */
  function WithVenue(data: seq<EventbriteEvent>): nat
  {
    if |data| == 0 then 0 else WithVenue(data[..|data| - 1]) + (if data[|data| - 1].venueID != "" then 1 else 0)
  }

  /** A record without a venue ID keeps the placeholder venue. */
  lemma {:induction false} NoVenueIDNoVenue(log: seq<Instant>, data: seq<EventbriteEvent>, venues: string -> Reply<EventbriteVenue>, admit: Admission)
    ensures forall k :: 0 <= k < |data| && data[k].venueID == "" ==> LookupAll(log, data, venues, admit).found[k].None?
    decreases |data|
  {
    if |data| != 0 {
      var n := |data| - 1;
      NoVenueIDNoVenue(log, data[..n], venues, admit);
      var q := LookupAll(log, data[..n], venues, admit);
      var o := VenueStep(q.log, data[n].venueID, venues, admit);
      assert LookupAll(log, data, venues, admit).found == q.found + [o.found];
    }
  }

  lemma StepsNext(log: seq<Instant>, before: seq<Instant>, after: seq<Instant>, w: nat, admits: bool, admit: Admission)
    requires before == Steps(log, w, admit)
    requires after == if admits then admit(before).0 else before
    ensures after == Steps(log, w + if admits then 1 else 0, admit)
  {
  }

  /** Each record with a venue ID costs exactly one limiter slot. */
  lemma {:induction false} LookupAllSlots(log: seq<Instant>, data: seq<EventbriteEvent>, venues: string -> Reply<EventbriteVenue>, admit: Admission)
    ensures LookupAll(log, data, venues, admit).log == Steps(log, WithVenue(data), admit)
    decreases |data|
  {
    if |data| != 0 {
      var n := |data| - 1;
      var init := data[..n];
      LookupAllSlots(log, init, venues, admit);
      var q := LookupAll(log, init, venues, admit);
      var o := VenueStep(q.log, data[n].venueID, venues, admit);
      StepsNext(log, q.log, o.log, WithVenue(init), data[n].venueID != "", admit);
    }
  }

  /** At most one venue is requested per record that has a venue ID. */
  lemma {:induction false} LookupAllRequests(log: seq<Instant>, data: seq<EventbriteEvent>, venues: string -> Reply<EventbriteVenue>, admit: Admission)
    ensures |LookupAll(log, data, venues, admit).lookups| <= WithVenue(data)
    decreases |data|
  {
    if |data| != 0 {
      LookupAllRequests(log, data[..|data| - 1], venues, admit);
    }
  }

  /** A search whose events carry no venue ID takes no slot beyond its own and requests no venue. */
  lemma {:induction false} NoVenueNoSlot(log: seq<Instant>, data: seq<EventbriteEvent>, venues: string -> Reply<EventbriteVenue>, admit: Admission)
    requires forall k :: 0 <= k < |data| ==> data[k].venueID == ""
    ensures LookupAll(log, data, venues, admit).log == log
    ensures LookupAll(log, data, venues, admit).lookups == []
    decreases |data|
  {
    if |data| != 0 {
      NoVenueNoSlot(log, data[..|data| - 1], venues, admit);
    }
  }

  /** What a converted event keeps of its record, whichever venue it got. */
  predicate Converts(ev: Event, e: EventbriteEvent, layouts: Layouts, clock: Timestamp)
  {
    && ev.id == "eventbrite_" + e.id
    && ev.artistName == (if e.name == "" then UnknownArtist else e.name)
    && ev.artistID == "eventbrite_artist_" + Slug(ev.artistName)
    && ev.dateTime == ParseEventDateTime(e.start, layouts, clock)
    && ev.cachedUntil == clock.instant + 24 * Hour
    && (e.venueID == "" ==> ev.venue == UnknownVenue)
  }

  /** The events of a search: none is skipped, and the k-th converts the k-th record. */
  function SearchEvents(log: seq<Instant>, data: seq<EventbriteEvent>, venues: string -> Reply<EventbriteVenue>,
                        layouts: Layouts, clock: Timestamp): seq<Event>
  {
    MapWith(data, LookupAll(log, data, venues, Allowing(clock.instant)).found, Converter(layouts, clock))
  }

  lemma SearchEventsConvert(log: seq<Instant>, data: seq<EventbriteEvent>, venues: string -> Reply<EventbriteVenue>,
                            layouts: Layouts, clock: Timestamp)
    ensures var events := SearchEvents(log, data, venues, layouts, clock);
      |events| == |data| && forall k :: 0 <= k < |data| ==> Converts(events[k], data[k], layouts, clock)
  {
    var found := LookupAll(log, data, venues, Allowing(clock.instant)).found;
    MapWithMeans(data, found, Converter(layouts, clock));
    NoVenueIDNoVenue(log, data, venues, Allowing(clock.instant));
  }

  // ------------------------------------------------------------ limits and replies

  /** The page size: 10 when unset, at most 50. */
  function PageSize(limit: int): (l: int)
    ensures 1 <= l <= 50
    ensures 1 <= limit <= 50 ==> l == limit
    ensures limit <= 0 ==> l == 10
    ensures limit > 50 ==> l == 50
  {
    if limit <= 0 then 10 else if limit > 50 then 50 else limit
  }

  /**
   * The decoded events of a search reply. The query search maps 429 to the
   * rate-limit sentinel and 401 to an invalid-token error; the location
   * search reports both as status errors.
   */
  function SearchReply(reply: Reply<seq<EventbriteEvent>>, byQuery: bool): (r: Result<seq<EventbriteEvent>>)
    ensures byQuery && reply.Answered? && reply.status == StatusTooManyRequests ==> r == Err(RateLimitExceeded)
    ensures byQuery && reply.Answered? && reply.status == StatusUnauthorized ==> r == Err(Failure("eventbrite unauthorized: invalid token"))
    ensures !byQuery && reply.Answered? && reply.status != StatusOK ==> r == Err(StatusError("eventbrite location search", reply.status))
    ensures r.Ok? <==> reply.Answered? && reply.status == StatusOK && reply.body.Ok?
  {
    if byQuery && reply.Answered? && reply.status == StatusTooManyRequests then Err(RateLimitExceeded)
    else if byQuery && reply.Answered? && reply.status == StatusUnauthorized then Err(Failure("eventbrite unauthorized: invalid token"))
    else Expect(reply, "failed to search events", if byQuery then "eventbrite search" else "eventbrite location search")
  }

  /** The decoded event of a lookup: 404 is "event not found". */
  function EventReply(reply: Reply<EventbriteEvent>): (r: Result<EventbriteEvent>)
    ensures reply.Answered? && reply.status == StatusNotFound ==> r == Err(EventNotFound)
    ensures r.Ok? <==> reply.Answered? && reply.status == StatusOK && reply.body.Ok?
  {
    if reply.Answered? && reply.status == StatusNotFound then Err(EventNotFound)
    else Expect(reply, "failed to get event", "eventbrite get event")
  }

  class EventbriteClient {
    const token: string
    const limiter: SlidingWindowLimiter

    ghost predicate Valid()
      reads this, limiter
    {
      limiter.Valid() && limiter.limit == Limit && limiter.windowSize == Window
    }

    /** `NewEventbriteClient`: a token is required. */
    static method New(token: string) returns (r: Result<EventbriteClient>)
      ensures token == "" <==> r.Err?
      ensures r.Err? ==> r.error == Failure("eventbrite token is required")
      ensures r.Ok? ==> fresh(r.value) && fresh(r.value.limiter) && r.value.Valid() && r.value.limiter.requests == []
    {
      if token == "" {
        return Err(Failure("eventbrite token is required"));
      }
      var c := new EventbriteClient.Init(token);
      r := Ok(c);
    }

    constructor Init(token: string)
      ensures this.token == token && fresh(limiter) && Valid() && limiter.requests == []
    {
      var l := Songkick.NewEventRateLimiter(Limit);
      this.token := token;
      limiter := l;
    }

    /** `getVenue`: a limiter slot, then the venue request. */
    method GetVenue(venueID: string, now: Instant, reply: Reply<EventbriteVenue>) returns (r: Result<EventbriteVenue>)
      requires Valid()
      modifies limiter
      ensures Valid()
      ensures var (log, gate) := Step(old(limiter.requests), Limit, Window, now);
        limiter.requests == log && r == (if gate.Some? then Err(RateLimitExceeded) else VenueOutcome(reply))
    {
      var gate := limiter.Allow(now);
      if gate.Some? {
        return Err(gate.value);
      }
      match reply
      case NoReply(e) => r := Err(Wrap("failed to get venue", e));
      case Answered(code, body) =>
        if code != StatusOK {
          r := Err(StatusError("eventbrite get venue", code));
        } else if body.Err? {
          r := Err(Wrap("failed to decode venue response", body.error));
        } else {
          r := Ok(body.value);
        }
    }

    /** `convertToEvent`: it never fails; a venue that cannot be fetched leaves the placeholders. */
    method ConvertToEvent(e: EventbriteEvent, clock: Timestamp, venues: string -> Reply<EventbriteVenue>, layouts: Layouts)
      returns (ev: Event, lookup: Option<Request>)
      requires Valid()
      modifies limiter
      ensures Valid()
      ensures var o := VenueStep(old(limiter.requests), e.venueID, venues, Allowing(clock.instant));
        && limiter.requests == o.log && ev == ToEvent(e, o.found, layouts, clock)
        && lookup == (if o.lookups == [] then None else Some(VenueLookup(e.venueID)))
    {
      var eventTime := ParseEventDateTime(e.start, layouts, clock);
      var artistName := e.name;
      if artistName == "" {
        artistName := UnknownArtist;
      }
      var venue := UnknownVenue;
      lookup := None;
      if e.venueID != "" {
        var found := GetVenue(e.venueID, clock.instant, venues(e.venueID));
        // a venue reply is never read as the limiter's sentinel, so this is the refused slot
        if found != Err(RateLimitExceeded) {
          lookup := Some(VenueLookup(e.venueID));
        }
        if found.Ok? {
          venue := venue.(name := found.value.name);
          venue := venue.(city := found.value.city);
          venue := venue.(country := found.value.country);
        }
      }
      ev := Event(
        "eventbrite_" + e.id, "eventbrite_artist_" + Slug(artistName), artistName, "",
        eventTime, venue, "", "", None, NoEventExternalIDs, ZeroInstant, ZeroInstant, clock.instant + 24 * Hour);
    }

    /** The loop of both searches: every record is converted, in order. */
    method ConvertEvents(data: seq<EventbriteEvent>, clock: Timestamp, venues: string -> Reply<EventbriteVenue>, layouts: Layouts)
      returns (events: seq<Event>, lookups: seq<Request>)
      requires Valid()
      modifies limiter
      ensures Valid()
      ensures var p := LookupAll(old(limiter.requests), data, venues, Allowing(clock.instant));
        && limiter.requests == p.log && events == SearchEvents(old(limiter.requests), data, venues, layouts, clock)
        && lookups == Map(p.lookups, VenueRequest)
    {
      ghost var start := limiter.requests;
      ghost var ids: seq<string> := [];
      ghost var found: seq<Option<EventbriteVenue>> := [];
      events, lookups := [], [];
      for i := 0 to |data|
        invariant Valid()
        invariant LookupAll(start, data[..i], venues, Allowing(clock.instant)) == Lookups(limiter.requests, found, ids)
        invariant |found| == i && events == MapWith(data[..i], found, Converter(layouts, clock))
        invariant lookups == Map(ids, VenueRequest)
      {
        ghost var o := VenueStep(limiter.requests, data[i].venueID, venues, Allowing(clock.instant));
        var ev, lookup := ConvertToEvent(data[i], clock, venues, layouts);
        TakeNext(data, i);
        MapWithExtend(data[..i], found, Converter(layouts, clock), data[i], o.found);
        if lookup.Some? {
          MapExtend(ids, VenueRequest, lookups, data[i].venueID, lookup.value);
          lookups := lookups + [lookup.value];
        }
        ids := ids + o.lookups;
        found := found + [o.found];
        events := events + [ev];
      }
      TakeAll(data);
    }

    /** The common tail of both searches, after the limiter and the argument check. */
    method Finish(searched: Result<seq<EventbriteEvent>>, clock: Timestamp, venues: string -> Reply<EventbriteVenue>, layouts: Layouts)
      returns (r: Result<seq<Event>>, lookups: seq<Request>)
      requires Valid()
      modifies limiter
      ensures Valid()
      ensures searched.Err? ==> r == Err(searched.error) && lookups == [] && limiter.requests == old(limiter.requests)
      ensures searched.Ok? ==>
        var p := LookupAll(old(limiter.requests), searched.value, venues, Allowing(clock.instant));
        && limiter.requests == p.log && r == Ok(SearchEvents(old(limiter.requests), searched.value, venues, layouts, clock))
        && lookups == Map(p.lookups, VenueRequest)
    {
      if searched.Err? {
        return Err(searched.error), [];
      }
      var events;
      events, lookups := ConvertEvents(searched.value, clock, venues, layouts);
      r := Ok(events);
    }

    /** `SearchEventsByQuery`. */
    method SearchEventsByQuery(query: string, limit: int, clock: Timestamp, reply: Reply<seq<EventbriteEvent>>,
                               venues: string -> Reply<EventbriteVenue>, layouts: Layouts)
      returns (r: Result<seq<Event>>, sent: seq<Request>)
      requires Valid()
      modifies limiter
      ensures Valid()
      ensures var (log1, gate) := Step(old(limiter.requests), Limit, Window, clock.instant);
        var q := TrimSpace(query);
        if gate.Some? then r == Err(RateLimitExceeded) && sent == [] && limiter.requests == log1
        else if q == "" then r == Err(InvalidRequest) && sent == [] && limiter.requests == log1
        else
          var searched := SearchReply(reply, true);
          if searched.Err? then r == Err(searched.error) && sent == [QuerySearch(q, PageSize(limit))] && limiter.requests == log1
          else
            var p := LookupAll(log1, searched.value, venues, Allowing(clock.instant));
            && r == Ok(SearchEvents(log1, searched.value, venues, layouts, clock))
            && sent == [QuerySearch(q, PageSize(limit))] + Map(p.lookups, VenueRequest) && limiter.requests == p.log
    {
      var gate := limiter.Allow(clock.instant);
      if gate.Some? {
        return Err(gate.value), [];
      }
      var q := TrimSpace(query);
      if q == "" {
        return Err(InvalidRequest), [];
      }
      var lookups;
      r, lookups := Finish(SearchReply(reply, true), clock, venues, layouts);
      sent := [QuerySearch(q, PageSize(limit))] + lookups;
    }

    /** `SearchEventsByLocation`. */
    method SearchEventsByLocation(location: string, limit: int, clock: Timestamp, reply: Reply<seq<EventbriteEvent>>,
                                  venues: string -> Reply<EventbriteVenue>, layouts: Layouts)
      returns (r: Result<seq<Event>>, sent: seq<Request>)
      requires Valid()
      modifies limiter
      ensures Valid()
      ensures var (log1, gate) := Step(old(limiter.requests), Limit, Window, clock.instant);
        var a := TrimSpace(location);
        if gate.Some? then r == Err(RateLimitExceeded) && sent == [] && limiter.requests == log1
        else if a == "" then r == Err(InvalidRequest) && sent == [] && limiter.requests == log1
        else
          var searched := SearchReply(reply, false);
          if searched.Err? then r == Err(searched.error) && sent == [LocationSearch(a, PageSize(limit))] && limiter.requests == log1
          else
            var p := LookupAll(log1, searched.value, venues, Allowing(clock.instant));
            && r == Ok(SearchEvents(log1, searched.value, venues, layouts, clock))
            && sent == [LocationSearch(a, PageSize(limit))] + Map(p.lookups, VenueRequest) && limiter.requests == p.log
    {
      var gate := limiter.Allow(clock.instant);
      if gate.Some? {
        return Err(gate.value), [];
      }
      var a := TrimSpace(location);
      if a == "" {
        return Err(InvalidRequest), [];
      }
      var lookups;
      r, lookups := Finish(SearchReply(reply, false), clock, venues, layouts);
      sent := [LocationSearch(a, PageSize(limit))] + lookups;
    }

    /** `GetEvent`: the lookup, then the conversion with its venue request. */
    method GetEvent(eventbriteID: string, clock: Timestamp, reply: Reply<EventbriteEvent>,
                    venues: string -> Reply<EventbriteVenue>, layouts: Layouts)
      returns (r: Result<Event>, sent: seq<Request>)
      requires Valid()
      modifies limiter
      ensures Valid()
      ensures var (log1, gate) := Step(old(limiter.requests), Limit, Window, clock.instant);
        if gate.Some? then r == Err(RateLimitExceeded) && sent == [] && limiter.requests == log1
        else if EventReply(reply).Err? then r == Err(EventReply(reply).error) && sent == [EventLookup(eventbriteID)] && limiter.requests == log1
        else
          var e := EventReply(reply).value;
          var o := VenueStep(log1, e.venueID, venues, Allowing(clock.instant));
          && limiter.requests == o.log && r == Ok(ToEvent(e, o.found, layouts, clock))
          && sent == [EventLookup(eventbriteID)] + Map(o.lookups, VenueRequest)
    {
      var gate := limiter.Allow(clock.instant);
      if gate.Some? {
        return Err(gate.value), [];
      }
      sent := [EventLookup(eventbriteID)];
      var body := EventReply(reply);
      if body.Err? {
        return Err(body.error), sent;
      }
      var ev, lookup := ConvertToEvent(body.value, clock, venues, layouts);
      if lookup.Some? {
        sent := sent + [lookup.value];
      }
      r := Ok(ev);
    }
  }
}
