/**
 * The event service: events of an artist served from the cache while the
 * cached copies are fresh, otherwise fetched from Bandsintown and written
 * back to the cache; and a single event, refreshed from Bandsintown when its
 * cached copy has expired.
 *
 * The stores and the Bandsintown client are not modelled: each call's answer
 * is a parameter, and a missing client is `None`. The cache write the
 * service makes (delete the expired entries, then store a batch) is
 * returned as the batch stored; the service ignores its errors.
 */
module EventServices {
  import opened Wrappers
  import opened Text
  import opened Domain
  import opened Sequences

  function Response(events: seq<Event>): (r: EventSearchResponse)
    ensures r.events == events && r.total == |events|
  {
    EventSearchResponse(events, |events|)
  }

  /** The events a cache lookup gave: none when it failed. */
  function Cached(lookup: Result<seq<Event>>): seq<Event>
  {
    if lookup.Ok? then lookup.value else []
  }

  // ------------------------------------------------------------ filters

  /** A cached copy is fresh while its expiry lies strictly after `now`. */
  function Fresh(now: Instant): Event -> bool
  {
    (e: Event) => e.cachedUntil > now
  }

  /** `filterValidCache`: the fresh events, in order. */
  method FilterValidCache(events: seq<Event>, now: Instant) returns (valid: seq<Event>)
    ensures valid == Filter(events, Fresh(now))
    ensures forall e :: e in valid <==> e in events && e.cachedUntil > now
    ensures |valid| <= |events|
  {
    valid := [];
    for i := 0 to |events|
      invariant valid == Filter(events[..i], Fresh(now))
    {
      FilterStep(events, Fresh(now), i);
      if events[i].cachedUntil > now {
        valid := valid + [events[i]];
      }
    }
    assert events[..|events|] == events;
    FilterKeeps(events, Fresh(now));
  }

  /** The text a location is matched against: `"city, region, country"` in lower case. */
  function VenueLocation(e: Event): string
  {
    ToLower(e.venue.city + ", " + e.venue.region + ", " + e.venue.country)
  }

  function Near(location: string): Event -> bool
  {
    (e: Event) => Contains(VenueLocation(e), ToLower(location))
  }

  /** What `filterByLocation` keeps: everything for an empty location, else the events whose venue text contains it. */
  function ByLocation(events: seq<Event>, location: string): seq<Event>
  {
    if location == "" then events else Filter(events, Near(location))
  }

  /**
   * `filterByLocation`: a case-insensitive substring match of the location
   * against the venue's city, region and country. The radius is not used.
   */
  method FilterByLocation(events: seq<Event>, location: string, radius: int) returns (filtered: seq<Event>)
    ensures filtered == ByLocation(events, location)
    ensures location != "" ==> forall e :: e in filtered <==> e in events && Contains(VenueLocation(e), ToLower(location))
  {
    if location == "" {
      return events;
    }
    var locationLower := ToLower(location);
    filtered := [];
    for i := 0 to |events|
      invariant filtered == Filter(events[..i], Near(location))
    {
      FilterStep(events, Near(location), i);
      if Contains(VenueLocation(events[i]), locationLower) {
        filtered := filtered + [events[i]];
      }
    }
    assert events[..|events|] == events;
    FilterKeeps(events, Near(location));
  }

  /** The venue's own city, in any case, always matches, and the match ignores the location's case. */
  lemma CityMatches(e: Event, location: string)
    ensures ToLower(location) == ToLower(e.venue.city) ==> Near(location)(e)
    ensures Near(location)(e) == Near(ToLower(location))(e)
  {
    ToLowerIdempotent(location);
    var city := e.venue.city;
    var whole := city + ", " + e.venue.region + ", " + e.venue.country;
    assert ToLower(whole)[..|city|] == ToLower(city);
    assert OccursAt(ToLower(whole), ToLower(city), 0);
    ContainsWitness(ToLower(whole), ToLower(city), 0);
  }

  // ----------------------------------------------------- events of an artist

  /**
   * `SearchArtistEvents`. `cached` is the cache lookup for the trimmed name,
   * `client` Bandsintown's answer for it. `batch` is what the service
   * stores in the cache, if anything.
   */
  method SearchArtistEvents(artistName: string, location: string, radius: int, now: Instant,
                            cached: Result<seq<Event>>, client: Option<Result<seq<Event>>>)
    returns (r: Result<EventSearchResponse>, batch: Option<seq<Event>>)
    ensures artistName == "" ==> r == Err(InvalidRequest) && batch.None?
    ensures artistName != "" && |Filter(Cached(cached), Fresh(now))| > 0 ==>
      r == Ok(Response(ByLocation(Filter(Cached(cached), Fresh(now)), location))) && batch.None?
    ensures artistName != "" && |Filter(Cached(cached), Fresh(now))| == 0 ==>
      match client
      case None => r == Ok(Response([])) && batch.None?
      case Some(Err(e)) =>
        batch.None? &&
        r == (if e == RateLimitExceeded then Err(RateLimitExceeded)
              else if |Cached(cached)| > 0 then Ok(Response(Cached(cached)))
              else Err(ExternalAPIFailure))
      case Some(Ok(xs)) => r == Ok(Response(xs)) && batch == (if |xs| > 0 then Some(xs) else None)
  {
    batch := None;
    if artistName == "" {
      return Err(InvalidRequest), None;
    }
    var cachedEvents := Cached(cached);
    if |cachedEvents| > 0 {
      var validEvents := FilterValidCache(cachedEvents, now);
      if |validEvents| > 0 {
        var filtered := FilterByLocation(validEvents, location, radius);
        return Ok(Response(filtered)), None;
      }
    }
    if client.None? {
      return Ok(Response([])), None;
    }
    match client.value
    case Err(e) =>
      if e == RateLimitExceeded {
        return Err(e), None;
      }
      if |cachedEvents| > 0 {
        return Ok(Response(cachedEvents)), None;
      }
      return Err(ExternalAPIFailure), None;
    case Ok(externalEvents) =>
      if |externalEvents| > 0 {
        batch := Some(externalEvents);
      }
      r := Ok(Response(externalEvents));
  }

  /** Whatever the cache serves for an artist is fresh, cached and near the location. */
  lemma ServedFromCache(cachedEvents: seq<Event>, now: Instant, location: string)
    ensures forall e :: e in ByLocation(Filter(cachedEvents, Fresh(now)), location) ==>
      e in cachedEvents && e.cachedUntil > now
  {
    var valid := Filter(cachedEvents, Fresh(now));
    FilterKeeps(cachedEvents, Fresh(now));
    if location != "" {
      FilterKeeps(valid, Near(location));
    }
  }

  function WithArtist(artistID: string): Event -> Event
  {
    (e: Event) => e.(artistID := artistID)
  }

  /** The loop of `GetArtistEvents` that writes the artist's ID into every fetched event, in place. */
  method AssignArtist(events: seq<Event>, artistID: string) returns (r: seq<Event>)
    ensures r == Map(events, WithArtist(artistID))
  {
    r := events;
    for i := 0 to |r|
      invariant |r| == |events|
      invariant forall j :: 0 <= j < i ==> r[j] == events[j].(artistID := artistID)
      invariant forall j :: i <= j < |r| ==> r[j] == events[j]
    {
      r := r[i := r[i].(artistID := artistID)];
    }
  }

  /**
   * `GetArtistEvents`. `cached` is the cache lookup for the ID, `artist`
   * the artist store's answer, `client` Bandsintown's answer for the
   * artist's name.
   */
  method GetArtistEvents(artistID: string, now: Instant, cached: Result<seq<Event>>, artist: Result<Artist>,
                         client: Option<Result<seq<Event>>>)
    returns (r: Result<EventSearchResponse>, batch: Option<seq<Event>>)
    ensures artistID == "" ==> r == Err(InvalidRequest) && batch.None?
    ensures artistID != "" && |Filter(Cached(cached), Fresh(now))| > 0 ==>
      r == Ok(Response(Filter(Cached(cached), Fresh(now)))) && batch.None?
    ensures artistID != "" && |Filter(Cached(cached), Fresh(now))| == 0 && artist.Err? ==>
      r == Err(artist.error) && batch.None?
    ensures artistID != "" && |Filter(Cached(cached), Fresh(now))| == 0 && artist.Ok? ==>
      match client
      case None => r == Ok(Response([])) && batch.None?
      case Some(Err(e)) =>
        batch.None? &&
        r == (if e == RateLimitExceeded then Err(RateLimitExceeded)
              else if |Cached(cached)| > 0 then Ok(Response(Cached(cached)))
              else Err(ExternalAPIFailure))
      case Some(Ok(xs)) =>
        var ys := Map(xs, WithArtist(artistID));
        r == Ok(Response(ys)) && batch == (if |xs| > 0 then Some(ys) else None)
  {
    batch := None;
    if artistID == "" {
      return Err(InvalidRequest), None;
    }
    var cachedEvents := Cached(cached);
    if |cachedEvents| > 0 {
      var validEvents := FilterValidCache(cachedEvents, now);
      if |validEvents| > 0 {
        return Ok(Response(validEvents)), None;
      }
    }
    if artist.Err? {
      return Err(artist.error), None;
    }
    if client.None? {
      return Ok(Response([])), None;
    }
    match client.value
    case Err(e) =>
      if e == RateLimitExceeded {
        return Err(e), None;
      }
      if |cachedEvents| > 0 {
        return Ok(Response(cachedEvents)), None;
      }
      return Err(ExternalAPIFailure), None;
    case Ok(externalEvents) =>
      var events := AssignArtist(externalEvents, artistID);
      if |events| > 0 {
        batch := Some(events);
      }
      r := Ok(Response(events));
  }

  // ------------------------------------------------------------ one event

  const BandsintownPrefix: string := "bandsintown_"

  /** A fetched event as the refreshed copy of `stored`: it takes the stored ID and artist ID. */
  function Candidate(e: Event, stored: Event): Event
  {
    e.(id := stored.id, artistID := stored.artistID)
  }

  /** A fetched event carries the Bandsintown ID the stored event's ID was made from. */
  predicate Matches(e: Event, stored: Event)
  {
    e.externalIDs.bandsintownID == TrimPrefix(stored.id, BandsintownPrefix)
  }

  /** The refresh loop: the first fetched event with the stored event's Bandsintown ID whose store update succeeds. */
  function Refreshed(fetched: seq<Event>, stored: Event, update: Event -> Option<Error>): Option<Event>
    decreases |fetched|
  {
    if |fetched| == 0 then None
    else if Matches(fetched[0], stored) && update(Candidate(fetched[0], stored)).None?
    then Some(Candidate(fetched[0], stored))
    else Refreshed(fetched[1..], stored, update)
  }

  /**
   * A refreshed copy keeps the stored IDs, matches the Bandsintown ID and
   * was written to the store; there is none exactly when no matching event
   * could be written.
   */
  lemma {:induction false} RefreshedMeans(fetched: seq<Event>, stored: Event, update: Event -> Option<Error>)
    ensures var r := Refreshed(fetched, stored, update);
      && (r.Some? ==> r.value.id == stored.id && r.value.artistID == stored.artistID
                      && Matches(r.value, stored)
                      && update(r.value).None?
                      && exists i :: 0 <= i < |fetched| && r.value == Candidate(fetched[i], stored))
      && (r.None? <==> forall i :: 0 <= i < |fetched| ==> Matches(fetched[i], stored) ==> update(Candidate(fetched[i], stored)).Some?)
    decreases |fetched|
  {
    if |fetched| != 0 {
      var rest := fetched[1..];
      RefreshedMeans(rest, stored, update);
      var r := Refreshed(fetched, stored, update);
      if r.Some? && r == Refreshed(rest, stored, update) {
        var i :| 0 <= i < |rest| && r.value == Candidate(rest[i], stored);
        assert r.value == Candidate(fetched[i + 1], stored);
      }
      if r == Refreshed(rest, stored, update) {
        forall i | 1 <= i < |fetched|
          ensures fetched[i] == rest[i - 1]
        {
        }
      }
    }
  }

  /** Whether `GetEvent` tries a refresh: the copy expired, it came from Bandsintown, and there is a client. */
  predicate WantsRefresh(stored: Event, now: Instant, client: Option<Result<seq<Event>>>)
  {
    stored.cachedUntil < now && HasPrefix(stored.id, BandsintownPrefix) && client.Some?
  }

  /**
   * `GetEvent`. `stored` is the store's answer for the ID, `client`
   * Bandsintown's answer for the stored event's artist name, `update` the
   * store's answer to updating an event.
   */
  method GetEvent(id: string, now: Instant, stored: Result<Event>, client: Option<Result<seq<Event>>>,
                  update: Event -> Option<Error>) returns (r: Result<Event>)
    ensures id == "" ==> r == Err(InvalidRequest)
    ensures id != "" && stored.Err? ==> r == Err(stored.error)
    ensures id != "" && stored.Ok? && !(WantsRefresh(stored.value, now, client) && client.value.Ok?) ==> r == stored
    ensures id != "" && stored.Ok? && WantsRefresh(stored.value, now, client) && client.value.Ok? ==>
      var renewed := Refreshed(client.value.value, stored.value, update);
      r == if renewed.Some? then Ok(renewed.value) else stored
  {
    if id == "" {
      return Err(InvalidRequest);
    }
    if stored.Err? {
      return Err(stored.error);
    }
    var event := stored.value;
    if event.cachedUntil < now {
      if HasPrefix(event.id, BandsintownPrefix) && client.Some? {
        var externalID := TrimPrefix(event.id, BandsintownPrefix);
        if client.value.Ok? {
          var updatedEvents := client.value.value;
          for i := 0 to |updatedEvents|
            invariant Refreshed(updatedEvents, event, update) == Refreshed(updatedEvents[i..], event, update)
          {
            var e := updatedEvents[i];
            assert updatedEvents[i..][1..] == updatedEvents[i + 1..];
            if e.externalIDs.bandsintownID == externalID {
              e := e.(id := event.id, artistID := event.artistID);
              if update(e).None? {
                return Ok(e);
              }
            }
          }
        }
      }
    }
    r := Ok(event);
  }
}
