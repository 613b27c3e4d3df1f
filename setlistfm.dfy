/**
 * The setlist.fm client: setlist searches by artist and by venue, each
 * preceded by a lookup that resolves the artist's MusicBrainz ID or the
 * venue's ID, a single-setlist lookup, and the flattened song list of a
 * setlist. Every request takes a slot of a 24-hour sliding-window limiter
 * of 2000 requests, and a search returns at most `limit` setlists, the
 * first ones of the response.
 */
module SetlistFM {
  import opened Wrappers
  import opened Text
  import opened Domain
  import opened Remote
  import opened Sequences
  import opened SlidingWindow
  import Songkick

  datatype SetlistFMArtist = SetlistFMArtist(mbid: string, name: string)

  /** A venue with its city's name and its country's name; the coordinates are left out. */
  datatype SetlistFMVenue = SetlistFMVenue(id: string, name: string, city: string, country: string)

  /** A song as listed; `with` and `cover` are the names of the guest and the original artist, `""` when absent. */
  datatype SetlistFMSongRecord = SetlistFMSongRecord(name: string, with: string, cover: string, info: string, tape: bool)

  datatype SetlistFMSet = SetlistFMSet(name: string, encore: int, songs: seq<SetlistFMSongRecord>)

  datatype SetlistFMSetlist = SetlistFMSetlist(
    id: string,
    eventDate: string,
    artist: SetlistFMArtist,
    venue: SetlistFMVenue,
    sets: seq<SetlistFMSet>)

  /** `SetlistFMSong`: one entry of the flattened song list. */
  datatype SetlistSong = SetlistSong(
    name: string,
    setName: string,
    isEncore: bool,
    info: string,
    isTape: bool,
    withArtist: string,
    coverOf: string)

  /** The two layouts `parseEventDate` tries: `DD-MM-YYYY`, then `YYYY-MM-DD`. */
  datatype Layouts = Layouts(dayFirst: Parser, yearFirst: Parser)

  /** What a setlist search is keyed by. */
  datatype SearchKey = ByMBID(mbid: string) | ByName(artistName: string) | ByVenue(venueID: string)

  /** The requests the client sends; every one asks for page 1. */
  datatype Request =
    | ArtistLookup(artistName: string)
    | VenueLookup(name: Option<string>, cityName: Option<string>)
    | SetlistSearch(key: SearchKey)
    | SetlistLookup(setlistID: string)

  const DailyLimit := 2000

  // ------------------------------------------------------------ dates and events

  /** `parseEventDate`: day first, then year first, then the current time. */
  function ParseEventDate(eventDate: string, layouts: Layouts, clock: Timestamp): (t: Timestamp)
    ensures layouts.dayFirst(eventDate).Some? ==> t == layouts.dayFirst(eventDate).value
    ensures layouts.dayFirst(eventDate).None? && layouts.yearFirst(eventDate).Some? ==> t == layouts.yearFirst(eventDate).value
    ensures layouts.dayFirst(eventDate).None? && layouts.yearFirst(eventDate).None? ==> t == clock
  {
    match layouts.dayFirst(eventDate)
    case Some(t) => t
    case None =>
      match layouts.yearFirst(eventDate)
      case Some(t) => t
      case None => clock
  }

  /** The event `convertToEvent` builds: no title and no tickets, cached for 24 hours. */
  function ToEvent(s: SetlistFMSetlist, layouts: Layouts, clock: Timestamp): Event
  {
    Event(
      "setlistfm_" + s.id, "setlistfm_artist_" + Slug(s.artist.name), s.artist.name, "",
      ParseEventDate(s.eventDate, layouts, clock),
      Venue("", s.venue.name, s.venue.city, "", s.venue.country),
      "", "", None, NoEventExternalIDs, ZeroInstant, ZeroInstant, clock.instant + 24 * Hour)
  }

  /** `convertToEvent`, with its venue built first. */
  method ConvertToEvent(s: SetlistFMSetlist, layouts: Layouts, clock: Timestamp) returns (ev: Event)
    ensures ev == ToEvent(s, layouts, clock)
  {
    var eventTime := ParseEventDate(s.eventDate, layouts, clock);
    var venue := Venue("", s.venue.name, s.venue.city, "", s.venue.country);
    var cacheUntil := clock.instant + 24 * Hour;
    ev := Event(
      "setlistfm_" + s.id, "setlistfm_artist_" + Slug(s.artist.name), s.artist.name, "",
      eventTime, venue, "", "", None, NoEventExternalIDs, ZeroInstant, ZeroInstant, cacheUntil);
  }

  /**
   * Distinct setlists give distinct event IDs; the artist ID is space-free
   * and the same for every setlist of the same artist name.
   */
  lemma ToEventIDs(s: SetlistFMSetlist, u: SetlistFMSetlist, layouts: Layouts, clock: Timestamp)
    ensures s.id != u.id ==> ToEvent(s, layouts, clock).id != ToEvent(u, layouts, clock).id
    ensures ' ' !in ToEvent(s, layouts, clock).artistID
    ensures s.artist.name == u.artist.name ==> ToEvent(s, layouts, clock).artistID == ToEvent(u, layouts, clock).artistID
    ensures ToEvent(s, layouts, clock).artistName == s.artist.name
  {
    var p := "setlistfm_";
    if s.id != u.id {
      assert (p + s.id)[|p|..] == s.id;
      assert (p + u.id)[|p|..] == u.id;
    }
    var q := "setlistfm_artist_";
    SlugHasNoSpace(s.artist.name);
    assert ' ' !in q;
  }

  function Converter(layouts: Layouts, clock: Timestamp): SetlistFMSetlist -> Event
  {
    (s: SetlistFMSetlist) => ToEvent(s, layouts, clock)
  }

  // ------------------------------------------------------------ limits

  /** The search limit: 10 when unset, at most 20. */
  function Clamp(limit: int): (l: int)
    ensures 1 <= l <= 20
    ensures 1 <= limit <= 20 ==> l == limit
    ensures limit <= 0 ==> l == 10
    ensures limit > 20 ==> l == 20
  {
    if limit <= 0 then 10 else if limit > 20 then 20 else limit
  }

  /** How many of `n` setlists a loop that stops at index `limit` converts. */
  function Kept(limit: int, n: nat): (k: nat)
    ensures k <= n
    ensures limit >= 0 ==> k <= limit
    ensures limit >= 0 ==> k == n || k == limit
    ensures limit <= 0 ==> k == 0
  {
    if limit <= 0 then 0 else if limit < n then limit else n
  }

  /** The conversion loop of both searches, which stops at `limit`. */
  method ConvertFirst(data: seq<SetlistFMSetlist>, limit: int, layouts: Layouts, clock: Timestamp) returns (events: seq<Event>)
    ensures events == Map(data[..Kept(limit, |data|)], Converter(layouts, clock))
  {
    ghost var f := Converter(layouts, clock);
    events := [];
    var i := 0;
    while i < |data|
      invariant 0 <= i <= Kept(limit, |data|)
      invariant events == Map(data[..i], f)
    {
      if i >= limit {
        break;
      }
      var ev := ConvertToEvent(data[i], layouts, clock);
      MapExtend(data[..i], f, events, data[i], ev);
      TakeNext(data, i);
      events := events + [ev];
      i := i + 1;
    }
  }

  // ------------------------------------------------------------ the song list

  /** One song of a set, as `GetSetlistSongs` records it. */
  function ToSong(section: SetlistFMSet, song: SetlistFMSongRecord): SetlistSong
  {
    SetlistSong(song.name, section.name, section.encore > 0, song.info, song.tape, song.with, song.cover)
  }

  function SetSongs(section: SetlistFMSet): seq<SetlistSong>
  {
    Map(section.songs, (song: SetlistFMSongRecord) => ToSong(section, song))
  }

  /** Every song of every set, the sets in order and each set's songs in order. */
  function Songs(sets: seq<SetlistFMSet>): seq<SetlistSong>
    decreases |sets|
  {
    if |sets| == 0 then [] else Songs(sets[..|sets| - 1]) + SetSongs(sets[|sets| - 1])
  }

  /** The number of songs of all the sets. */
  function SongCount(sets: seq<SetlistFMSet>): nat
    decreases |sets|
  {
    if |sets| == 0 then 0 else SongCount(sets[..|sets| - 1]) + |sets[|sets| - 1].songs|
  }

  /** The song list has one entry per song. */
  lemma {:induction false} SongsCount(sets: seq<SetlistFMSet>)
    ensures |Songs(sets)| == SongCount(sets)
    decreases |sets|
  {
    if |sets| != 0 {
      SongsCount(sets[..|sets| - 1]);
    }
  }

  /**
   * Song `j` of set `i` is entry `SongCount(sets[..i]) + j`: it follows every
   * song of the earlier sets and the earlier songs of its own set, carries its
   * set's name, and is an encore exactly when its set is one.
   */
  lemma {:induction false} SongsAt(sets: seq<SetlistFMSet>, i: int, j: int)
    requires 0 <= i < |sets| && 0 <= j < |sets[i].songs|
    ensures SongCount(sets[..i]) + j < |Songs(sets)|
    ensures Songs(sets)[SongCount(sets[..i]) + j] == ToSong(sets[i], sets[i].songs[j])
    decreases |sets|
  {
    var n := |sets| - 1;
    var init := sets[..n];
    SongsCount(init);
    if i == n {
      assert sets[..i] == init;
    } else {
      assert init[..i] == sets[..i];
      assert init[i] == sets[i];
      SongsAt(init, i, j);
    }
  }

  /** One song entry, its optional names set only when present. */
  method ConvertSong(section: SetlistFMSet, song: SetlistFMSongRecord) returns (s: SetlistSong)
    ensures s == ToSong(section, song)
  {
    s := SetlistSong(song.name, section.name, section.encore > 0, song.info, song.tape, "", "");
    if song.with != "" {
      s := s.(withArtist := song.with);
    }
    if song.cover != "" {
      s := s.(coverOf := song.cover);
    }
  }

  /** The nested loop of `GetSetlistSongs`. */
  method FlattenSongs(sets: seq<SetlistFMSet>) returns (songs: seq<SetlistSong>)
    ensures songs == Songs(sets)
  {
    songs := [];
    for i := 0 to |sets|
      invariant songs == Songs(sets[..i])
    {
      var section := sets[i];
      ghost var before := songs;
      ghost var f := (song: SetlistFMSongRecord) => ToSong(section, song);
      for j := 0 to |section.songs|
        invariant songs == before + Map(section.songs[..j], f)
      {
        var s := ConvertSong(section, section.songs[j]);
        AppendAssoc(before, Map(section.songs[..j], f), [s]);
        MapExtend(section.songs[..j], f, Map(section.songs[..j], f), section.songs[j], s);
        TakeNext(section.songs, j);
        songs := songs + [s];
      }
      TakeAll(section.songs);
      TakeStep(sets, i);
    }
    TakeAll(sets);
  }

  // ------------------------------------------------------------ lookups and replies

  /** The MBID of the best artist match: `""` on a 404 or when nothing matched. */
  function FirstMBID(reply: Reply<seq<SetlistFMArtist>>): (r: Result<string>)
    ensures reply.Answered? && reply.status == StatusNotFound ==> r == Ok("")
    ensures r.Ok? <==> reply.Answered? && (reply.status == StatusNotFound || (reply.status == StatusOK && reply.body.Ok?))
    ensures reply.Answered? && reply.status == StatusOK && reply.body == Ok([]) ==> r == Ok("")
    ensures r.Ok? && r.value != "" ==>
      reply.Answered? && reply.status == StatusOK && reply.body.Ok? && |reply.body.value| > 0 && r.value == reply.body.value[0].mbid
  {
    if reply.Answered? && reply.status == StatusNotFound then Ok("")
    else match Expect(reply, "failed to search artist", "setlist.fm artist search")
      case Err(e) => Err(e)
      case Ok(artists) => Ok(if |artists| == 0 then "" else artists[0].mbid)
  }

  /** The ID of the best venue match: `""` on a 404 or when nothing matched. */
  function FirstVenueID(reply: Reply<seq<SetlistFMVenue>>): (r: Result<string>)
    ensures reply.Answered? && reply.status == StatusNotFound ==> r == Ok("")
    ensures r.Ok? <==> reply.Answered? && (reply.status == StatusNotFound || (reply.status == StatusOK && reply.body.Ok?))
    ensures reply.Answered? && reply.status == StatusOK && reply.body == Ok([]) ==> r == Ok("")
    ensures r.Ok? && r.value != "" ==>
      reply.Answered? && reply.status == StatusOK && reply.body.Ok? && |reply.body.value| > 0 && r.value == reply.body.value[0].id
  {
    if reply.Answered? && reply.status == StatusNotFound then Ok("")
    else match Expect(reply, "failed to search venue", "setlist.fm venue search")
      case Err(e) => Err(e)
      case Ok(venues) => Ok(if |venues| == 0 then "" else venues[0].id)
  }

  /** The artist key of the setlist search: the MBID when one was found, else the name. */
  function ArtistKey(mbid: string, artistName: string): (k: SearchKey)
    ensures k.ByMBID? <==> mbid != ""
    ensures k.ByMBID? ==> k.mbid == mbid
    ensures k.ByName? ==> k.artistName == artistName
  {
    if mbid != "" then ByMBID(mbid) else ByName(artistName)
  }

  /** A query parameter that is set only when non-empty. */
  function Param(value: string): (p: Option<string>)
    ensures p.None? <==> value == ""
    ensures p.Some? ==> p.value == value
  {
    if value != "" then Some(value) else None
  }

  /**
   * A setlist search reply: the first `limit` setlists converted, none on a
   * 404, and the remote rate limit on a 429 when `rateLimited`.
   */
  function SetlistsOutcome(reply: Reply<seq<SetlistFMSetlist>>, rateLimited: bool, what: string, limit: int,
                           layouts: Layouts, clock: Timestamp): (r: Result<seq<Event>>)
    ensures rateLimited && reply.Answered? && reply.status == StatusTooManyRequests ==> r == Err(RateLimitExceeded)
    ensures reply.Answered? && reply.status == StatusNotFound ==> r == Ok([])
    ensures r.Ok? <==> reply.Answered? && (reply.status == StatusNotFound || (reply.status == StatusOK && reply.body.Ok?))
    ensures r.Ok? && reply.status == StatusOK ==>
      && |r.value| == Kept(limit, |reply.body.value|)
      && forall k :: 0 <= k < |r.value| ==> r.value[k] == ToEvent(reply.body.value[k], layouts, clock)
  {
    if rateLimited && reply.Answered? && reply.status == StatusTooManyRequests then Err(RateLimitExceeded)
    else if reply.Answered? && reply.status == StatusNotFound then Ok([])
    else match Expect(reply, "failed to search setlists", what)
      case Err(e) => Err(e)
      case Ok(data) => Ok(Map(data[..Kept(limit, |data|)], Converter(layouts, clock)))
  }

  /** The artist search after its own limiter slot and the blank check; `gate` is the lookup's slot. */
  function ArtistSearch(gate: Option<Error>, artistName: string, limit: int, find: Reply<seq<SetlistFMArtist>>,
                        search: Reply<seq<SetlistFMSetlist>>, layouts: Layouts, clock: Timestamp): (Result<seq<Event>>, seq<Request>)
  {
    var mbid := FirstMBID(find);
    if gate.Some? then (Err(gate.value), [])
    else if mbid.Err? then (Err(mbid.error), [ArtistLookup(artistName)])
    else (SetlistsOutcome(search, true, "setlist.fm search", Clamp(limit), layouts, clock),
          [ArtistLookup(artistName), SetlistSearch(ArtistKey(mbid.value, artistName))])
  }

  /** The venue search after its own limiter slot and the blank check; `gate` is the lookup's slot. */
  function VenueSearch(gate: Option<Error>, venueName: string, city: string, limit: int, find: Reply<seq<SetlistFMVenue>>,
                       search: Reply<seq<SetlistFMSetlist>>, layouts: Layouts, clock: Timestamp): (Result<seq<Event>>, seq<Request>)
  {
    var lookup := VenueLookup(Param(venueName), Param(city));
    var id := FirstVenueID(find);
    if gate.Some? then (Err(gate.value), [])
    else if id.Err? then (Err(id.error), [lookup])
    else if id.value == "" then (Ok([]), [lookup])
    else (SetlistsOutcome(search, false, "setlist.fm venue search", Clamp(limit), layouts, clock),
          [lookup, SetlistSearch(ByVenue(id.value))])
  }

  /**
   * The artist search looks the name up first and searches by MBID exactly
   * when the best match has one, falling back to the name; it returns at
   * most the clamped limit of events, all with setlist.fm IDs.
   */
  lemma ArtistSearchShape(artistName: string, limit: int, find: Reply<seq<SetlistFMArtist>>,
                          search: Reply<seq<SetlistFMSetlist>>, layouts: Layouts, clock: Timestamp)
    ensures var (r, sent) := ArtistSearch(None, artistName, limit, find, search, layouts, clock);
      && 1 <= |sent| <= 2 && sent[0] == ArtistLookup(artistName)
      && (|sent| == 2 <==> FirstMBID(find).Ok?)
      && (|sent| == 2 && find.Answered? && find.status == StatusNotFound ==> sent[1] == SetlistSearch(ByName(artistName)))
      && (|sent| == 2 && find.Answered? && find.status == StatusOK && find.body.Ok? && |find.body.value| > 0 ==>
            sent[1] == SetlistSearch(ArtistKey(find.body.value[0].mbid, artistName)))
      && (r.Ok? ==> |r.value| <= Clamp(limit) && forall e :: e in r.value ==> HasPrefix(e.id, "setlistfm_"))
  {
    var (r, sent) := ArtistSearch(None, artistName, limit, find, search, layouts, clock);
    if r.Ok? {
      forall e | e in r.value ensures HasPrefix(e.id, "setlistfm_") {
        var k :| 0 <= k < |r.value| && r.value[k] == e;
        var s := search.body.value[k];
        assert e.id == "setlistfm_" + s.id;
      }
    }
  }

  /**
   * The venue search sends its lookup with the filters that are not blank,
   * and when no venue matches it returns no events without searching.
   */
  lemma VenueSearchShape(venueName: string, city: string, limit: int, find: Reply<seq<SetlistFMVenue>>,
                         search: Reply<seq<SetlistFMSetlist>>, layouts: Layouts, clock: Timestamp)
    ensures var (r, sent) := VenueSearch(None, venueName, city, limit, find, search, layouts, clock);
      && 1 <= |sent| <= 2 && sent[0] == VenueLookup(Param(venueName), Param(city))
      && (venueName != "" || city != "" ==> sent[0].name.Some? || sent[0].cityName.Some?)
      && (FirstVenueID(find) == Ok("") ==> r == Ok([]) && |sent| == 1)
      && (|sent| == 2 ==> sent[1] == SetlistSearch(ByVenue(FirstVenueID(find).value)) && FirstVenueID(find).value != "")
      && (r.Ok? ==> |r.value| <= Clamp(limit))
  {
  }

  /** The lookup and the setlist search of `SearchSetlistsByArtist`, after both limiter slots. */
  method ArtistSetlists(artistName: string, limit: int, find: Reply<seq<SetlistFMArtist>>,
                        search: Reply<seq<SetlistFMSetlist>>, layouts: Layouts, clock: Timestamp)
    returns (r: Result<seq<Event>>, sent: seq<Request>)
    ensures (r, sent) == ArtistSearch(None, artistName, limit, find, search, layouts, clock)
  {
    var l := Clamp(limit);
    var mbid := FirstMBID(find);
    sent := [ArtistLookup(artistName)];
    if mbid.Err? {
      return Err(mbid.error), sent;
    }
    var key := if mbid.value != "" then ByMBID(mbid.value) else ByName(artistName);
    sent := [ArtistLookup(artistName), SetlistSearch(key)];
    if search.Answered? && search.status == StatusTooManyRequests {
      return Err(RateLimitExceeded), sent;
    }
    if search.Answered? && search.status == StatusNotFound {
      return Ok([]), sent;
    }
    var body := Expect(search, "failed to search setlists", "setlist.fm search");
    if body.Err? {
      return Err(body.error), sent;
    }
    var events := ConvertFirst(body.value, l, layouts, clock);
    r := Ok(events);
  }

  /** The lookup and the setlist search of `SearchSetlistsByVenue`, after both limiter slots. */
  method VenueSetlists(venueName: string, city: string, limit: int, find: Reply<seq<SetlistFMVenue>>,
                       search: Reply<seq<SetlistFMSetlist>>, layouts: Layouts, clock: Timestamp)
    returns (r: Result<seq<Event>>, sent: seq<Request>)
    ensures (r, sent) == VenueSearch(None, venueName, city, limit, find, search, layouts, clock)
  {
    var l := Clamp(limit);
    var name := if venueName != "" then Some(venueName) else None;
    var cityName := if city != "" then Some(city) else None;
    var id := FirstVenueID(find);
    sent := [VenueLookup(name, cityName)];
    if id.Err? {
      return Err(id.error), sent;
    }
    if id.value == "" {
      return Ok([]), sent;
    }
    sent := [VenueLookup(name, cityName), SetlistSearch(ByVenue(id.value))];
    if search.Answered? && search.status == StatusNotFound {
      return Ok([]), sent;
    }
    var body := Expect(search, "failed to search setlists", "setlist.fm venue search");
    if body.Err? {
      return Err(body.error), sent;
    }
    var events := ConvertFirst(body.value, l, layouts, clock);
    r := Ok(events);
  }

  /** A single setlist: 404 is "event not found". */
  function SetlistOutcome(reply: Reply<SetlistFMSetlist>, layouts: Layouts, clock: Timestamp): (r: Result<Event>)
    ensures reply.Answered? && reply.status == StatusNotFound ==> r == Err(EventNotFound)
    ensures r.Ok? <==> reply.Answered? && reply.status == StatusOK && reply.body.Ok?
    ensures r.Ok? ==> r.value == ToEvent(reply.body.value, layouts, clock)
  {
    if reply.Answered? && reply.status == StatusNotFound then Err(EventNotFound)
    else match Expect(reply, "failed to get setlist", "setlist.fm get setlist")
      case Err(e) => Err(e)
      case Ok(s) => Ok(ToEvent(s, layouts, clock))
  }

  /** The song list of a setlist; unlike the setlist lookup, a 404 here is an ordinary status error. */
  function SongsOutcome(reply: Reply<SetlistFMSetlist>): (r: Result<seq<SetlistSong>>)
    ensures reply.Answered? && reply.status == StatusNotFound ==> r == Err(StatusError("setlist.fm get setlist", StatusNotFound))
    ensures r.Ok? <==> reply.Answered? && reply.status == StatusOK && reply.body.Ok?
    ensures r.Ok? ==> |r.value| == SongCount(reply.body.value.sets)
  {
    match Expect(reply, "failed to get setlist", "setlist.fm get setlist")
    case Err(e) => Err(e)
    case Ok(s) => SongsCount(s.sets); Ok(Songs(s.sets))
  }

  class SetlistFMClient {
    const apiKey: string
    const limiter: SlidingWindowLimiter

    ghost predicate Valid()
      reads this, limiter
    {
      limiter.Valid() && limiter.limit == DailyLimit && limiter.windowSize == 24 * Hour
    }

    /** `NewSetlistFMClient`: an API key is required. */
    static method New(apiKey: string) returns (r: Result<SetlistFMClient>)
      ensures apiKey == "" <==> r.Err?
      ensures r.Err? ==> r.error == Failure("setlist.fm API key is required")
      ensures r.Ok? ==> fresh(r.value) && fresh(r.value.limiter) && r.value.Valid() && r.value.limiter.requests == []
    {
      if apiKey == "" {
        return Err(Failure("setlist.fm API key is required"));
      }
      var c := new SetlistFMClient.Init(apiKey);
      r := Ok(c);
    }

    constructor Init(apiKey: string)
      ensures this.apiKey == apiKey && fresh(limiter) && Valid() && limiter.requests == []
    {
      var l := Songkick.NewEventRateLimiter(DailyLimit);
      this.apiKey := apiKey;
      limiter := l;
    }

    /** `SearchSetlistsByArtist`: one limiter slot for the search, one more for `findArtistMBID`. */
    method SearchSetlistsByArtist(artistName: string, limit: int, clock: Timestamp, find: Reply<seq<SetlistFMArtist>>,
                                  search: Reply<seq<SetlistFMSetlist>>, layouts: Layouts)
      returns (r: Result<seq<Event>>, sent: seq<Request>)
      requires Valid()
      modifies limiter
      ensures Valid()
      ensures var (log1, gate1) := Step(old(limiter.requests), DailyLimit, 24 * Hour, clock.instant);
        var (log2, gate2) := Step(log1, DailyLimit, 24 * Hour, clock.instant);
        var name := TrimSpace(artistName);
        && (gate1.Some? ==> r == Err(RateLimitExceeded) && sent == [] && limiter.requests == log1)
        && (gate1.None? && name == "" ==> r == Err(InvalidRequest) && sent == [] && limiter.requests == log1)
        && (gate1.None? && name != "" ==>
              limiter.requests == log2 && (r, sent) == ArtistSearch(gate2, name, limit, find, search, layouts, clock))
    {
      var gate := limiter.Allow(clock.instant);
      if gate.Some? {
        return Err(gate.value), [];
      }
      var name := TrimSpace(artistName);
      if name == "" {
        return Err(InvalidRequest), [];
      }
      gate := limiter.Allow(clock.instant);
      if gate.Some? {
        return Err(gate.value), [];
      }
      r, sent := ArtistSetlists(name, limit, find, search, layouts, clock);
    }

    /** `SearchSetlistsByVenue`: a venue name or a city is required; one more slot for `findVenueID`. */
    method SearchSetlistsByVenue(venueName: string, city: string, limit: int, clock: Timestamp, find: Reply<seq<SetlistFMVenue>>,
                                 search: Reply<seq<SetlistFMSetlist>>, layouts: Layouts)
      returns (r: Result<seq<Event>>, sent: seq<Request>)
      requires Valid()
      modifies limiter
      ensures Valid()
      ensures var (log1, gate1) := Step(old(limiter.requests), DailyLimit, 24 * Hour, clock.instant);
        var (log2, gate2) := Step(log1, DailyLimit, 24 * Hour, clock.instant);
        var (v, c) := (TrimSpace(venueName), TrimSpace(city));
        && (gate1.Some? ==> r == Err(RateLimitExceeded) && sent == [] && limiter.requests == log1)
        && (gate1.None? && v == "" && c == "" ==> r == Err(InvalidRequest) && sent == [] && limiter.requests == log1)
        && (gate1.None? && (v != "" || c != "") ==>
              limiter.requests == log2 && (r, sent) == VenueSearch(gate2, v, c, limit, find, search, layouts, clock))
    {
      var gate := limiter.Allow(clock.instant);
      if gate.Some? {
        return Err(gate.value), [];
      }
      var v, c := TrimSpace(venueName), TrimSpace(city);
      if v == "" && c == "" {
        return Err(InvalidRequest), [];
      }
      gate := limiter.Allow(clock.instant);
      if gate.Some? {
        return Err(gate.value), [];
      }
      r, sent := VenueSetlists(v, c, limit, find, search, layouts, clock);
    }

    /** `GetSetlist`. */
    method GetSetlist(setlistID: string, clock: Timestamp, reply: Reply<SetlistFMSetlist>, layouts: Layouts)
      returns (r: Result<Event>, sent: Option<Request>)
      requires Valid()
      modifies limiter
      ensures Valid()
      ensures var (log, gate) := Step(old(limiter.requests), DailyLimit, 24 * Hour, clock.instant);
        && limiter.requests == log
        && (gate.Some? ==> r == Err(RateLimitExceeded) && sent == None)
        && (gate.None? ==> sent == Some(SetlistLookup(setlistID)) && r == SetlistOutcome(reply, layouts, clock))
    {
      var gate := limiter.Allow(clock.instant);
      if gate.Some? {
        return Err(gate.value), None;
      }
      sent := Some(SetlistLookup(setlistID));
      if reply.Answered? && reply.status == StatusNotFound {
        return Err(EventNotFound), sent;
      }
      var body := Expect(reply, "failed to get setlist", "setlist.fm get setlist");
      if body.Err? {
        return Err(body.error), sent;
      }
      var ev := ConvertToEvent(body.value, layouts, clock);
      r := Ok(ev);
    }

    /** `GetSetlistSongs`: the songs of every set, flattened in order. */
    method GetSetlistSongs(setlistID: string, now: Instant, reply: Reply<SetlistFMSetlist>)
      returns (r: Result<seq<SetlistSong>>, sent: Option<Request>)
      requires Valid()
      modifies limiter
      ensures Valid()
      ensures var (log, gate) := Step(old(limiter.requests), DailyLimit, 24 * Hour, now);
        && limiter.requests == log
        && (gate.Some? ==> r == Err(RateLimitExceeded) && sent == None)
        && (gate.None? ==> sent == Some(SetlistLookup(setlistID)) && r == SongsOutcome(reply))
        && (gate.None? && r.Ok? ==> r.value == Songs(reply.body.value.sets))
    {
      var gate := limiter.Allow(now);
      if gate.Some? {
        return Err(gate.value), None;
      }
      sent := Some(SetlistLookup(setlistID));
      var body := Expect(reply, "failed to get setlist", "setlist.fm get setlist");
      if body.Err? {
        return Err(body.error), sent;
      }
      var songs := FlattenSongs(body.value.sets);
      r := Ok(songs);
    }
  }
}
