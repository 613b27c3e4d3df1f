/**
 * The domain records (`Artist`, `Event`, `Venue`), the sentinel errors and
 * the time values shared by every other module.
 *
 * Times are integer instants in nanoseconds. A `time.Time` that an event
 * carries as its date also carries its own location, so it is modelled as an
 * instant together with the calendar date it shows in that location; the
 * `"20060102"` layout is then a pure function of the value.
 */
module Domain {
  import opened Wrappers
  import opened Numerals
  import opened Text

  type Instant = int

  const Second: int := 1_000_000_000
  const Minute: int := 60 * Second
  const Hour: int := 60 * Minute

  /** Go's zero `time.Time` (January 1 of year 1, UTC) as nanoseconds from the Unix epoch. */
  const ZeroInstant: Instant := -62135596800 * Second

  type Year = y: int | 0 <= y <= 9999
  type Month = m: int | 1 <= m <= 12 witness 1
  type Day = d: int | 1 <= d <= 31 witness 1

  datatype Date = Date(year: Year, month: Month, day: Day)

  /** A `time.Time`: the instant and the calendar date it shows in its own location. */
  datatype Timestamp = Timestamp(instant: Instant, date: Date)

  const ZeroTime: Timestamp := Timestamp(ZeroInstant, Date(1, 1, 1))

  /** `t.IsZero()`. */
  predicate IsZero(t: Timestamp) { t.instant == ZeroInstant }

  /** A time layout, seen as a partial function from text to a time. */
  type Parser = string -> Option<Timestamp>

  /** Layouts tried in order; the first that accepts the text decides. */
  function FirstParse(parsers: seq<Parser>, s: string): (r: Option<Timestamp>)
    ensures r.None? <==> forall k :: 0 <= k < |parsers| ==> parsers[k](s).None?
    ensures r.Some? ==> exists k :: 0 <= k < |parsers| && parsers[k](s) == r &&
                                   (forall i :: 0 <= i < k ==> parsers[i](s).None?)
  {
    if |parsers| == 0 then None
    else if parsers[0](s).Some? then parsers[0](s)
    else
      var r := FirstParse(parsers[1..], s);
      assert forall k :: 1 <= k < |parsers| ==> parsers[k] == parsers[1..][k - 1];
      r
  }

  /** `t.Format("20060102")`. */
  function DayKey(t: Timestamp): (k: string)
    ensures |k| == 8 && AllDigits(k)
  {
    FixedWidth(t.date.year, 4) + FixedWidth(t.date.month, 2) + FixedWidth(t.date.day, 2)
  }

  /** Two times on different calendar days never share a day key. */
  lemma DayKeyInjective(s: Timestamp, t: Timestamp)
    requires DayKey(s) == DayKey(t)
    ensures s.date == t.date
  {
    var a, b := DayKey(s), DayKey(t);
    assert a[..4] == FixedWidth(s.date.year, 4) && b[..4] == FixedWidth(t.date.year, 4);
    assert a[4..6] == FixedWidth(s.date.month, 2) && b[4..6] == FixedWidth(t.date.month, 2);
    assert a[6..] == FixedWidth(s.date.day, 2) && b[6..] == FixedWidth(t.date.day, 2);
    FixedWidthInjective(s.date.year, t.date.year, 4);
    FixedWidthInjective(s.date.month, t.date.month, 2);
    FixedWidthInjective(s.date.day, t.date.day, 2);
  }

  datatype ExternalIDs = ExternalIDs(spotifyID: string, lastFMID: string)

  datatype Artist = Artist(
    id: string,
    name: string,
    externalIDs: ExternalIDs,
    genres: seq<string>,
    popularity: int,
    imageURL: string,
    createdAt: Instant,
    updatedAt: Instant)

  /** A venue; latitude and longitude are floating point and not part of this model. */
  datatype Venue = Venue(id: string, name: string, city: string, region: string, country: string)

  datatype EventExternalIDs = EventExternalIDs(bandsintownID: string, ticketmasterID: string)

  datatype Event = Event(
    id: string,
    artistID: string,
    artistName: string,
    title: string,
    dateTime: Timestamp,
    venue: Venue,
    ticketURL: string,
    ticketStatus: string,
    onSaleDate: Option<Timestamp>,
    externalIDs: EventExternalIDs,
    createdAt: Instant,
    updatedAt: Instant,
    cachedUntil: Instant)

  datatype ArtistSearchResponse = ArtistSearchResponse(artists: seq<Artist>, total: int)

  datatype EventSearchResponse = EventSearchResponse(events: seq<Event>, total: int)

  const NoExternalIDs := ExternalIDs("", "")
  const NoEventExternalIDs := EventExternalIDs("", "")

  /**
   * The sentinel errors, and every other error by its message. Callers in
   * this code base compare errors with `==`, so an error wrapped with `%w`
   * is a `Failure` that matches no sentinel.
   */
  datatype Error =
    | ArtistNotFound
    | InvalidRequest
    | DuplicateArtist
    | ExternalAPIFailure
    | EventNotFound
    | DuplicateEvent
    | InvalidLocation
    | RateLimitExceeded
    | Failure(message: string)

  /** `err.Error()`. */
  function Message(e: Error): string
  {
    match e
    case ArtistNotFound => "artist not found"
    case InvalidRequest => "invalid request"
    case DuplicateArtist => "artist already exists"
    case ExternalAPIFailure => "external API failure"
    case EventNotFound => "event not found"
    case DuplicateEvent => "event already exists"
    case InvalidLocation => "invalid location"
    case RateLimitExceeded => "rate limit exceeded"
    case Failure(m) => m
  }

  /** `fmt.Errorf(prefix + ": %w", e)`. */
  function Wrap(prefix: string, e: Error): (r: Error)
    ensures r.Failure? && r.message == prefix + ": " + Message(e)
  {
    Failure(prefix + ": " + Message(e))
  }

  /** Distinct sentinels have distinct messages, so `Message` loses nothing about them. */
  lemma SentinelMessagesDistinct(a: Error, b: Error)
    requires !a.Failure? && !b.Failure? && a != b
    ensures Message(a) != Message(b)
  {
    assert Message(a)[..3] != Message(b)[..3] || Message(a)[3..] != Message(b)[3..];
  }

  datatype Result<T> = Ok(value: T) | Err(error: Error)

  /** The slug providers build IDs from: lowercase, with every space turned into `_`. */
  function Slug(name: string): string
  {
    ReplaceAll(ToLower(name), " ", "_")
  }

  /** A slug holds no space. */
  lemma SlugHasNoSpace(name: string)
    ensures ' ' !in Slug(name)
  {
    ReplaceAllRemoves(ToLower(name), " ", "_");
    ContainsChar(Slug(name), ' ');
  }
}
