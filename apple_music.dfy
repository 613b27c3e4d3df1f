/**
 * The Apple Music client: artist search and lookup, album listing, and the
 * artwork template rewrite. It holds a one-hour sliding-window limiter of
 * 20000 requests.
 */
module AppleMusic {
  import opened Wrappers
  import opened Text
  import opened Domain
  import opened Remote
  import opened Sequences
  import opened SlidingWindow

  datatype AppleMusicArtist = AppleMusicArtist(id: string, kind: string, name: string, genreNames: seq<string>, url: string, artworkURL: string)

  datatype AppleMusicAlbumRecord = AppleMusicAlbumRecord(
    id: string, name: string, artistName: string, releaseDate: string, trackCount: int,
    genreNames: seq<string>, artworkURL: string)

  datatype AppleMusicAlbum = AppleMusicAlbum(
    id: string, name: string, artistName: string, releaseDate: string, trackCount: int,
    genreNames: seq<string>, artworkURL: string)

  /** `processArtworkURL`: both size placeholders become 512. */
  function ProcessArtworkURL(artworkURL: string): string
  {
    if artworkURL == "" then "" else ReplaceAll(ReplaceAll(artworkURL, "{w}", "512"), "{h}", "512")
  }

  /** No placeholder survives the rewrite, and a URL without placeholders is left alone. */
  lemma ArtworkResolved(artworkURL: string)
    ensures !Contains(ProcessArtworkURL(artworkURL), "{w}") && !Contains(ProcessArtworkURL(artworkURL), "{h}")
    ensures !Contains(artworkURL, "{w}") && !Contains(artworkURL, "{h}") ==> ProcessArtworkURL(artworkURL) == artworkURL
  {
    if artworkURL != "" {
      var once := ReplaceAll(artworkURL, "{w}", "512");
      ReplaceAllRemoves(artworkURL, "{w}", "512");
      ReplaceAllCreatesNothing(once, "{h}", "512", "{w}");
      ReplaceAllRemoves(once, "{h}", "512");
      if !Contains(artworkURL, "{w}") && !Contains(artworkURL, "{h}") {
        ReplaceAllNoMatch(artworkURL, "{w}", "512");
        ReplaceAllNoMatch(once, "{h}", "512");
      }
    } else {
      assert !Contains("", "{w}") && !Contains("", "{h}");
    }
  }

  /** The search limit: 10 when unset, at most 25. */
  function SearchLimit(limit: int): (l: int)
    ensures 1 <= l <= 25
    ensures 1 <= limit <= 25 ==> l == limit
    ensures limit <= 0 ==> l == 10
    ensures limit > 25 ==> l == 25
  {
    if limit <= 0 then 10 else if limit > 25 then 25 else limit
  }

  /** The album limit: 10 when unset, at most 100. */
  function AlbumsLimit(limit: int): (l: int)
    ensures 1 <= l <= 100
    ensures 1 <= limit <= 100 ==> l == limit
    ensures limit <= 0 ==> l == 10
    ensures limit > 100 ==> l == 100
  {
    if limit <= 0 then 10 else if limit > 100 then 100 else limit
  }

  function ToArtist(a: AppleMusicArtist): Artist
  {
    Artist("apple_" + a.id, a.name, NoExternalIDs, a.genreNames, 0, ProcessArtworkURL(a.artworkURL), ZeroInstant, ZeroInstant)
  }

  function ToAlbum(a: AppleMusicAlbumRecord): AppleMusicAlbum
  {
    AppleMusicAlbum(a.id, a.name, a.artistName, a.releaseDate, a.trackCount, a.genreNames, ProcessArtworkURL(a.artworkURL))
  }

  /** Converted artists keep the order and the names, get an `apple_` ID, no popularity and no placeholder in the image. */
  lemma ConvertedArtists(data: seq<AppleMusicArtist>)
    ensures var out := Map(data, ToArtist);
      |out| == |data| &&
      forall i :: 0 <= i < |data| ==>
        && out[i].id == "apple_" + data[i].id && out[i].name == data[i].name
        && out[i].genres == data[i].genreNames && out[i].popularity == 0
        && !Contains(out[i].imageURL, "{w}") && !Contains(out[i].imageURL, "{h}")
  {
    forall i | 0 <= i < |data| ensures !Contains(ToArtist(data[i]).imageURL, "{w}") && !Contains(ToArtist(data[i]).imageURL, "{h}") {
      ArtworkResolved(data[i].artworkURL);
    }
  }

  /** What a search yields from the reply: 401 is an invalid token, 200 the converted artists. */
  function SearchOutcome(reply: Reply<seq<AppleMusicArtist>>): Result<seq<Artist>>
  {
    if reply.Answered? && reply.status == StatusUnauthorized then Err(Failure("apple music unauthorized: invalid token"))
    else match Expect(reply, "failed to search artists", "apple music search")
      case Err(e) => Err(e)
      case Ok(data) => Ok(Map(data, ToArtist))
  }

  /** What a lookup yields: 404 and an empty answer are both "artist not found"; otherwise the first artist. */
  function GetArtistOutcome(reply: Reply<seq<AppleMusicArtist>>): (r: Result<Artist>)
    ensures reply.Answered? && reply.status == StatusNotFound ==> r == Err(ArtistNotFound)
    ensures r.Ok? ==> reply.Answered? && reply.status == StatusOK && reply.body.Ok? && |reply.body.value| > 0 &&
                      r.value.id == "apple_" + reply.body.value[0].id
  {
    if reply.Answered? && reply.status == StatusNotFound then Err(ArtistNotFound)
    else match Expect(reply, "failed to get artist", "apple music get artist")
      case Err(e) => Err(e)
      case Ok(data) =>
        if |data| == 0 then Err(ArtistNotFound)
        else Ok(ToArtist(data[0]))
  }

  /** What an album listing yields: 200 gives the converted albums. */
  function AlbumsOutcome(reply: Reply<seq<AppleMusicAlbumRecord>>): Result<seq<AppleMusicAlbum>>
  {
    match Expect(reply, "failed to get albums", "apple music get albums")
    case Err(e) => Err(e)
    case Ok(data) => Ok(Map(data, ToAlbum))
  }

  class AppleMusicClient {
    const token: string
    const limiter: SlidingWindowLimiter

    ghost predicate Valid()
      reads this, limiter
    {
      limiter.Valid() && limiter.limit == 20000 && limiter.windowSize == Hour
    }

    /** `NewAppleMusicClient`: a token is required. */
    static method New(token: string) returns (r: Result<AppleMusicClient>)
      ensures token == "" <==> r.Err?
      ensures r.Err? ==> r.error == Failure("apple music token is required")
      ensures r.Ok? ==> fresh(r.value) && fresh(r.value.limiter) && r.value.Valid() && r.value.token == token
      ensures r.Ok? ==> r.value.limiter.requests == []
    {
      if token == "" {
        return Err(Failure("apple music token is required"));
      }
      var c := new AppleMusicClient.Init(token);
      r := Ok(c);
    }

    constructor Init(token: string)
      ensures this.token == token && fresh(limiter) && Valid() && limiter.requests == []
    {
      var l := NewRateLimiter(20000);
      this.token := token;
      limiter := l;
    }

    /**
     * `SearchArtists`: a limiter slot is taken before the blank-query check;
     * `sent` is the limit of the request actually sent, if any.
     */
    method SearchArtists(query: string, limit: int, now: Instant, reply: Reply<seq<AppleMusicArtist>>)
      returns (r: Result<seq<Artist>>, sent: Option<int>)
      requires Valid()
      modifies limiter
      ensures Valid()
      ensures var (log, gate) := Step(old(limiter.requests), 20000, Hour, now);
        && limiter.requests == log
        && (gate.Some? ==> r == Err(RateLimitExceeded) && sent == None)
        && (gate.None? && TrimSpace(query) == "" ==> r == Err(InvalidRequest) && sent == None)
        && (gate.None? && TrimSpace(query) != "" ==> sent == Some(SearchLimit(limit)) && r == SearchOutcome(reply))
    {
      var gate := limiter.Allow(now);
      if gate.Some? {
        return Err(gate.value), None;
      }
      if TrimSpace(query) == "" {
        return Err(InvalidRequest), None;
      }
      sent := Some(SearchLimit(limit));
      if reply.Answered? && reply.status == StatusUnauthorized {
        return Err(Failure("apple music unauthorized: invalid token")), sent;
      }
      var body := Expect(reply, "failed to search artists", "apple music search");
      if body.Err? {
        return Err(body.error), sent;
      }
      var artists := MapAll(body.value, ToArtist);
      r := Ok(artists);
    }

    /** `GetArtist`. */
    method GetArtist(appleMusicID: string, now: Instant, reply: Reply<seq<AppleMusicArtist>>) returns (r: Result<Artist>)
      requires Valid()
      modifies limiter
      ensures Valid()
      ensures var (log, gate) := Step(old(limiter.requests), 20000, Hour, now);
        && limiter.requests == log
        && (gate.Some? ==> r == Err(RateLimitExceeded))
        && (gate.None? ==> r == GetArtistOutcome(reply))
    {
      var gate := limiter.Allow(now);
      if gate.Some? {
        return Err(gate.value);
      }
      r := GetArtistOutcome(reply);
    }

    /** `GetArtistAlbums`: the limit is clamped to 10 when unset and to 100 at most. */
    method GetArtistAlbums(appleMusicID: string, limit: int, now: Instant, reply: Reply<seq<AppleMusicAlbumRecord>>)
      returns (r: Result<seq<AppleMusicAlbum>>, sent: Option<int>)
      requires Valid()
      modifies limiter
      ensures Valid()
      ensures var (log, gate) := Step(old(limiter.requests), 20000, Hour, now);
        && limiter.requests == log
        && (gate.Some? ==> r == Err(RateLimitExceeded) && sent == None)
        && (gate.None? ==> sent == Some(AlbumsLimit(limit)) && r == AlbumsOutcome(reply))
    {
      var gate := limiter.Allow(now);
      if gate.Some? {
        return Err(gate.value), None;
      }
      sent := Some(AlbumsLimit(limit));
      var body := Expect(reply, "failed to get albums", "apple music get albums");
      if body.Err? {
        return Err(body.error), sent;
      }
      var albums := MapAll(body.value, ToAlbum);
      r := Ok(albums);
    }
  }

  /** `newRateLimiter(hourlyLimit)`: the window is one hour for every client of the package. */
  method NewRateLimiter(hourlyLimit: int) returns (r: SlidingWindowLimiter)
    ensures fresh(r) && r.Valid() && r.requests == [] && r.limit == hourlyLimit && r.windowSize == Hour
  {
    r := new SlidingWindowLimiter(hourlyLimit, Hour);
  }
}
