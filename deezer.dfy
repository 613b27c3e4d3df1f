/**
 * The Deezer client: artist search and lookup (the lookup also fetches a
 * few albums to learn the artist's genres), album listing and top tracks.
 * No key is needed; it holds a one-hour sliding-window limiter of 50000
 * requests.
 */
module Deezer {
  import opened Wrappers
  import opened Text
  import opened Numerals
  import opened Domain
  import opened Remote
  import opened Sequences
  import opened SlidingWindow
  import AppleMusic

  datatype DeezerArtist = DeezerArtist(
    id: int, name: string, link: string, picture: string, pictureSmall: string, pictureMedium: string,
    pictureBig: string, pictureXL: string, nbAlbum: int, nbFan: int)

  datatype DeezerGenre = DeezerGenre(id: int, name: string, picture: string)

  /** An album as decoded. */
  datatype DeezerAlbumRecord = DeezerAlbumRecord(
    id: int, title: string, coverXL: string, genres: seq<DeezerGenre>, recordLabel: string, nbTracks: int,
    fans: int, releaseDate: string, artistName: string)

  datatype DeezerAlbum = DeezerAlbum(
    id: int, title: string, artistName: string, releaseDate: string, trackCount: int,
    genres: seq<string>, coverURL: string, recordLabel: string, fans: int)

  /** A top track as decoded, with the names of its artist and album. */
  datatype DeezerTrackRecord = DeezerTrackRecord(
    id: int, title: string, duration: int, rank: int, explicitLyrics: bool, preview: string,
    artistName: string, albumTitle: string)

  datatype DeezerTrack = DeezerTrack(
    id: int, title: string, duration: int, rank: int, explicitLyrics: bool, preview: string,
    artistName: string, albumTitle: string)

  /** The requests the client sends. */
  datatype Request =
    | ArtistSearch(q: string, limit: int)
    | ArtistLookup(deezerID: string)
    | AlbumListing(deezerID: string, limit: int)
    | TopTracks(deezerID: string, limit: int)

  // ------------------------------------------------------------ conversion

  /** The fan-count bucket. */
  function FanBucket(fans: int): (p: int)
    ensures 60 <= p <= 100
  {
    if fans > 10000000 then 100
    else if fans > 1000000 then 95
    else if fans > 500000 then 90
    else if fans > 100000 then 85
    else if fans > 50000 then 80
    else if fans > 10000 then 75
    else if fans > 5000 then 70
    else if fans > 1000 then 65
    else 60
  }

  /** More fans never lower the bucket. */
  lemma FanBucketMonotone(a: int, b: int)
    requires a <= b
    ensures FanBucket(a) <= FanBucket(b)
  {
  }

  /** The largest picture there is: XL, else big, else medium. */
  function Picture(a: DeezerArtist): string
  {
    if a.pictureXL != "" then a.pictureXL else if a.pictureBig != "" then a.pictureBig else a.pictureMedium
  }

  /** The lowercased names of a list of genre names. */
  function LowerNames(names: seq<string>): set<string>
  {
    if |names| == 0 then {} else LowerNames(names[..|names| - 1]) + {ToLower(names[|names| - 1])}
  }

  /** The keys `convertToArtist` puts in its genre set: every album genre, lowercased. */
  function GenreSet(albums: seq<DeezerAlbum>): set<string>
  {
    if |albums| == 0 then {} else GenreSet(albums[..|albums| - 1]) + LowerNames(albums[|albums| - 1].genres)
  }

  lemma {:induction false} LowerNamesMeans(names: seq<string>)
    ensures forall g :: g in LowerNames(names) <==> exists j :: 0 <= j < |names| && ToLower(names[j]) == g
    decreases |names|
  {
    if |names| != 0 {
      var n := |names| - 1;
      LowerNamesMeans(names[..n]);
      forall g | g in LowerNames(names) ensures exists j :: 0 <= j < |names| && ToLower(names[j]) == g {
        if g in LowerNames(names[..n]) {
          var j :| 0 <= j < n && ToLower(names[..n][j]) == g;
          assert names[j] == names[..n][j];
        }
      }
      forall g | exists j :: 0 <= j < |names| && ToLower(names[j]) == g ensures g in LowerNames(names) {
        var j :| 0 <= j < |names| && ToLower(names[j]) == g;
        if j < n {
          assert names[..n][j] == names[j];
        }
      }
    }
  }

  /** A genre names an album that carries it. */
  lemma {:induction false} GenreSetSound(albums: seq<DeezerAlbum>, g: string)
    requires g in GenreSet(albums)
    ensures exists k, j :: 0 <= k < |albums| && 0 <= j < |albums[k].genres| && ToLower(albums[k].genres[j]) == g
    decreases |albums|
  {
    var n := |albums| - 1;
    var init := albums[..n];
    if g in GenreSet(init) {
      GenreSetSound(init, g);
      var k, j :| 0 <= k < n && 0 <= j < |init[k].genres| && ToLower(init[k].genres[j]) == g;
      assert albums[k] == init[k];
    } else {
      LowerNamesMeans(albums[n].genres);
      var j :| 0 <= j < |albums[n].genres| && ToLower(albums[n].genres[j]) == g;
    }
  }

  /** Each album genre, lowercased, is a genre of the artist. */
  lemma {:induction false} GenreSetComplete(albums: seq<DeezerAlbum>, k: int, j: int)
    requires 0 <= k < |albums| && 0 <= j < |albums[k].genres|
    ensures ToLower(albums[k].genres[j]) in GenreSet(albums)
    decreases |albums|
  {
    var n := |albums| - 1;
    if k < n {
      GenreSetComplete(albums[..n], k, j);
      assert albums[..n][k] == albums[k];
    } else {
      LowerNamesMeans(albums[n].genres);
    }
  }

  /** A genre of the artist is exactly a lowercased genre name of one of the albums. */
  lemma GenreSetMeans(albums: seq<DeezerAlbum>)
    ensures forall g :: g in GenreSet(albums) <==>
      exists k, j :: 0 <= k < |albums| && 0 <= j < |albums[k].genres| && ToLower(albums[k].genres[j]) == g
  {
    forall g | g in GenreSet(albums)
      ensures exists k, j :: 0 <= k < |albums| && 0 <= j < |albums[k].genres| && ToLower(albums[k].genres[j]) == g
    {
      GenreSetSound(albums, g);
    }
    forall k, j | 0 <= k < |albums| && 0 <= j < |albums[k].genres| ensures ToLower(albums[k].genres[j]) in GenreSet(albums) {
      GenreSetComplete(albums, k, j);
    }
  }

  /** Every genre is lowercase. */
  lemma GenresLowercase(albums: seq<DeezerAlbum>)
    ensures forall g :: g in GenreSet(albums) ==> NoUpper(g)
  {
    GenreSetMeans(albums);
  }

  /** The loops of `convertToArtist` that fill the genre set. */
  method CollectGenreSet(albums: seq<DeezerAlbum>) returns (genreSet: map<string, bool>)
    ensures genreSet.Keys == GenreSet(albums)
    ensures forall g :: g in genreSet ==> genreSet[g]
  {
    genreSet := map[];
    for i := 0 to |albums|
      invariant genreSet.Keys == GenreSet(albums[..i])
      invariant forall g :: g in genreSet ==> genreSet[g]
    {
      TakeStep(albums, i);
      var names := albums[i].genres;
      for j := 0 to |names|
        invariant genreSet.Keys == GenreSet(albums[..i]) + LowerNames(names[..j])
        invariant forall g :: g in genreSet ==> genreSet[g]
      {
        TakeStep(names, j);
        genreSet := genreSet[ToLower(names[j]) := true];
      }
      TakeAll(names);
    }
    TakeAll(albums);
  }

  /** What `convertToArtist` builds: everything but the order of the genres is fixed. */
  ghost predicate ConvertedFrom(a: Artist, d: DeezerArtist, albums: seq<DeezerAlbum>)
  {
    && a.id == "deezer_" + IntToString(d.id) && a.name == d.name
    && a.popularity == FanBucket(d.nbFan) && a.imageURL == Picture(d)
    && a.externalIDs == NoExternalIDs && a.createdAt == ZeroInstant && a.updatedAt == ZeroInstant
    && Distinct(a.genres) && |a.genres| == |GenreSet(albums)|
    && (forall g :: g in a.genres <==> g in GenreSet(albums))
  }

  /** `convertToArtist`: the genres come out of the set in whatever order the map is visited. */
  method ConvertToArtist(d: DeezerArtist, albums: seq<DeezerAlbum>) returns (a: Artist)
    ensures ConvertedFrom(a, d, albums)
  {
    var genreSet := CollectGenreSet(albums);
    var genres := Enumerate(genreSet.Keys);
    a := Artist("deezer_" + IntToString(d.id), d.name, NoExternalIDs, genres, FanBucket(d.nbFan), Picture(d),
                ZeroInstant, ZeroInstant);
  }

  /** An artist converted without albums, as a search converts them. */
  function BareArtist(d: DeezerArtist): Artist
  {
    Artist("deezer_" + IntToString(d.id), d.name, NoExternalIDs, [], FanBucket(d.nbFan), Picture(d), ZeroInstant, ZeroInstant)
  }

  /** Without albums the conversion is determined: it has no genres. */
  lemma ConvertedWithoutAlbums(a: Artist, d: DeezerArtist)
    requires ConvertedFrom(a, d, [])
    ensures a == BareArtist(d)
  {
  }

  /**
   * Any two conversions of the same artist and albums differ at most in the
   * order of their genres, and no album genre is lost.
   */
  lemma ConversionsAgree(a: Artist, b: Artist, d: DeezerArtist, albums: seq<DeezerAlbum>)
    requires ConvertedFrom(a, d, albums) && ConvertedFrom(b, d, albums)
    ensures a.(genres := []) == b.(genres := [])
    ensures |a.genres| == |b.genres| && forall g :: g in a.genres <==> g in b.genres
    ensures forall k, j :: 0 <= k < |albums| && 0 <= j < |albums[k].genres| ==> ToLower(albums[k].genres[j]) in a.genres
  {
    GenreSetMeans(albums);
  }

  /** The loop of `SearchArtists`. */
  method ConvertArtists(data: seq<DeezerArtist>) returns (artists: seq<Artist>)
    ensures artists == Map(data, BareArtist)
  {
    artists := [];
    for i := 0 to |data|
      invariant artists == Map(data[..i], BareArtist)
    {
      var a := ConvertToArtist(data[i], []);
      ConvertedWithoutAlbums(a, data[i]);
      MapExtend(data[..i], BareArtist, artists, data[i], a);
      TakeNext(data, i);
      artists := artists + [a];
    }
    TakeAll(data);
  }

  function GenreName(g: DeezerGenre): string { g.name }

  function ToAlbum(r: DeezerAlbumRecord): DeezerAlbum
  {
    DeezerAlbum(r.id, r.title, r.artistName, r.releaseDate, r.nbTracks, Map(r.genres, GenreName), r.coverXL, r.recordLabel, r.fans)
  }

  /** An album keeps its genre names in order and takes the XL cover. */
  lemma AlbumConverted(r: DeezerAlbumRecord)
    ensures var a := ToAlbum(r);
      && |a.genres| == |r.genres| && (forall k :: 0 <= k < |r.genres| ==> a.genres[k] == r.genres[k].name)
      && a.coverURL == r.coverXL && a.trackCount == r.nbTracks && a.id == r.id
  {
  }

  /** The inner loop of `GetArtistAlbums`. */
  method CollectGenreNames(genres: seq<DeezerGenre>) returns (names: seq<string>)
    ensures names == Map(genres, GenreName)
  {
    names := [];
    for j := 0 to |genres|
      invariant names == Map(genres[..j], GenreName)
    {
      MapExtend(genres[..j], GenreName, names, genres[j], genres[j].name);
      TakeNext(genres, j);
      names := names + [genres[j].name];
    }
    TakeAll(genres);
  }

  /** The outer loop of `GetArtistAlbums`. */
  method ConvertAlbums(data: seq<DeezerAlbumRecord>) returns (albums: seq<DeezerAlbum>)
    ensures albums == Map(data, ToAlbum)
  {
    albums := [];
    for i := 0 to |data|
      invariant albums == Map(data[..i], ToAlbum)
    {
      var r := data[i];
      var genres := CollectGenreNames(r.genres);
      var album := DeezerAlbum(r.id, r.title, r.artistName, r.releaseDate, r.nbTracks, genres, r.coverXL, r.recordLabel, r.fans);
      MapExtend(data[..i], ToAlbum, albums, r, album);
      TakeNext(data, i);
      albums := albums + [album];
    }
    TakeAll(data);
  }

  function ToTrack(r: DeezerTrackRecord): DeezerTrack
  {
    DeezerTrack(r.id, r.title, r.duration, r.rank, r.explicitLyrics, r.preview, r.artistName, r.albumTitle)
  }

  // ------------------------------------------------------------ limits and replies

  /** The search and album limit: 10 when unset, at most 100. */
  function ListLimit(limit: int): (l: int)
    ensures 1 <= l <= 100
    ensures 1 <= limit <= 100 ==> l == limit
    ensures limit <= 0 ==> l == 10
    ensures limit > 100 ==> l == 100
  {
    if limit <= 0 then 10 else if limit > 100 then 100 else limit
  }

  /** The top-track limit: 10 when unset, at most 50. */
  function TopLimit(limit: int): (l: int)
    ensures 1 <= l <= 50
    ensures 1 <= limit <= 50 ==> l == limit
    ensures limit <= 0 ==> l == 10
    ensures limit > 50 ==> l == 50
  {
    if limit <= 0 then 10 else if limit > 50 then 50 else limit
  }

  /** The number of albums a lookup fetches for its genres. */
  const LookupAlbums := 5

  /**
   * What a search yields: 429 is the rate limit, 200 the artists converted
   * without albums, each with a `deezer_` ID, no genres and a popularity in 60..100.
   */
  function SearchOutcome(reply: Reply<seq<DeezerArtist>>): (r: Result<seq<Artist>>)
    ensures reply.Answered? && reply.status == StatusTooManyRequests ==> r == Err(RateLimitExceeded)
    ensures r.Ok? ==> (reply.Answered? && reply.status == StatusOK && reply.body.Ok? && |r.value| == |reply.body.value|
      && forall k :: 0 <= k < |r.value| ==>
           && r.value[k].genres == [] && 60 <= r.value[k].popularity <= 100
           && r.value[k].id == "deezer_" + IntToString(reply.body.value[k].id))
  {
    if reply.Answered? && reply.status == StatusTooManyRequests then Err(RateLimitExceeded)
    else match Expect(reply, "failed to search artists", "deezer search")
      case Err(e) => Err(e)
      case Ok(data) => Ok(Map(data, BareArtist))
  }

  /** The artist record of a lookup: 404 is "artist not found". */
  function LookupOutcome(reply: Reply<DeezerArtist>): Result<DeezerArtist>
  {
    if reply.Answered? && reply.status == StatusNotFound then Err(ArtistNotFound)
    else Expect(reply, "failed to get artist", "deezer get artist")
  }

  function AlbumsOutcome(reply: Reply<seq<DeezerAlbumRecord>>): Result<seq<DeezerAlbum>>
  {
    match Expect(reply, "failed to get albums", "deezer get albums")
    case Err(e) => Err(e)
    case Ok(data) => Ok(Map(data, ToAlbum))
  }

  function TracksOutcome(reply: Reply<seq<DeezerTrackRecord>>): Result<seq<DeezerTrack>>
  {
    match Expect(reply, "failed to get top tracks", "deezer get top tracks")
    case Err(e) => Err(e)
    case Ok(data) => Ok(Map(data, ToTrack))
  }

  class DeezerClient {
    const limiter: SlidingWindowLimiter

    ghost predicate Valid()
      reads this, limiter
    {
      limiter.Valid() && limiter.limit == 50000 && limiter.windowSize == Hour
    }

    /** `NewDeezerClient`: nothing is required, so it never fails. */
    constructor New()
      ensures fresh(limiter) && Valid() && limiter.requests == []
    {
      var l := AppleMusic.NewRateLimiter(50000);
      limiter := l;
    }

    /** `SearchArtists`: a limiter slot, then the blank-query check, then the search. */
    method SearchArtists(query: string, limit: int, now: Instant, reply: Reply<seq<DeezerArtist>>)
      returns (r: Result<seq<Artist>>, sent: Option<Request>)
      requires Valid()
      modifies limiter
      ensures Valid()
      ensures var (log, gate) := Step(old(limiter.requests), 50000, Hour, now);
        && limiter.requests == log
        && (gate.Some? ==> r == Err(RateLimitExceeded) && sent == None)
        && (gate.None? && TrimSpace(query) == "" ==> r == Err(InvalidRequest) && sent == None)
        && (gate.None? && TrimSpace(query) != "" ==>
              sent == Some(ArtistSearch(TrimSpace(query), ListLimit(limit))) && r == SearchOutcome(reply))
    {
      var gate := limiter.Allow(now);
      if gate.Some? {
        return Err(gate.value), None;
      }
      var q := TrimSpace(query);
      if q == "" {
        return Err(InvalidRequest), None;
      }
      sent := Some(ArtistSearch(q, ListLimit(limit)));
      if reply.Answered? && reply.status == StatusTooManyRequests {
        return Err(RateLimitExceeded), sent;
      }
      var body := Expect(reply, "failed to search artists", "deezer search");
      if body.Err? {
        return Err(body.error), sent;
      }
      var artists := ConvertArtists(body.value);
      r := Ok(artists);
    }

    /**
     * `GetArtist`: the artist record, then up to five albums, taken at
     * `albumsNow`, for the genres; when the albums cannot be had the artist
     * is converted without them.
     */
    method GetArtist(deezerID: string, now: Instant, reply: Reply<DeezerArtist>,
                     albumsNow: Instant, albumsReply: Reply<seq<DeezerAlbumRecord>>)
      returns (r: Result<Artist>, sent: seq<Request>)
      requires Valid()
      modifies limiter
      ensures Valid()
      ensures var (log1, gate1) := Step(old(limiter.requests), 50000, Hour, now);
        var looked := LookupOutcome(reply);
        if gate1.Some? then r == Err(RateLimitExceeded) && sent == [] && limiter.requests == log1
        else if looked.Err? then r == Err(looked.error) && sent == [ArtistLookup(deezerID)] && limiter.requests == log1
        else
          var (log2, gate2) := Step(log1, 50000, Hour, albumsNow);
          var albums := if gate2.None? && AlbumsOutcome(albumsReply).Ok? then AlbumsOutcome(albumsReply).value else [];
          && limiter.requests == log2
          && sent == [ArtistLookup(deezerID)] + (if gate2.None? then [AlbumListing(deezerID, LookupAlbums)] else [])
          && r.Ok? && ConvertedFrom(r.value, looked.value, albums)
    {
      var gate := limiter.Allow(now);
      if gate.Some? {
        return Err(gate.value), [];
      }
      sent := [ArtistLookup(deezerID)];
      if reply.Answered? && reply.status == StatusNotFound {
        return Err(ArtistNotFound), sent;
      }
      var body := Expect(reply, "failed to get artist", "deezer get artist");
      if body.Err? {
        return Err(body.error), sent;
      }
      var albums, listing := GetArtistAlbums(deezerID, LookupAlbums, albumsNow, albumsReply);
      if listing.Some? {
        sent := sent + [listing.value];
      }
      var kept := if albums.Ok? then albums.value else [];
      var a := ConvertToArtist(body.value, kept);
      r := Ok(a);
    }

    /** `GetArtistAlbums`: the albums with their genre names and XL covers. */
    method GetArtistAlbums(deezerID: string, limit: int, now: Instant, reply: Reply<seq<DeezerAlbumRecord>>)
      returns (r: Result<seq<DeezerAlbum>>, sent: Option<Request>)
      requires Valid()
      modifies limiter
      ensures Valid()
      ensures var (log, gate) := Step(old(limiter.requests), 50000, Hour, now);
        && limiter.requests == log
        && (gate.Some? ==> r == Err(RateLimitExceeded) && sent == None)
        && (gate.None? ==> sent == Some(AlbumListing(deezerID, ListLimit(limit))) && r == AlbumsOutcome(reply))
    {
      var gate := limiter.Allow(now);
      if gate.Some? {
        return Err(gate.value), None;
      }
      sent := Some(AlbumListing(deezerID, ListLimit(limit)));
      var body := Expect(reply, "failed to get albums", "deezer get albums");
      if body.Err? {
        return Err(body.error), sent;
      }
      var albums := ConvertAlbums(body.value);
      r := Ok(albums);
    }

    /** `GetArtistTopTracks`. */
    method GetArtistTopTracks(deezerID: string, limit: int, now: Instant, reply: Reply<seq<DeezerTrackRecord>>)
      returns (r: Result<seq<DeezerTrack>>, sent: Option<Request>)
      requires Valid()
      modifies limiter
      ensures Valid()
      ensures var (log, gate) := Step(old(limiter.requests), 50000, Hour, now);
        && limiter.requests == log
        && (gate.Some? ==> r == Err(RateLimitExceeded) && sent == None)
        && (gate.None? ==> sent == Some(TopTracks(deezerID, TopLimit(limit))) && r == TracksOutcome(reply))
    {
      var gate := limiter.Allow(now);
      if gate.Some? {
        return Err(gate.value), None;
      }
      sent := Some(TopTracks(deezerID, TopLimit(limit)));
      var body := Expect(reply, "failed to get top tracks", "deezer get top tracks");
      if body.Err? {
        return Err(body.error), sent;
      }
      var tracks := MapAll(body.value, ToTrack);
      r := Ok(tracks);
    }
  }
}
