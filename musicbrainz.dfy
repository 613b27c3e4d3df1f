/**
 * The MusicBrainz client: artist search and lookup, release listing, the
 * conversion of a MusicBrainz artist to the domain record, and the
 * one-request-per-second throttle the service demands.
 */
module MusicBrainz {
  import opened Wrappers
  import opened Text
  import opened Domain
  import opened Remote
  import opened Sequences
  import Throttle
  import Dedup

  datatype MusicBrainzTag = MusicBrainzTag(count: int, name: string)

  /** A relation; only its type and its URL resource matter here. */
  datatype MusicBrainzRelation = MusicBrainzRelation(kind: string, resource: string)

  datatype MusicBrainzArtist = MusicBrainzArtist(
    id: string, name: string, tags: seq<MusicBrainzTag>, relations: seq<MusicBrainzRelation>, score: int)

  datatype MusicBrainzRelease = MusicBrainzRelease(
    id: string, title: string, date: string, country: string, status: string, packaging: string)

  /** The requests the client sends. */
  datatype Request =
    | ArtistQuery(query: string, limit: int)
    | ArtistLookup(musicBrainzID: string)
    | ReleaseQuery(artist: string, limit: int)

  // ------------------------------------------------------------ genres

  /** The tag names with a count of at least 3, in tag order. */
  function Genres(tags: seq<MusicBrainzTag>): seq<string>
  {
    if |tags| == 0 then []
    else
      var last := tags[|tags| - 1];
      if last.count >= 3 then Genres(tags[..|tags| - 1]) + [last.name] else Genres(tags[..|tags| - 1])
  }

  function TagNames(tags: seq<MusicBrainzTag>): (names: seq<string>)
    ensures |names| == |tags| && forall k :: 0 <= k < |tags| ==> names[k] == tags[k].name
  {
    if |tags| == 0 then [] else TagNames(tags[..|tags| - 1]) + [tags[|tags| - 1].name]
  }

  /** A genre is exactly the name of a tag counted at least 3 times, and genres keep the tags' order. */
  lemma {:induction false} GenresAreConfidentTags(tags: seq<MusicBrainzTag>)
    ensures forall g :: g in Genres(tags) <==> exists k :: 0 <= k < |tags| && tags[k].count >= 3 && tags[k].name == g
    ensures Dedup.IsSubseq(Genres(tags), TagNames(tags))
    decreases |tags|
  {
    if |tags| != 0 {
      var init, last := tags[..|tags| - 1], tags[|tags| - 1];
      GenresAreConfidentTags(init);
      assert tags == init + [last];
      var g := Genres(init);
      forall x ensures x in Genres(tags) <==> exists k :: 0 <= k < |tags| && tags[k].count >= 3 && tags[k].name == x {
        if x in g {
          var k :| 0 <= k < |init| && init[k].count >= 3 && init[k].name == x;
          assert tags[k] == init[k];
        }
        if exists k :: 0 <= k < |tags| && tags[k].count >= 3 && tags[k].name == x {
          var k :| 0 <= k < |tags| && tags[k].count >= 3 && tags[k].name == x;
          if k < |init| {
            assert init[k] == tags[k];
          }
        }
      }
      assert TagNames(tags) == TagNames(init) + [last.name];
      if last.count >= 3 {
        var q := g + [last.name];
        assert q[..|q| - 1] == g;
      } else {
        assert Genres(tags) == g + [] == g;
        Dedup.SubseqExtend(g, TagNames(init), last.name);
      }
    }
  }

  // ------------------------------------------------------------ popularity

  function TotalTagCount(tags: seq<MusicBrainzTag>): int
  {
    if |tags| == 0 then 0 else TotalTagCount(tags[..|tags| - 1]) + tags[|tags| - 1].count
  }

  /** The estimate from tag activity when the search gave no score. */
  function TagPopularity(total: int): (p: int)
    ensures 50 <= p <= 100
  {
    if total > 1000 then 100
    else if total > 500 then 90
    else if total > 100 then 80
    else if total > 50 then 70
    else if total > 10 then 60
    else 50
  }

  /** More tag activity never gives a lower estimate. */
  lemma TagPopularityMonotone(a: int, b: int)
    requires a <= b
    ensures TagPopularity(a) <= TagPopularity(b)
  {
  }

  /** The score capped at 100 when there is one, the tag estimate otherwise. */
  function Popularity(score: int, tags: seq<MusicBrainzTag>): (p: int)
    ensures 1 <= p <= 100
    ensures score > 0 ==> p == if score > 100 then 100 else score
    ensures score <= 0 ==> p >= 50
  {
    if score > 0 then (if score > 100 then 100 else score)
    else TagPopularity(TotalTagCount(tags))
  }

  // ------------------------------------------------------------ external IDs

  /** Segment `i` is the first `music` segment, and a segment follows it. */
  predicate FirstMusicAt(parts: seq<string>, i: int)
  {
    0 <= i < |parts| - 1 && parts[i] == "music" && forall j :: 0 <= j < i ==> parts[j] != "music"
  }

  /** The segment after the first `music` segment that has a successor. */
  function MusicSegment(parts: seq<string>): (r: Option<string>)
    ensures r.Some? <==> exists i :: 0 <= i < |parts| - 1 && parts[i] == "music"
    ensures r.Some? ==> exists i :: FirstMusicAt(parts, i) && r.value == parts[i + 1]
  {
    if |parts| < 2 then None
    else if parts[0] == "music" then
      assert FirstMusicAt(parts, 0);
      Some(parts[1])
    else
      MusicSegmentShift(parts, MusicSegment(parts[1..]));
      MusicSegment(parts[1..])
  }

  /** The first `music` segment of the tail, seen from the whole sequence. */
  lemma MusicSegmentShift(parts: seq<string>, r: Option<string>)
    requires |parts| >= 2 && parts[0] != "music"
    requires r.Some? <==> exists i :: 0 <= i < |parts[1..]| - 1 && parts[1..][i] == "music"
    requires r.Some? ==> exists i :: FirstMusicAt(parts[1..], i) && r.value == parts[1..][i + 1]
    ensures r.Some? <==> exists i :: 0 <= i < |parts| - 1 && parts[i] == "music"
    ensures r.Some? ==> exists i :: FirstMusicAt(parts, i) && r.value == parts[i + 1]
  {
    assert forall i :: 1 <= i < |parts| ==> parts[i] == parts[1..][i - 1];
    if r.Some? {
      var i :| FirstMusicAt(parts[1..], i) && r.value == parts[1..][i + 1];
      assert FirstMusicAt(parts, i + 1);
    }
    if exists i :: 0 <= i < |parts| - 1 && parts[i] == "music" {
      var i :| 0 <= i < |parts| - 1 && parts[i] == "music";
      assert parts[1..][i - 1] == "music";
    }
  }

  /** The Spotify artist ID of a spotify.com URL: its last path segment, when non-empty. */
  function SpotifyIDOf(resource: string): (r: Option<string>)
    ensures r.Some? ==> r.value != "" && Contains(resource, "spotify.com") && !Contains(r.value, "/")
  {
    if !Contains(resource, "spotify.com") then None
    else
      var parts := Split(resource, "/");
      SplitPartsFree(resource, "/");
      if parts[|parts| - 1] != "" then Some(parts[|parts| - 1]) else None
  }

  /** The Last.fm artist of a last.fm URL: the segment after `music`, when non-empty. */
  function LastFMIDOf(resource: string): (r: Option<string>)
    ensures r.Some? ==> r.value != "" && Contains(resource, "last.fm") && !Contains(r.value, "/")
  {
    if !Contains(resource, "last.fm") then None
    else
      var parts := Split(resource, "/");
      SplitPartsFree(resource, "/");
      var m := MusicSegment(parts);
      if m.Some? && m.value != "" then m else None
  }

  /** What a relation supplies: only URL relations with a resource count. */
  function SpotifyPick(rel: MusicBrainzRelation): (r: Option<string>)
    ensures r.Some? ==> r.value != ""
  {
    if rel.kind == "url" && rel.resource != "" then SpotifyIDOf(rel.resource) else None
  }

  function LastFMPick(rel: MusicBrainzRelation): (r: Option<string>)
    ensures r.Some? ==> r.value != ""
  {
    if rel.kind == "url" && rel.resource != "" then LastFMIDOf(rel.resource) else None
  }

  /** The value the last supplying relation gives, `""` when none does. */
  function Latest(rels: seq<MusicBrainzRelation>, pick: MusicBrainzRelation -> Option<string>): string
  {
    if |rels| == 0 then ""
    else
      var p := pick(rels[|rels| - 1]);
      if p.Some? then p.value else Latest(rels[..|rels| - 1], pick)
  }

  /** The IDs the relations loop leaves behind: each field is overwritten by every relation that supplies it. */
  function ExternalIDsOf(rels: seq<MusicBrainzRelation>): ExternalIDs
  {
    ExternalIDs(Latest(rels, SpotifyPick), Latest(rels, LastFMPick))
  }

  /** Relation `k` supplies `id`, and no later relation supplies anything. */
  predicate LastSupplier(rels: seq<MusicBrainzRelation>, pick: MusicBrainzRelation -> Option<string>, k: int, id: string)
  {
    0 <= k < |rels| && pick(rels[k]) == Some(id) && forall j :: k < j < |rels| ==> pick(rels[j]).None?
  }

  /**
   * The result is empty exactly when no relation supplies a value, and
   * otherwise is the value of the last relation that does: later
   * relations overwrite earlier ones.
   */
  lemma {:induction false} LatestLastWins(rels: seq<MusicBrainzRelation>, pick: MusicBrainzRelation -> Option<string>)
    requires forall rel :: pick(rel).Some? ==> pick(rel).value != ""
    ensures Latest(rels, pick) == "" <==> forall k :: 0 <= k < |rels| ==> pick(rels[k]).None?
    ensures Latest(rels, pick) != "" ==> exists k :: LastSupplier(rels, pick, k, Latest(rels, pick))
    decreases |rels|
  {
    if |rels| != 0 {
      var init, last := rels[..|rels| - 1], rels[|rels| - 1];
      LatestLastWins(init, pick);
      var id := Latest(rels, pick);
      assert forall k :: 0 <= k < |init| ==> init[k] == rels[k];
      if pick(last).Some? {
        assert LastSupplier(rels, pick, |rels| - 1, id);
      } else if id != "" {
        var k :| LastSupplier(init, pick, k, id);
        assert LastSupplier(rels, pick, k, id);
      }
    }
  }

  /** Both extracted IDs follow the last-wins rule. */
  lemma ExternalIDsLastWins(rels: seq<MusicBrainzRelation>)
    ensures var ids := ExternalIDsOf(rels);
      && (ids.spotifyID == "" <==> forall k :: 0 <= k < |rels| ==> SpotifyPick(rels[k]).None?)
      && (ids.spotifyID != "" ==> exists k :: LastSupplier(rels, SpotifyPick, k, ids.spotifyID))
      && (ids.lastFMID == "" <==> forall k :: 0 <= k < |rels| ==> LastFMPick(rels[k]).None?)
      && (ids.lastFMID != "" ==> exists k :: LastSupplier(rels, LastFMPick, k, ids.lastFMID))
  {
    LatestLastWins(rels, SpotifyPick);
    LatestLastWins(rels, LastFMPick);
  }

  // ------------------------------------------------------------ conversion

  /** `convertToArtist`, as a value. */
  function ToArtist(mb: MusicBrainzArtist): Artist
  {
    Artist("musicbrainz_" + mb.id, mb.name, ExternalIDsOf(mb.relations), Genres(mb.tags),
           Popularity(mb.score, mb.tags), "", ZeroInstant, ZeroInstant)
  }

  /** The Last.fm segment search, with the loop's early exit. */
  method FindMusicSegment(parts: seq<string>) returns (r: Option<string>)
    ensures r == MusicSegment(parts)
  {
    for i := 0 to |parts|
      invariant forall j :: 0 <= j < i && j < |parts| - 1 ==> parts[j] != "music"
      invariant MusicSegment(parts) == MusicSegment(parts[i..]) || (exists j :: 0 <= j < i && j < |parts| - 1 && parts[j] == "music")
    {
      if parts[i] == "music" && i + 1 < |parts| {
        MusicSegmentAt(parts, i);
        return Some(parts[i + 1]);
      }
      MusicSegmentSkip(parts, i);
    }
    MusicSegmentNone(parts);
    r := None;
  }

  lemma MusicSegmentAt(parts: seq<string>, i: nat)
    requires i < |parts| - 1 && parts[i] == "music" && forall j :: 0 <= j < i ==> parts[j] != "music"
    ensures MusicSegment(parts) == Some(parts[i + 1])
  {
    var r := MusicSegment(parts);
    var k :| FirstMusicAt(parts, k) && r.value == parts[k + 1];
    assert k == i;
  }

  lemma MusicSegmentSkip(parts: seq<string>, i: nat)
    requires i < |parts|
    ensures !(parts[i] == "music" && i + 1 < |parts|) ==> MusicSegment(parts[i..]) == MusicSegment(parts[i + 1..])
  {
    var p := parts[i..];
    if !(parts[i] == "music" && i + 1 < |parts|) && |p| >= 2 {
      assert p[1..] == parts[i + 1..];
    }
  }

  lemma MusicSegmentNone(parts: seq<string>)
    requires forall j :: 0 <= j < |parts| - 1 ==> parts[j] != "music"
    ensures MusicSegment(parts) == None
  {
  }

  /** `convertToArtist`, with its three accumulating loops. */
  method ConvertToArtist(mb: MusicBrainzArtist) returns (a: Artist)
    ensures a == ToArtist(mb)
  {
    var genres := CollectGenres(mb.tags);
    var popularity := 0;
    if mb.score > 0 {
      popularity := mb.score;
      if popularity > 100 {
        popularity := 100;
      }
    } else {
      var total := SumTagCounts(mb.tags);
      popularity := TagPopularity(total);
    }
    var ids := CollectExternalIDs(mb.relations);
    a := Artist("musicbrainz_" + mb.id, mb.name, ids, genres, popularity, "", ZeroInstant, ZeroInstant);
  }

  /** The genre loop of the conversion: the names of tags counted at least three times. */
  method CollectGenres(tags: seq<MusicBrainzTag>) returns (genres: seq<string>)
    ensures genres == Genres(tags)
  {
    genres := [];
    for i := 0 to |tags|
      invariant genres == Genres(tags[..i])
    {
      assert tags[..i + 1][..i] == tags[..i];
      if tags[i].count >= 3 {
        genres := genres + [tags[i].name];
      }
    }
    assert tags[..|tags|] == tags;
  }

  /** The tag-count sum used when there is no search score. */
  method SumTagCounts(tags: seq<MusicBrainzTag>) returns (total: int)
    ensures total == TotalTagCount(tags)
  {
    total := 0;
    for i := 0 to |tags|
      invariant total == TotalTagCount(tags[..i])
    {
      assert tags[..i + 1][..i] == tags[..i];
      total := total + tags[i].count;
    }
    assert tags[..|tags|] == tags;
  }

  /** The relation loop of the conversion: a later Spotify or Last.fm link overwrites an earlier one. */
  method CollectExternalIDs(rels: seq<MusicBrainzRelation>) returns (ids: ExternalIDs)
    ensures ids == ExternalIDsOf(rels)
  {
    ids := NoExternalIDs;
    for i := 0 to |rels|
      invariant ids == ExternalIDsOf(rels[..i])
    {
      assert rels[..i + 1][..i] == rels[..i];
      assert rels[..i + 1][i] == rels[i];
      var rel := rels[i];
      if rel.kind == "url" && rel.resource != "" {
        if Contains(rel.resource, "spotify.com") {
          var parts := Split(rel.resource, "/");
          if parts[|parts| - 1] != "" {
            ids := ids.(spotifyID := parts[|parts| - 1]);
          }
        }
        if Contains(rel.resource, "last.fm") {
          var parts := Split(rel.resource, "/");
          var m := FindMusicSegment(parts);
          if m.Some? && m.value != "" {
            ids := ids.(lastFMID := m.value);
          }
        }
      }
    }
    assert rels[..|rels|] == rels;
  }

  /** Converted artists keep their order; each gets a `musicbrainz_` ID, a popularity in 1..100 and no image. */
  lemma ConvertedArtist(mb: MusicBrainzArtist)
    ensures var a := ToArtist(mb);
      && HasPrefix(a.id, "musicbrainz_") && a.id[|"musicbrainz_"|..] == mb.id
      && a.name == mb.name && a.imageURL == "" && 1 <= a.popularity <= 100
      && |a.genres| <= |mb.tags|
  {
    GenresAreConfidentTags(mb.tags);
    Dedup.SubseqLength(Genres(mb.tags), TagNames(mb.tags));
  }

  method ConvertAll(data: seq<MusicBrainzArtist>) returns (out: seq<Artist>)
    ensures out == Map(data, ToArtist)
  {
    out := [];
    for i := 0 to |data|
      invariant |out| == i && forall k :: 0 <= k < i ==> out[k] == ToArtist(data[k])
    {
      var a := ConvertToArtist(data[i]);
      out := out + [a];
    }
    assert out == Map(data, ToArtist);
  }

  // ------------------------------------------------------------ limits and replies

  /** The search and release limits: 10 when unset, at most 100. */
  function ClampLimit(limit: int): (l: int)
    ensures 1 <= l <= 100
    ensures 1 <= limit <= 100 ==> l == limit
    ensures limit <= 0 ==> l == 10
    ensures limit > 100 ==> l == 100
  {
    if limit <= 0 then 10 else if limit > 100 then 100 else limit
  }

  /** A search's reply: 503 is MusicBrainz's way of saying "slow down". */
  function SearchOutcome(reply: Reply<seq<MusicBrainzArtist>>): (r: Result<seq<Artist>>)
    ensures reply.Answered? && reply.status == StatusServiceUnavailable ==> r == Err(RateLimitExceeded)
    ensures r.Ok? <==> reply.Answered? && reply.status == StatusOK && reply.body.Ok?
    ensures r.Ok? ==> |r.value| == |reply.body.value| &&
                      forall i :: 0 <= i < |r.value| ==> r.value[i] == ToArtist(reply.body.value[i])
  {
    if reply.Answered? && reply.status == StatusServiceUnavailable then Err(RateLimitExceeded)
    else match Expect(reply, "failed to search artists", "musicbrainz search")
      case Err(e) => Err(e)
      case Ok(data) => Ok(Map(data, ToArtist))
  }

  class MusicBrainzRateLimiter {
    var lastRequest: Option<Instant>
    const interval: int

    /** `newMusicBrainzRateLimiter`: one second between requests, and no request yet. */
    constructor ()
      ensures interval == Second && lastRequest == None
    {
      interval := Second;
      lastRequest := None;
    }

    /**
     * `Allow` at `now`: sleep what is left of the interval, then record the
     * time the request leaves. It never refuses.
     */
    method Allow(now: Instant) returns (err: Option<Error>, leaves: Instant)
      modifies this`lastRequest
      ensures err == None
      ensures leaves == now + Throttle.Remaining(old(lastRequest), interval, now) && lastRequest == Some(leaves)
      ensures leaves >= now
      ensures old(lastRequest).Some? ==> leaves >= old(lastRequest).value + interval
    {
      var w := Throttle.Remaining(lastRequest, interval, now);
      leaves := now + w;
      lastRequest := Some(leaves);
      err := None;
    }
  }

  /** Two requests let through one after the other leave at least an interval apart. */
  lemma ThrottleSpacing(last: Option<Instant>, interval: int, now1: Instant, now2: Instant)
    requires now1 <= now2
    ensures var leaves1 := now1 + Throttle.Remaining(last, interval, now1);
      var leaves2 := now2 + Throttle.Remaining(Some(leaves1), interval, now2);
      leaves2 >= leaves1 + interval && leaves2 >= now2
  {
  }

  class MusicBrainzClient {
    const userAgent: string
    const limiter: MusicBrainzRateLimiter

    ghost predicate Valid()
      reads this, limiter
    {
      limiter.interval == Second
    }

    /** `NewMusicBrainzClient`: MusicBrainz requires an identifying user agent. */
    static method New(userAgent: string) returns (r: Result<MusicBrainzClient>)
      ensures userAgent == "" <==> r.Err?
      ensures r.Err? ==> r.error == Failure("musicbrainz user agent is required")
      ensures r.Ok? ==> fresh(r.value) && fresh(r.value.limiter) && r.value.Valid() && r.value.userAgent == userAgent &&
                        r.value.limiter.lastRequest == None
    {
      if userAgent == "" {
        return Err(Failure("musicbrainz user agent is required"));
      }
      var c := new MusicBrainzClient.Init(userAgent);
      r := Ok(c);
    }

    constructor Init(userAgent: string)
      ensures this.userAgent == userAgent && fresh(limiter) && Valid() && limiter.lastRequest == None
    {
      var l := new MusicBrainzRateLimiter();
      this.userAgent := userAgent;
      limiter := l;
    }

    /** `SearchArtists`: throttle, reject a blank query, clamp the limit, then convert every artist found. */
    method SearchArtists(query: string, limit: int, now: Instant, reply: Reply<seq<MusicBrainzArtist>>)
      returns (r: Result<seq<Artist>>, sent: Option<Request>)
      requires Valid()
      modifies limiter`lastRequest
      ensures Valid()
      ensures limiter.lastRequest == Some(now + Throttle.Remaining(old(limiter.lastRequest), Second, now))
      ensures TrimSpace(query) == "" ==> r == Err(InvalidRequest) && sent == None
      ensures TrimSpace(query) != "" ==>
                sent == Some(ArtistQuery("artist:" + TrimSpace(query), ClampLimit(limit))) && r == SearchOutcome(reply)
    {
      var refused, leaves := limiter.Allow(now);
      var q := TrimSpace(query);
      if q == "" {
        return Err(InvalidRequest), None;
      }
      var l := limit;
      if l <= 0 {
        l := 10;
      }
      if l > 100 {
        l := 100;
      }
      sent := Some(ArtistQuery("artist:" + q, l));
      if reply.Answered? && reply.status == StatusServiceUnavailable {
        return Err(RateLimitExceeded), sent;
      }
      var body := Expect(reply, "failed to search artists", "musicbrainz search");
      if body.Err? {
        return Err(body.error), sent;
      }
      var artists := ConvertAll(body.value);
      r := Ok(artists);
    }

    /** `GetArtist`: 404 is "artist not found". */
    method GetArtist(musicBrainzID: string, now: Instant, reply: Reply<MusicBrainzArtist>) returns (r: Result<Artist>)
      requires Valid()
      modifies limiter`lastRequest
      ensures Valid()
      ensures limiter.lastRequest == Some(now + Throttle.Remaining(old(limiter.lastRequest), Second, now))
      ensures reply.Answered? && reply.status == StatusNotFound ==> r == Err(ArtistNotFound)
      ensures !(reply.Answered? && reply.status == StatusNotFound) ==>
                r == match Expect(reply, "failed to get artist", "musicbrainz get artist")
                     case Err(e) => Err(e)
                     case Ok(mb) => Ok(ToArtist(mb))
    {
      var refused, leaves := limiter.Allow(now);
      if reply.Answered? && reply.status == StatusNotFound {
        return Err(ArtistNotFound);
      }
      var body := Expect(reply, "failed to get artist", "musicbrainz get artist");
      if body.Err? {
        return Err(body.error);
      }
      var a := ConvertToArtist(body.value);
      r := Ok(a);
    }

    /** `GetArtistReleases`: the limit is clamped and the releases are passed through field by field. */
    method GetArtistReleases(musicBrainzID: string, limit: int, now: Instant, reply: Reply<seq<MusicBrainzRelease>>)
      returns (r: Result<seq<MusicBrainzRelease>>, sent: Request)
      requires Valid()
      modifies limiter`lastRequest
      ensures Valid()
      ensures limiter.lastRequest == Some(now + Throttle.Remaining(old(limiter.lastRequest), Second, now))
      ensures sent == ReleaseQuery(musicBrainzID, ClampLimit(limit))
      ensures r == Expect(reply, "failed to get releases", "musicbrainz get releases")
    {
      var refused, leaves := limiter.Allow(now);
      sent := ReleaseQuery(musicBrainzID, ClampLimit(limit));
      r := Expect(reply, "failed to get releases", "musicbrainz get releases");
    }
  }
}
