/**
 * The SoundCloud client: user search and lookup, track listing and track
 * search, and the conversions behind them (follower-based popularity, the
 * artwork upgrade, the tag-list parser). It holds a one-hour sliding-window
 * limiter of 15000 requests.
 */
module SoundCloud {
  import opened Wrappers
  import opened Text
  import opened Numerals
  import opened Domain
  import opened Remote
  import opened Sequences
  import opened SlidingWindow
  import opened Keywords
  import AppleMusic

  datatype SoundCloudUser = SoundCloudUser(
    id: int, username: string, avatarURL: string, fullName: string, description: string,
    trackCount: int, followersCount: int)

  /** A track as decoded, with the name of the user who posted it. */
  datatype SoundCloudTrackRecord = SoundCloudTrackRecord(
    id: int, title: string, genre: string, duration: int, playbackCount: int, favoritingsCount: int,
    commentCount: int, createdAt: string, description: string, permalinkURL: string, artworkURL: string,
    tagList: string, userName: string)

  datatype SoundCloudTrack = SoundCloudTrack(
    id: int, title: string, genre: string, duration: int, playbackCount: int, favoritingsCount: int,
    commentCount: int, createdAt: string, description: string, permalinkURL: string, artworkURL: string,
    tags: seq<string>, userName: string)

  /** The requests the client sends. */
  datatype Request =
    | UserSearch(query: string, limit: int)
    | UserLookup(userID: string)
    | TrackListing(userID: string, limit: int)
    | TrackSearch(query: string, limit: int)

  // ------------------------------------------------------------ popularity

  /** The follower-count bucket. */
  function FollowerBucket(followers: int): (p: int)
    ensures 50 <= p <= 100
  {
    if followers > 1000000 then 100
    else if followers > 500000 then 95
    else if followers > 100000 then 90
    else if followers > 50000 then 85
    else if followers > 10000 then 80
    else if followers > 5000 then 75
    else if followers > 1000 then 70
    else if followers > 500 then 65
    else if followers > 100 then 60
    else 50
  }

  /** The boost for an active artist. */
  function TrackBoost(tracks: int): (b: int)
    ensures 0 <= b <= 5
  {
    if tracks > 100 then 5 else if tracks > 50 then 3 else if tracks > 20 then 2 else 0
  }

  function Min(a: int, b: int): int { if a < b then a else b }

  /** The follower bucket raised by the track boost, capped at 100. */
  function Popularity(followers: int, tracks: int): int
  {
    Min(100, FollowerBucket(followers) + TrackBoost(tracks))
  }

  /** Popularity lies in 50..100, is at least the follower bucket, and a boost never takes it past 100. */
  lemma PopularityRange(followers: int, tracks: int)
    ensures 50 <= Popularity(followers, tracks) <= 100
    ensures Popularity(followers, tracks) >= FollowerBucket(followers)
    ensures tracks <= 20 ==> Popularity(followers, tracks) == FollowerBucket(followers)
  {
  }

  /** More followers and more tracks never lower the popularity. */
  lemma PopularityMonotone(f: int, t: int, f': int, t': int)
    requires f <= f' && t <= t'
    ensures Popularity(f, t) <= Popularity(f', t')
  {
    assert FollowerBucket(f) <= FollowerBucket(f');
    assert TrackBoost(t) <= TrackBoost(t');
  }

  // ------------------------------------------------------------ artwork

  const LargeJPG := "large.jpg"
  const LargePNG := "large.png"
  const BigJPG := "t500x500.jpg"
  const BigPNG := "t500x500.png"

  /** `processArtworkURL`: the first `large.jpg` and then the first `large.png` become `t500x500.*`. */
  function ProcessArtworkURL(artworkURL: string): string
  {
    if artworkURL == "" then ""
    else ReplaceFirst(ReplaceFirst(artworkURL, LargeJPG, BigJPG), LargePNG, BigPNG)
  }

  /** The characters that keep the four names from overlapping one another. */
  lemma ArtworkNamesApart()
    ensures LargeJPG[0] == 'l' && LargePNG[0] == 'l' && BigJPG[0] == 't' && BigPNG[0] == 't'
    ensures 'l' !in LargeJPG[1..] && 'l' !in LargePNG[1..] && 'l' !in BigJPG && 'l' !in BigPNG
    ensures 't' !in LargeJPG[1..] && 't' !in LargePNG[1..]
    ensures LargeJPG != LargePNG[..|LargeJPG|]
  {
    assert LargeJPG[1..] == "arge.jpg" && LargePNG[1..] == "arge.png";
    assert LargePNG[..|LargeJPG|] == LargePNG && LargeJPG[6] != LargePNG[6];
  }

  /** A URL without either name is left alone, and so is the empty URL. */
  lemma ArtworkUnchanged(u: string)
    requires !Contains(u, LargeJPG) && !Contains(u, LargePNG)
    ensures ProcessArtworkURL(u) == u
  {
  }

  /** Replacing the first `large.jpg` keeps every `large.png`, at a shifted place when it comes later. */
  lemma JPGStepKeepsPNG(u: string, j: int)
    requires Contains(u, LargeJPG) && OccursAt(u, LargePNG, j)
    ensures Contains(ReplaceFirst(u, LargeJPG, BigJPG), LargePNG)
  {
    var i := IndexOf(u, LargeJPG);
    var v := ReplaceFirst(u, LargeJPG, BigJPG);
    assert v == u[..i] + BigJPG + u[i + |LargeJPG|..];
    ArtworkNamesApart();
    Overlap(u, LargeJPG, LargePNG, i, j);
    Overlap(u, LargePNG, LargeJPG, j, i);
    SpliceKeeps(u, i, |LargeJPG|, BigJPG, LargePNG, j);
    var p := if j + |LargePNG| <= i then j else j - |LargeJPG| + |BigJPG|;
    assert OccursAt(v, LargePNG, p);
    ContainsWitness(v, LargePNG, p);
  }

  /** Every `large.png` that survives to the second step is upgraded there, so the result names `t500x500.png`. */
  lemma ArtworkUpgradesPNG(u: string)
    requires Contains(u, LargePNG)
    ensures Contains(ProcessArtworkURL(u), BigPNG)
  {
    var v := ReplaceFirst(u, LargeJPG, BigJPG);
    if Contains(u, LargeJPG) {
      ContainsIff(u, LargePNG);
      var j :| OccursAt(u, LargePNG, j);
      JPGStepKeepsPNG(u, j);
    }
    var k := IndexOf(v, LargePNG);
    var w := ReplaceFirst(v, LargePNG, BigPNG);
    assert u != "" && ProcessArtworkURL(u) == w;
    assert w == v[..k] + BigPNG + v[k + |LargePNG|..];
    assert w[k..k + |BigPNG|] == BigPNG;
    ContainsWitness(w, BigPNG, k);
  }

  /** A `large.jpg` in the URL is upgraded, and the `t500x500.jpg` it becomes survives the second step. */
  lemma ArtworkUpgradesJPG(u: string)
    requires Contains(u, LargeJPG)
    ensures Contains(ProcessArtworkURL(u), BigJPG)
  {
    var i := IndexOf(u, LargeJPG);
    var a, b := u[..i], u[i + |LargeJPG|..];
    var v := ReplaceFirst(u, LargeJPG, BigJPG);
    assert v == a + BigJPG + b;
    assert OccursAt(v, BigJPG, i) by {
      assert v[i..i + |BigJPG|] == BigJPG;
    }
    var w := ReplaceFirst(v, LargePNG, BigPNG);
    assert u != "" && ProcessArtworkURL(u) == w;
    var p := i;
    if Contains(v, LargePNG) {
      var k := IndexOf(v, LargePNG);
      assert w == v[..k] + BigPNG + v[k + |LargePNG|..];
      ArtworkNamesApart();
      SpliceApart(a, BigJPG, b, LargePNG, k);
      SpliceKeeps(v, k, |LargePNG|, BigPNG, BigJPG, i);
      p := if k + |LargePNG| <= i then i - |LargePNG| + |BigPNG| else i;
    }
    assert OccursAt(w, BigJPG, p);
    ContainsWitness(w, BigJPG, p);
  }

  // ------------------------------------------------------------ tags

  /** The tag a quoted part gives: the part trimmed, if anything is left. */
  function QuotedTag(part: string): seq<string>
  {
    var t := TrimSpace(part);
    if t != "" then [t] else []
  }

  /** The tags of the fields of an unquoted part: each field trimmed, empty ones dropped. */
  function FieldTags(fields: seq<string>): seq<string>
  {
    if |fields| == 0 then []
    else FieldTags(fields[..|fields| - 1]) + QuotedTag(fields[|fields| - 1])
  }

  /** The tags of the part at `index` of the split on `"`: odd parts were inside quotes. */
  function PartTags(part: string, index: int): seq<string>
  {
    if index % 2 == 1 then QuotedTag(part) else FieldTags(Fields(part))
  }

  function TagsOfParts(parts: seq<string>): seq<string>
  {
    if |parts| == 0 then []
    else TagsOfParts(parts[..|parts| - 1]) + PartTags(parts[|parts| - 1], |parts| - 1)
  }

  /** `parseTags`: the tags of a `tag_list`. */
  function Tags(tagList: string): seq<string>
  {
    if tagList == "" then [] else TagsOfParts(Split(tagList, "\""))
  }

  /** A trimmed tag is non-empty and neither starts nor ends with white space. */
  predicate Trimmed(t: string)
  {
    |t| > 0 && !IsSpace(t[0]) && !IsSpace(t[|t| - 1])
  }

  lemma QuotedTagTrimmed(part: string)
    ensures forall t :: t in QuotedTag(part) ==> Trimmed(t)
  {
  }

  lemma {:induction false} FieldTagsTrimmed(fields: seq<string>)
    ensures forall t :: t in FieldTags(fields) ==> Trimmed(t)
    decreases |fields|
  {
    if |fields| != 0 {
      FieldTagsTrimmed(fields[..|fields| - 1]);
      QuotedTagTrimmed(fields[|fields| - 1]);
    }
  }

  lemma {:induction false} TagsOfPartsTrimmed(parts: seq<string>)
    ensures forall t :: t in TagsOfParts(parts) ==> Trimmed(t)
    decreases |parts|
  {
    if |parts| != 0 {
      var n := |parts| - 1;
      TagsOfPartsTrimmed(parts[..n]);
      QuotedTagTrimmed(parts[n]);
      FieldTagsTrimmed(Fields(parts[n]));
    }
  }

  /** No tag is empty, and none starts or ends with white space. */
  lemma TagsTrimmed(tagList: string)
    ensures forall t :: t in Tags(tagList) ==> Trimmed(t)
  {
    if tagList != "" {
      TagsOfPartsTrimmed(Split(tagList, "\""));
    }
  }

  /** A solid word is its own tag. */
  lemma QuotedTagOfSolid(f: string)
    requires Solid(f)
    ensures QuotedTag(f) == [f]
  {
    TrimSpaceSolid(f);
  }

  /** Fields are already trimmed and non-empty, so their tags are the fields themselves. */
  lemma {:induction false} FieldTagsOfSolid(fields: seq<string>)
    requires forall k :: 0 <= k < |fields| ==> Solid(fields[k])
    ensures FieldTags(fields) == fields
    decreases |fields|
  {
    if |fields| != 0 {
      var n := |fields| - 1;
      var init := fields[..n];
      assert forall k :: 0 <= k < |init| ==> init[k] == fields[k];
      FieldTagsOfSolid(init);
      QuotedTagOfSolid(fields[n]);
      SplitLast(fields);
    }
  }

  /** A tag list without quotes gives its white-space separated words. */
  lemma UnquotedTags(tagList: string)
    requires '"' !in tagList
    ensures Tags(tagList) == Fields(tagList)
  {
    if tagList == "" {
      FieldsOfBlank(tagList);
    } else {
      ContainsChar(tagList, '"');
      assert Split(tagList, "\"") == [tagList];
      assert TagsOfParts([tagList]) == TagsOfParts([]) + PartTags(tagList, 0);
      var fs := Fields(tagList);
      FieldsSolid(tagList);
      assert forall k :: 0 <= k < |fs| ==> fs[k] in fs;
      FieldTagsOfSolid(fs);
    }
  }

  /** The first quote of a text whose only quote before `i` is at `i`. */
  lemma OnlyQuote(s: string, i: int)
    requires 0 <= i < |s| && s[i] == '"' && '"' !in s[..i]
    ensures IndexOf(s, "\"") == i
  {
    assert OccursAt(s, "\"", i) by {
      assert s[i..i + 1] == [s[i]];
    }
    forall j | 0 <= j < i
      ensures !OccursAt(s, "\"", j)
    {
      assert s[..i][j] == s[j];
      assert j + 1 <= |s| ==> s[j..j + 1] == [s[j]];
    }
  }

  /** The split of `"<t>"` on the quote, for `t` without quotes. */
  lemma SplitQuoted(t: string)
    requires '"' !in t
    ensures Split("\"" + t + "\"", "\"") == ["", t, ""]
  {
    var s := "\"" + t + "\"";
    assert HasPrefix(s, "\"");
    SplitStep(s, "\"", 0);
    var rest := s[1..];
    assert rest == t + "\"";
    assert rest[..|t|] == t;
    OnlyQuote(rest, |t|);
    SplitStep(rest, "\"", |t|);
    assert rest[|t| + 1..] == "";
    assert Split("", "\"") == [""];
  }

  /** The tags of the three parts around one quoted text. */
  lemma TagsOfQuotedParts(t: string)
    ensures TagsOfParts(["", t, ""]) == QuotedTag(t)
  {
    var parts := ["", t, ""];
    assert parts[..2] == ["", t];
    assert ["", t][..1] == [""];
    assert [""][..0] == [];
    FieldsOfBlank("");
    assert TagsOfParts([""]) == [];
    assert TagsOfParts(["", t]) == QuotedTag(t);
  }

  /** A single quoted tag: `"<t>"` gives `t` trimmed, when `t` holds no quote and is not blank. */
  lemma QuotedTagList(t: string)
    requires '"' !in t && TrimSpace(t) != ""
    ensures Tags("\"" + t + "\"") == [TrimSpace(t)]
  {
    SplitQuoted(t);
    TagsOfQuotedParts(t);
  }

  /** The inner loop of `parseTags`, over the fields of one unquoted part. */
  method AppendFieldTags(tags: seq<string>, fields: seq<string>) returns (out: seq<string>)
    ensures out == tags + FieldTags(fields)
  {
    out := tags;
    for k := 0 to |fields|
      invariant out == tags + FieldTags(fields[..k])
    {
      assert fields[..k + 1][..k] == fields[..k];
      assert FieldTags(fields[..k + 1]) == FieldTags(fields[..k]) + QuotedTag(fields[k]);
      AppendAssoc(tags, FieldTags(fields[..k]), QuotedTag(fields[k]));
      var tag := TrimSpace(fields[k]);
      if tag != "" {
        out := out + [tag];
      }
    }
    assert fields[..|fields|] == fields;
  }

  /** `parseTags`. */
  method ParseTags(tagList: string) returns (tags: seq<string>)
    ensures tags == Tags(tagList)
  {
    if tagList == "" {
      return [];
    }
    var parts := Split(tagList, "\"");
    tags := [];
    for i := 0 to |parts|
      invariant tags == TagsOfParts(parts[..i])
    {
      assert parts[..i + 1][..i] == parts[..i];
      assert TagsOfParts(parts[..i + 1]) == TagsOfParts(parts[..i]) + PartTags(parts[i], i);
      if i % 2 == 1 {
        var tag := TrimSpace(parts[i]);
        if tag != "" {
          tags := tags + [tag];
        }
      } else {
        tags := AppendFieldTags(tags, Fields(parts[i]));
      }
    }
    assert parts[..|parts|] == parts;
  }

  // ------------------------------------------------------------ conversion

  const SoundCloudGenres: seq<string> := [
    "electronic", "house", "techno", "trance", "dubstep", "drum and bass", "dnb",
    "hip hop", "rap", "trap", "lo-fi", "chill", "ambient", "downtempo",
    "rock", "indie", "alternative", "pop", "folk", "acoustic",
    "jazz", "blues", "soul", "funk", "r&b", "reggae",
    "experimental", "synthwave", "vaporwave", "future bass", "deep house"]

  /** `extractGenresFromDescription`: nothing for an empty description, otherwise the listed genres it mentions. */
  function Genres(description: string): seq<string>
  {
    if description == "" then [] else KeywordsIn(description, SoundCloudGenres)
  }

  /** The early return for an empty description agrees with the scan, which finds nothing there. */
  lemma GenresAreKeywords(description: string)
    ensures Genres(description) == KeywordsIn(description, SoundCloudGenres)
  {
    if description == "" {
      NoKeywordsInEmpty(SoundCloudGenres);
    }
  }

  method ExtractGenres(description: string) returns (genres: seq<string>)
    ensures genres == Genres(description)
  {
    if description == "" {
      return [];
    }
    genres := ScanKeywords(description, SoundCloudGenres);
  }

  function DisplayName(user: SoundCloudUser): string
  {
    if user.fullName != "" then user.fullName else user.username
  }

  function ToArtist(user: SoundCloudUser): Artist
  {
    Artist("soundcloud_" + IntToString(user.id), DisplayName(user), NoExternalIDs, Genres(user.description),
           Popularity(user.followersCount, user.trackCount), ProcessArtworkURL(user.avatarURL), ZeroInstant, ZeroInstant)
  }

  /**
   * A converted artist: a `soundcloud_` ID, the full name when there is one
   * and the user name otherwise, a popularity in 50..100, listed genres
   * the description mentions, and no external IDs.
   */
  lemma ConvertedArtist(user: SoundCloudUser)
    ensures var a := ToArtist(user);
      && HasPrefix(a.id, "soundcloud_") && a.id[|"soundcloud_"|..] == IntToString(user.id)
      && (user.fullName != "" ==> a.name == user.fullName)
      && (user.fullName == "" ==> a.name == user.username)
      && 50 <= a.popularity <= 100
      && (forall g :: g in a.genres ==> g in SoundCloudGenres && Contains(ToLower(user.description), g))
      && a.externalIDs == NoExternalIDs
  {
    PopularityRange(user.followersCount, user.trackCount);
    GenresAreKeywords(user.description);
    KeywordsInMeans(user.description, SoundCloudGenres);
  }

  /** Distinct SoundCloud user IDs give distinct artist IDs. */
  lemma ArtistIDsDistinct(u: SoundCloudUser, v: SoundCloudUser)
    requires u.id != v.id
    ensures ToArtist(u).id != ToArtist(v).id
  {
    var p := "soundcloud_";
    if ToArtist(u).id == ToArtist(v).id {
      assert (p + IntToString(u.id))[|p|..] == IntToString(u.id);
      assert (p + IntToString(v.id))[|p|..] == IntToString(v.id);
      IntToStringInjective(u.id, v.id);
    }
  }

  method ConvertToArtist(user: SoundCloudUser) returns (a: Artist)
    ensures a == ToArtist(user)
  {
    var popularity := FollowerBucket(user.followersCount);
    if user.trackCount > 100 {
      popularity := Min(100, popularity + 5);
    } else if user.trackCount > 50 {
      popularity := Min(100, popularity + 3);
    } else if user.trackCount > 20 {
      popularity := Min(100, popularity + 2);
    }
    var genres := ExtractGenres(user.description);
    a := Artist("soundcloud_" + IntToString(user.id), DisplayName(user), NoExternalIDs, genres,
                popularity, ProcessArtworkURL(user.avatarURL), ZeroInstant, ZeroInstant);
  }

  /** Only users with tracks are taken for artists. */
  predicate HasTracks(user: SoundCloudUser) { user.trackCount > 0 }

  const IsArtist: SoundCloudUser -> bool := HasTracks

  /** The loop of `SearchArtists` over the decoded users. */
  method ConvertUsers(users: seq<SoundCloudUser>) returns (artists: seq<Artist>)
    ensures artists == Map(Filter(users, IsArtist), ToArtist)
  {
    artists := [];
    for i := 0 to |users|
      invariant artists == Map(Filter(users[..i], IsArtist), ToArtist)
    {
      FilterMapExtend(users[..i], IsArtist, ToArtist, artists, users[i]);
      TakeNext(users, i);
      if users[i].trackCount > 0 {
        var a := ConvertToArtist(users[i]);
        artists := artists + [a];
      }
    }
    TakeAll(users);
  }

  /** The track a record becomes; only a track search keeps the poster's name. */
  function ToTrack(r: SoundCloudTrackRecord, withUser: bool): SoundCloudTrack
  {
    SoundCloudTrack(r.id, r.title, r.genre, r.duration, r.playbackCount, r.favoritingsCount, r.commentCount,
                    r.createdAt, r.description, r.permalinkURL, ProcessArtworkURL(r.artworkURL), Tags(r.tagList),
                    if withUser then r.userName else "")
  }

  function TrackConverter(withUser: bool): SoundCloudTrackRecord -> SoundCloudTrack
  {
    (r: SoundCloudTrackRecord) => ToTrack(r, withUser)
  }

  /** One element of the track loops. */
  method ConvertTrack(r: SoundCloudTrackRecord, withUser: bool) returns (t: SoundCloudTrack)
    ensures t == ToTrack(r, withUser)
  {
    var tags := ParseTags(r.tagList);
    t := SoundCloudTrack(r.id, r.title, r.genre, r.duration, r.playbackCount, r.favoritingsCount, r.commentCount,
                         r.createdAt, r.description, r.permalinkURL, ProcessArtworkURL(r.artworkURL), tags,
                         if withUser then r.userName else "");
  }

  /** The track loops of `GetArtistTracks` and `SearchTracks`. */
  method ConvertTracks(records: seq<SoundCloudTrackRecord>, withUser: bool) returns (tracks: seq<SoundCloudTrack>)
    ensures tracks == Map(records, TrackConverter(withUser))
  {
    var convert := TrackConverter(withUser);
    tracks := [];
    for i := 0 to |records|
      invariant tracks == Map(records[..i], convert)
    {
      var t := ConvertTrack(records[i], withUser);
      assert t == convert(records[i]);
      MapExtend(records[..i], convert, tracks, records[i], t);
      TakeNext(records, i);
      tracks := tracks + [t];
    }
    TakeAll(records);
  }

  // ------------------------------------------------------------ limits and replies

  /** The limit of every listing: 10 when unset, at most 200. */
  function ClampLimit(limit: int): (l: int)
    ensures 1 <= l <= 200
    ensures 1 <= limit <= 200 ==> l == limit
    ensures limit <= 0 ==> l == 10
    ensures limit > 200 ==> l == 200
  {
    if limit <= 0 then 10 else if limit > 200 then 200 else limit
  }

  /** What a user search yields: 429 is the rate limit, 401 a bad client ID, 200 the users with tracks, converted. */
  function SearchOutcome(reply: Reply<seq<SoundCloudUser>>): Result<seq<Artist>>
  {
    if reply.Answered? && reply.status == StatusTooManyRequests then Err(RateLimitExceeded)
    else if reply.Answered? && reply.status == StatusUnauthorized then Err(Failure("soundcloud unauthorized: invalid client ID"))
    else match Expect(reply, "failed to search artists", "soundcloud search")
      case Err(e) => Err(e)
      case Ok(users) => Ok(Map(Filter(users, IsArtist), ToArtist))
  }

  /** A search returns no more artists than users, every one of them with a popularity in 50..100. */
  lemma SearchOutcomeArtists(reply: Reply<seq<SoundCloudUser>>)
    ensures var r := SearchOutcome(reply);
      r.Ok? ==> reply.Answered? && reply.status == StatusOK && reply.body.Ok?
                && |r.value| <= |reply.body.value|
                && forall k :: 0 <= k < |r.value| ==> 50 <= r.value[k].popularity <= 100
  {
    if SearchOutcome(reply).Ok? {
      var users := reply.body.value;
      FilterKeeps(users, IsArtist);
      var kept := Filter(users, IsArtist);
      forall k | 0 <= k < |kept| ensures 50 <= ToArtist(kept[k]).popularity <= 100 {
        PopularityRange(kept[k].followersCount, kept[k].trackCount);
      }
    }
  }

  /** What a user lookup yields: 404 is "artist not found". */
  function GetArtistOutcome(reply: Reply<SoundCloudUser>): Result<Artist>
  {
    if reply.Answered? && reply.status == StatusNotFound then Err(ArtistNotFound)
    else match Expect(reply, "failed to get artist", "soundcloud get artist")
      case Err(e) => Err(e)
      case Ok(user) => Ok(ToArtist(user))
  }

  function TracksOutcome(reply: Reply<seq<SoundCloudTrackRecord>>, failed: string, what: string, withUser: bool)
    : Result<seq<SoundCloudTrack>>
  {
    match Expect(reply, failed, what)
    case Err(e) => Err(e)
    case Ok(records) => Ok(Map(records, TrackConverter(withUser)))
  }

  class SoundCloudClient {
    const clientID: string
    const limiter: SlidingWindowLimiter

    ghost predicate Valid()
      reads this, limiter
    {
      limiter.Valid() && limiter.limit == 15000 && limiter.windowSize == Hour
    }

    /** `NewSoundCloudClient`: a client ID is required. */
    static method New(clientID: string) returns (r: Result<SoundCloudClient>)
      ensures clientID == "" <==> r.Err?
      ensures r.Err? ==> r.error == Failure("soundcloud client ID is required")
      ensures r.Ok? ==> fresh(r.value) && fresh(r.value.limiter) && r.value.Valid() && r.value.limiter.requests == []
    {
      if clientID == "" {
        return Err(Failure("soundcloud client ID is required"));
      }
      var c := new SoundCloudClient.Init(clientID);
      r := Ok(c);
    }

    constructor Init(clientID: string)
      ensures this.clientID == clientID && fresh(limiter) && Valid() && limiter.requests == []
    {
      var l := AppleMusic.NewRateLimiter(15000);
      this.clientID := clientID;
      limiter := l;
    }

    /** `SearchArtists`: a limiter slot, then the blank-query check, then the search for at most 200 users. */
    method SearchArtists(query: string, limit: int, now: Instant, reply: Reply<seq<SoundCloudUser>>)
      returns (r: Result<seq<Artist>>, sent: Option<Request>)
      requires Valid()
      modifies limiter
      ensures Valid()
      ensures var (log, gate) := Step(old(limiter.requests), 15000, Hour, now);
        && limiter.requests == log
        && (gate.Some? ==> r == Err(RateLimitExceeded) && sent == None)
        && (gate.None? && TrimSpace(query) == "" ==> r == Err(InvalidRequest) && sent == None)
        && (gate.None? && TrimSpace(query) != "" ==>
              sent == Some(UserSearch(TrimSpace(query), ClampLimit(limit))) && r == SearchOutcome(reply))
    {
      var gate := limiter.Allow(now);
      if gate.Some? {
        return Err(gate.value), None;
      }
      var q := TrimSpace(query);
      if q == "" {
        return Err(InvalidRequest), None;
      }
      sent := Some(UserSearch(q, ClampLimit(limit)));
      if reply.Answered? && reply.status == StatusTooManyRequests {
        return Err(RateLimitExceeded), sent;
      }
      if reply.Answered? && reply.status == StatusUnauthorized {
        return Err(Failure("soundcloud unauthorized: invalid client ID")), sent;
      }
      var body := Expect(reply, "failed to search artists", "soundcloud search");
      if body.Err? {
        return Err(body.error), sent;
      }
      var artists := ConvertUsers(body.value);
      r := Ok(artists);
    }

    /** `GetArtist`. */
    method GetArtist(soundCloudID: string, now: Instant, reply: Reply<SoundCloudUser>)
      returns (r: Result<Artist>, sent: Option<Request>)
      requires Valid()
      modifies limiter
      ensures Valid()
      ensures var (log, gate) := Step(old(limiter.requests), 15000, Hour, now);
        && limiter.requests == log
        && (gate.Some? ==> r == Err(RateLimitExceeded) && sent == None)
        && (gate.None? ==> sent == Some(UserLookup(soundCloudID)) && r == GetArtistOutcome(reply))
    {
      var gate := limiter.Allow(now);
      if gate.Some? {
        return Err(gate.value), None;
      }
      sent := Some(UserLookup(soundCloudID));
      if reply.Answered? && reply.status == StatusNotFound {
        return Err(ArtistNotFound), sent;
      }
      var body := Expect(reply, "failed to get artist", "soundcloud get artist");
      if body.Err? {
        return Err(body.error), sent;
      }
      var a := ConvertToArtist(body.value);
      r := Ok(a);
    }

    /** `GetArtistTracks`: the tracks of one user; they carry no poster name. */
    method GetArtistTracks(soundCloudID: string, limit: int, now: Instant, reply: Reply<seq<SoundCloudTrackRecord>>)
      returns (r: Result<seq<SoundCloudTrack>>, sent: Option<Request>)
      requires Valid()
      modifies limiter
      ensures Valid()
      ensures var (log, gate) := Step(old(limiter.requests), 15000, Hour, now);
        && limiter.requests == log
        && (gate.Some? ==> r == Err(RateLimitExceeded) && sent == None)
        && (gate.None? ==> sent == Some(TrackListing(soundCloudID, ClampLimit(limit)))
                           && r == TracksOutcome(reply, "failed to get tracks", "soundcloud get tracks", false))
    {
      var gate := limiter.Allow(now);
      if gate.Some? {
        return Err(gate.value), None;
      }
      sent := Some(TrackListing(soundCloudID, ClampLimit(limit)));
      var body := Expect(reply, "failed to get tracks", "soundcloud get tracks");
      if body.Err? {
        return Err(body.error), sent;
      }
      var tracks := ConvertTracks(body.value, false);
      r := Ok(tracks);
    }

    /** `SearchTracks`: the query is sent as given, blank or not; the tracks carry their poster's name. */
    method SearchTracks(query: string, limit: int, now: Instant, reply: Reply<seq<SoundCloudTrackRecord>>)
      returns (r: Result<seq<SoundCloudTrack>>, sent: Option<Request>)
      requires Valid()
      modifies limiter
      ensures Valid()
      ensures var (log, gate) := Step(old(limiter.requests), 15000, Hour, now);
        && limiter.requests == log
        && (gate.Some? ==> r == Err(RateLimitExceeded) && sent == None)
        && (gate.None? ==> sent == Some(TrackSearch(query, ClampLimit(limit)))
                           && r == TracksOutcome(reply, "failed to search tracks", "soundcloud track search", true))
    {
      var gate := limiter.Allow(now);
      if gate.Some? {
        return Err(gate.value), None;
      }
      sent := Some(TrackSearch(query, ClampLimit(limit)));
      var body := Expect(reply, "failed to search tracks", "soundcloud track search");
      if body.Err? {
        return Err(body.error), sent;
      }
      var tracks := ConvertTracks(body.value, true);
      r := Ok(tracks);
    }
  }
}
