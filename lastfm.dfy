/**
 * The Last.fm client: artist search and artist info. Artists are
 * identified by their MusicBrainz ID, take the first non-empty
 * `extralarge` image, and, from artist info, the tag names as genres.
 */
module LastFM {
  import opened Wrappers
  import opened Domain
  import opened Remote
  import opened Sequences

  datatype LastFMImage = LastFMImage(text: string, size: string)

  datatype LastFMArtist = LastFMArtist(name: string, mbid: string, url: string, listeners: string, images: seq<LastFMImage>)

  datatype LastFMTag = LastFMTag(name: string)

  /** The `artist` object of an `artist.getinfo` reply. */
  datatype LastFMArtistInfo = LastFMArtistInfo(name: string, mbid: string, images: seq<LastFMImage>, tags: seq<LastFMTag>)

  /** The requests the client sends; each carries the API key. */
  datatype Request =
    | ArtistSearch(artist: string, limit: int, apiKey: string)
    | ArtistInfo(artist: string, apiKey: string)

  // ------------------------------------------------------------ images

  predicate IsExtraLarge(img: LastFMImage)
  {
    img.size == "extralarge" && img.text != ""
  }

  /** The index of the first non-empty `extralarge` image. */
  function FirstExtraLarge(images: seq<LastFMImage>): (r: Option<nat>)
    ensures r.Some? ==> r.value < |images| && IsExtraLarge(images[r.value]) &&
                        forall j :: 0 <= j < r.value ==> !IsExtraLarge(images[j])
    ensures r.None? ==> forall j :: 0 <= j < |images| ==> !IsExtraLarge(images[j])
  {
    if |images| == 0 then None
    else if IsExtraLarge(images[0]) then Some(0)
    else match FirstExtraLarge(images[1..])
      case None => None
      case Some(k) => Some(k + 1)
  }

  /** The image URL of an artist: the first non-empty `extralarge` image, or none. */
  function ImageURL(images: seq<LastFMImage>): (url: string)
    ensures url == "" <==> forall j :: 0 <= j < |images| ==> !IsExtraLarge(images[j])
    ensures forall k :: 0 <= k < |images| && IsExtraLarge(images[k]) && (forall j :: 0 <= j < k ==> !IsExtraLarge(images[j])) ==>
              url == images[k].text
  {
    match FirstExtraLarge(images)
    case Some(k) => images[k].text
    case None => ""
  }

  /** The image loop of both conversions, which stops at the first match. */
  method SelectImage(images: seq<LastFMImage>) returns (url: string)
    ensures url == ImageURL(images)
  {
    url := "";
    for i := 0 to |images|
      invariant forall j :: 0 <= j < i ==> !IsExtraLarge(images[j])
    {
      if images[i].size == "extralarge" && images[i].text != "" {
        url := images[i].text;
        break;
      }
    }
  }

  // ------------------------------------------------------------ artists

  /** An artist of a search: no genres and no popularity. */
  function ToArtist(a: LastFMArtist): Artist
  {
    Artist("lastfm_" + a.mbid, a.name, ExternalIDs("", a.mbid), [], 0, ImageURL(a.images), ZeroInstant, ZeroInstant)
  }

  function TagName(t: LastFMTag): string { t.name }

  /** The artist of `GetArtist`: the tag names, in order, are its genres. */
  function InfoArtist(a: LastFMArtistInfo): Artist
  {
    Artist("lastfm_" + a.mbid, a.name, ExternalIDs("", a.mbid), Map(a.tags, TagName), 0, ImageURL(a.images),
           ZeroInstant, ZeroInstant)
  }

  /**
   * A converted artist carries the MBID as its Last.fm ID and in its own ID,
   * so different MBIDs give different IDs, while every artist without an
   * MBID gets the same ID `lastfm_`.
   */
  lemma ArtistIDs(a: LastFMArtist, b: LastFMArtist)
    ensures ToArtist(a).externalIDs == ExternalIDs("", a.mbid)
    ensures ToArtist(a).id[|"lastfm_"|..] == a.mbid
    ensures a.mbid != b.mbid ==> ToArtist(a).id != ToArtist(b).id
    ensures a.mbid == "" && b.mbid == "" ==> ToArtist(a).id == ToArtist(b).id == "lastfm_"
  {
    var p := "lastfm_";
    assert (p + a.mbid)[|p|..] == a.mbid;
    assert (p + b.mbid)[|p|..] == b.mbid;
  }

  /** Artist info gives genre `k` the name of tag `k`, and the same identity as a search would. */
  lemma InfoArtistFields(a: LastFMArtistInfo)
    ensures |InfoArtist(a).genres| == |a.tags|
    ensures forall k :: 0 <= k < |a.tags| ==> InfoArtist(a).genres[k] == a.tags[k].name
    ensures InfoArtist(a) == ToArtist(LastFMArtist(a.name, a.mbid, "", "", a.images)).(genres := Map(a.tags, TagName))
  {
  }

  method ConvertArtist(a: LastFMArtist) returns (artist: Artist)
    ensures artist == ToArtist(a)
  {
    artist := Artist("lastfm_" + a.mbid, a.name, ExternalIDs("", a.mbid), [], 0, "", ZeroInstant, ZeroInstant);
    var url := SelectImage(a.images);
    artist := artist.(imageURL := url);
  }

  /** The tag loop of `GetArtist`. */
  method CollectTags(tags: seq<LastFMTag>) returns (genres: seq<string>)
    ensures genres == Map(tags, TagName)
  {
    genres := [];
    for i := 0 to |tags|
      invariant genres == Map(tags[..i], TagName)
    {
      MapExtend(tags[..i], TagName, genres, tags[i], tags[i].name);
      TakeNext(tags, i);
      genres := genres + [tags[i].name];
    }
    TakeAll(tags);
  }

  method ConvertInfo(a: LastFMArtistInfo) returns (artist: Artist)
    ensures artist == InfoArtist(a)
  {
    artist := Artist("lastfm_" + a.mbid, a.name, ExternalIDs("", a.mbid), [], 0, "", ZeroInstant, ZeroInstant);
    var genres := CollectTags(a.tags);
    artist := artist.(genres := genres);
    var url := SelectImage(a.images);
    artist := artist.(imageURL := url);
  }

  /** The conversion loop of `SearchArtists`. */
  method ConvertArtists(data: seq<LastFMArtist>) returns (artists: seq<Artist>)
    ensures artists == Map(data, ToArtist)
  {
    artists := [];
    for i := 0 to |data|
      invariant artists == Map(data[..i], ToArtist)
    {
      var a := ConvertArtist(data[i]);
      MapExtend(data[..i], ToArtist, artists, data[i], a);
      TakeNext(data, i);
      artists := artists + [a];
    }
    TakeAll(data);
  }

  // ------------------------------------------------------------ requests and replies

  /** The search limit: 10 when unset, at most 30. */
  function SearchLimit(limit: int): (l: int)
    ensures 1 <= l <= 30
    ensures 1 <= limit <= 30 ==> l == limit
    ensures limit <= 0 ==> l == 10
    ensures limit > 30 ==> l == 30
  {
    if limit <= 0 then 10 else if limit > 30 then 30 else limit
  }

  function SearchOutcome(reply: Reply<seq<LastFMArtist>>): (r: Result<seq<Artist>>)
    ensures r.Ok? <==> reply.Answered? && reply.status == StatusOK && reply.body.Ok?
    ensures reply.Answered? && reply.status != StatusOK ==> r == Err(StatusError("last.fm search", reply.status))
    ensures r.Ok? ==> |r.value| == |reply.body.value| &&
                      forall k :: 0 <= k < |r.value| ==> r.value[k] == ToArtist(reply.body.value[k])
  {
    match ExpectDecoded(reply, "failed to search artists", "last.fm search", "failed to decode search response")
    case Err(e) => Err(e)
    case Ok(data) => Ok(Map(data, ToArtist))
  }

  /** The artist of an info reply: 404 is "artist not found". */
  function InfoOutcome(reply: Reply<LastFMArtistInfo>): (r: Result<Artist>)
    ensures reply.Answered? && reply.status == StatusNotFound ==> r == Err(ArtistNotFound)
    ensures reply.Answered? && reply.status != StatusNotFound && reply.status != StatusOK ==>
      r == Err(StatusError("last.fm get artist", reply.status))
    ensures r.Ok? <==> reply.Answered? && reply.status == StatusOK && reply.body.Ok?
    ensures r.Ok? ==> r.value == InfoArtist(reply.body.value)
  {
    if reply.Answered? && reply.status == StatusNotFound then Err(ArtistNotFound)
    else match ExpectDecoded(reply, "failed to get artist info", "last.fm get artist", "failed to decode artist info response")
      case Err(e) => Err(e)
      case Ok(a) => Ok(InfoArtist(a))
  }

  class LastFMClient {
    const apiKey: string

    /** `NewLastFMClient`: an API key is required. */
    static method New(apiKey: string) returns (r: Result<LastFMClient>)
      ensures apiKey == "" <==> r.Err?
      ensures r.Err? ==> r.error == Failure("last.fm API key is required")
      ensures r.Ok? ==> fresh(r.value) && r.value.apiKey == apiKey
    {
      if apiKey == "" {
        return Err(Failure("last.fm API key is required"));
      }
      var c := new LastFMClient.Init(apiKey);
      r := Ok(c);
    }

    constructor Init(apiKey: string)
      ensures this.apiKey == apiKey
    {
      this.apiKey := apiKey;
    }

    /** `SearchArtists`: the query is sent as given, with the clamped limit. */
    method SearchArtists(query: string, limit: int, reply: Reply<seq<LastFMArtist>>) returns (r: Result<seq<Artist>>, sent: Request)
      ensures sent == ArtistSearch(query, SearchLimit(limit), apiKey)
      ensures r == SearchOutcome(reply)
    {
      sent := ArtistSearch(query, SearchLimit(limit), apiKey);
      var body := ExpectDecoded(reply, "failed to search artists", "last.fm search", "failed to decode search response");
      if body.Err? {
        return Err(body.error), sent;
      }
      var artists := ConvertArtists(body.value);
      r := Ok(artists);
    }

    /** `GetArtist`: looked up by name. */
    method GetArtist(artistName: string, reply: Reply<LastFMArtistInfo>) returns (r: Result<Artist>, sent: Request)
      ensures sent == ArtistInfo(artistName, apiKey)
      ensures r == InfoOutcome(reply)
    {
      sent := ArtistInfo(artistName, apiKey);
      if reply.Answered? && reply.status == StatusNotFound {
        return Err(ArtistNotFound), sent;
      }
      var body := ExpectDecoded(reply, "failed to get artist info", "last.fm get artist", "failed to decode artist info response");
      if body.Err? {
        return Err(body.error), sent;
      }
      var a := ConvertInfo(body.value);
      r := Ok(a);
    }
  }
}
