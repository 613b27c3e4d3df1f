/**
 * The YouTube Music client: channel search (followed by a channel-details
 * lookup, with the search results as fallback), channel lookup and video
 * search. It holds a one-hour sliding-window limiter of 10000 requests.
 */
module YouTubeMusic {
  import opened Wrappers
  import opened Text
  import opened Numerals
  import opened Domain
  import opened Remote
  import opened Sequences
  import opened SlidingWindow
  import opened Keywords
  import AppleMusic

  datatype Thumbnails = Thumbnails(high: string, medium: string)

  datatype Snippet = Snippet(title: string, description: string, thumbnails: Thumbnails, country: string)

  datatype Statistics = Statistics(viewCount: string, subscriberCount: string, hiddenSubscriberCount: bool, videoCount: string)

  datatype Channel = Channel(id: string, snippet: Snippet, statistics: Statistics)

  /** A search hit: a channel or a video, told apart by which ID is set. */
  datatype SearchItem = SearchItem(kind: string, videoID: string, channelID: string, snippet: Snippet)

  datatype YouTubeMusicVideo = YouTubeMusicVideo(id: string, title: string, description: string, thumbnailURL: string, url: string)

  /** The requests the client sends. */
  datatype Request =
    | ChannelSearch(q: string, maxResults: int)
    | ChannelLookup(ids: string)
    | VideoSearch(q: string, maxResults: int)

  // ------------------------------------------------------------ conversion

  /** The high-resolution thumbnail, else the medium one. */
  function Thumbnail(t: Thumbnails): string
  {
    if t.high != "" then t.high else t.medium
  }

  /** The subscriber bucket. */
  function SubscriberBucket(subscribers: int): (p: int)
    ensures 50 <= p <= 100
  {
    if subscribers > 10000000 then 100
    else if subscribers > 1000000 then 90
    else if subscribers > 100000 then 80
    else if subscribers > 10000 then 70
    else if subscribers > 1000 then 60
    else 50
  }

  /**
   * The popularity of a channel: 0 when the subscriber count is absent,
   * otherwise the bucket of the scanned count, where a count that does not
   * scan leaves the number at 0.
   */
  function SubscriberPopularity(subscriberCount: string): int
  {
    if subscriberCount == "" then 0
    else
      var scanned := ScanDecimal(subscriberCount);
      SubscriberBucket(if scanned.Some? then scanned.value else 0)
  }

  /** More subscribers never lower the bucket. */
  lemma SubscriberBucketMonotone(a: int, b: int)
    requires a <= b
    ensures SubscriberBucket(a) <= SubscriberBucket(b)
  {
  }

  /** Popularity is 0 exactly when the count is absent, and 50..100 otherwise; a count that does not scan gives 50. */
  lemma SubscriberPopularityRange(subscriberCount: string)
    ensures SubscriberPopularity(subscriberCount) == 0 <==> subscriberCount == ""
    ensures subscriberCount != "" ==> 50 <= SubscriberPopularity(subscriberCount) <= 100
    ensures subscriberCount != "" && ScanDecimal(subscriberCount).None? ==> SubscriberPopularity(subscriberCount) == 50
  {
  }

  /** A count the API writes as a plain numeral is read as that number. */
  lemma SubscriberPopularityOfNumeral(n: nat)
    requires n <= Int64Max
    ensures SubscriberPopularity(NatToString(n)) == SubscriberBucket(n)
  {
    ScanDecimalStopsAtNonDigit(n, "");
    assert NatToString(n) + "" == NatToString(n);
  }

  const YouTubeGenres: seq<string> := [
    "rock", "pop", "hip hop", "rap", "electronic", "dance", "classical",
    "jazz", "blues", "country", "folk", "metal", "punk", "reggae",
    "r&b", "soul", "funk", "indie", "alternative", "acoustic"]

  function ChannelToArtist(channel: Channel): Artist
  {
    Artist("youtube_" + channel.id, channel.snippet.title, NoExternalIDs,
           KeywordsIn(channel.snippet.description, YouTubeGenres),
           SubscriberPopularity(channel.statistics.subscriberCount),
           Thumbnail(channel.snippet.thumbnails), ZeroInstant, ZeroInstant)
  }

  function SearchItemToArtist(item: SearchItem): Artist
  {
    Artist("youtube_" + item.channelID, item.snippet.title, NoExternalIDs,
           KeywordsIn(item.snippet.description, YouTubeGenres), 0,
           Thumbnail(item.snippet.thumbnails), ZeroInstant, ZeroInstant)
  }

  /** What both conversions promise: the `youtube_` ID, the title, the image fallback and the listed genres. */
  ghost predicate Converted(a: Artist, id: string, s: Snippet)
  {
    && a.id == "youtube_" + id && a.name == s.title
    && (s.thumbnails.high != "" ==> a.imageURL == s.thumbnails.high)
    && (s.thumbnails.high == "" ==> a.imageURL == s.thumbnails.medium)
    && (forall g :: g in a.genres <==> g in YouTubeGenres && Contains(ToLower(s.description), g))
    && a.externalIDs == NoExternalIDs
  }

  /** A channel's artist: popularity from its subscriber count, 0 only when the count is absent. */
  lemma ChannelArtist(channel: Channel)
    ensures var a := ChannelToArtist(channel);
      && Converted(a, channel.id, channel.snippet)
      && (a.popularity == 0 <==> channel.statistics.subscriberCount == "")
      && (channel.statistics.subscriberCount != "" ==> 50 <= a.popularity <= 100)
  {
    KeywordsInMeans(channel.snippet.description, YouTubeGenres);
    SubscriberPopularityRange(channel.statistics.subscriberCount);
  }

  /** A search hit's artist, on the fallback path: popularity is always 0. */
  lemma SearchItemArtist(item: SearchItem)
    ensures var a := SearchItemToArtist(item);
      Converted(a, item.channelID, item.snippet) && a.popularity == 0
  {
    KeywordsInMeans(item.snippet.description, YouTubeGenres);
  }

  /** `convertChannelToArtist`, with the genre loop. */
  method ConvertChannel(channel: Channel) returns (a: Artist)
    ensures a == ChannelToArtist(channel)
  {
    var genres := ScanKeywords(channel.snippet.description, YouTubeGenres);
    a := Artist("youtube_" + channel.id, channel.snippet.title, NoExternalIDs, genres,
                SubscriberPopularity(channel.statistics.subscriberCount),
                Thumbnail(channel.snippet.thumbnails), ZeroInstant, ZeroInstant);
  }

  /** `convertSearchItemToArtist`, with the genre loop. */
  method ConvertSearchItem(item: SearchItem) returns (a: Artist)
    ensures a == SearchItemToArtist(item)
  {
    var genres := ScanKeywords(item.snippet.description, YouTubeGenres);
    a := Artist("youtube_" + item.channelID, item.snippet.title, NoExternalIDs, genres, 0,
                Thumbnail(item.snippet.thumbnails), ZeroInstant, ZeroInstant);
  }

  // ------------------------------------------------------------ filters

  predicate HasChannel(item: SearchItem) { item.channelID != "" }

  predicate HasVideo(item: SearchItem) { item.videoID != "" }

  const IsChannel: SearchItem -> bool := HasChannel

  const IsVideo: SearchItem -> bool := HasVideo

  function ChannelIDOf(item: SearchItem): string { item.channelID }

  /** The channel IDs of the hits that name one, in order. */
  function ChannelIDs(items: seq<SearchItem>): seq<string>
  {
    Map(Filter(items, IsChannel), ChannelIDOf)
  }

  /** The fallback artists: one per hit that names a channel, in order. */
  function FallbackArtists(items: seq<SearchItem>): seq<Artist>
  {
    Map(Filter(items, IsChannel), SearchItemToArtist)
  }

  /**
   * The channel IDs are non-empty, no more than the hits, and each is the
   * ID of the fallback artist at the same position, popularity 0.
   */
  lemma ChannelIDsAndFallback(items: seq<SearchItem>)
    ensures var ids, fallback := ChannelIDs(items), FallbackArtists(items);
      && |ids| == |fallback| <= |items|
      && (forall k :: 0 <= k < |ids| ==> ids[k] != "" && fallback[k].id == "youtube_" + ids[k])
      && (forall k :: 0 <= k < |fallback| ==> fallback[k].popularity == 0)
      && (forall id :: id in ids ==> exists k :: 0 <= k < |items| && items[k].channelID == id)
  {
    var kept := Filter(items, IsChannel);
    FilterKeeps(items, IsChannel);
    assert forall k :: 0 <= k < |kept| ==> kept[k] in kept;
    forall id | id in ChannelIDs(items)
      ensures exists k :: 0 <= k < |items| && items[k].channelID == id
    {
      var j :| 0 <= j < |kept| && kept[j].channelID == id;
      assert kept[j] in items;
    }
  }

  /** The channel-ID loop of `SearchArtists`. */
  method CollectChannelIDs(items: seq<SearchItem>) returns (ids: seq<string>)
    ensures ids == ChannelIDs(items)
  {
    ids := [];
    for i := 0 to |items|
      invariant ids == Map(Filter(items[..i], IsChannel), ChannelIDOf)
    {
      FilterMapExtend(items[..i], IsChannel, ChannelIDOf, ids, items[i]);
      TakeNext(items, i);
      if items[i].channelID != "" {
        ids := ids + [items[i].channelID];
      }
    }
    TakeAll(items);
  }

  /** The fallback loop of `SearchArtists`. */
  method ConvertSearchItems(items: seq<SearchItem>) returns (artists: seq<Artist>)
    ensures artists == FallbackArtists(items)
  {
    artists := [];
    for i := 0 to |items|
      invariant artists == Map(Filter(items[..i], IsChannel), SearchItemToArtist)
    {
      FilterMapExtend(items[..i], IsChannel, SearchItemToArtist, artists, items[i]);
      TakeNext(items, i);
      if items[i].channelID != "" {
        var a := ConvertSearchItem(items[i]);
        artists := artists + [a];
      }
    }
    TakeAll(items);
  }

  /** The channel loop of `SearchArtists`. */
  method ConvertChannels(channels: seq<Channel>) returns (artists: seq<Artist>)
    ensures artists == Map(channels, ChannelToArtist)
  {
    artists := [];
    for i := 0 to |channels|
      invariant artists == Map(channels[..i], ChannelToArtist)
    {
      var a := ConvertChannel(channels[i]);
      MapExtend(channels[..i], ChannelToArtist, artists, channels[i], a);
      TakeNext(channels, i);
      artists := artists + [a];
    }
    TakeAll(channels);
  }

  const WatchPrefix := "https://www.youtube.com/watch?v="

  function ToVideo(item: SearchItem): YouTubeMusicVideo
  {
    YouTubeMusicVideo(item.videoID, item.snippet.title, item.snippet.description,
                      Thumbnail(item.snippet.thumbnails), WatchPrefix + item.videoID)
  }

  function Videos(items: seq<SearchItem>): seq<YouTubeMusicVideo>
  {
    Map(Filter(items, IsVideo), ToVideo)
  }

  /** Every video has an ID, the watch URL of that ID, and comes from a hit with that video ID. */
  lemma VideosWellFormed(items: seq<SearchItem>)
    ensures var vs := Videos(items);
      && |vs| <= |items|
      && (forall k :: 0 <= k < |vs| ==> vs[k].id != "" && vs[k].url == WatchPrefix + vs[k].id)
      && (forall k :: 0 <= k < |vs| ==> exists j :: 0 <= j < |items| && items[j].videoID == vs[k].id)
  {
    var kept := Filter(items, IsVideo);
    FilterKeeps(items, IsVideo);
    forall k | 0 <= k < |kept|
      ensures kept[k].videoID != "" && exists j :: 0 <= j < |items| && items[j].videoID == kept[k].videoID
    {
      assert kept[k] in kept;
      var j :| 0 <= j < |items| && items[j] == kept[k];
    }
  }

  /** The video loop of `SearchVideos`. */
  method CollectVideos(items: seq<SearchItem>) returns (videos: seq<YouTubeMusicVideo>)
    ensures videos == Videos(items)
  {
    videos := [];
    for i := 0 to |items|
      invariant videos == Map(Filter(items[..i], IsVideo), ToVideo)
    {
      FilterMapExtend(items[..i], IsVideo, ToVideo, videos, items[i]);
      TakeNext(items, i);
      var item := items[i];
      if item.videoID != "" {
        var thumbnail := item.snippet.thumbnails.high;
        if thumbnail == "" {
          thumbnail := item.snippet.thumbnails.medium;
        }
        videos := videos + [YouTubeMusicVideo(item.videoID, item.snippet.title, item.snippet.description,
                                              thumbnail, WatchPrefix + item.videoID)];
      }
    }
    TakeAll(items);
  }

  // ------------------------------------------------------------ limits and replies

  /** The result count of every search: 10 when unset, at most 50. */
  function ClampLimit(limit: int): (l: int)
    ensures 1 <= l <= 50
    ensures 1 <= limit <= 50 ==> l == limit
    ensures limit <= 0 ==> l == 10
    ensures limit > 50 ==> l == 50
  {
    if limit <= 0 then 10 else if limit > 50 then 50 else limit
  }

  /** The hits of a channel search: 403 means the quota is used up. */
  function ItemsOutcome(reply: Reply<seq<SearchItem>>): Result<seq<SearchItem>>
  {
    if reply.Answered? && reply.status == StatusForbidden then Err(RateLimitExceeded)
    else Expect(reply, "failed to search artists", "youtube music search")
  }

  function DetailsOutcome(reply: Reply<seq<Channel>>): Result<seq<Channel>>
  {
    Expect(reply, "failed to get channel details", "youtube get channels")
  }

  /** The artists of a search once the hits are known: the channels' artists, or the fallback when the details failed. */
  function ArtistsFrom(items: seq<SearchItem>, details: Result<seq<Channel>>): seq<Artist>
  {
    if details.Err? then FallbackArtists(items) else Map(details.value, ChannelToArtist)
  }

  /** What a channel lookup yields from the details: no channel is "artist not found", otherwise the first. */
  function LookupOutcome(details: Result<seq<Channel>>): (r: Result<Artist>)
    ensures r.Ok? <==> details.Ok? && |details.value| > 0
    ensures r.Ok? ==> r.value == ChannelToArtist(details.value[0])
    ensures details.Ok? && details.value == [] ==> r == Err(ArtistNotFound)
    ensures details.Err? ==> r == Err(details.error)
  {
    match details
    case Err(e) => Err(e)
    case Ok(channels) => if |channels| == 0 then Err(ArtistNotFound) else Ok(ChannelToArtist(channels[0]))
  }

  function VideosOutcome(reply: Reply<seq<SearchItem>>): Result<seq<YouTubeMusicVideo>>
  {
    match Expect(reply, "failed to search videos", "youtube video search")
    case Err(e) => Err(e)
    case Ok(items) => Ok(Videos(items))
  }

  class YouTubeMusicClient {
    const apiKey: string
    const limiter: SlidingWindowLimiter

    ghost predicate Valid()
      reads this, limiter
    {
      limiter.Valid() && limiter.limit == 10000 && limiter.windowSize == Hour
    }

    /** `NewYouTubeMusicClient`: an API key is required. */
    static method New(apiKey: string) returns (r: Result<YouTubeMusicClient>)
      ensures apiKey == "" <==> r.Err?
      ensures r.Err? ==> r.error == Failure("youtube music API key is required")
      ensures r.Ok? ==> fresh(r.value) && fresh(r.value.limiter) && r.value.Valid() && r.value.limiter.requests == []
    {
      if apiKey == "" {
        return Err(Failure("youtube music API key is required"));
      }
      var c := new YouTubeMusicClient.Init(apiKey);
      r := Ok(c);
    }

    constructor Init(apiKey: string)
      ensures this.apiKey == apiKey && fresh(limiter) && Valid() && limiter.requests == []
    {
      var l := AppleMusic.NewRateLimiter(10000);
      this.apiKey := apiKey;
      limiter := l;
    }

    /** `getChannelDetails`: no IDs means no request and no limiter slot; otherwise one lookup of all of them. */
    method GetChannelDetails(ids: seq<string>, now: Instant, reply: Reply<seq<Channel>>)
      returns (r: Result<seq<Channel>>, sent: Option<Request>)
      requires Valid()
      modifies limiter
      ensures Valid()
      ensures ids == [] ==> r == Ok([]) && sent == None && limiter.requests == old(limiter.requests)
      ensures ids != [] ==> var (log, gate) := Step(old(limiter.requests), 10000, Hour, now);
        && limiter.requests == log
        && (gate.Some? ==> r == Err(RateLimitExceeded) && sent == None)
        && (gate.None? ==> sent == Some(ChannelLookup(Join(ids, ","))) && r == DetailsOutcome(reply))
    {
      if |ids| == 0 {
        return Ok([]), None;
      }
      var gate := limiter.Allow(now);
      if gate.Some? {
        return Err(gate.value), None;
      }
      sent := Some(ChannelLookup(Join(ids, ",")));
      r := Expect(reply, "failed to get channel details", "youtube get channels");
    }

    /**
     * `SearchArtists`: a limiter slot, the blank-query check, the channel
     * search, and then the details of the channels found, taken at
     * `detailsNow`; when the details cannot be had, the search hits
     * themselves become the artists.
     */
    method SearchArtists(query: string, limit: int, now: Instant, searchReply: Reply<seq<SearchItem>>,
                         detailsNow: Instant, detailsReply: Reply<seq<Channel>>)
      returns (r: Result<seq<Artist>>, sent: seq<Request>)
      requires Valid()
      modifies limiter
      ensures Valid()
      ensures var (log1, gate1) := Step(old(limiter.requests), 10000, Hour, now);
        var q := TrimSpace(query);
        var items := ItemsOutcome(searchReply);
        var search := ChannelSearch(q + " music artist", ClampLimit(limit));
        if gate1.Some? then r == Err(RateLimitExceeded) && sent == [] && limiter.requests == log1
        else if q == "" then r == Err(InvalidRequest) && sent == [] && limiter.requests == log1
        else if items.Err? then r == Err(items.error) && sent == [search] && limiter.requests == log1
        else if items.value == [] || ChannelIDs(items.value) == [] then
          r == Ok([]) && sent == [search] && limiter.requests == log1
        else
          var (log2, gate2) := Step(log1, 10000, Hour, detailsNow);
          && limiter.requests == log2
          && (gate2.Some? ==> sent == [search] && r == Ok(FallbackArtists(items.value)))
          && (gate2.None? ==> sent == [search, ChannelLookup(Join(ChannelIDs(items.value), ","))]
                              && r == Ok(ArtistsFrom(items.value, DetailsOutcome(detailsReply))))
    {
      var gate := limiter.Allow(now);
      if gate.Some? {
        return Err(gate.value), [];
      }
      var q := TrimSpace(query);
      if q == "" {
        return Err(InvalidRequest), [];
      }
      sent := [ChannelSearch(q + " music artist", ClampLimit(limit))];
      if searchReply.Answered? && searchReply.status == StatusForbidden {
        return Err(RateLimitExceeded), sent;
      }
      var body := Expect(searchReply, "failed to search artists", "youtube music search");
      if body.Err? {
        return Err(body.error), sent;
      }
      var items := body.value;
      if |items| == 0 {
        return Ok([]), sent;
      }
      var ids := CollectChannelIDs(items);
      var details, lookup := GetChannelDetails(ids, detailsNow, detailsReply);
      if lookup.Some? {
        sent := sent + [lookup.value];
      }
      if details.Err? {
        var artists := ConvertSearchItems(items);
        return Ok(artists), sent;
      }
      var artists := ConvertChannels(details.value);
      r := Ok(artists);
    }

    /** `GetArtist`: the details of one channel. */
    method GetArtist(channelID: string, now: Instant, reply: Reply<seq<Channel>>)
      returns (r: Result<Artist>, sent: Option<Request>)
      requires Valid()
      modifies limiter
      ensures Valid()
      ensures var (log, gate) := Step(old(limiter.requests), 10000, Hour, now);
        && limiter.requests == log
        && (gate.Some? ==> r == Err(RateLimitExceeded) && sent == None)
        && (gate.None? ==> sent == Some(ChannelLookup(channelID)) && r == LookupOutcome(DetailsOutcome(reply)))
    {
      var details;
      details, sent := GetChannelDetails([channelID], now, reply);
      assert Join([channelID], ",") == channelID;
      if details.Err? {
        return Err(details.error), sent;
      }
      if |details.value| == 0 {
        return Err(ArtistNotFound), sent;
      }
      var a := ConvertChannel(details.value[0]);
      r := Ok(a);
    }

    /** `SearchVideos`: the hits that are videos, with their watch URLs. */
    method SearchVideos(artistName: string, limit: int, now: Instant, reply: Reply<seq<SearchItem>>)
      returns (r: Result<seq<YouTubeMusicVideo>>, sent: Option<Request>)
      requires Valid()
      modifies limiter
      ensures Valid()
      ensures var (log, gate) := Step(old(limiter.requests), 10000, Hour, now);
        && limiter.requests == log
        && (gate.Some? ==> r == Err(RateLimitExceeded) && sent == None)
        && (gate.None? ==> sent == Some(VideoSearch(artistName, ClampLimit(limit))) && r == VideosOutcome(reply))
    {
      var gate := limiter.Allow(now);
      if gate.Some? {
        return Err(gate.value), None;
      }
      sent := Some(VideoSearch(artistName, ClampLimit(limit)));
      var body := Expect(reply, "failed to search videos", "youtube video search");
      if body.Err? {
        return Err(body.error), sent;
      }
      var videos := CollectVideos(body.value);
      r := Ok(videos);
    }
  }
}
