/**
 * The Spotify Web API client. It authenticates with the client-credentials
 * grant and caches the access token until five minutes before the expiry
 * Spotify announces; artist search and artist lookup both obtain a token
 * first, from the cache when it is still usable.
 */
module Spotify {
  import opened Wrappers
  import opened Numerals
  import opened Domain
  import opened Remote
  import opened Sequences

  datatype SpotifyArtist = SpotifyArtist(
    id: string,
    name: string,
    genres: seq<string>,
    popularity: int,
    images: seq<string>)

  datatype TokenResponse = TokenResponse(accessToken: string, tokenType: string, expiresIn: int)

  /** The token cache: the access token and the instant from which it is no longer used. */
  datatype Credentials = Credentials(token: string, expiry: Instant)

  /** The requests the client sends; API calls carry the bearer token they were sent with. */
  datatype Request =
    | TokenRequest(clientID: string, clientSecret: string)
    | ArtistSearch(query: string, limit: int, bearer: string)
    | ArtistLookup(spotifyID: string, bearer: string)

  /** How long before Spotify's own expiry the cached token is dropped. */
  const ExpiryMargin: int := 5 * Minute

  // ------------------------------------------------------------ the token cache

  /** A cached token is used while it is non-empty and `now` is before its expiry. */
  predicate Usable(c: Credentials, now: Instant)
  {
    c.token != "" && now < c.expiry
  }

  /** The outcome of a token request sent at `now`. */
  function Refreshed(reply: Reply<TokenResponse>, now: Instant): (r: Result<Credentials>)
    ensures reply.NoReply? ==> r == Err(Wrap("failed to get access token", reply.error))
    ensures reply.Answered? && reply.status != StatusOK ==>
      r == Err(Failure("failed to get access token: status " + IntToString(reply.status)))
    ensures reply.Answered? && reply.status == StatusOK && reply.body.Err? ==>
      r == Err(Wrap("failed to decode token response", reply.body.error))
    ensures r.Ok? <==> reply.Answered? && reply.status == StatusOK && reply.body.Ok?
    ensures r.Ok? ==> r.value.token == reply.body.value.accessToken &&
                      r.value.expiry + ExpiryMargin == now + reply.body.value.expiresIn * Second
  {
    match reply
    case NoReply(e) => Err(Wrap("failed to get access token", e))
    case Answered(code, body) =>
      if code != StatusOK then Err(Failure("failed to get access token: status " + IntToString(code)))
      else if body.Err? then Err(Wrap("failed to decode token response", body.error))
      else Ok(Credentials(body.value.accessToken, now + body.value.expiresIn * Second - ExpiryMargin))
  }

  /**
   * `getAccessToken` as a step of the cache: the new credentials, the
   * error, and whether a token request was sent.
   */
  function TokenStep(c: Credentials, now: Instant, reply: Reply<TokenResponse>): (Credentials, Option<Error>, bool)
  {
    if Usable(c, now) then (c, None, false)
    else match Refreshed(reply, now)
      case Ok(renewed) => (renewed, None, true)
      case Err(e) => (c, Some(e), true)
  }

  /**
   * A usable token is reused without a request; otherwise a request is sent,
   * and the cache changes exactly when it succeeds.
   */
  lemma TokenStepCases(c: Credentials, now: Instant, reply: Reply<TokenResponse>)
    ensures var (c', err, fetched) := TokenStep(c, now, reply);
      && (fetched <==> !Usable(c, now))
      && (err.Some? ==> fetched && c' == c)
      && (!fetched ==> c' == c && err.None?)
      && (fetched && err.None? ==> Refreshed(reply, now) == Ok(c'))
  {
  }

  /**
   * A refreshed, non-empty token whose lifetime exceeds the margin serves
   * every later call before its expiry without a new request, whatever that
   * request would have answered.
   */
  lemma CachedUntilExpiry(c: Credentials, now: Instant, reply: Reply<TokenResponse>, later: Instant, again: Reply<TokenResponse>)
    requires reply.Answered? && reply.status == StatusOK && reply.body.Ok?
    requires reply.body.value.accessToken != "" && reply.body.value.expiresIn * Second > ExpiryMargin
    requires !Usable(c, now) && now <= later
    ensures var (c', err, fetched) := TokenStep(c, now, reply);
      && err.None? && fetched
      && (later < c'.expiry ==> TokenStep(c', later, again) == (c', None, false))
      && (later >= c'.expiry ==> TokenStep(c', later, again).2)
  {
  }

  // ------------------------------------------------------------ artists

  /** The artist of both `SearchArtists` and `GetArtist`: Spotify ID, genres, popularity and the first image. */
  function ToArtist(s: SpotifyArtist): Artist
  {
    Artist("spotify_" + s.id, s.name, ExternalIDs(s.id, ""), s.genres, s.popularity,
           if |s.images| > 0 then s.images[0] else "", ZeroInstant, ZeroInstant)
  }

  method ConvertArtist(s: SpotifyArtist) returns (a: Artist)
    ensures a == ToArtist(s)
  {
    a := Artist("spotify_" + s.id, s.name, ExternalIDs(s.id, ""), s.genres, s.popularity, "", ZeroInstant, ZeroInstant);
    if |s.images| > 0 {
      a := a.(imageURL := s.images[0]);
    }
  }

  /**
   * A converted artist keeps the Spotify ID both in its own ID and as its
   * Spotify external ID, so distinct Spotify artists stay distinct.
   */
  lemma ToArtistFields(s: SpotifyArtist, u: SpotifyArtist)
    ensures var a := ToArtist(s);
      && a.externalIDs.spotifyID == s.id && a.externalIDs.lastFMID == ""
      && a.id[|"spotify_"|..] == a.externalIDs.spotifyID && a.id[..|"spotify_"|] == "spotify_"
      && a.genres == s.genres && a.popularity == s.popularity
      && (|s.images| > 0 ==> a.imageURL == s.images[0]) && (|s.images| == 0 ==> a.imageURL == "")
      && (s.id != u.id ==> a.id != ToArtist(u).id)
  {
    var p := "spotify_";
    assert (p + s.id)[|p|..] == s.id;
    assert (p + u.id)[|p|..] == u.id;
    assert (p + s.id)[..|p|] == p;
  }

  /** The conversion loop of `SearchArtists`. */
  method ConvertArtists(items: seq<SpotifyArtist>) returns (artists: seq<Artist>)
    ensures artists == Map(items, ToArtist)
  {
    artists := [];
    for i := 0 to |items|
      invariant artists == Map(items[..i], ToArtist)
    {
      var a := ConvertArtist(items[i]);
      MapExtend(items[..i], ToArtist, artists, items[i], a);
      TakeNext(items, i);
      artists := artists + [a];
    }
    TakeAll(items);
  }

  /** The search limit: 10 when unset, at most 50. */
  function SearchLimit(limit: int): (l: int)
    ensures 1 <= l <= 50
    ensures 1 <= limit <= 50 ==> l == limit
    ensures limit <= 0 ==> l == 10
    ensures limit > 50 ==> l == 50
  {
    if limit <= 0 then 10 else if limit > 50 then 50 else limit
  }

  /** The artists of a search reply. */
  function SearchOutcome(reply: Reply<seq<SpotifyArtist>>): (r: Result<seq<Artist>>)
    ensures r.Ok? <==> reply.Answered? && reply.status == StatusOK && reply.body.Ok?
    ensures r.Ok? ==> |r.value| == |reply.body.value| &&
                      forall k :: 0 <= k < |r.value| ==> r.value[k] == ToArtist(reply.body.value[k])
    ensures reply.Answered? && reply.status != StatusOK ==> r == Err(StatusError("spotify search", reply.status))
  {
    match ExpectDecoded(reply, "failed to search artists", "spotify search", "failed to decode search response")
    case Err(e) => Err(e)
    case Ok(items) => Ok(Map(items, ToArtist))
  }

  /** The artist of a lookup reply: 404 is "artist not found", any other status but 200 an error. */
  function LookupOutcome(reply: Reply<SpotifyArtist>): (r: Result<Artist>)
    ensures reply.Answered? && reply.status == StatusNotFound ==> r == Err(ArtistNotFound)
    ensures reply.Answered? && reply.status != StatusNotFound && reply.status != StatusOK ==>
      r == Err(StatusError("spotify get artist", reply.status))
    ensures r.Ok? <==> reply.Answered? && reply.status == StatusOK && reply.body.Ok?
    ensures r.Ok? ==> r.value == ToArtist(reply.body.value)
  {
    if reply.Answered? && reply.status == StatusNotFound then Err(ArtistNotFound)
    else match ExpectDecoded(reply, "failed to get artist", "spotify get artist", "failed to decode artist response")
      case Err(e) => Err(e)
      case Ok(s) => Ok(ToArtist(s))
  }

  function TokenRequests(fetched: bool, clientID: string, clientSecret: string): seq<Request>
  {
    if fetched then [TokenRequest(clientID, clientSecret)] else []
  }

  class SpotifyClient {
    const clientID: string
    const clientSecret: string
    var accessToken: string
    var tokenExpiry: Instant

    /** `NewSpotifyClient`: both the client ID and the secret are required. */
    static method New(clientID: string, clientSecret: string) returns (r: Result<SpotifyClient>)
      ensures r.Err? <==> clientID == "" || clientSecret == ""
      ensures r.Err? ==> r.error == Failure("spotify client ID and secret are required")
      ensures r.Ok? ==> fresh(r.value) && r.value.clientID == clientID && r.value.clientSecret == clientSecret &&
                        r.value.accessToken == "" && r.value.tokenExpiry == ZeroInstant
    {
      if clientID == "" || clientSecret == "" {
        return Err(Failure("spotify client ID and secret are required"));
      }
      var c := new SpotifyClient.Init(clientID, clientSecret);
      r := Ok(c);
    }

    constructor Init(clientID: string, clientSecret: string)
      ensures this.clientID == clientID && this.clientSecret == clientSecret
      ensures accessToken == "" && tokenExpiry == ZeroInstant
    {
      this.clientID := clientID;
      this.clientSecret := clientSecret;
      accessToken := "";
      tokenExpiry := ZeroInstant;
    }

    /** `getAccessToken` at `now`, with `reply` the answer a token request would get. */
    method GetAccessToken(now: Instant, reply: Reply<TokenResponse>) returns (err: Option<Error>, sent: seq<Request>)
      modifies this
      ensures var (c, e, fetched) := TokenStep(Credentials(old(accessToken), old(tokenExpiry)), now, reply);
        && Credentials(accessToken, tokenExpiry) == c
        && err == e
        && sent == TokenRequests(fetched, clientID, clientSecret)
    {
      if accessToken != "" && now < tokenExpiry {
        return None, [];
      }
      sent := [TokenRequest(clientID, clientSecret)];
      if reply.NoReply? {
        return Some(Wrap("failed to get access token", reply.error)), sent;
      }
      if reply.status != StatusOK {
        return Some(Failure("failed to get access token: status " + IntToString(reply.status))), sent;
      }
      if reply.body.Err? {
        return Some(Wrap("failed to decode token response", reply.body.error)), sent;
      }
      var tokenResp := reply.body.value;
      accessToken := tokenResp.accessToken;
      tokenExpiry := now + tokenResp.expiresIn * Second - ExpiryMargin;
      err := None;
    }

    /** `SearchArtists`: a token first, then the search with the clamped limit; the query is sent as given. */
    method SearchArtists(query: string, limit: int, now: Instant, tokenReply: Reply<TokenResponse>,
                         reply: Reply<seq<SpotifyArtist>>) returns (r: Result<seq<Artist>>, sent: seq<Request>)
      modifies this
      ensures var (c, e, fetched) := TokenStep(Credentials(old(accessToken), old(tokenExpiry)), now, tokenReply);
        && Credentials(accessToken, tokenExpiry) == c
        && (e.Some? ==> r == Err(e.value) && sent == TokenRequests(fetched, clientID, clientSecret))
        && (e.None? ==> r == SearchOutcome(reply))
        && (e.None? ==> sent == TokenRequests(fetched, clientID, clientSecret) + [ArtistSearch(query, SearchLimit(limit), c.token)])
    {
      var err, tokenSent := GetAccessToken(now, tokenReply);
      if err.Some? {
        return Err(err.value), tokenSent;
      }
      var l := SearchLimit(limit);
      sent := tokenSent + [ArtistSearch(query, l, accessToken)];
      var body := ExpectDecoded(reply, "failed to search artists", "spotify search", "failed to decode search response");
      if body.Err? {
        return Err(body.error), sent;
      }
      var artists := ConvertArtists(body.value);
      r := Ok(artists);
    }

    /** `GetArtist`: a token first, then the lookup. */
    method GetArtist(spotifyID: string, now: Instant, tokenReply: Reply<TokenResponse>, reply: Reply<SpotifyArtist>)
      returns (r: Result<Artist>, sent: seq<Request>)
      modifies this
      ensures var (c, e, fetched) := TokenStep(Credentials(old(accessToken), old(tokenExpiry)), now, tokenReply);
        && Credentials(accessToken, tokenExpiry) == c
        && (e.Some? ==> r == Err(e.value) && sent == TokenRequests(fetched, clientID, clientSecret))
        && (e.None? ==> r == LookupOutcome(reply))
        && (e.None? ==> sent == TokenRequests(fetched, clientID, clientSecret) + [ArtistLookup(spotifyID, c.token)])
    {
      var err, tokenSent := GetAccessToken(now, tokenReply);
      if err.Some? {
        return Err(err.value), tokenSent;
      }
      sent := tokenSent + [ArtistLookup(spotifyID, accessToken)];
      if reply.Answered? && reply.status == StatusNotFound {
        return Err(ArtistNotFound), sent;
      }
      var body := ExpectDecoded(reply, "failed to get artist", "spotify get artist", "failed to decode artist response");
      if body.Err? {
        return Err(body.error), sent;
      }
      var a := ConvertArtist(body.value);
      r := Ok(a);
    }
  }
}
