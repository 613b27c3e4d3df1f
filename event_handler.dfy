/**
 * The event endpoints: the events of an artist, an event search by artist
 * name near a location, and one event by ID. Each turns the event
 * service's answer into a reply, mapping the service's sentinel errors to
 * HTTP statuses.
 *
 * The service's answers are parameters: `answer` when the handler always
 * calls the service, a function of the call's arguments when the handler
 * may refuse the request first.
 */
module EventHandlers {
  import opened Wrappers
  import opened Numerals
  import opened Domain
  import opened Http

  const DefaultRadius := 50
  const MaxRadius := 500

  /** `respondWithError`: `{"error": message}` with the status. */
  function ErrorReply<T>(status: int, message: string): Reply<T>
  {
    Reply(status, ErrorOnly(message))
  }

  /**
   * The `radius` parameter: 50 when absent; refused (`None`) when it is not
   * a positive integer; otherwise the number, at most 500.
   */
  function RadiusParam(radiusStr: string): (r: Option<int>)
    ensures radiusStr == "" ==> r == Some(DefaultRadius)
    ensures radiusStr != "" ==> (r.None? <==> PositiveInt(radiusStr).None?)
    ensures r.Some? ==> 1 <= r.value <= MaxRadius
  {
    if radiusStr == "" then Some(DefaultRadius)
    else
      var parsed := PositiveInt(radiusStr);
      if parsed.None? then None
      else if parsed.value > MaxRadius then Some(MaxRadius)
      else parsed
  }

  /** A radius written in decimal is kept up to 500 and capped above it. */
  lemma RadiusReads(n: int)
    requires 1 <= n <= Int64Max
    ensures RadiusParam(IntToString(n)) == Some(if n <= MaxRadius then n else MaxRadius)
  {
    PositiveIntReads(n);
  }

  /** Zero or a negative radius is refused. */
  lemma RadiusRefuses(n: int)
    requires Int64Min <= n <= 0
    ensures RadiusParam(IntToString(n)) == None
  {
    PositiveIntRefuses(n);
  }

  /** `GetArtistEvents`: the service's events, or the status of its error. */
  function GetArtistEvents(answer: Result<EventSearchResponse>): (r: Reply<EventSearchResponse>)
    ensures answer.Ok? ==> r == Reply(StatusOK, Payload(answer.value))
    ensures answer.Err? && answer.error == ArtistNotFound ==> r == ErrorReply(StatusNotFound, "artist not found")
    ensures answer.Err? && answer.error == RateLimitExceeded ==> r == ErrorReply(StatusTooManyRequests, "rate limit exceeded")
    ensures answer.Err? && answer.error == ExternalAPIFailure ==> r == ErrorReply(StatusServiceUnavailable, "external service unavailable")
    ensures answer.Err? && answer.error !in {ArtistNotFound, RateLimitExceeded, ExternalAPIFailure} ==>
      r == ErrorReply(StatusInternalServerError, "internal server error")
  {
    if answer.Ok? then Reply(StatusOK, Payload(answer.value))
    else
      match answer.error
      case ArtistNotFound => ErrorReply(StatusNotFound, "artist not found")
      case RateLimitExceeded => ErrorReply(StatusTooManyRequests, "rate limit exceeded")
      case ExternalAPIFailure => ErrorReply(StatusServiceUnavailable, "external service unavailable")
      case _ => ErrorReply(StatusInternalServerError, "internal server error")
  }

  /** The arguments the search handler passes to the service. */
  datatype SearchCall = SearchCall(artist: string, location: string, radius: int)

  datatype Handled<T> = Handled(reply: Reply<T>, call: Option<SearchCall>)

  /**
   * `SearchEvents`: `artist` is required and a given radius must be a
   * positive integer, both checked before the service is called; the
   * service's errors map to 400, 429, 503 or 500.
   */
  function SearchEvents(q: Query, service: (string, string, int) -> Result<EventSearchResponse>): (r: Handled<EventSearchResponse>)
    ensures Param(q, "artist") == "" ==> r == Handled(ErrorReply(StatusBadRequest, "artist parameter is required"), None)
    ensures Param(q, "artist") != "" && RadiusParam(Param(q, "radius")).None? ==>
      r == Handled(ErrorReply(StatusBadRequest, "radius must be a positive integer"), None)
    ensures Param(q, "artist") != "" && RadiusParam(Param(q, "radius")).Some? ==>
      && r.call == Some(SearchCall(Param(q, "artist"), Param(q, "location"), RadiusParam(Param(q, "radius")).value))
      && r.reply == SearchReply(service(Param(q, "artist"), Param(q, "location"), RadiusParam(Param(q, "radius")).value))
  {
    var artist := Param(q, "artist");
    var location := Param(q, "location");
    if artist == "" then Handled(ErrorReply(StatusBadRequest, "artist parameter is required"), None)
    else
      var radius := RadiusParam(Param(q, "radius"));
      if radius.None? then Handled(ErrorReply(StatusBadRequest, "radius must be a positive integer"), None)
      else Handled(SearchReply(service(artist, location, radius.value)), Some(SearchCall(artist, location, radius.value)))
  }

  /** The error mapping of `SearchEvents`. */
  function SearchReply(answer: Result<EventSearchResponse>): (r: Reply<EventSearchResponse>)
    ensures answer.Ok? ==> r == Reply(StatusOK, Payload(answer.value))
    ensures answer.Err? && answer.error == InvalidRequest ==> r == ErrorReply(StatusBadRequest, Message(InvalidRequest))
    ensures answer.Err? && answer.error == RateLimitExceeded ==> r == ErrorReply(StatusTooManyRequests, "rate limit exceeded")
    ensures answer.Err? && answer.error == ExternalAPIFailure ==> r == ErrorReply(StatusServiceUnavailable, "external service unavailable")
    ensures answer.Err? && answer.error !in {InvalidRequest, RateLimitExceeded, ExternalAPIFailure} ==>
      r == ErrorReply(StatusInternalServerError, "internal server error")
  {
    if answer.Ok? then Reply(StatusOK, Payload(answer.value))
    else
      match answer.error
      case InvalidRequest => ErrorReply(StatusBadRequest, Message(answer.error))
      case RateLimitExceeded => ErrorReply(StatusTooManyRequests, "rate limit exceeded")
      case ExternalAPIFailure => ErrorReply(StatusServiceUnavailable, "external service unavailable")
      case _ => ErrorReply(StatusInternalServerError, "internal server error")
  }

  /** `GetEvent`: the event, or 404, 429 or 500. */
  function GetEvent(answer: Result<Event>): (r: Reply<Event>)
    ensures answer.Ok? ==> r == Reply(StatusOK, Payload(answer.value))
    ensures answer.Err? && answer.error == EventNotFound ==> r == ErrorReply(StatusNotFound, "event not found")
    ensures answer.Err? && answer.error == RateLimitExceeded ==> r == ErrorReply(StatusTooManyRequests, "rate limit exceeded")
    ensures answer.Err? && answer.error !in {EventNotFound, RateLimitExceeded} ==>
      r == ErrorReply(StatusInternalServerError, "internal server error")
  {
    if answer.Ok? then Reply(StatusOK, Payload(answer.value))
    else
      match answer.error
      case EventNotFound => ErrorReply(StatusNotFound, "event not found")
      case RateLimitExceeded => ErrorReply(StatusTooManyRequests, "rate limit exceeded")
      case _ => ErrorReply(StatusInternalServerError, "internal server error")
  }

  /** The fixed texts an event reply's error may carry. */
  const ErrorTexts := {"artist not found", "event not found", "rate limit exceeded", "external service unavailable",
    "internal server error", "invalid request", "artist parameter is required", "radius must be a positive integer"}

  /**
   * The handlers answer 200 exactly when the service answered, and never
   * put the text of an unexpected error (a wrapped store or client failure)
   * into the reply: every error body is one of the fixed texts.
   */
  lemma RepliesHideFailures(answer: Result<EventSearchResponse>, event: Result<Event>, q: Query, service: (string, string, int) -> Result<EventSearchResponse>)
    ensures GetArtistEvents(answer).status == StatusOK <==> answer.Ok?
    ensures SearchReply(answer).status == StatusOK <==> answer.Ok?
    ensures GetEvent(event).status == StatusOK <==> event.Ok?
    ensures GetArtistEvents(answer).body.ErrorOnly? ==> GetArtistEvents(answer).body.error in ErrorTexts
    ensures SearchEvents(q, service).reply.body.ErrorOnly? ==> SearchEvents(q, service).reply.body.error in ErrorTexts
    ensures GetEvent(event).body.ErrorOnly? ==> GetEvent(event).body.error in ErrorTexts
  {
  }
}
