/**
 * The artist endpoints: search, lookup by ID, and save. Each checks its
 * input, calls the artist service and maps the service's sentinel errors
 * to HTTP statuses.
 *
 * The service's answers are parameters: a function of the call's arguments
 * where the handler may refuse the request before calling, the answer
 * itself where it always calls.
 */
module ArtistHandlers {
  import opened Wrappers
  import opened Numerals
  import opened Domain
  import opened Http

  const DefaultLimit := 10

  function ErrorReply<T>(status: int, message: string): Reply<T>
  {
    Reply(status, ErrorOnly(message))
  }

  /**
   * The `limit` parameter of the search: 10 when absent; refused (`None`)
   * when it is not a positive integer; otherwise the number, with no upper
   * bound.
   */
  function LimitParam(limitStr: string): (r: Option<int>)
    ensures limitStr == "" ==> r == Some(DefaultLimit)
    ensures limitStr != "" ==> r == PositiveInt(limitStr)
    ensures r.Some? ==> r.value >= 1
  {
    if limitStr == "" then Some(DefaultLimit) else PositiveInt(limitStr)
  }

  /** Any positive limit written in decimal is taken as it is, however large. */
  lemma LimitReads(n: int)
    requires 1 <= n <= Int64Max
    ensures LimitParam(IntToString(n)) == Some(n)
  {
    PositiveIntReads(n);
  }

  /** Zero or a negative limit is refused. */
  lemma LimitRefuses(n: int)
    requires Int64Min <= n <= 0
    ensures LimitParam(IntToString(n)) == None
  {
    PositiveIntRefuses(n);
  }

  /** The arguments the search handler passes to the service. */
  datatype SearchCall = SearchCall(query: string, limit: int)

  datatype Handled<T> = Handled(reply: Reply<T>, call: Option<SearchCall>)

  /** `SearchArtists`: `q` is required and a given limit must be a positive integer, both checked before the service is called. */
  function SearchArtists(q: Query, service: (string, int) -> Result<ArtistSearchResponse>): (r: Handled<ArtistSearchResponse>)
    ensures Param(q, "q") == "" ==> r == Handled(ErrorReply(StatusBadRequest, "query parameter 'q' is required"), None)
    ensures Param(q, "q") != "" && LimitParam(Param(q, "limit")).None? ==>
      r == Handled(ErrorReply(StatusBadRequest, "limit must be a positive integer"), None)
    ensures Param(q, "q") != "" && LimitParam(Param(q, "limit")).Some? ==>
      && r.call == Some(SearchCall(Param(q, "q"), LimitParam(Param(q, "limit")).value))
      && r.reply == SearchReply(service(Param(q, "q"), LimitParam(Param(q, "limit")).value))
  {
    var query := Param(q, "q");
    if query == "" then Handled(ErrorReply(StatusBadRequest, "query parameter 'q' is required"), None)
    else
      var limit := LimitParam(Param(q, "limit"));
      if limit.None? then Handled(ErrorReply(StatusBadRequest, "limit must be a positive integer"), None)
      else Handled(SearchReply(service(query, limit.value)), Some(SearchCall(query, limit.value)))
  }

  /** The error mapping of `SearchArtists`. */
  function SearchReply(answer: Result<ArtistSearchResponse>): (r: Reply<ArtistSearchResponse>)
    ensures answer.Ok? ==> r == Reply(StatusOK, Payload(answer.value))
    ensures answer.Err? && answer.error == InvalidRequest ==> r == ErrorReply(StatusBadRequest, Message(InvalidRequest))
    ensures answer.Err? && answer.error == ExternalAPIFailure ==> r == ErrorReply(StatusServiceUnavailable, "external service unavailable")
    ensures answer.Err? && answer.error !in {InvalidRequest, ExternalAPIFailure} ==>
      r == ErrorReply(StatusInternalServerError, "internal server error")
  {
    if answer.Ok? then Reply(StatusOK, Payload(answer.value))
    else
      match answer.error
      case InvalidRequest => ErrorReply(StatusBadRequest, Message(answer.error))
      case ExternalAPIFailure => ErrorReply(StatusServiceUnavailable, "external service unavailable")
      case _ => ErrorReply(StatusInternalServerError, "internal server error")
  }

  /** `GetArtist`: the artist, 404 when it is not found, 500 on any other error. */
  function GetArtist(answer: Result<Artist>): (r: Reply<Artist>)
    ensures answer.Ok? ==> r == Reply(StatusOK, Payload(answer.value))
    ensures answer.Err? && answer.error == ArtistNotFound ==> r == ErrorReply(StatusNotFound, "artist not found")
    ensures answer.Err? && answer.error != ArtistNotFound ==> r == ErrorReply(StatusInternalServerError, "internal server error")
  {
    if answer.Ok? then Reply(StatusOK, Payload(answer.value))
    else if answer.error == ArtistNotFound then ErrorReply(StatusNotFound, "artist not found")
    else ErrorReply(StatusInternalServerError, "internal server error")
  }

  /** What the service's `SaveArtist` did: its error, and the artist as it left it (with any ID it assigned). */
  datatype Saved = Saved(err: Option<Error>, artist: Artist)

  /**
   * `SaveArtist`: `body` is the decoded request body, `None` when it does
   * not decode. An undecodable body or an empty name is refused before the
   * service is called; the service's errors map to 409, 400 or 500; a saved
   * artist is returned with 201. The flag says whether the service was called.
   */
  function SaveArtist(body: Option<Artist>, save: Artist -> Saved): (r: (Reply<Artist>, bool))
    ensures body.None? ==> r == (ErrorReply(StatusBadRequest, "invalid request body"), false)
    ensures body.Some? && body.value.name == "" ==> r == (ErrorReply(StatusBadRequest, "artist name is required"), false)
    ensures body.Some? && body.value.name != "" ==> r.1 && r.0 == SaveReply(save(body.value))
  {
    if body.None? then (ErrorReply(StatusBadRequest, "invalid request body"), false)
    else if body.value.name == "" then (ErrorReply(StatusBadRequest, "artist name is required"), false)
    else (SaveReply(save(body.value)), true)
  }

  /** The error mapping of `SaveArtist`. */
  function SaveReply(saved: Saved): (r: Reply<Artist>)
    ensures saved.err.None? ==> r == Reply(StatusCreated, Payload(saved.artist))
    ensures saved.err == Some(DuplicateArtist) ==> r == ErrorReply(StatusConflict, "artist already exists")
    ensures saved.err == Some(InvalidRequest) ==> r == ErrorReply(StatusBadRequest, Message(InvalidRequest))
    ensures saved.err.Some? && saved.err.value !in {DuplicateArtist, InvalidRequest} ==>
      r == ErrorReply(StatusInternalServerError, "internal server error")
  {
    if saved.err.None? then Reply(StatusCreated, Payload(saved.artist))
    else
      match saved.err.value
      case DuplicateArtist => ErrorReply(StatusConflict, "artist already exists")
      case InvalidRequest => ErrorReply(StatusBadRequest, Message(saved.err.value))
      case _ => ErrorReply(StatusInternalServerError, "internal server error")
  }

  /**
   * A save is answered 201 exactly when the body decoded, named an artist
   * and the service stored it, and the reply then carries the artist as
   * the service left it.
   */
  lemma SaveOutcomes(body: Option<Artist>, save: Artist -> Saved)
    ensures SaveArtist(body, save).0.status == StatusCreated <==>
      body.Some? && body.value.name != "" && save(body.value).err.None?
    ensures SaveArtist(body, save).0.status == StatusCreated ==> SaveArtist(body, save).0.body == Payload(save(body.value).artist)
    ensures SaveArtist(body, save).0.status in {StatusCreated, StatusBadRequest, StatusConflict, StatusInternalServerError}
  {
  }
}
