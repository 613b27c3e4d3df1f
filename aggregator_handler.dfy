/**
 * The search endpoints in front of the federated aggregator: artist search,
 * event search by artist, event search by location, and the list of
 * sources. Each search checks its required parameter, reads the result
 * limit, asks the aggregator and writes the answer as JSON.
 *
 * The aggregator's answers are parameters (`search` functions of the
 * arguments it would be called with); whether a payload can be encoded is
 * the `encodes` parameter. A handler returns the reply together with the
 * call it made, `None` when it did not call the aggregator.
 */
module AggregatorHandlers {
  import opened Wrappers
  import opened Numerals
  import opened Text
  import opened Domain
  import opened Http
  import opened ResultCache
  import Federated

  /** The aggregator call a handler made. */
  datatype Call =
    | ArtistSearch(query: string, limit: int)
    | EventSearch(artist: string, limit: int)
    | LocationSearch(city: string, country: string, limit: int)

  datatype Handled<T> = Handled(reply: Reply<T>, call: Option<Call>)

  const DefaultLimit := 50
  const MaxLimit := 200

  /**
   * The `limit` parameter of the three searches: 50 when absent, not a
   * number or not positive; otherwise the number, at most 200.
   */
  function QueryLimit(limitStr: string): (limit: int)
    ensures 1 <= limit <= MaxLimit
    ensures PositiveInt(limitStr).None? ==> limit == DefaultLimit
  {
    var parsed := PositiveInt(limitStr);
    if limitStr != "" && parsed.Some? then
      (if parsed.value > MaxLimit then MaxLimit else parsed.value)
    else DefaultLimit
  }

  /** A limit written in decimal is kept up to 200 and capped above it. */
  lemma QueryLimitReads(n: int)
    requires 1 <= n <= Int64Max
    ensures QueryLimit(IntToString(n)) == if n <= MaxLimit then n else MaxLimit
  {
    PositiveIntReads(n);
  }

  /** Zero or a negative limit falls back to 50. */
  lemma QueryLimitRefuses(n: int)
    requires Int64Min <= n <= 0
    ensures QueryLimit(IntToString(n)) == DefaultLimit
  {
    PositiveIntRefuses(n);
  }

  /** `writeJSONResponse`: the payload with the status, or 500 in plain text when it cannot be encoded. */
  function WriteJSON<T>(status: int, data: T, encodes: bool): (r: Reply<T>)
    ensures encodes ==> r == Reply(status, Payload(data))
    ensures !encodes ==> r == Reply(StatusInternalServerError, PlainText("failed to encode response"))
  {
    if encodes then Reply(status, Payload(data))
    else Reply(StatusInternalServerError, PlainText("failed to encode response"))
  }

  /** `writeErrorResponse`: the message and the status, in the body and as the status. */
  function WriteError<T>(status: int, message: string): Reply<T>
  {
    Reply(status, ErrorStatus(message, status))
  }

  /** The common tail of the three searches: 500 with `failMessage` on an aggregator error, else 200 with the results. */
  function Answer(results: Result<AggregatedResults>, failMessage: string, encodes: AggregatedResults -> bool): Reply<AggregatedResults>
  {
    if results.Err? then WriteError(StatusInternalServerError, failMessage)
    else WriteJSON(StatusOK, results.value, encodes(results.value))
  }

  /** `SearchArtists`: `q` is required; the aggregator gets it with the limit. */
  function SearchArtists(q: Query, search: (string, int) -> Result<AggregatedResults>, encodes: AggregatedResults -> bool): (r: Handled<AggregatedResults>)
    ensures Param(q, "q") == "" ==> r == Handled(WriteError(StatusBadRequest, "query parameter 'q' is required"), None)
    ensures Param(q, "q") != "" ==>
      && r.call == Some(ArtistSearch(Param(q, "q"), QueryLimit(Param(q, "limit"))))
      && r.reply == Answer(search(Param(q, "q"), QueryLimit(Param(q, "limit"))), "failed to search artists", encodes)
  {
    var query := Param(q, "q");
    if query == "" then Handled(WriteError(StatusBadRequest, "query parameter 'q' is required"), None)
    else
      var limit := QueryLimit(Param(q, "limit"));
      Handled(Answer(search(query, limit), "failed to search artists", encodes), Some(ArtistSearch(query, limit)))
  }

  /** `SearchEvents`: `artist` is required; the aggregator gets it with the limit. */
  function SearchEvents(q: Query, search: (string, int) -> Result<AggregatedResults>, encodes: AggregatedResults -> bool): (r: Handled<AggregatedResults>)
    ensures Param(q, "artist") == "" ==> r == Handled(WriteError(StatusBadRequest, "query parameter 'artist' is required"), None)
    ensures Param(q, "artist") != "" ==>
      && r.call == Some(EventSearch(Param(q, "artist"), QueryLimit(Param(q, "limit"))))
      && r.reply == Answer(search(Param(q, "artist"), QueryLimit(Param(q, "limit"))), "failed to search events", encodes)
  {
    var artist := Param(q, "artist");
    if artist == "" then Handled(WriteError(StatusBadRequest, "query parameter 'artist' is required"), None)
    else
      var limit := QueryLimit(Param(q, "limit"));
      Handled(Answer(search(artist, limit), "failed to search events", encodes), Some(EventSearch(artist, limit)))
  }

  /** `SearchEventsByLocation`: `city` is required, `country` optional (empty when absent). */
  function SearchEventsByLocation(q: Query, search: (string, string, int) -> Result<AggregatedResults>, encodes: AggregatedResults -> bool): (r: Handled<AggregatedResults>)
    ensures Param(q, "city") == "" ==> r == Handled(WriteError(StatusBadRequest, "query parameter 'city' is required"), None)
    ensures Param(q, "city") != "" ==>
      && r.call == Some(LocationSearch(Param(q, "city"), Param(q, "country"), QueryLimit(Param(q, "limit"))))
      && r.reply == Answer(search(Param(q, "city"), Param(q, "country"), QueryLimit(Param(q, "limit"))), "failed to search events by location", encodes)
  {
    var city := Param(q, "city");
    if city == "" then Handled(WriteError(StatusBadRequest, "query parameter 'city' is required"), None)
    else
      var country := Param(q, "country");
      var limit := QueryLimit(Param(q, "limit"));
      Handled(Answer(search(city, country, limit), "failed to search events by location", encodes), Some(LocationSearch(city, country, limit)))
  }

  /**
   * Whatever the request, a search either refuses it with 400 without
   * calling the aggregator, or calls it with a limit in [1, 200] and replies
   * 200 exactly when the aggregator answered and the answer could be
   * encoded, 500 otherwise.
   */
  lemma SearchArtistsOutcomes(q: Query, search: (string, int) -> Result<AggregatedResults>, encodes: AggregatedResults -> bool)
    ensures var r := SearchArtists(q, search, encodes);
      && (r.call.None? <==> r.reply.status == StatusBadRequest)
      && (r.call.Some? ==> 1 <= r.call.value.limit <= MaxLimit)
      && (r.reply.status == StatusOK <==>
          r.call.Some? && search(r.call.value.query, r.call.value.limit).Ok? && encodes(search(r.call.value.query, r.call.value.limit).value))
      && r.reply.status in {StatusOK, StatusBadRequest, StatusInternalServerError}
  {
  }

  /** The same outcomes for the location search, whose country may be empty. */
  lemma LocationOutcomes(q: Query, search: (string, string, int) -> Result<AggregatedResults>, encodes: AggregatedResults -> bool)
    ensures var r := SearchEventsByLocation(q, search, encodes);
      && (r.call.None? <==> r.reply.status == StatusBadRequest)
      && (r.call.Some? ==> 1 <= r.call.value.limit <= MaxLimit && r.call.value.city != "")
      && ("country" !in q && r.call.Some? ==> r.call.value.country == "")
      && r.reply.status in {StatusOK, StatusBadRequest, StatusInternalServerError}
  {
  }

  /** The body of `GetSources`. */
  datatype SourcesResponse = SourcesResponse(sources: map<string, Federated.SourceInfo>, total: int)

  /** `GetSources`: the aggregator's sources and their number. */
  function GetSources(sources: map<string, Federated.SourceInfo>, encodes: SourcesResponse -> bool): (r: Reply<SourcesResponse>)
    ensures r.status == StatusOK ==> r.body.Payload? && r.body.value.sources == sources && r.body.value.total == |sources|
    ensures r.status == StatusOK <==> encodes(SourcesResponse(sources, |sources|))
    ensures r.status == StatusOK || r.body == PlainText("failed to encode response")
  {
    var response := SourcesResponse(sources, |sources|);
    WriteJSON(StatusOK, response, encodes(response))
  }

  /** `formatLocation`: the non-empty ones of city and country, joined by ", ". */
  function FormatLocation(city: string, country: string): (r: string)
    ensures city != "" && country != "" ==> r == city + ", " + country
    ensures city == "" ==> r == country
    ensures country == "" ==> r == city
  {
    var parts := (if city != "" then [city] else []) + (if country != "" then [country] else []);
    if city != "" && country != "" then
      JoinCons(city, [country], ", ");
      assert parts == [city] + [country];
      Join(parts, ", ")
    else Join(parts, ", ")
  }
}
