/**
 * What the HTTP handlers read and write: the query string of a request and
 * the status and body of the reply. Headers and the bytes on the wire are
 * not modelled; a body is the value that would be encoded as JSON.
 */
module Http {
  import opened Wrappers
  import opened Numerals

  const StatusOK := 200
  const StatusCreated := 201
  const StatusBadRequest := 400
  const StatusNotFound := 404
  const StatusConflict := 409
  const StatusTooManyRequests := 429
  const StatusInternalServerError := 500
  const StatusServiceUnavailable := 503

  /** The query parameters of a request, each with its first value. */
  type Query = map<string, string>

  /** `url.Values.Get`: an absent parameter reads as the empty string. */
  function Param(q: Query, key: string): string
  {
    if key in q then q[key] else ""
  }

  /**
   * A reply body: the payload; `{"error": message, "status": code}` as the
   * aggregator handler writes it; `{"error": message}` as the artist and
   * event handlers write it; or a plain-text error.
   */
  datatype Body<T> =
    | Payload(value: T)
    | ErrorStatus(error: string, code: int)
    | ErrorOnly(error: string)
    | PlainText(text: string)

  datatype Reply<T> = Reply(status: int, body: Body<T>)

  /** `strconv.Atoi` followed by a positivity test: the value when it is a positive `int64`. */
  function PositiveInt(s: string): (r: Option<int>)
    ensures r.Some? ==> 1 <= r.value <= Int64Max
    ensures r.Some? <==> Atoi(s).Some? && Atoi(s).value > 0
  {
    var n := Atoi(s);
    if n.Some? && n.value > 0 then n else None
  }

  /** Every positive `int64` printed in decimal is read back as itself. */
  lemma PositiveIntReads(n: int)
    requires 1 <= n <= Int64Max
    ensures PositiveInt(IntToString(n)) == Some(n)
  {
    AtoiIntToString(n);
  }

  /** Zero and negative numbers are refused. */
  lemma PositiveIntRefuses(n: int)
    requires Int64Min <= n <= 0
    ensures PositiveInt(IntToString(n)) == None
  {
    AtoiIntToString(n);
  }
}
