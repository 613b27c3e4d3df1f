/**
 * One HTTP round trip of an adapter, seen from the adapter: either the
 * request failed (`client.Do` returned an error), or a status code arrived
 * with a body whose JSON decoding succeeded or failed.
 */
module Remote {
  import opened Domain
  import opened Numerals

  datatype Reply<T> = NoReply(error: Error) | Answered(status: int, body: Result<T>)

  const StatusOK: int := 200
  const StatusUnauthorized: int := 401
  const StatusForbidden: int := 403
  const StatusNotFound: int := 404
  const StatusTooManyRequests: int := 429
  const StatusServiceUnavailable: int := 503

  /** `fmt.Errorf("<what> failed: status %d", code)`. */
  function StatusError(what: string, code: int): (e: Error)
    ensures e.Failure? && e.message == what + " failed: status " + IntToString(code)
  {
    Failure(what + " failed: status " + IntToString(code))
  }

  /** `300` and `302` give different status errors: the code is recoverable from the message. */
  lemma StatusErrorInjective(what: string, a: int, b: int)
    requires StatusError(what, a) == StatusError(what, b)
    ensures a == b
  {
    var p := what + " failed: status ";
    assert StatusError(what, a).message == p + IntToString(a);
    assert (p + IntToString(a))[|p|..] == IntToString(a);
    assert (p + IntToString(b))[|p|..] == IntToString(b);
    IntToStringInjective(a, b);
  }

  /**
   * The common tail of a round trip: a transport error wrapped with
   * `failed`, a status other than 200 reported as `what` failing, a decode
   * error wrapped as `failed to decode response`, and otherwise the body.
   */
  function Expect<T>(r: Reply<T>, failed: string, what: string): (res: Result<T>)
    ensures r.NoReply? ==> res == Err(Wrap(failed, r.error))
    ensures r.Answered? && r.status != StatusOK ==> res == Err(StatusError(what, r.status))
    ensures r.Answered? && r.status == StatusOK && r.body.Err? ==> res == Err(Wrap("failed to decode response", r.body.error))
    ensures res.Ok? <==> r.Answered? && r.status == StatusOK && r.body.Ok?
    ensures res.Ok? ==> res.value == r.body.value
  {
    ExpectDecoded(r, failed, what, "failed to decode response")
  }

  /** `Expect` for a client that names the payload in its decode error (`failed to decode artist response`). */
  function ExpectDecoded<T>(r: Reply<T>, failed: string, what: string, undecoded: string): (res: Result<T>)
    ensures r.NoReply? ==> res == Err(Wrap(failed, r.error))
    ensures r.Answered? && r.status != StatusOK ==> res == Err(StatusError(what, r.status))
    ensures r.Answered? && r.status == StatusOK && r.body.Err? ==> res == Err(Wrap(undecoded, r.body.error))
    ensures res.Ok? <==> r.Answered? && r.status == StatusOK && r.body.Ok?
    ensures res.Ok? ==> res.value == r.body.value
  {
    match r
    case NoReply(e) => Err(Wrap(failed, e))
    case Answered(code, body) =>
      if code != StatusOK then Err(StatusError(what, code))
      else if body.Err? then Err(Wrap(undecoded, body.error))
      else Ok(body.value)
  }
}
