/**
 * The scraper base: text clean-up, the request throttle, the retry loop
 * around an HTTP request, the conversion of a scraped record into an event,
 * and the registry of scrapers keyed by name.
 */
module Scrapers {
  import opened Wrappers
  import opened Text
  import opened Numerals
  import opened Domain
  import Throttle
  import opened Sequences

  // ------------------------------------------------------------ ExtractText

  /** Every run of spaces shortened to a single space. */
  function Squeeze(s: string): string
    decreases |s|
  {
    if |s| < 2 then s
    else if s[0] == ' ' && s[1] == ' ' then Squeeze(s[1..])
    else [s[0]] + Squeeze(s[1..])
  }

  /** The text before the space-collapsing loop: trimmed, with newlines and tabs turned into spaces. */
  function Prepared(text: string): string
  {
    ReplaceAll(ReplaceAll(TrimSpace(text), "\n", " "), "\t", " ")
  }

  /** What `ExtractText` makes of a text. */
  function Extracted(text: string): string
  {
    Squeeze(Prepared(text))
  }

  lemma {:induction false} SqueezeAfterReplace(c: char, t: string)
    ensures Squeeze([c] + ReplaceAll(t, "  ", " ")) == Squeeze([c] + t)
    decreases |t|
  {
    var r := ReplaceAll(t, "  ", " ");
    if |t| < 2 {
      assert r == t;
    } else if t[..2] == "  " {
      var w := t[2..];
      var rw := ReplaceAll(w, "  ", " ");
      assert r == " " + rw;
      SqueezeAfterReplace(' ', w);
      assert ([c] + r)[1..] == " " + rw;
      assert ([c] + t)[1..] == "  " + w;
      assert ("  " + w)[1..] == " " + w;
    } else {
      var w := t[1..];
      var rw := ReplaceAll(w, "  ", " ");
      assert r == [t[0]] + rw;
      SqueezeAfterReplace(t[0], w);
      assert ([c] + r)[1..] == [t[0]] + rw;
      assert ([c] + t)[1..] == [t[0]] + w;
    }
  }

  /** One pass of `ReplaceAll(s, "  ", " ")` does not change what squeezing gives. */
  lemma SqueezeReplace(s: string)
    ensures Squeeze(ReplaceAll(s, "  ", " ")) == Squeeze(s)
  {
    if |s| >= 2 {
      if s[..2] == "  " {
        SqueezeAfterReplace(' ', s[2..]);
        assert s[1..] == " " + s[2..];
      } else {
        SqueezeAfterReplace(s[0], s[1..]);
        assert s == [s[0]] + s[1..];
      }
    }
  }

  lemma {:induction false} SqueezeFixed(s: string)
    requires !Contains(s, "  ")
    ensures Squeeze(s) == s
    decreases |s|
  {
    ContainsIff(s, "  ");
    if |s| >= 2 {
      assert !OccursAt(s, "  ", 0);
      assert s[..2] != "  ";
      OccursShift(s, "  ");
      ContainsIff(s[1..], "  ");
      forall j ensures !OccursAt(s[1..], "  ", j) {
        if j >= 0 { assert !OccursAt(s, "  ", j + 1); }
      }
      SqueezeFixed(s[1..]);
    }
  }

  lemma {:induction false} ReplaceShrinks(s: string)
    ensures |ReplaceAll(s, "  ", " ")| <= |s|
    ensures Contains(s, "  ") ==> |ReplaceAll(s, "  ", " ")| < |s|
    decreases |s|
  {
    ContainsIff(s, "  ");
    if |s| >= 2 {
      if s[..2] == "  " {
        ReplaceShrinks(s[2..]);
      } else {
        ReplaceShrinks(s[1..]);
        if Contains(s, "  ") {
          var j :| OccursAt(s, "  ", j);
          assert j != 0;
          OccursShift(s, "  ");
          ContainsWitness(s[1..], "  ", j - 1);
        }
      }
    }
  }

  /** Squeezing removes spaces and nothing else. */
  lemma {:induction false} SqueezeKeepsNonSpaces(s: string)
    ensures Without(Squeeze(s), ' ') == Without(s, ' ')
    decreases |s|
  {
    if |s| >= 2 {
      SqueezeKeepsNonSpaces(s[1..]);
      if !(s[0] == ' ' && s[1] == ' ') {
        assert ([s[0]] + Squeeze(s[1..]))[1..] == Squeeze(s[1..]);
      }
    }
  }

  /** `ExtractText`: trim, turn newlines and tabs into spaces, and collapse repeated spaces. */
  method ExtractText(text: string) returns (r: string)
    ensures r == Extracted(text)
    ensures !Contains(r, "  ") && '\n' !in r && '\t' !in r
  {
    var t := TrimSpace(text);
    t := ReplaceAll(t, "\n", " ");
    ReplaceAllRemoves(TrimSpace(text), "\n", " ");
    var u := ReplaceAll(t, "\t", " ");
    ReplaceAllRemoves(t, "\t", " ");
    ReplaceAllCreatesNothing(t, "\t", " ", "\n");
    t := u;
    while Contains(t, "  ")
      invariant Squeeze(t) == Squeeze(u)
      invariant !Contains(t, "\n") && !Contains(t, "\t")
      decreases |t|
    {
      var next := ReplaceAll(t, "  ", " ");
      SqueezeReplace(t);
      ReplaceShrinks(t);
      ReplaceAllCreatesNothing(t, "  ", " ", "\n");
      ReplaceAllCreatesNothing(t, "  ", " ", "\t");
      t := next;
    }
    SqueezeFixed(t);
    ContainsChar(t, '\n');
    ContainsChar(t, '\t');
    r := t;
  }

  /** A node's contribution to a list of texts: its extracted text, unless empty. */
  function NonEmptyText(text: string): seq<string>
  {
    if Extracted(text) != "" then [Extracted(text)] else []
  }

  /** The loop both HTML scrapers run over tag nodes: every non-empty extracted text, in order. */
  method ExtractTexts(nodes: seq<string>) returns (texts: seq<string>)
    ensures texts == FlatMap(nodes, NonEmptyText)
  {
    texts := [];
    for i := 0 to |nodes|
      invariant texts == FlatMap(nodes[..i], NonEmptyText)
    {
      FlatMapStep(nodes, NonEmptyText, i);
      var text := Extracted(nodes[i]);
      if text != "" {
        texts := texts + [text];
      }
    }
    TakeAll(nodes);
  }

  /** No collected text is empty. */
  lemma {:induction false} TextsNonEmpty(nodes: seq<string>)
    ensures forall g :: g in FlatMap(nodes, NonEmptyText) ==> g != ""
    decreases |nodes|
  {
    if |nodes| != 0 {
      TextsNonEmpty(nodes[..|nodes| - 1]);
    }
  }

  /**
   * An HTML page as a scraper receives it: the request failed, the body did
   * not parse, or the nodes the scraper's tree walk visits.
   */
  datatype Fetch<T> = FetchFailed(error: Error) | ParseFailed(error: Error) | Page(nodes: T)

  // -------------------------------------------------------------- ParseDate

  /** `ParseDate`: the first layout that accepts the trimmed text, else the current time. */
  function ParseDate(dateStr: string, layouts: seq<Parser>, now: Timestamp): (t: Timestamp)
    ensures (forall k :: 0 <= k < |layouts| ==> layouts[k](TrimSpace(dateStr)).None?) ==> t == now
    ensures forall k :: 0 <= k < |layouts| && layouts[k](TrimSpace(dateStr)).Some? &&
                        (forall i :: 0 <= i < k ==> layouts[i](TrimSpace(dateStr)).None?) ==>
                        t == layouts[k](TrimSpace(dateStr)).value
  {
    var p := FirstParse(layouts, TrimSpace(dateStr));
    if p.Some? then p.value else now
  }

  // ------------------------------------------------------------- the throttle

  /** What a `context.Context` reports: when it is done, if ever, and `ctx.Err()`. */
  datatype Context = Context(doneAt: Option<Instant>, err: Error)

  /** A timer of `d` that would fire at `start + d` loses to the context. */
  predicate CancelledBefore(ctx: Context, deadline: Instant)
  {
    ctx.doneAt.Some? && ctx.doneAt.value < deadline
  }

  /** The instant a `select` begun at `t` returns on a context that is done: at once, or when it ends. */
  function Woken(ctx: Context, t: Instant): Instant
    requires ctx.doneAt.Some?
  {
    if ctx.doneAt.value < t then t else ctx.doneAt.value
  }

  /** `scraperRateLimiter`; the zero `lastRequest` of a new limiter is `None`. */
  class ScraperRateLimiter {
    var lastRequest: Option<Instant>
    const delay: int

    constructor (delay: int)
      ensures this.delay == delay && lastRequest == None
    {
      this.delay := delay;
      lastRequest := None;
    }

    /**
     * `Wait`: sleep out the rest of the delay unless the context ends first.
     * Returns the error, if any, and the instant at which the call returns.
     */
    method Wait(now: Instant, ctx: Context) returns (err: Option<Error>, finish: Instant)
      modifies this`lastRequest
      ensures var w := Throttle.Remaining(old(lastRequest), delay, now);
        if w > 0 && CancelledBefore(ctx, now + w) then
          err == Some(ctx.err) && lastRequest == old(lastRequest) && finish == Woken(ctx, now)
        else
          err == None && finish == now + w && lastRequest == Some(finish)
      ensures err.None? && old(lastRequest).Some? ==> finish >= old(lastRequest).value + delay
    {
      var w := Throttle.Remaining(lastRequest, delay, now);
      finish := now;
      if w > 0 {
        if CancelledBefore(ctx, now + w) {
          return Some(ctx.err), Woken(ctx, now);
        }
        finish := now + w;
      }
      lastRequest := Some(finish);
      err := None;
    }
  }

  // ------------------------------------------------------------ BaseScraper

  datatype ScrapingConfig = ScrapingConfig(userAgent: string, requestDelay: int, maxRetries: int, timeout: int)

  const DefaultScraperUserAgent: string := "WhereItsAt-Bot/1.0 (+https://whereiatsat.com/bot)"

  /** `NewBaseScraper`'s defaults: only zero fields are filled. */
  function WithDefaults(c: ScrapingConfig): (r: ScrapingConfig)
    ensures r.userAgent != "" && r.requestDelay != 0 && r.maxRetries != 0 && r.timeout != 0
    ensures c.userAgent != "" ==> r.userAgent == c.userAgent
    ensures c.requestDelay != 0 ==> r.requestDelay == c.requestDelay
    ensures c.maxRetries != 0 ==> r.maxRetries == c.maxRetries
    ensures c.timeout != 0 ==> r.timeout == c.timeout
  {
    ScrapingConfig(
      if c.userAgent == "" then DefaultScraperUserAgent else c.userAgent,
      if c.requestDelay == 0 then 2 * Second else c.requestDelay,
      if c.maxRetries == 0 then 3 else c.maxRetries,
      if c.timeout == 0 then 30 * Second else c.timeout)
  }

  lemma WithDefaultsIdempotent(c: ScrapingConfig)
    ensures WithDefaults(WithDefaults(c)) == WithDefaults(c)
  {
  }

  /** What one `httpClient.Do` gives: a transport error or a response status. */
  datatype Attempt = Transport(error: Error) | Status(code: int)

  /** A response handed back to the caller, and whether its body was already closed. */
  datatype Reply = Reply(status: int, closed: bool)

  /** `MakeRequest`'s result: the response (Go may hand back none) and error. */
  datatype Outcome = Returned(resp: Option<Reply>) | Failed(error: Error)

  /** 429 and 5xx responses, and transport errors, lead to another attempt. */
  predicate Retryable(a: Attempt)
  {
    a.Transport? || a.code == 429 || a.code >= 500
  }

  /** Time slept before attempt k (k >= 1) and after a 429. */
  function Backoff(k: int): int { k * k * Second }

  const TooManyRequestsPause: int := 5 * Second

  /** The total of the pauses the loop takes across the first `n` attempts, when nothing cancels it. */
  function Slept(attempts: seq<Attempt>, n: nat): int
    requires n <= |attempts|
  {
    if n == 0 then 0
    else Slept(attempts, n - 1) + (if n - 1 > 0 then Backoff(n - 1) else 0)
         + (if attempts[n - 1] == Status(429) then TooManyRequestsPause else 0)
  }

  /** The monotonicity of `Slept`: later attempts have paused at least as long. */
  lemma {:induction false} SleptMonotone(attempts: seq<Attempt>, m: nat, n: nat)
    requires m <= n <= |attempts|
    ensures Slept(attempts, m) <= Slept(attempts, n)
    decreases n
  {
    if m < n {
      SleptMonotone(attempts, m, n - 1);
      BackoffNonNegative(n - 1);
    }
  }

  /**
   * What the loop holds after `k` attempts, all retryable: nothing before the
   * first; then the error of a transport failure, or the closed response.
   */
  predicate Holding(attempts: seq<Attempt>, k: nat, resp: Option<Reply>, lastErr: Option<Error>)
    requires k <= |attempts|
  {
    && (forall j :: 0 <= j < k ==> Retryable(attempts[j]))
    && if k == 0 then resp.None? && lastErr.None?
       else match attempts[k - 1]
         case Transport(e) => lastErr == Some(e) && resp.None?
         case Status(c) => lastErr.None? && resp == Some(Reply(c, true))
  }

  function RequestFailed(maxRetries: int, e: Error): Error
  {
    Wrap("request failed after " + IntToString(maxRetries + 1) + " attempts", e)
  }

  /**
   * The retry loop of `MakeRequest` from attempt `k` at instant `t`, holding
   * the response and error of attempt `k - 1`: `attempts[k]` is what the
   * k-th `Do` would give. Gives the outcome, the number of attempts made
   * and the instant the loop ends.
   */
  function RetryFrom(maxRetries: int, ctx: Context, attempts: seq<Attempt>, k: nat, t: Instant,
                     resp: Option<Reply>, lastErr: Option<Error>): (Outcome, nat, Instant)
    requires |attempts| > maxRetries
    decreases maxRetries + 1 - k
  {
    if k > maxRetries then
      (if lastErr.Some? then Failed(RequestFailed(maxRetries, lastErr.value)) else Returned(resp), k, t)
    else if k > 0 && CancelledBefore(ctx, t + Backoff(k)) then
      (Failed(ctx.err), k, Woken(ctx, t))
    else
      var t' := if k > 0 then t + Backoff(k) else t;
      match attempts[k]
      case Transport(e) => RetryFrom(maxRetries, ctx, attempts, k + 1, t', None, Some(e))
      case Status(c) =>
        if c == 429 then
          if CancelledBefore(ctx, t' + TooManyRequestsPause) then (Failed(ctx.err), k + 1, Woken(ctx, t'))
          else RetryFrom(maxRetries, ctx, attempts, k + 1, t' + TooManyRequestsPause, Some(Reply(c, true)), None)
        else if c >= 500 then RetryFrom(maxRetries, ctx, attempts, k + 1, t', Some(Reply(c, true)), None)
        else (Returned(Some(Reply(c, false))), k + 1, t')
  }

  /** The whole retry loop, begun at `start` once the throttle has let the request through. */
  function Retry(maxRetries: int, ctx: Context, start: Instant, attempts: seq<Attempt>): (Outcome, nat, Instant)
    requires |attempts| > maxRetries
  {
    RetryFrom(maxRetries, ctx, attempts, 0, start, None, None)
  }

  lemma BackoffNonNegative(k: int)
    ensures Backoff(k) >= 0
  {
    assert k * k >= 0;
  }

  /**
   * How a run of the loop from `start` may fail: the context ended before a
   * pause was over (at the latest, the backoff after the last attempt made),
   * or every attempt was made and the last was a transport error, returned
   * wrapped after all the pauses.
   */
  predicate FailureExplained(maxRetries: int, ctx: Context, start: Instant, attempts: seq<Attempt>, r: (Outcome, nat, Instant))
  {
    && r.1 <= |attempts|
    && (r.0.Failed? ==>
          || (r.0 == Failed(ctx.err) && CancelledBefore(ctx, start + Slept(attempts, r.1) + Backoff(r.1)))
          || (&& r.1 == maxRetries + 1 && r.1 > 0 && attempts[r.1 - 1].Transport?
              && r.0.error == RequestFailed(maxRetries, attempts[r.1 - 1].error)
              && r.2 == start + Slept(attempts, r.1)))
  }

  /**
   * A run that nothing cancelled: at least one attempt, ended after exactly
   * its pauses; a failure only after every attempt, the last a transport
   * error; otherwise the last attempt's response, closed exactly when it was
   * retryable, which happens only on the last allowed attempt.
   */
  predicate UncancelledRun(maxRetries: int, start: Instant, attempts: seq<Attempt>, r: (Outcome, nat, Instant))
  {
    && 0 < r.1 <= maxRetries + 1 && r.1 <= |attempts|
    && r.2 == start + Slept(attempts, r.1)
    && (attempts[r.1 - 1].Transport? ==>
          r.1 == maxRetries + 1 && r.0 == Failed(RequestFailed(maxRetries, attempts[r.1 - 1].error)))
    && (attempts[r.1 - 1].Status? ==>
          && r.0 == Returned(Some(Reply(attempts[r.1 - 1].code, Retryable(attempts[r.1 - 1]))))
          && (Retryable(attempts[r.1 - 1]) ==> r.1 == maxRetries + 1))
  }

  lemma {:induction false} RetryFromFailure(maxRetries: int, ctx: Context, start: Instant, attempts: seq<Attempt>,
                                            k: nat, t: Instant, resp: Option<Reply>, lastErr: Option<Error>)
    requires |attempts| > maxRetries
    requires if maxRetries < 0 then k == 0 else k <= maxRetries + 1
    requires t == start + Slept(attempts, k) && Holding(attempts, k, resp, lastErr)
    ensures FailureExplained(maxRetries, ctx, start, attempts, RetryFrom(maxRetries, ctx, attempts, k, t, resp, lastErr))
    decreases maxRetries + 1 - k
  {
    var r := RetryFrom(maxRetries, ctx, attempts, k, t, resp, lastErr);
    if k > maxRetries {
      assert r == (if lastErr.Some? then Failed(RequestFailed(maxRetries, lastErr.value)) else Returned(resp), k, t);
    } else if k > 0 && CancelledBefore(ctx, t + Backoff(k)) {
      assert r == (Failed(ctx.err), k, Woken(ctx, t));
    } else {
      var t' := if k > 0 then t + Backoff(k) else t;
      BackoffNonNegative(k + 1);
      match attempts[k]
      case Transport(e) =>
        assert r == RetryFrom(maxRetries, ctx, attempts, k + 1, t', None, Some(e));
        RetryFromFailure(maxRetries, ctx, start, attempts, k + 1, t', None, Some(e));
      case Status(c) =>
        if c == 429 {
          if CancelledBefore(ctx, t' + TooManyRequestsPause) {
            assert r == (Failed(ctx.err), k + 1, Woken(ctx, t'));
            assert t' + TooManyRequestsPause == start + Slept(attempts, k + 1);
          } else {
            assert r == RetryFrom(maxRetries, ctx, attempts, k + 1, t' + TooManyRequestsPause, Some(Reply(c, true)), None);
            RetryFromFailure(maxRetries, ctx, start, attempts, k + 1, t' + TooManyRequestsPause, Some(Reply(c, true)), None);
          }
        } else if c >= 500 {
          assert r == RetryFrom(maxRetries, ctx, attempts, k + 1, t', Some(Reply(c, true)), None);
          RetryFromFailure(maxRetries, ctx, start, attempts, k + 1, t', Some(Reply(c, true)), None);
        } else {
          assert r == (Returned(Some(Reply(c, false))), k + 1, t');
        }
    }
  }

  /** The loop fails only on a cancellation or after a last transport error (see `FailureExplained`). */
  lemma RetryFailure(maxRetries: int, ctx: Context, start: Instant, attempts: seq<Attempt>)
    requires |attempts| > maxRetries
    ensures FailureExplained(maxRetries, ctx, start, attempts, Retry(maxRetries, ctx, start, attempts))
  {
    RetryFromFailure(maxRetries, ctx, start, attempts, 0, start, None, None);
  }

  lemma {:induction false} RetryFromUncancelled(maxRetries: int, ctx: Context, start: Instant, attempts: seq<Attempt>,
                                                k: nat, t: Instant, resp: Option<Reply>, lastErr: Option<Error>)
    requires |attempts| > maxRetries >= 0 && k <= maxRetries + 1
    requires !CancelledBefore(ctx, start + Slept(attempts, maxRetries + 1))
    requires t == start + Slept(attempts, k) && Holding(attempts, k, resp, lastErr)
    ensures UncancelledRun(maxRetries, start, attempts, RetryFrom(maxRetries, ctx, attempts, k, t, resp, lastErr))
    decreases maxRetries + 1 - k
  {
    var r := RetryFrom(maxRetries, ctx, attempts, k, t, resp, lastErr);
    if k > maxRetries {
      assert r == (if lastErr.Some? then Failed(RequestFailed(maxRetries, lastErr.value)) else Returned(resp), k, t);
    } else {
      SleptMonotone(attempts, k + 1, maxRetries + 1);
      BackoffNonNegative(k);
      var t' := if k > 0 then t + Backoff(k) else t;
      assert t' <= start + Slept(attempts, k + 1);
      assert !(k > 0 && CancelledBefore(ctx, t + Backoff(k)));
      match attempts[k]
      case Transport(e) =>
        assert r == RetryFrom(maxRetries, ctx, attempts, k + 1, t', None, Some(e));
        RetryFromUncancelled(maxRetries, ctx, start, attempts, k + 1, t', None, Some(e));
      case Status(c) =>
        if c == 429 {
          assert t' + TooManyRequestsPause == start + Slept(attempts, k + 1);
          assert r == RetryFrom(maxRetries, ctx, attempts, k + 1, t' + TooManyRequestsPause, Some(Reply(c, true)), None);
          RetryFromUncancelled(maxRetries, ctx, start, attempts, k + 1, t' + TooManyRequestsPause, Some(Reply(c, true)), None);
        } else if c >= 500 {
          assert r == RetryFrom(maxRetries, ctx, attempts, k + 1, t', Some(Reply(c, true)), None);
          RetryFromUncancelled(maxRetries, ctx, start, attempts, k + 1, t', Some(Reply(c, true)), None);
        } else {
          assert r == (Returned(Some(Reply(c, false))), k + 1, t');
        }
    }
  }

  /** A run that the context does not cut short is an `UncancelledRun`. */
  lemma RetryUncancelled(maxRetries: int, ctx: Context, start: Instant, attempts: seq<Attempt>)
    requires |attempts| > maxRetries >= 0
    requires !CancelledBefore(ctx, start + Slept(attempts, maxRetries + 1))
    ensures UncancelledRun(maxRetries, start, attempts, Retry(maxRetries, ctx, start, attempts))
  {
    RetryFromUncancelled(maxRetries, ctx, start, attempts, 0, start, None, None);
  }

  /**
   * The retry loop of `MakeRequest`, from `start` (after the throttle):
   * `attempts[k]` is what the k-th `Do` would give. Returns the outcome, the
   * number of attempts made and the instant the loop ends.
   */
  method RetryLoop(maxRetries: int, ctx: Context, start: Instant, attempts: seq<Attempt>)
    returns (outcome: Outcome, used: nat, finish: Instant)
    requires |attempts| > maxRetries
    ensures (outcome, used, finish) == Retry(maxRetries, ctx, start, attempts)
    ensures used <= |attempts| && (maxRetries < 0 ==> used == 0) && (maxRetries >= 0 ==> used <= maxRetries + 1)
    ensures forall k :: 0 <= k < used - 1 ==> Retryable(attempts[k])
    ensures outcome.Returned? && outcome.resp.None? ==> used == 0
    ensures outcome.Returned? && outcome.resp.Some? ==>
      used > 0 && attempts[used - 1] == Status(outcome.resp.value.status) &&
      (outcome.resp.value.closed <==> Retryable(attempts[used - 1])) &&
      (Retryable(attempts[used - 1]) ==> used == maxRetries + 1)
    ensures outcome.Failed? && outcome.error != ctx.err ==>
      used == maxRetries + 1 && used > 0 && attempts[used - 1].Transport? &&
      outcome.error == RequestFailed(maxRetries, attempts[used - 1].error)
    ensures maxRetries >= 0 && used > 0 && attempts[used - 1].Transport? && used == maxRetries + 1 ==> outcome.Failed?
    ensures outcome.Returned? ==> finish == start + Slept(attempts, used)
    ensures FailureExplained(maxRetries, ctx, start, attempts, (outcome, used, finish))
    ensures maxRetries >= 0 && !CancelledBefore(ctx, start + Slept(attempts, maxRetries + 1)) ==>
      UncancelledRun(maxRetries, start, attempts, (outcome, used, finish))
  {
    RetryFailure(maxRetries, ctx, start, attempts);
    if maxRetries >= 0 && !CancelledBefore(ctx, start + Slept(attempts, maxRetries + 1)) {
      RetryUncancelled(maxRetries, ctx, start, attempts);
    }
    var resp: Option<Reply> := None;
    var lastErr: Option<Error> := None;
    var t := start;
    var attempt := 0;
    used := 0;
    while attempt <= maxRetries
      invariant 0 <= attempt <= |attempts| && used == attempt
      invariant (maxRetries >= 0 ==> attempt <= maxRetries + 1) && (maxRetries < 0 ==> attempt == 0)
      invariant Holding(attempts, attempt, resp, lastErr)
      invariant t == start + Slept(attempts, attempt)
      invariant Retry(maxRetries, ctx, start, attempts) == RetryFrom(maxRetries, ctx, attempts, attempt, t, resp, lastErr)
      decreases maxRetries + 1 - attempt
    {
      if attempt > 0 {
        if CancelledBefore(ctx, t + Backoff(attempt)) {
          return Failed(ctx.err), used, Woken(ctx, t);
        }
        t := t + Backoff(attempt);
      }
      used := attempt + 1;
      match attempts[attempt] {
        case Transport(e) =>
          resp, lastErr := None, Some(e);
        case Status(c) =>
          lastErr := None;
          if c == 429 {
            resp := Some(Reply(c, true));
            if CancelledBefore(ctx, t + TooManyRequestsPause) {
              return Failed(ctx.err), used, Woken(ctx, t);
            }
            t := t + TooManyRequestsPause;
          } else if c >= 500 {
            resp := Some(Reply(c, true));
          } else {
            resp := Some(Reply(c, false));
            return Returned(resp), used, t;
          }
      }
      attempt := attempt + 1;
    }
    finish := t;
    if lastErr.Some? {
      outcome := Failed(RequestFailed(maxRetries, lastErr.value));
    } else {
      outcome := Returned(resp);
    }
  }

  /** A `BaseScraper`: its defaulted configuration and its own throttle. */
  class BaseScraper {
    const config: ScrapingConfig
    const limiter: ScraperRateLimiter

    constructor (config: ScrapingConfig)
      ensures this.config == WithDefaults(config)
      ensures fresh(limiter) && limiter.delay == this.config.requestDelay && limiter.lastRequest == None
    {
      this.config := WithDefaults(config);
      limiter := new ScraperRateLimiter(WithDefaults(config).requestDelay);
    }

    /** `MakeRequest`: the throttle first; its error is returned as is; then the retry loop. */
    method MakeRequest(now: Instant, ctx: Context, attempts: seq<Attempt>) returns (outcome: Outcome, used: nat, finish: Instant)
      requires |attempts| > config.maxRetries
      modifies limiter`lastRequest
      ensures var w := Throttle.Remaining(old(limiter.lastRequest), limiter.delay, now);
        if w > 0 && CancelledBefore(ctx, now + w) then
          && outcome == Failed(ctx.err) && used == 0 && finish == Woken(ctx, now)
          && limiter.lastRequest == old(limiter.lastRequest)
        else
          && limiter.lastRequest == Some(now + w)
          && (outcome, used, finish) == Retry(config.maxRetries, ctx, now + w, attempts)
          && FailureExplained(config.maxRetries, ctx, now + w, attempts, (outcome, used, finish))
    {
      var err, started := limiter.Wait(now, ctx);
      if err.Some? {
        return Failed(err.value), 0, started;
      }
      outcome, used, finish := RetryLoop(config.maxRetries, ctx, started, attempts);
    }
  }

  // ------------------------------------------------------------- ScrapedEvent

  datatype ScrapedEvent = ScrapedEvent(
    title: string,
    artistName: string,
    date: Timestamp,
    venueName: string,
    city: string,
    country: string,
    url: string,
    description: string,
    price: string,
    tags: seq<string>)

  /** `ToEvent`: IDs from the artist slug and the day; cached for 24 hours from `now`. */
  function ToEvent(s: ScrapedEvent, now: Instant): (e: Event)
    ensures e.artistName == s.artistName && e.dateTime == s.date
    ensures e.venue == Venue("", s.venueName, s.city, "", s.country)
    ensures e.cachedUntil == now + 24 * Hour
  {
    var slug := Slug(s.artistName);
    Event(
      "scraped_" + slug + "_" + DayKey(s.date),
      "scraped_artist_" + slug,
      s.artistName, "", s.date,
      Venue("", s.venueName, s.city, "", s.country),
      "", "", None, NoEventExternalIDs, ZeroInstant, ZeroInstant,
      now + 24 * Hour)
  }

  /** Scraped events of one artist on different days get different IDs; on the same day, the same ID. */
  lemma ScrapedIDsByDay(s: ScrapedEvent, t: ScrapedEvent, now: Instant, now': Instant)
    requires Slug(s.artistName) == Slug(t.artistName)
    ensures ToEvent(s, now).id == ToEvent(t, now').id <==> s.date.date == t.date.date
  {
    var a, b := ToEvent(s, now).id, ToEvent(t, now').id;
    if a == b {
      assert a[|a| - 8..] == DayKey(s.date) && b[|b| - 8..] == DayKey(t.date);
      DayKeyInjective(s.date, t.date);
    }
  }

  // ---------------------------------------------------------------- registry

  /** A scraper: its `GetName()` and an identity that tells two scrapers with one name apart. */
  datatype ScraperRef = ScraperRef(name: string, id: nat)

  /** What `ScrapeEvents(ctx, query, limit)` of a given scraper would return. */
  type ScrapeFn = (ScraperRef, string, int) -> Result<seq<ScrapedEvent>>

  /** The events of the successful scrapers, concatenated in the given order of names. */
  function Gathered(names: seq<string>, m: map<string, ScraperRef>, scrape: ScrapeFn, query: string, limit: int): seq<ScrapedEvent>
    requires forall n :: n in names ==> n in m
  {
    if |names| == 0 then []
    else
      var r := scrape(m[names[0]], query, limit);
      (if r.Ok? then r.value else []) + Gathered(names[1..], m, scrape, query, limit)
  }

  class ScraperRegistry {
    var scrapers: map<string, ScraperRef>

    ghost predicate Valid()
      reads this
    {
      forall n :: n in scrapers ==> scrapers[n].name == n
    }

    constructor ()
      ensures Valid() && scrapers == map[]
    {
      scrapers := map[];
    }

    /** `Register`: keyed by name, so a second scraper with the same name replaces the first. */
    method Register(s: ScraperRef)
      requires Valid()
      modifies this
      ensures Valid()
      ensures scrapers == old(scrapers)[s.name := s]
    {
      scrapers := scrapers[s.name := s];
    }

    /** `GetScraper`. */
    function GetScraper(name: string): (r: Option<ScraperRef>)
      requires Valid()
      reads this
      ensures r.Some? <==> name in scrapers
      ensures r.Some? ==> r.value.name == name && r.value == scrapers[name]
    {
      if name in scrapers then Some(scrapers[name]) else None
    }

    /** `GetAllScrapers`: every registered scraper exactly once, in no particular order. */
    method GetAllScrapers() returns (all: seq<ScraperRef>)
      requires Valid()
      ensures |all| == |scrapers|
      ensures forall n :: n in scrapers ==> scrapers[n] in all
      ensures forall x :: x in all ==> x.name in scrapers && scrapers[x.name] == x
      ensures forall i, j :: 0 <= i < j < |all| ==> all[i].name != all[j].name
    {
      var names := Names();
      all := [];
      for i := 0 to |names|
        invariant |all| == i
        invariant forall k :: 0 <= k < i ==> all[k] == scrapers[names[k]]
      {
        all := all + [scrapers[names[i]]];
      }
      forall n | n in scrapers ensures scrapers[n] in all {
        var k :| 0 <= k < |names| && names[k] == n;
        assert all[k] == scrapers[n];
      }
    }

    /** The registered names in the order a `range` over the map happens to visit them. */
    method Names() returns (names: seq<string>)
      ensures |names| == |scrapers| && Distinct(names)
      ensures forall n :: n in names <==> n in scrapers
    {
      names := Enumerate(scrapers.Keys);
    }

    /** `ScrapeAll`: scrapers that fail contribute nothing; the call itself never fails. */
    method ScrapeAll(query: string, limit: int, scrape: ScrapeFn) returns (events: seq<ScrapedEvent>, err: Option<Error>, ghost order: seq<string>)
      requires Valid()
      ensures err == None
      ensures |order| == |scrapers| && Distinct(order) && (forall n :: n in order <==> n in scrapers)
      ensures events == Gathered(order, scrapers, scrape, query, limit)
    {
      var names := Names();
      order := names;
      events := [];
      var i := |names|;
      while i > 0
        invariant 0 <= i <= |names|
        invariant events == Gathered(names[i..], scrapers, scrape, query, limit)
      {
        i := i - 1;
        var r := scrape(scrapers[names[i]], query, limit);
        assert names[i..][1..] == names[i + 1..];
        events := (if r.Ok? then r.value else []) + events;
      }
      err := None;
    }
  }
}
