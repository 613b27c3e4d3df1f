/**
 * The sliding-window request log shared by the `music` package (Apple
 * Music's `rateLimiter`, a one-hour window) and the `events` package
 * (Songkick's `eventRateLimiter`, a 24-hour window): the two are the same
 * code with a different window.
 */
module SlidingWindow {
  import opened Wrappers
  import opened Domain
  import Dedup

  /** The timestamps strictly after `cutoff`, in their order. */
  function Prune(log: seq<Instant>, cutoff: Instant): seq<Instant>
  {
    if |log| == 0 then []
    else Prune(log[..|log| - 1], cutoff) + (if log[|log| - 1] > cutoff then [log[|log| - 1]] else [])
  }

  /** Pruning keeps exactly the timestamps after the cutoff, in order, and never lengthens the log. */
  lemma {:induction false} PruneKeeps(log: seq<Instant>, cutoff: Instant)
    ensures |Prune(log, cutoff)| <= |log|
    ensures forall t :: t in Prune(log, cutoff) <==> t in log && t > cutoff
    ensures Dedup.IsSubseq(Prune(log, cutoff), log)
    decreases |log|
  {
    if |log| != 0 {
      var init, last := log[..|log| - 1], log[|log| - 1];
      PruneKeeps(init, cutoff);
      assert log == init + [last];
      var p := Prune(init, cutoff);
      if last > cutoff {
        assert (p + [last])[..|p + [last]| - 1] == p;
      } else {
        assert Prune(log, cutoff) == p + [] == p;
        Dedup.SubseqExtend(p, init, last);
      }
    }
  }

  /** Pruning twice at the same cutoff changes nothing more. */
  lemma {:induction false} PruneIdempotent(log: seq<Instant>, cutoff: Instant)
    ensures Prune(Prune(log, cutoff), cutoff) == Prune(log, cutoff)
    decreases |log|
  {
    if |log| != 0 {
      var init, last := log[..|log| - 1], log[|log| - 1];
      PruneIdempotent(init, cutoff);
      var p := Prune(init, cutoff);
      if last > cutoff {
        var q := p + [last];
        assert q[..|q| - 1] == p && q[|q| - 1] == last;
        assert Prune(q, cutoff) == Prune(p, cutoff) + [last];
      } else {
        assert Prune(log, cutoff) == p + [] == p;
      }
    }
  }

  /** Pruning drops nothing when every timestamp is after the cutoff. */
  lemma {:induction false} PruneNothing(log: seq<Instant>, cutoff: Instant)
    requires forall k :: 0 <= k < |log| ==> log[k] > cutoff
    ensures Prune(log, cutoff) == log
    decreases |log|
  {
    if |log| != 0 {
      PruneNothing(log[..|log| - 1], cutoff);
    }
  }

  /**
   * One `Allow` at `now`: the log pruned to the window ending at `now`, and
   * the call admitted (and logged) only below the limit.
   */
  function Step(log: seq<Instant>, limit: int, windowSize: int, now: Instant): (seq<Instant>, Option<Error>)
  {
    var kept := Prune(log, now - windowSize);
    if |kept| >= limit then (kept, Some(RateLimitExceeded)) else (kept + [now], None)
  }

  /** The admissions among successive calls at `nows`. */
  function Run(log: seq<Instant>, limit: int, windowSize: int, nows: seq<Instant>): (admitted: nat)
    decreases |nows|
  {
    if |nows| == 0 then 0
    else
      var (log', err) := Step(log, limit, windowSize, nows[0]);
      (if err.None? then 1 else 0) + Run(log', limit, windowSize, nows[1..])
  }

  /** Calls that all fit in one window admit at most `limit` requests, counting those already logged. */
  lemma {:induction false} RunWithinWindow(log: seq<Instant>, limit: int, windowSize: int, nows: seq<Instant>)
    requires forall k, j :: 0 <= k < |log| && 0 <= j < |nows| ==> log[k] > nows[j] - windowSize
    requires forall i, j :: 0 <= i < |nows| && 0 <= j < |nows| ==> nows[i] > nows[j] - windowSize
    ensures |log| + Run(log, limit, windowSize, nows) <= if |log| > limit then |log| else limit
    decreases |nows|
  {
    if |nows| != 0 {
      PruneNothing(log, nows[0] - windowSize);
      var (log', err) := Step(log, limit, windowSize, nows[0]);
      var rest := nows[1..];
      assert forall j :: 0 <= j < |rest| ==> rest[j] == nows[j + 1];
      forall k, j | 0 <= k < |log'| && 0 <= j < |rest| ensures log'[k] > rest[j] - windowSize {
        if k == |log| {
          assert log'[k] == nows[0];
        } else {
          assert log'[k] == log[k];
        }
      }
      RunWithinWindow(log', limit, windowSize, rest);
    }
  }

  class SlidingWindowLimiter {
    var requests: seq<Instant>
    const limit: int
    const windowSize: int

    ghost predicate Valid()
      reads this
    {
      |requests| <= if limit < 0 then 0 else limit
    }

    constructor (limit: int, windowSize: int)
      ensures Valid() && requests == [] && this.limit == limit && this.windowSize == windowSize
    {
      this.limit := limit;
      this.windowSize := windowSize;
      requests := [];
    }

    /**
     * `Allow` at `now`: the log is pruned to the window ending at `now` (and
     * stays pruned when the call is refused); at the limit the call is
     * refused, otherwise `now` is appended.
     */
    method Allow(now: Instant) returns (err: Option<Error>)
      requires Valid()
      modifies this
      ensures Valid()
      ensures (requests, err) == Step(old(requests), limit, windowSize, now)
      ensures var kept := Prune(old(requests), now - windowSize);
        && (|kept| >= limit ==> err == Some(RateLimitExceeded) && requests == kept)
        && (|kept| < limit ==> err == None && requests == kept + [now])
    {
      var cutoff := now - windowSize;
      var valid: seq<Instant> := [];
      for i := 0 to |requests|
        invariant valid == Prune(requests[..i], cutoff)
      {
        assert requests[..i + 1][..i] == requests[..i];
        if requests[i] > cutoff {
          valid := valid + [requests[i]];
        }
      }
      assert requests[..|requests|] == requests;
      PruneKeeps(requests, cutoff);
      requests := valid;
      if |requests| >= limit {
        return Some(RateLimitExceeded);
      }
      requests := requests + [now];
      err := None;
    }
  }
}
