/**
 * The minimum-interval throttle shared by the MusicBrainz client and the
 * scrapers: before a request, sleep whatever is left of the interval since
 * the previous one. A limiter that has never let a request through holds
 * Go's zero time, from which every `now` is far more than an interval away.
 */
module Throttle {
  import opened Wrappers

  /** How long to sleep at `now` when the previous request left at `last`. */
  function Remaining(last: Option<int>, interval: int, now: int): (w: int)
    ensures w >= 0
    ensures last.None? || now - last.value >= interval ==> w == 0
    ensures last.Some? ==> now + w >= last.value + interval
    ensures w > 0 ==> last.Some? && now + w == last.value + interval
  {
    match last
    case None => 0
    case Some(t) => if now - t < interval then interval - (now - t) else 0
  }
}
