/**
 * The Bandsintown client: a fixed-window daily request counter, the event
 * search with its validation and 404 branches, and the conversion of a
 * Bandsintown event into a domain `Event`.
 */
module Bandsintown {
  import opened Wrappers
  import opened Text
  import opened Domain
  import opened Remote

  // ---------------------------------------------------------- rate limiter

  /** The counter's state: requests admitted since `windowStart`. */
  datatype Window = Window(requests: int, windowStart: Instant)

  /**
   * One `Allow` at `now`: a window older than 24 hours restarts at `now`
   * with no requests; then the request is refused at the limit and counted
   * otherwise.
   */
  function Step(w: Window, dailyLimit: int, now: Instant): (Window, Option<Error>)
  {
    var cur := if now - w.windowStart > 24 * Hour then Window(0, now) else w;
    if cur.requests >= dailyLimit then (cur, Some(RateLimitExceeded))
    else (cur.(requests := cur.requests + 1), None)
  }

  /** The admissions of successive calls at `nows`. */
  function Run(w: Window, dailyLimit: int, nows: seq<Instant>): (admitted: nat)
    decreases |nows|
  {
    if |nows| == 0 then 0
    else
      var (w', err) := Step(w, dailyLimit, nows[0]);
      (if err.None? then 1 else 0) + Run(w', dailyLimit, nows[1..])
  }

  /** While no call falls more than 24 hours after the window start, at most `dailyLimit` are admitted in all. */
  lemma {:induction false} RunWithinWindow(w: Window, dailyLimit: int, nows: seq<Instant>)
    requires 0 <= w.requests
    requires forall k :: 0 <= k < |nows| ==> nows[k] - w.windowStart <= 24 * Hour
    ensures w.requests + Run(w, dailyLimit, nows) <= if w.requests > dailyLimit then w.requests else dailyLimit
    decreases |nows|
  {
    if |nows| != 0 {
      var (w', err) := Step(w, dailyLimit, nows[0]);
      assert w'.windowStart == w.windowStart;
      assert forall k :: 0 <= k < |nows[1..]| ==> nows[1..][k] == nows[k + 1];
      RunWithinWindow(w', dailyLimit, nows[1..]);
    }
  }

  /** A call more than 24 hours after the window start is admitted, whatever the count was. */
  lemma ResetAdmits(w: Window, dailyLimit: int, now: Instant)
    requires now - w.windowStart > 24 * Hour && dailyLimit > 0
    ensures Step(w, dailyLimit, now) == (Window(1, now), None)
  {
  }

  class RateLimiter {
    var requests: int
    var windowStart: Instant
    const dailyLimit: int

    ghost predicate Valid()
      reads this
    {
      0 <= requests <= (if dailyLimit < 0 then 0 else dailyLimit)
    }

    /** `newRateLimiter(dailyLimit)` at `now`. */
    constructor (dailyLimit: int, now: Instant)
      ensures Valid() && this.dailyLimit == dailyLimit && requests == 0 && windowStart == now
    {
      this.dailyLimit := dailyLimit;
      requests := 0;
      windowStart := now;
    }

    /** `Allow` at `now`; refusing leaves the count as it is, admitting adds exactly one. */
    method Allow(now: Instant) returns (err: Option<Error>)
      requires Valid()
      modifies this
      ensures Valid()
      ensures (Window(requests, windowStart), err) == Step(Window(old(requests), old(windowStart)), dailyLimit, now)
      ensures err.Some? ==> err == Some(RateLimitExceeded) && requests == (if now - old(windowStart) > 24 * Hour then 0 else old(requests))
      ensures err.None? ==> requests == (if now - old(windowStart) > 24 * Hour then 0 else old(requests)) + 1
    {
      if now - windowStart > 24 * Hour {
        requests := 0;
        windowStart := now;
      }
      if requests >= dailyLimit {
        return Some(RateLimitExceeded);
      }
      requests := requests + 1;
      err := None;
    }
  }

  // ------------------------------------------------------------ conversion

  datatype BandsintownVenue = BandsintownVenue(id: string, name: string, city: string, region: string, country: string)

  datatype BandsintownOffer = BandsintownOffer(kind: string, url: string, status: string)

  datatype BandsintownEvent = BandsintownEvent(
    id: string,
    artistID: string,
    url: string,
    onSaleDate: string,
    dateTime: string,
    description: string,
    venue: BandsintownVenue,
    offers: seq<BandsintownOffer>,
    lineup: seq<string>)

  /** The position of the first offer of type `"Tickets"`. */
  function FirstTickets(offers: seq<BandsintownOffer>): (r: Option<nat>)
    ensures r.Some? ==> r.value < |offers| && offers[r.value].kind == "Tickets" &&
                        forall k :: 0 <= k < r.value ==> offers[k].kind != "Tickets"
    ensures r.None? ==> forall k :: 0 <= k < |offers| ==> offers[k].kind != "Tickets"
  {
    if |offers| == 0 then None
    else if offers[0].kind == "Tickets" then Some(0)
    else match FirstTickets(offers[1..])
      case None => None
      case Some(k) => Some(k + 1)
  }

  /**
   * The specification of `convertToDomainEvent`: `rfc3339` reads the event
   * time and the on-sale time; an unreadable event time fails the conversion.
   */
  function DomainEvent(bt: BandsintownEvent, artistName: string, rfc3339: Parser, now: Instant): Result<Event>
  {
    match rfc3339(bt.dateTime)
    case None => Err(Failure("failed to parse event time"))
    case Some(t) =>
      var onSale := if bt.onSaleDate != "" then rfc3339(bt.onSaleDate) else None;
      var ticket := FirstTickets(bt.offers);
      Ok(Event(
        "bandsintown_" + bt.id, bt.artistID, artistName, bt.description, t,
        Venue(bt.venue.id, bt.venue.name, bt.venue.city, bt.venue.region, bt.venue.country),
        if ticket.Some? then bt.offers[ticket.value].url else "",
        if ticket.Some? then bt.offers[ticket.value].status else "",
        onSale, EventExternalIDs(bt.id, ""), ZeroInstant, ZeroInstant, now + 24 * Hour))
  }

  /** What the conversion promises: the ID rule, the time, the on-sale date and the first ticket offer. */
  lemma DomainEventFields(bt: BandsintownEvent, artistName: string, rfc3339: Parser, now: Instant)
    ensures DomainEvent(bt, artistName, rfc3339, now).Ok? <==> rfc3339(bt.dateTime).Some?
    ensures DomainEvent(bt, artistName, rfc3339, now).Ok? ==>
      var e := DomainEvent(bt, artistName, rfc3339, now).value;
      && e.id == "bandsintown_" + bt.id && e.externalIDs.bandsintownID == bt.id
      && Some(e.dateTime) == rfc3339(bt.dateTime) && e.artistName == artistName
      && (e.onSaleDate.Some? <==> bt.onSaleDate != "" && rfc3339(bt.onSaleDate).Some?)
      && (e.onSaleDate.Some? ==> e.onSaleDate == rfc3339(bt.onSaleDate))
      && ((forall k :: 0 <= k < |bt.offers| ==> bt.offers[k].kind != "Tickets") ==> e.ticketURL == "" && e.ticketStatus == "")
      && (forall k :: 0 <= k < |bt.offers| && bt.offers[k].kind == "Tickets" &&
                      (forall j :: 0 <= j < k ==> bt.offers[j].kind != "Tickets") ==>
            e.ticketURL == bt.offers[k].url && e.ticketStatus == bt.offers[k].status)
  {
    var ticket := FirstTickets(bt.offers);
    forall k | 0 <= k < |bt.offers| && bt.offers[k].kind == "Tickets" &&
               (forall j :: 0 <= j < k ==> bt.offers[j].kind != "Tickets")
      ensures ticket == Some(k)
    {
    }
  }

  /** `convertToDomainEvent`, with its loop over the offers. */
  method ConvertToDomainEvent(bt: BandsintownEvent, artistName: string, rfc3339: Parser, now: Instant) returns (r: Result<Event>)
    ensures r == DomainEvent(bt, artistName, rfc3339, now)
  {
    var t := rfc3339(bt.dateTime);
    if t.None? {
      return Err(Failure("failed to parse event time"));
    }
    var onSale: Option<Timestamp> := None;
    if bt.onSaleDate != "" {
      var parsed := rfc3339(bt.onSaleDate);
      if parsed.Some? {
        onSale := parsed;
      }
    }
    var ticketURL, ticketStatus := "", "";
    var i := 0;
    while i < |bt.offers|
      invariant 0 <= i <= |bt.offers|
      invariant forall k :: 0 <= k < i ==> bt.offers[k].kind != "Tickets"
    {
      if bt.offers[i].kind == "Tickets" {
        ticketURL, ticketStatus := bt.offers[i].url, bt.offers[i].status;
        break;
      }
      i := i + 1;
    }
    ghost var ticket := FirstTickets(bt.offers);
    assert ticket.Some? ==> ticket.value == i by {
      if ticket.Some? {
        assert ticket.value >= i;
      }
    }
    r := Ok(Event(
      "bandsintown_" + bt.id, bt.artistID, artistName, bt.description, t.value,
      Venue(bt.venue.id, bt.venue.name, bt.venue.city, bt.venue.region, bt.venue.country),
      ticketURL, ticketStatus, onSale, EventExternalIDs(bt.id, ""), ZeroInstant, ZeroInstant, now + 24 * Hour));
  }

  /** The events that convert, in their order; the others are skipped. */
  function Convertible(bts: seq<BandsintownEvent>, artistName: string, rfc3339: Parser, now: Instant): seq<Event>
  {
    if |bts| == 0 then []
    else
      var init := Convertible(bts[..|bts| - 1], artistName, rfc3339, now);
      match DomainEvent(bts[|bts| - 1], artistName, rfc3339, now)
      case Ok(e) => init + [e]
      case Err(_) => init
  }

  /** Every event kept carries a Bandsintown ID, and none is invented. */
  lemma {:induction false} ConvertibleIDs(bts: seq<BandsintownEvent>, artistName: string, rfc3339: Parser, now: Instant)
    ensures |Convertible(bts, artistName, rfc3339, now)| <= |bts|
    ensures forall e :: e in Convertible(bts, artistName, rfc3339, now) ==>
      e.artistName == artistName && exists bt :: bt in bts && e.id == "bandsintown_" + bt.id
    decreases |bts|
  {
    if |bts| != 0 {
      var init := bts[..|bts| - 1];
      var last := bts[|bts| - 1];
      ConvertibleIDs(init, artistName, rfc3339, now);
      forall e | e in Convertible(bts, artistName, rfc3339, now)
        ensures e.artistName == artistName && exists bt :: bt in bts && e.id == "bandsintown_" + bt.id
      {
        if e in Convertible(init, artistName, rfc3339, now) {
          var bt :| bt in init && e.id == "bandsintown_" + bt.id;
          assert bt in bts;
        } else {
          assert e == DomainEvent(last, artistName, rfc3339, now).value;
          assert last in bts;
        }
      }
    }
  }

  /** The conversion loop of the search. */
  method ConvertAll(bts: seq<BandsintownEvent>, artistName: string, rfc3339: Parser, now: Instant) returns (events: seq<Event>)
    ensures events == Convertible(bts, artistName, rfc3339, now)
  {
    events := [];
    for i := 0 to |bts|
      invariant events == Convertible(bts[..i], artistName, rfc3339, now)
    {
      assert bts[..i + 1][..i] == bts[..i];
      var r := ConvertToDomainEvent(bts[i], artistName, rfc3339, now);
      if r.Ok? {
        events := events + [r.value];
      }
    }
    assert bts[..|bts|] == bts;
  }

  // ---------------------------------------------------------------- client

  /** What the event fetch yields once the limiter and validation have passed. */
  function Fetched(reply: Reply<seq<BandsintownEvent>>, failed: string, what: string, name: string, rfc3339: Parser, now: Instant): Result<seq<Event>>
  {
    if reply.Answered? && reply.status == StatusNotFound then Ok([])
    else match Expect(reply, failed, what)
      case Err(e) => Err(e)
      case Ok(bts) => Ok(Convertible(bts, name, rfc3339, now))
  }

  class BandsintownClient {
    const appID: string
    const limiter: RateLimiter

    ghost predicate Valid()
      reads this, limiter
    {
      limiter.Valid() && limiter.dailyLimit == 1000
    }

    /** `NewBandsintownClient` at `now`: an app ID is required; the limit is 1000 a day. */
    static method New(appID: string, now: Instant) returns (r: Result<BandsintownClient>)
      ensures appID == "" <==> r.Err?
      ensures r.Err? ==> r.error == Failure("bandsintown app ID is required")
      ensures r.Ok? ==> fresh(r.value) && fresh(r.value.limiter) && r.value.Valid() && r.value.appID == appID
      ensures r.Ok? ==> r.value.limiter.requests == 0 && r.value.limiter.windowStart == now
    {
      if appID == "" {
        return Err(Failure("bandsintown app ID is required"));
      }
      var c := new BandsintownClient.Init(appID, now);
      r := Ok(c);
    }

    constructor Init(appID: string, now: Instant)
      ensures this.appID == appID && fresh(limiter) && Valid()
      ensures limiter.requests == 0 && limiter.windowStart == now
    {
      this.appID := appID;
      limiter := new RateLimiter(1000, now);
    }

    /**
     * `SearchEvents`: the limiter is consulted first, so even a blank
     * artist name uses up a request; a 404 is an empty result.
     */
    method SearchEvents(artistName: string, location: string, now: Instant, reply: Reply<seq<BandsintownEvent>>, rfc3339: Parser)
      returns (r: Result<seq<Event>>)
      requires Valid()
      modifies limiter
      ensures Valid()
      ensures var (w, gate) := Step(Window(old(limiter.requests), old(limiter.windowStart)), 1000, now);
        && Window(limiter.requests, limiter.windowStart) == w
        && (gate.Some? ==> r == Err(RateLimitExceeded))
        && (gate.None? && TrimSpace(artistName) == "" ==> r == Err(InvalidRequest))
        && (gate.None? && TrimSpace(artistName) != "" ==>
              r == Fetched(reply, "failed to search events", "bandsintown search", TrimSpace(artistName), rfc3339, now))
    {
      var gate := limiter.Allow(now);
      if gate.Some? {
        return Err(gate.value);
      }
      var name := TrimSpace(artistName);
      if name == "" {
        return Err(InvalidRequest);
      }
      r := Fetch(reply, "failed to search events", "bandsintown search", name, rfc3339, now);
    }

    /** `GetArtistEvents`: the same fetch without the blank-name check, under other messages. */
    method GetArtistEvents(artistID: string, now: Instant, reply: Reply<seq<BandsintownEvent>>, rfc3339: Parser)
      returns (r: Result<seq<Event>>)
      requires Valid()
      modifies limiter
      ensures Valid()
      ensures var (w, gate) := Step(Window(old(limiter.requests), old(limiter.windowStart)), 1000, now);
        && Window(limiter.requests, limiter.windowStart) == w
        && (gate.Some? ==> r == Err(RateLimitExceeded))
        && (gate.None? ==> r == Fetched(reply, "failed to get artist events", "bandsintown get events", artistID, rfc3339, now))
    {
      var gate := limiter.Allow(now);
      if gate.Some? {
        return Err(gate.value);
      }
      r := Fetch(reply, "failed to get artist events", "bandsintown get events", artistID, rfc3339, now);
    }

    static method Fetch(reply: Reply<seq<BandsintownEvent>>, failed: string, what: string, name: string, rfc3339: Parser, now: Instant)
      returns (r: Result<seq<Event>>)
      ensures r == Fetched(reply, failed, what, name, rfc3339, now)
    {
      if reply.Answered? && reply.status == StatusNotFound {
        return Ok([]);
      }
      var body := Expect(reply, failed, what);
      if body.Err? {
        return Err(body.error);
      }
      var events := ConvertAll(body.value, name, rfc3339, now);
      r := Ok(events);
    }
  }
}
