/**
 The snapshot of active events and how long a client may show it.  Times are milliseconds; the
 client's monotonic clock and the server's clock run at the same rate but are not aligned.
 */
module ActiveEvents {
  import opened Wrappers

  const FALLBACK_TTL_MS: int := 30000
  const MAX_ATTEMPTS: nat := 3

  /** `content` stands for the popup and the banners. */
  datatype Snapshot = Snapshot(serverNow: int, nextTransitionAt: Option<int>, content: nat)

  datatype Answer = NetworkError | HttpError(status: int) | Unreadable | Json(raw: Snapshot)

  /** One request: the clock at its start, its answer, and the clock once the body is parsed. */
  datatype Exchange = Exchange(startedAt: real, answer: Answer, finishedAt: real)

  datatype FetchError = Network | Http(status: int) | InvalidResponse | StaleResponse | InvalidRoundTrip

  datatype Fetched = Fetched(snapshot: Snapshot, cacheForMs: int, cacheUntil: real)

  predicate ValidSnapshot(s: Snapshot) {
    s.nextTransitionAt.Some? ==> s.nextTransitionAt.value > s.serverNow
  }

  function Ceil(x: real): int {
    -((-x).Floor)
  }

  /** The lifetime; None when the transition may have passed while the answer was on its way. */
  function CacheForMs(s: Snapshot, roundTripMs: real): Result<Option<int>, string> {
    if roundTripMs < 0.0 then Err("invalid_active_events_round_trip")
    else if s.nextTransitionAt.None? then Ok(Some(FALLBACK_TTL_MS))
    else
      var remainingMs := s.nextTransitionAt.value - s.serverNow - Ceil(roundTripMs);
      if remainingMs < 1 then Ok(None)
      else Ok(Some(if FALLBACK_TTL_MS < remainingMs then FALLBACK_TTL_MS else remainingMs))
  }

  function RoundTrip(x: Exchange): real {
    if x.finishedAt < x.startedAt then 0.0 else x.finishedAt - x.startedAt
  }

  predicate Usable(x: Exchange) {
    x.answer.Json? && ValidSnapshot(x.answer.raw)
  }

  /** An answer whose boundary may have passed in flight; it is never shown. */
  predicate Stale(x: Exchange) {
    Usable(x) && CacheForMs(x.answer.raw, RoundTrip(x)) == Ok(None)
  }

  /** The exchange of the k-th attempt; when nothing is left the network is down. */
  function Attempt(exchanges: seq<Exchange>, k: nat): Exchange {
    if k < |exchanges| then exchanges[k] else Exchange(0.0, NetworkError, 0.0)
  }

  /** The network: the exchanges to come. */
  class Client {
    var exchanges: seq<Exchange>

    constructor (exchanges: seq<Exchange>)
      ensures this.exchanges == exchanges
    {
      this.exchanges := exchanges;
    }

    method NextExchange() returns (x: Exchange)
      modifies this
      ensures x == if old(exchanges) == [] then Exchange(0.0, NetworkError, 0.0) else old(exchanges)[0]
      ensures exchanges == if old(exchanges) == [] then [] else old(exchanges)[1..]
    {
      x := if exchanges == [] then Exchange(0.0, NetworkError, 0.0) else exchanges[0];
      exchanges := if exchanges == [] then [] else exchanges[1..];
    }

    /**
     Asks again while the answer is stale, three times at most.  A result comes from the first
     answer that is not stale; three stale answers are an error.
     */
    method FetchActiveEvents() returns (r: Result<Fetched, FetchError>, used: nat)
      modifies this
      ensures 1 <= used <= 3
      ensures forall k :: 0 <= k < used - 1 ==> Stale(Attempt(old(exchanges), k))
      ensures var x := Attempt(old(exchanges), used - 1);
              && (r.Ok? <==> Usable(x) && !Stale(x))
              && (r == Err(StaleResponse) <==> used == 3 && Stale(x))
              && (r == Err(Network) <==> x.answer.NetworkError?)
              && (forall status :: r == Err(Http(status)) <==> x.answer == HttpError(status))
              && (r == Err(InvalidResponse) <==> x.answer.Unreadable? || (x.answer.Json? && !ValidSnapshot(x.answer.raw)))
      ensures exchanges == if used <= |old(exchanges)| then old(exchanges)[used..] else []
      ensures r == Err(StaleResponse) <==> |old(exchanges)| >= MAX_ATTEMPTS && forall k :: 0 <= k < MAX_ATTEMPTS ==> Stale(old(exchanges)[k])
      ensures r.Ok? ==>
                && used <= |old(exchanges)| && (forall k :: 0 <= k < used - 1 ==> Stale(old(exchanges)[k]))
                && var x := old(exchanges)[used - 1];
                   && Usable(x) && r.value.snapshot == x.answer.raw
                   && CacheForMs(x.answer.raw, RoundTrip(x)) == Ok(Some(r.value.cacheForMs))
                   && r.value.cacheUntil == x.finishedAt + r.value.cacheForMs as real
    {
      used := 0;
      while used < MAX_ATTEMPTS
        invariant 0 <= used <= MAX_ATTEMPTS && used <= |old(exchanges)|
        invariant exchanges == old(exchanges)[used..]
        invariant forall k :: 0 <= k < used ==> Stale(old(exchanges)[k])
      {
        var x := NextExchange();
        used := used + 1;
        match x.answer {
          case NetworkError => return Err(Network), used;
          case HttpError(status) => return Err(Http(status)), used;
          case Unreadable => return Err(InvalidResponse), used;
          case Json(raw) =>
            if !ValidSnapshot(raw) {
              return Err(InvalidResponse), used;
            }
            var cacheForMs := CacheForMs(raw, RoundTrip(x));
            if cacheForMs.Err? {
              return Err(InvalidRoundTrip), used;
            }
            if cacheForMs.value.Some? {
              return Ok(Fetched(raw, cacheForMs.value.value, x.finishedAt + cacheForMs.value.value as real)), used;
            }
        }
      }
      r := Err(StaleResponse);
    }
  }

  // ---------------------------------------------------------------- the server boundary

  /** The server's clock reads `clientTime + offset`; it was read in flight, cut off by `cut` below. */
  predicate Truthful(x: Exchange, offset: real, readAt: real, cut: real) {
    && x.answer.Json? && x.startedAt <= readAt <= x.finishedAt && 0.0 <= cut
    && x.answer.raw.serverNow as real == readAt + offset - cut
  }

  lemma CeilBounds(x: real)
    ensures x <= Ceil(x) as real < x + 1.0
  {
  }

  /**
   A snapshot is never live past its boundary: at every instant before the cache deadline the
   server's clock is before the transition, up to what the server cut off its own reading.
   */
  lemma NeverPastBoundary(x: Exchange, offset: real, readAt: real, cut: real, life: int, instant: real)
    requires Usable(x) && Truthful(x, offset, readAt, cut) && x.answer.raw.nextTransitionAt.Some?
    requires CacheForMs(x.answer.raw, RoundTrip(x)) == Ok(Some(life)) && instant < x.finishedAt + life as real
    ensures instant + offset < x.answer.raw.nextTransitionAt.value as real + cut
    ensures 1 <= life <= FALLBACK_TTL_MS
  {
    CeilBounds(RoundTrip(x));
  }

  /** The milliseconds that would be left, were there no cap. */
  function RemainingMs(x: Exchange): int
    requires Usable(x) && x.answer.raw.nextTransitionAt.Some?
  {
    x.answer.raw.nextTransitionAt.value - x.answer.raw.serverNow - Ceil(RoundTrip(x))
  }

  /** What the client gives away: the cap, the rounding of the round trip, and the way to the server. */
  function Slack(x: Exchange, readAt: real, life: int): real
    requires Usable(x) && x.answer.raw.nextTransitionAt.Some?
  {
    (RemainingMs(x) - life) as real + (Ceil(RoundTrip(x)) as real - RoundTrip(x)) + (readAt - x.startedAt)
  }

  /** The cache deadline lies past the boundary exactly if the server cut off more than the client gives away. */
  lemma DeadlinePassesIff(x: Exchange, offset: real, readAt: real, cut: real, life: int)
    requires Usable(x) && Truthful(x, offset, readAt, cut) && x.answer.raw.nextTransitionAt.Some?
    requires CacheForMs(x.answer.raw, RoundTrip(x)) == Ok(Some(life))
    ensures x.finishedAt + life as real + offset > x.answer.raw.nextTransitionAt.value as real <==> cut > Slack(x, readAt, life)
    ensures Slack(x, readAt, life) >= 0.0
  {
    CeilBounds(RoundTrip(x));
  }

  /** With a reading that is not cut, no snapshot is live at or past its boundary. */
  lemma ExactReadingIsSafe(x: Exchange, offset: real, readAt: real, life: int, instant: real)
    requires Usable(x) && Truthful(x, offset, readAt, 0.0) && x.answer.raw.nextTransitionAt.Some?
    requires CacheForMs(x.answer.raw, RoundTrip(x)) == Ok(Some(life)) && instant < x.finishedAt + life as real
    ensures instant + offset < x.answer.raw.nextTransitionAt.value as real
  {
    DeadlinePassesIff(x, offset, readAt, 0.0, life);
  }

  /** Shown for `life` ms, the answer ends by its boundary even if the server read its clock as the request left. */
  predicate Safe(x: Exchange, life: int)
    requires Usable(x) && x.answer.raw.nextTransitionAt.Some?
  {
    x.answer.raw.serverNow as real + RoundTrip(x) + life as real <= x.answer.raw.nextTransitionAt.value as real
  }

  /** Without a transition the lifetime is the fallback; otherwise it is the longest safe whole number, capped. */
  lemma LifetimeIsLongest(x: Exchange, life: int)
    requires Usable(x)
    ensures CacheForMs(x.answer.raw, RoundTrip(x)) == Ok(Some(life))
            <==> if x.answer.raw.nextTransitionAt.None? then life == 30000
                 else 1 <= life <= 30000 && Safe(x, life) && (life < 30000 ==> !Safe(x, life + 1))
  {
    CeilBounds(RoundTrip(x));
  }

  /** A stale answer is one for which not even one whole millisecond would be safe. */
  lemma StaleIsExact(x: Exchange)
    requires Usable(x)
    ensures Stale(x) <==> x.answer.raw.nextTransitionAt.Some? && !Safe(x, 1)
  {
    CeilBounds(RoundTrip(x));
  }

  // ---------------------------------------------------------------- what the server puts into a snapshot

  /** A published event and when it is shown, if bounded. */
  datatype EventRow = EventRow(id: nat, startsAt: Option<real>, endsAt: Option<real>)

  predicate ActiveAt(e: EventRow, now: real) {
    (e.startsAt.None? || e.startsAt.value <= now) && (e.endsAt.None? || e.endsAt.value > now)
  }

  function ActiveSet(events: seq<EventRow>, now: real): seq<EventRow> {
    if events == [] then []
    else if ActiveAt(events[0], now) then [events[0]] + ActiveSet(events[1..], now)
    else ActiveSet(events[1..], now)
  }

  function Earlier(a: Option<real>, b: Option<real>): Option<real> {
    if a.None? then b else if b.None? then a else if a.value <= b.value then a else b
  }

  function After(bound: Option<real>, now: real): Option<real> {
    if bound.Some? && bound.value > now then bound else None
  }

  /** The first start or end that still lies ahead. */
  function NextTransition(events: seq<EventRow>, now: real): Option<real> {
    if events == [] then None
    else Earlier(Earlier(After(events[0].startsAt, now), After(events[0].endsAt, now)), NextTransition(events[1..], now))
  }

  predicate Before(t: real, bound: Option<real>) {
    bound.None? || t < bound.value
  }

  /** Until the next transition the active events stay the same. */
  lemma {:induction false} ActiveUntilTransition(events: seq<EventRow>, now: real, t: real)
    requires now <= t && Before(t, NextTransition(events, now))
    ensures ActiveSet(events, t) == ActiveSet(events, now)
    decreases |events|
  {
    if events != [] {
      ActiveUntilTransition(events[1..], now, t);
    }
  }

  lemma {:induction false} TransitionLiesAhead(events: seq<EventRow>, now: real)
    ensures NextTransition(events, now).Some? ==> NextTransition(events, now).value > now
    decreases |events|
  {
    if events != [] {
      TransitionLiesAhead(events[1..], now);
    }
  }

  /** At the transition itself some event starts or ends. */
  lemma {:induction false} TransitionIsReal(events: seq<EventRow>, now: real)
    requires NextTransition(events, now).Some?
    ensures var next := NextTransition(events, now);
            exists i :: 0 <= i < |events| && (events[i].startsAt == next || events[i].endsAt == next)
    decreases |events|
  {
    var next := NextTransition(events, now);
    if events[0].startsAt == next || events[0].endsAt == next {
      assert events[0].startsAt == next || events[0].endsAt == next;
    } else {
      TransitionIsReal(events[1..], now);
      var i :| 0 <= i < |events[1..]| && (events[1..][i].startsAt == next || events[1..][i].endsAt == next);
      assert events[i + 1].startsAt == next || events[i + 1].endsAt == next;
    }
  }

  /** Both times leave the server cut to whole milliseconds. */
  function Emitted(events: seq<EventRow>, now: real, content: nat): Snapshot {
    var next := NextTransition(events, now);
    Snapshot(now.Floor, if next.None? then None else Some(next.value.Floor), content)
  }

  /** A client refuses a snapshot whose transition falls into the millisecond of the reading. */
  lemma EmittedIsValidIff(events: seq<EventRow>, now: real, content: nat)
    ensures var next := NextTransition(events, now);
            ValidSnapshot(Emitted(events, now, content)) <==> next.None? || next.value >= now.Floor as real + 1.0
  {
  }

  // ---------------------------------------------------------------- end to end

  /** An event that ends, ends after it starts. */
  predicate Proper(e: EventRow) {
    e.startsAt.Some? && e.endsAt.Some? ==> e.startsAt.value < e.endsAt.value
  }

  function Fraction(t: real): real {
    t - t.Floor as real
  }

  lemma {:induction false} ActiveSetMember(events: seq<EventRow>, now: real, e: EventRow)
    ensures e in ActiveSet(events, now) <==> e in events && ActiveAt(e, now)
    decreases |events|
  {
    if events != [] {
      ActiveSetMember(events[1..], now, e);
      assert events == [events[0]] + events[1..];
    }
  }

  /** No start or end lies between now and the next transition. */
  lemma {:induction false} TransitionIsFirst(events: seq<EventRow>, now: real, e: EventRow, bound: Option<real>)
    requires e in events && (bound == e.startsAt || bound == e.endsAt) && bound.Some? && bound.value > now
    ensures NextTransition(events, now).Some? && NextTransition(events, now).value <= bound.value
    decreases |events|
  {
    if e != events[0] {
      assert events == [events[0]] + events[1..];
      TransitionIsFirst(events[1..], now, e, bound);
    }
  }

  /** At the next transition the active events do change. */
  lemma ActiveChangesAtTransition(events: seq<EventRow>, now: real)
    requires NextTransition(events, now).Some? && forall i :: 0 <= i < |events| ==> Proper(events[i])
    ensures ActiveSet(events, NextTransition(events, now).value) != ActiveSet(events, now)
  {
    var next := NextTransition(events, now);
    TransitionLiesAhead(events, now);
    TransitionIsReal(events, now);
    var i :| 0 <= i < |events| && (events[i].startsAt == next || events[i].endsAt == next);
    var e := events[i];
    assert Proper(e);
    if e.startsAt.Some? && e.startsAt.value > now {
      TransitionIsFirst(events, now, e, e.startsAt);
    }
    ActiveSetMember(events, now, e);
    ActiveSetMember(events, next.value, e);
  }

  predicate RightAt(events: seq<EventRow>, readAt: real, offset: real, instant: real) {
    ActiveSet(events, instant + offset) == ActiveSet(events, readAt + offset)
  }

  /** The snapshot agrees with the server at every instant at which the client shows it. */
  ghost predicate ShownRight(events: seq<EventRow>, x: Exchange, readAt: real, offset: real, life: int) {
    forall instant: real :: x.finishedAt <= instant < x.finishedAt + life as real ==> RightAt(events, readAt, offset, instant)
  }

  ghost predicate Received(events: seq<EventRow>, x: Exchange, readAt: real, offset: real, life: int, content: nat) {
    && x.answer == Json(Emitted(events, readAt + offset, content)) && Usable(x)
    && x.startedAt <= readAt <= x.finishedAt
    && CacheForMs(x.answer.raw, RoundTrip(x)) == Ok(Some(life))
  }

  /** The deadline against the true transition, of which the client knows only whole milliseconds. */
  lemma DeadlineAgainstTransition(events: seq<EventRow>, x: Exchange, readAt: real, offset: real, life: int, content: nat)
    requires Received(events, x, readAt, offset, life, content) && NextTransition(events, readAt + offset).Some?
    ensures var now, next := readAt + offset, NextTransition(events, readAt + offset).value;
            && (x.finishedAt + life as real + offset > next <==> Fraction(now) > Slack(x, readAt, life) + Fraction(next))
            && next > x.finishedAt + offset
  {
    var now, next := readAt + offset, NextTransition(events, readAt + offset).value;
    DeadlinePassesIff(x, offset, readAt, Fraction(now), life);
    CeilBounds(RoundTrip(x));
  }

  /**
   End to end and exactly: a client shows, at every instant of the snapshot's lifetime, what is
   active on the server if and only if there is no transition ahead or the fraction of a
   millisecond that the server cut off its reading is made up for by what the client gives
   away and by what was cut off the transition.
   */
  lemma ShownIsActiveIff(events: seq<EventRow>, x: Exchange, readAt: real, offset: real, life: int, content: nat)
    requires Received(events, x, readAt, offset, life, content) && forall i :: 0 <= i < |events| ==> Proper(events[i])
    ensures var now, next := readAt + offset, NextTransition(events, readAt + offset);
            ShownRight(events, x, readAt, offset, life)
            <==> next.None? || Fraction(now) <= Slack(x, readAt, life) + Fraction(next.value)
  {
    var now, next := readAt + offset, NextTransition(events, readAt + offset);
    if next.Some? {
      DeadlineAgainstTransition(events, x, readAt, offset, life, content);
    }
    if next.None? || Fraction(now) <= Slack(x, readAt, life) + Fraction(next.value) {
      forall instant: real | x.finishedAt <= instant < x.finishedAt + life as real
        ensures RightAt(events, readAt, offset, instant)
      {
        ActiveUntilTransition(events, now, instant + offset);
      }
    } else {
      var instant := next.value - offset;
      ActiveChangesAtTransition(events, now);
      assert instant + offset == next.value;
      assert !RightAt(events, readAt, offset, instant);
    }
  }

  /** A snapshot that is shown while the server's active events are already others. */
  lemma ShownTooLong() returns (events: seq<EventRow>, x: Exchange, readAt: real, life: int, instant: real)
    ensures (forall i :: 0 <= i < |events| ==> Proper(events[i])) && Received(events, x, readAt, 0.0, life, 0)
    ensures x.finishedAt <= instant < x.finishedAt + life as real && ActiveSet(events, instant) != ActiveSet(events, readAt)
    ensures !ShownRight(events, x, readAt, 0.0, life)
  {
    var e := EventRow(1, None, Some(106.0));
    events, readAt, life, instant := [e], 100.5, 5, 106.25;
    assert [e][1..] == [];
    assert NextTransition(events, readAt) == Some(106.0);
    x := Exchange(100.5, Json(Snapshot(100, Some(106), 0)), 101.5);
    assert readAt + 0.0 == readAt && readAt.Floor == 100 && (106.0).Floor == 106;
    assert Emitted(events, readAt + 0.0, 0) == Snapshot(100, Some(106), 0);
    assert Ceil(RoundTrip(x)) == 1;
    assert ActiveSet(events, readAt) == [e] && ActiveSet(events, instant) == [];
    assert instant + 0.0 == instant;
    assert !RightAt(events, readAt, 0.0, instant);
  }
}
