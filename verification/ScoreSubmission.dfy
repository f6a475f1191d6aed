/**
 The score submission hook: its effect, timers, replies, manual retries and mount changes may
 come in any order.  First the meaning of each event and what every run keeps, then the hook
 with its refs and state, proved against it.
 */
module ScoreSubmission {
  import opened Wrappers

  const MAX_AUTO_ATTEMPTS: nat := 4

  /** The delay after a failed attempt, counted from 1; none after the last one. */
  function RetryDelayMs(failedAttempt: nat): Option<nat> {
    if failedAttempt == 1 then Some(1000)
    else if failedAttempt == 2 then Some(2000)
    else if failedAttempt == 3 then Some(4000)
    else None
  }

  /** Times are None when not finite. */
  function ElapsedMs(startedAt: Option<real>, endedAt: Option<real>): real {
    if startedAt.None? || endedAt.None? || endedAt.value <= startedAt.value then 0.0
    else endedAt.value - startedAt.value
  }

  datatype Identity = Identity(startedAt: real, id: nat)

  /** What one render hands to the effect; `scoreId` is the state as of that render. */
  datatype Rendered = Rendered(open: bool, score: int, startedAt: Option<real>, endedAt: Option<real>, scoreId: Option<nat>)

  datatype Phase = Waiting | Answered | Done

  datatype Request = Request(id: nat, attempt: nat, score: int, durationMs: real, trackPlay: bool, phase: Phase)

  datatype Report = Report(reviewStatus: Option<string>, percentile: Option<real>, previousBest: Option<Option<int>>,
                           newBadges: Option<seq<string>>, collectedCount: Option<int>)

  datatype Answer = Accepted(scoreId: nat, report: Report) | Rejected(message: string)

  datatype Shown = Shown(scoreId: Option<nat>, reviewStatus: Option<string>, percentile: Option<real>,
                         previousBest: Option<Option<int>>, newBadges: seq<string>, collectedCount: int)

  const NOTHING_SHOWN := Shown(None, None, None, None, [], 0)

  function ShowReport(before: Shown, scoreId: nat, r: Report): Shown {
    Shown(Some(scoreId),
          if r.reviewStatus.Some? then r.reviewStatus else before.reviewStatus,
          if r.percentile.Some? then r.percentile else before.percentile,
          if r.previousBest.Some? then r.previousBest else before.previousBest,
          if r.newBadges.Some? then r.newBadges.value else before.newBadges,
          if r.collectedCount.Some? then r.collectedCount.value else before.collectedCount)
  }

  datatype Timer = Timer(id: nat, delayMs: nat, live: bool)

  /** The hook's refs and state, and the browser's requests, timers and supply of fresh ids. */
  datatype State = State(
    submission: Option<Identity>, wasOpen: bool, mounted: bool, inFlight: Option<nat>, attempts: nat, retryTimer: Option<nat>,
    shown: Shown, submitting: bool, submitError: Option<string>, retryToken: nat, playConversionSent: bool,
    requests: seq<Request>, timers: seq<Timer>, nextId: nat)

  predicate Submittable(p: Rendered) {
    p.open && p.score > 0 && ElapsedMs(p.startedAt, p.endedAt) > 0.0
  }

  predicate Current(s: State, id: nat) {
    s.submission.Some? && s.submission.value.id == id
  }

  // ---------------------------------------------------------------- the events

  datatype Event =
    | Render(p: Rendered, trackPlay: bool)
    | Fire(timer: nat)
    | Reply(request: nat, answer: Answer)
    | Settle(request: nat)
    | Retry
    | Mount
    | Unmount

  function WithoutTimer(s: State): State {
    s.(timers := if s.retryTimer.Some? && s.retryTimer.value < |s.timers|
                 then s.timers[s.retryTimer.value := s.timers[s.retryTimer.value].(live := false)] else s.timers,
       retryTimer := None)
  }

  predicate NewGame(s: State, startedAt: real) {
    !s.wasOpen || s.submission.None? || s.submission.value.startedAt != startedAt
  }

  /** A fresh identity, no attempts, nothing in flight, nothing shown. */
  function GameStarted(s: State, startedAt: real): State {
    WithoutTimer(s).(
      wasOpen := true, submission := Some(Identity(startedAt, s.nextId)), nextId := s.nextId + 1,
      attempts := 0, inFlight := None, shown := NOTHING_SHOWN, submitting := false, submitError := None)
  }

  function Identified(s: State, startedAt: real): State {
    if NewGame(s, startedAt) then GameStarted(s, startedAt) else s
  }

  /** Whether the effect sends; a new game always does. */
  predicate Sends(s: State, p: Rendered) {
    && Submittable(p)
    && (NewGame(s, p.startedAt.value)
        || (p.scoreId.None? && s.inFlight != Some(s.submission.value.id) && s.attempts < MAX_AUTO_ATTEMPTS))
  }

  function Sent(s: State, p: Rendered, trackPlay: bool): State
    requires s.submission.Some?
  {
    var id := s.submission.value.id;
    s.(attempts := s.attempts + 1, inFlight := Some(id), submitting := true, submitError := None,
       requests := s.requests + [Request(id, s.attempts + 1, p.score, ElapsedMs(p.startedAt, p.endedAt), trackPlay, Waiting)])
  }

  function Rendering(s: State, p: Rendered, trackPlay: bool): State {
    if !p.open then WithoutTimer(s).(wasOpen := false)
    else if !Submittable(p) then s
    else
      var s' := Identified(s, p.startedAt.value);
      if Sends(s, p) then Sent(s', p, trackPlay) else s'
  }

  /** A reply changes what is shown only while its id is current and the component mounted. */
  function Replied(s: State, i: nat, answer: Answer): State
    requires i < |s.requests|
  {
    var r := s.requests[i];
    var s' := s.(requests := s.requests[i := r.(phase := Answered)]);
    if !Current(s, r.id) then s'
    else match answer
      case Accepted(scoreId, report) =>
        s'.(playConversionSent := s.playConversionSent || r.trackPlay,
            shown := if s.mounted then ShowReport(s.shown, scoreId, report) else s.shown)
      case Rejected(message) =>
        if !s.mounted then s'
        else if RetryDelayMs(r.attempt).None? then s'.(submitError := Some(message))
        else s'.(submitError := Some(message), timers := s.timers + [Timer(r.id, RetryDelayMs(r.attempt).value, true)], 
                 retryTimer := Some(|s.timers|))
  }

  /** The last step of a request frees the in-flight slot only if the slot is its own. */
  function Settled(s: State, i: nat): State
    requires i < |s.requests|
  {
    var r := s.requests[i];
    var s' := s.(requests := s.requests[i := r.(phase := Done)]);
    if s.inFlight != Some(r.id) then s'
    else s'.(inFlight := None, submitting := s.submitting && !(s.mounted && Current(s, r.id)))
  }

  /** A timer asks for another render only while its id is current and the component mounted. */
  function Fired(s: State, t: nat): State
    requires t < |s.timers|
  {
    s.(timers := s.timers[t := s.timers[t].(live := false)], retryTimer := None,
       retryToken := if s.mounted && Current(s, s.timers[t].id) then s.retryToken + 1 else s.retryToken)
  }

  function Retried(s: State): State {
    if !s.mounted then s
    else WithoutTimer(s).(attempts := 0, submitError := None, retryToken := s.retryToken + 1)
  }

  /** An event that cannot happen in a state changes nothing; effects run only while mounted. */
  function Step(s: State, e: Event): State {
    match e
    case Render(p, trackPlay) => if s.mounted then Rendering(s, p, trackPlay) else s
    case Fire(t) => if t < |s.timers| && s.timers[t].live then Fired(s, t) else s
    case Reply(i, answer) => if i < |s.requests| && s.requests[i].phase.Waiting? then Replied(s, i, answer) else s
    case Settle(i) => if i < |s.requests| && s.requests[i].phase.Answered? then Settled(s, i) else s
    case Retry => Retried(s)
    case Mount => s.(mounted := true)
    case Unmount => WithoutTimer(s).(mounted := false)
  }

  function Run(s: State, es: seq<Event>): State
    decreases |es|
  {
    if es == [] then s else Run(Step(s, es[0]), es[1..])
  }

  const START := State(None, false, false, None, 0, None, NOTHING_SHOWN, false, None, 0, false, [], [], 0)

  // ---------------------------------------------------------------- what a reader counts

  /** The game and the window of automatic attempts that a request belongs to. */
  datatype Tag = Tag(game: nat, window: nat)

  /**
   Kept beside a run.  `game` grows when a submittable render differs from the one before it in
   its start time or the dialog was closed in between; `window` grows with every new game and
   every manual retry.
   */
  datatype Watch = Watch(closings: nat, lastSeen: Option<(nat, real)>, game: nat, window: nat, tags: seq<Tag>)

  const WATCH_START := Watch(0, None, 0, 0, [])

  function Observe(v: Watch, s: State, e: Event): Watch {
    if !s.mounted then v
    else match e
      case Render(p, _) =>
        if !p.open then v.(closings := v.closings + 1)
        else if !Submittable(p) then v
        else
          var seen := (v.closings, p.startedAt.value);
          var v' := if v.lastSeen == Some(seen) then v
                    else v.(lastSeen := Some(seen), game := v.game + 1, window := v.window + 1);
          if |Step(s, e).requests| > |s.requests| then v'.(tags := v.tags + [Tag(v'.game, v'.window)]) else v'
      case Retry => v.(window := v.window + 1)
      case _ => v
  }

  function WatchRun(v: Watch, s: State, es: seq<Event>): Watch
    decreases |es|
  {
    if es == [] then v else WatchRun(Observe(v, s, es[0]), Step(s, es[0]), es[1..])
  }

  function CountIn(tags: seq<Tag>, window: nat): nat {
    if tags == [] then 0
    else CountIn(tags[..|tags| - 1], window) + if tags[|tags| - 1].window == window then 1 else 0
  }

  lemma CountAppend(tags: seq<Tag>, t: Tag, window: nat)
    ensures CountIn(tags + [t], window) == CountIn(tags, window) + if t.window == window then 1 else 0
  {
    assert (tags + [t])[..|tags|] == tags;
  }

  lemma {:induction false} CountNone(tags: seq<Tag>, window: nat)
    requires forall i :: 0 <= i < |tags| ==> tags[i].window < window
    ensures CountIn(tags, window) == 0
    decreases |tags|
  {
    if tags != [] {
      CountNone(tags[..|tags| - 1], window);
    }
  }

  // ---------------------------------------------------------------- invariants

  /** The code's own view of the game agrees with the reader's. */
  ghost predicate GameTracked(s: State, v: Watch) {
    && (s.submission.Some? <==> v.lastSeen.Some?)
    && (s.submission.Some? ==> s.submission.value.startedAt == v.lastSeen.value.1 && s.submission.value.id < s.nextId)
    && (s.wasOpen <==> v.lastSeen.Some? && v.lastSeen.value.0 == v.closings)
    && (v.lastSeen.Some? ==> v.lastSeen.value.0 <= v.closings)
  }

  ghost predicate Older(s: State, v: Watch, i: nat)
    requires i < |s.requests| == |v.tags|
  {
    && s.submission.Some? && s.requests[i].id < s.nextId && v.tags[i].game <= v.game && v.tags[i].window <= v.window
    && (Current(s, s.requests[i].id) <==> v.tags[i].game == v.game)
  }

  /** One id for every game, one game for every id. */
  ghost predicate IdsAreGames(s: State, v: Watch) {
    && |v.tags| == |s.requests|
    && (forall i: nat :: i < |s.requests| ==> Older(s, v, i))
    && forall i: nat, k: nat :: i < |s.requests| && k < |s.requests| ==>
         (s.requests[i].id == s.requests[k].id <==> v.tags[i].game == v.tags[k].game)
  }

  predicate Open(s: State, i: nat)
    requires i < |s.requests|
  {
    !s.requests[i].phase.Done?
  }

  predicate HasOpen(s: State, id: nat) {
    exists i: nat :: i < |s.requests| && Open(s, i) && s.requests[i].id == id
  }

  ghost predicate OneInFlight(s: State) {
    && (s.inFlight.Some? ==> Current(s, s.inFlight.value) && HasOpen(s, s.inFlight.value))
    && (forall i: nat :: i < |s.requests| && Open(s, i) && Current(s, s.requests[i].id) ==> s.inFlight == Some(s.requests[i].id))
    && forall i: nat, k: nat :: i < k < |s.requests| && Open(s, i) && Open(s, k) ==> s.requests[i].id != s.requests[k].id
  }

  ghost predicate FewAttempts(s: State, v: Watch) {
    && s.attempts <= MAX_AUTO_ATTEMPTS && CountIn(v.tags, v.window) == s.attempts
    && (forall i: nat :: i < |v.tags| ==> v.tags[i].window <= v.window)
    && forall w: nat :: CountIn(v.tags, w) <= MAX_AUTO_ATTEMPTS
  }

  ghost predicate Inv(s: State, v: Watch) {
    GameTracked(s, v) && IdsAreGames(s, v) && OneInFlight(s) && FewAttempts(s, v)
  }

  /** An event that starts no game and sends nothing touches at most phases and flags. */
  ghost predicate Quiet(s: State, s': State) {
    && s'.submission == s.submission && s'.nextId == s.nextId && |s'.requests| == |s.requests|
    && forall i: nat :: i < |s.requests| ==> s'.requests[i].id == s.requests[i].id
  }

  lemma QuietKeepsIds(s: State, s': State, v: Watch, v': Watch)
    requires IdsAreGames(s, v) && Quiet(s, s') && v'.tags == v.tags && v'.game == v.game && v'.window >= v.window
    ensures IdsAreGames(s', v')
  {
    forall i: nat | i < |s'.requests|
      ensures Older(s', v', i) && s'.requests[i].id == s.requests[i].id
    {
      assert Older(s, v, i);
    }
    forall i: nat, k: nat | i < |s'.requests| && k < |s'.requests|
      ensures s'.requests[i].id == s'.requests[k].id <==> v'.tags[i].game == v'.tags[k].game
    {
      assert s'.requests[i].id == s.requests[i].id && s'.requests[k].id == s.requests[k].id;
    }
  }

  lemma WindowGrows(s: State, s': State, v: Watch, v': Watch)
    requires FewAttempts(s, v) && s'.attempts == 0 && v'.tags == v.tags && v'.window == v.window + 1
    ensures FewAttempts(s', v')
  {
    CountNone(v.tags, v'.window);
  }

  lemma GameStartKeepsInv(s: State, v: Watch, startedAt: real)
    requires Inv(s, v) && NewGame(s, startedAt)
    ensures var v' := v.(lastSeen := Some((v.closings, startedAt)), game := v.game + 1, window := v.window + 1);
            Inv(GameStarted(s, startedAt), v')
  {
    var s' := GameStarted(s, startedAt);
    var v' := v.(lastSeen := Some((v.closings, startedAt)), game := v.game + 1, window := v.window + 1);
    WindowGrows(s, s', v, v');
    forall i: nat | i < |s'.requests|
      ensures Older(s', v', i) && !Current(s', s'.requests[i].id)
    {
      assert Older(s, v, i);
    }
    forall i: nat, k: nat | i < k < |s'.requests| && Open(s', i) && Open(s', k)
      ensures s'.requests[i].id != s'.requests[k].id
    {
      assert Open(s, i) && Open(s, k);
    }
  }

  lemma SendKeepsInv(s: State, v: Watch, p: Rendered, trackPlay: bool)
    requires Inv(s, v) && s.submission.Some? && s.inFlight != Some(s.submission.value.id) && s.attempts < MAX_AUTO_ATTEMPTS
    ensures Inv(Sent(s, p, trackPlay), v.(tags := v.tags + [Tag(v.game, v.window)]))
  {
    var s', v' := Sent(s, p, trackPlay), v.(tags := v.tags + [Tag(v.game, v.window)]);
    SendKeepsIds(s, v, s', v');
    SendKeepsFlight(s, s');
    forall w: nat
      ensures CountIn(v'.tags, w) == CountIn(v.tags, w) + if w == v.window then 1 else 0
    {
      CountAppend(v.tags, Tag(v.game, v.window), w);
    }
  }

  lemma SendKeepsIds(s: State, v: Watch, s': State, v': Watch)
    requires IdsAreGames(s, v) && s.submission.Some? && s.submission.value.id < s.nextId
    requires s'.submission == s.submission && s'.nextId == s.nextId
    requires |s'.requests| == |s.requests| + 1 && s'.requests[..|s.requests|] == s.requests
    requires s'.requests[|s.requests|].id == s.submission.value.id
    requires v' == v.(tags := v.tags + [Tag(v.game, v.window)])
    ensures IdsAreGames(s', v')
  {
    var n := |s.requests|;
    forall i: nat | i < |s'.requests|
      ensures Older(s', v', i)
    {
      assert i < n ==> Older(s, v, i) && s'.requests[i] == s.requests[i];
    }
    forall i: nat, k: nat | i < |s'.requests| && k < |s'.requests|
      ensures s'.requests[i].id == s'.requests[k].id <==> v'.tags[i].game == v'.tags[k].game
    {
      assert i < n ==> s'.requests[i] == s.requests[i];
      assert k < n ==> s'.requests[k] == s.requests[k];
      assert Older(s', v', i) && Older(s', v', k);
    }
  }

  lemma SendKeepsFlight(s: State, s': State)
    requires OneInFlight(s) && s.submission.Some? && s.inFlight != Some(s.submission.value.id)
    requires s'.submission == s.submission && s'.inFlight == Some(s.submission.value.id)
    requires |s'.requests| == |s.requests| + 1 && s'.requests[..|s.requests|] == s.requests
    requires s'.requests[|s.requests|].id == s.submission.value.id && s'.requests[|s.requests|].phase.Waiting?
    ensures OneInFlight(s')
  {
    var n := |s.requests|;
    assert Open(s', n) && s'.requests[n].id == s.submission.value.id;
    forall i: nat, k: nat | i < k < |s'.requests| && Open(s', i) && Open(s', k)
      ensures s'.requests[i].id != s'.requests[k].id
    {
      assert s'.requests[i] == s.requests[i];
      assert Open(s, i);
      if k < n {
        assert s'.requests[k] == s.requests[k];
        assert Open(s, k);
      }
    }
  }

  lemma RenderKeepsInv(s: State, v: Watch, p: Rendered, trackPlay: bool)
    requires Inv(s, v) && s.mounted
    ensures Inv(Step(s, Render(p, trackPlay)), Observe(v, s, Render(p, trackPlay)))
  {
    var e := Render(p, trackPlay);
    if Submittable(p) {
      var startedAt := p.startedAt.value;
      var s1 := Identified(s, startedAt);
      assert NewGame(s, startedAt) <==> v.lastSeen != Some((v.closings, startedAt));
      var v1 := if NewGame(s, startedAt)
                then v.(lastSeen := Some((v.closings, startedAt)), game := v.game + 1, window := v.window + 1) else v;
      if NewGame(s, startedAt) {
        GameStartKeepsInv(s, v, startedAt);
      }
      if Sends(s, p) {
        SendKeepsInv(s1, v1, p, trackPlay);
        assert Observe(v, s, e) == v1.(tags := v1.tags + [Tag(v1.game, v1.window)]);
      } else {
        assert Observe(v, s, e) == v1;
      }
    } else {
      QuietStepKeepsInv(s, v, e);
    }
  }

  predicate NoSubmission(s: State, e: Event) {
    e.Render? ==> !s.mounted || !Submittable(e.p)
  }

  lemma QuietRequests(s: State, e: Event)
    requires NoSubmission(s, e)
    ensures Quiet(s, Step(s, e))
  {
  }

  lemma QuietFacts(s: State, v: Watch, e: Event)
    requires NoSubmission(s, e)
    ensures var s', v' := Step(s, e), Observe(v, s, e);
            && Quiet(s, s') && v'.tags == v.tags && v'.game == v.game && v'.lastSeen == v.lastSeen
            && (if e.Retry? && s.mounted then s'.attempts == 0 && v'.window == v.window + 1
                else s'.attempts == s.attempts && v'.window == v.window)
  {
    QuietRequests(s, e);
  }

  lemma QuietStepKeepsInv(s: State, v: Watch, e: Event)
    requires Inv(s, v) && NoSubmission(s, e)
    ensures Inv(Step(s, e), Observe(v, s, e))
  {
    var s', v' := Step(s, e), Observe(v, s, e);
    QuietFacts(s, v, e);
    QuietKeepsIds(s, s', v, v');
    if e.Retry? && s.mounted {
      WindowGrows(s, s', v, v');
    }
    if e.Settle? {
      SettleKeepsFlight(s, s', e.request);
    } else {
      NoSettleKeepsFlight(s, s', e);
    }
    QuietKeepsGame(s, v, e);
  }

  lemma QuietKeepsGame(s: State, v: Watch, e: Event)
    requires GameTracked(s, v) && NoSubmission(s, e)
    ensures GameTracked(Step(s, e), Observe(v, s, e))
  {
  }

  lemma FlightKept(s: State, s': State)
    requires OneInFlight(s) && Quiet(s, s') && s'.inFlight == s.inFlight
    requires forall i: nat :: i < |s.requests| && Open(s', i) ==> Open(s, i)
    requires s.inFlight.Some? ==> HasOpen(s', s.inFlight.value)
    ensures OneInFlight(s')
  {
    forall i: nat, k: nat | i < k < |s'.requests| && Open(s', i) && Open(s', k)
      ensures s'.requests[i].id != s'.requests[k].id
    {
      assert Open(s, i) && Open(s, k) && s'.requests[i].id == s.requests[i].id && s'.requests[k].id == s.requests[k].id;
    }
  }

  lemma OpenKept(s: State, e: Event, i: nat)
    requires NoSubmission(s, e) && !e.Settle? && i < |s.requests| == |Step(s, e).requests|
    ensures Open(Step(s, e), i) <==> Open(s, i)
  {
  }

  lemma SameFlight(s: State, e: Event)
    requires NoSubmission(s, e) && !e.Settle?
    ensures Step(s, e).inFlight == s.inFlight
  {
  }

  lemma NoSettleKeepsFlight(s: State, s': State, e: Event)
    requires OneInFlight(s) && NoSubmission(s, e) && !e.Settle? && s' == Step(s, e) && Quiet(s, s')
    ensures OneInFlight(s')
  {
    SameFlight(s, e);
    forall i: nat | i < |s.requests|
      ensures Open(s', i) <==> Open(s, i)
    {
      OpenKept(s, e, i);
    }
    if s.inFlight.Some? {
      var i: nat :| i < |s.requests| && Open(s, i) && s.requests[i].id == s.inFlight.value;
      assert Open(s', i) && s'.requests[i].id == s.inFlight.value;
    }
    FlightKept(s, s');
  }

  lemma SettleKeepsFlight(s: State, s': State, n: nat)
    requires OneInFlight(s) && s' == Step(s, Settle(n))
    ensures OneInFlight(s')
  {
    QuietRequests(s, Settle(n));
    if s' != s {
      forall i: nat | i < |s'.requests| && Open(s', i)
        ensures Open(s, i) && i != n && s'.requests[i].id == s.requests[i].id && s'.requests[i].id != s.requests[n].id
      {
        assert Open(s, i) && Open(s, n);
      }
      if s.inFlight.Some? && s.inFlight.value != s.requests[n].id {
        var i: nat :| i < |s.requests| && Open(s, i) && s.requests[i].id == s.inFlight.value;
        assert i != n && s'.requests[i] == s.requests[i];
        assert Open(s', i) && s'.requests[i].id == s.inFlight.value;
      }
      forall i: nat, k: nat | i < k < |s'.requests| && Open(s', i) && Open(s', k)
        ensures s'.requests[i].id != s'.requests[k].id
      {
        assert Open(s, i) && Open(s, k);
      }
    }
  }

  lemma StepKeepsInv(s: State, v: Watch, e: Event)
    requires Inv(s, v)
    ensures Inv(Step(s, e), Observe(v, s, e))
  {
    if e.Render? && s.mounted && Submittable(e.p) {
      RenderKeepsInv(s, v, e.p, e.trackPlay);
    } else {
      QuietStepKeepsInv(s, v, e);
    }
  }

  lemma {:induction false} RunKeepsInv(s: State, v: Watch, es: seq<Event>)
    requires Inv(s, v)
    ensures Inv(Run(s, es), WatchRun(v, s, es))
    decreases |es|
  {
    if es != [] {
      StepKeepsInv(s, v, es[0]);
      RunKeepsInv(Step(s, es[0]), Observe(v, s, es[0]), es[1..]);
    }
  }

  // ---------------------------------------------------------------- over every run

  /**
   Over every order of events: requests share an id exactly when they belong to the same game;
   no two open requests share an id; no window sees more than four automatic attempts.
   */
  lemma EveryRun(es: seq<Event>)
    ensures var s, v := Run(START, es), WatchRun(WATCH_START, START, es);
            && |v.tags| == |s.requests|
            && (forall i: nat, k: nat :: i < |s.requests| && k < |s.requests| ==>
                  (s.requests[i].id == s.requests[k].id <==> v.tags[i].game == v.tags[k].game))
            && (forall i: nat, k: nat :: i < k < |s.requests| && Open(s, i) && Open(s, k) ==>
                  s.requests[i].id != s.requests[k].id)
            && (forall w: nat :: CountIn(v.tags, w) <= MAX_AUTO_ATTEMPTS)
  {
    RunKeepsInv(START, WATCH_START, es);
  }

  /** An open dialog with a positive score and an end after the start, both known. */
  predicate Finished(p: Rendered) {
    p.open && p.score > 0 && p.startedAt.Some? && p.endedAt.Some? && p.startedAt.value < p.endedAt.value
  }

  /** By the reader's count: the render is of another game than the one before, or the dialog was closed in between. */
  predicate NewByWatch(v: Watch, p: Rendered)
    requires p.startedAt.Some?
  {
    v.lastSeen != Some((v.closings, p.startedAt.value))
  }

  /** No request of the game that is being watched is open. */
  predicate NoneOpen(s: State, v: Watch)
    requires |v.tags| == |s.requests|
  {
    forall i :: 0 <= i < |s.requests| && v.tags[i].game == v.game ==> s.requests[i].phase.Done?
  }

  /**
   After every run: a render while mounted sends exactly one request if it is finished and either
   of a new game, or has seen no score while no request of the game is open and the window has had
   fewer than four attempts; otherwise it sends none.
   */
  lemma RenderSendsIff(es: seq<Event>, p: Rendered, trackPlay: bool)
    ensures var s, v := Run(START, es), WatchRun(WATCH_START, START, es);
            var s' := Step(s, Render(p, trackPlay));
            && |v.tags| == |s.requests|
            && (s'.requests != s.requests <==>
                  && s.mounted && Finished(p)
                  && (NewByWatch(v, p) || (p.scoreId.None? && NoneOpen(s, v) && CountIn(v.tags, v.window) < 4)))
            && (s'.requests != s.requests ==> |s'.requests| == |s.requests| + 1 && s'.requests[..|s.requests|] == s.requests)
  {
    RunKeepsInv(START, WATCH_START, es);
    var s, v := Run(START, es), WatchRun(WATCH_START, START, es);
    FinishedIsSubmittable(p);
    if s.mounted && Submittable(p) {
      assert NewGame(s, p.startedAt.value) <==> NewByWatch(v, p);
      if !NewByWatch(v, p) {
        SlotIsFree(s, v);
      }
      SendsOne(s, p, trackPlay);
    }
  }

  lemma FinishedIsSubmittable(p: Rendered)
    ensures Submittable(p) <==> Finished(p)
  {
  }

  lemma SlotIsFree(s: State, v: Watch)
    requires Inv(s, v) && s.submission.Some?
    ensures s.inFlight != Some(s.submission.value.id) <==> NoneOpen(s, v)
  {
    forall i: nat | i < |s.requests|
      ensures v.tags[i].game == v.game <==> s.requests[i].id == s.submission.value.id
    {
      assert Older(s, v, i);
    }
    if s.inFlight == Some(s.submission.value.id) {
      var i: nat :| i < |s.requests| && Open(s, i) && s.requests[i].id == s.inFlight.value;
      assert !NoneOpen(s, v);
    }
    if !NoneOpen(s, v) {
      var i: nat :| i < |s.requests| && v.tags[i].game == v.game && !s.requests[i].phase.Done?;
      assert Open(s, i) && Current(s, s.requests[i].id);
    }
  }

  lemma SendsOne(s: State, p: Rendered, trackPlay: bool)
    requires Submittable(p)
    ensures var s' := Rendering(s, p, trackPlay);
            if NewGame(s, p.startedAt.value)
               || (p.scoreId.None? && s.inFlight != Some(s.submission.value.id) && s.attempts < 4)
            then |s'.requests| == |s.requests| + 1 && s'.requests[..|s.requests|] == s.requests
            else s'.requests == s.requests
  {
  }

  /** Nothing but a render sends. */
  lemma OnlyRendersSend(s: State, e: Event)
    requires !e.Render?
    ensures |Step(s, e).requests| == |s.requests|
  {
    QuietRequests(s, e);
  }

  /**
   After every run: what a render sends has its score, the time from start to end, and the number
   of its attempt in the window; it shares its id with exactly the earlier requests of its game.
   */
  lemma SentRequest(es: seq<Event>, p: Rendered, trackPlay: bool)
    requires Step(Run(START, es), Render(p, trackPlay)).requests != Run(START, es).requests
    ensures var s, v, e := Run(START, es), WatchRun(WATCH_START, START, es), Render(p, trackPlay);
            var s', v' := Step(s, e), Observe(v, s, e);
            && |s'.requests| == |v'.tags| == |s.requests| + 1 && Finished(p)
            && var r, tag := s'.requests[|s.requests|], v'.tags[|s.requests|];
            && r.score == p.score && r.durationMs == p.endedAt.value - p.startedAt.value && r.trackPlay == trackPlay
            && r.phase.Waiting? && r.attempt == CountIn(v'.tags, v'.window) && tag == Tag(v'.game, v'.window)
            && (v'.game == v.game <==> !NewByWatch(v, p))
            && (forall i :: 0 <= i < |s.requests| ==> (s.requests[i].id == r.id <==> v'.tags[i].game == tag.game))
  {
    RenderSendsIff(es, p, trackPlay);
    RunKeepsInv(START, WATCH_START, es);
    var s, v, e := Run(START, es), WatchRun(WATCH_START, START, es), Render(p, trackPlay);
    RenderKeepsInv(s, v, p, trackPlay);
    FinishedIsSubmittable(p);
    NewRequest(s, p, trackPlay);
    var s', v' := Step(s, e), Observe(v, s, e);
    assert NewGame(s, p.startedAt.value) <==> NewByWatch(v, p);
    forall i: nat | i < |s.requests|
      ensures s'.requests[i].id == s.requests[i].id
    {
      assert s'.requests[i] == s.requests[i];
    }
  }

  lemma NewRequest(s: State, p: Rendered, trackPlay: bool)
    requires Submittable(p) && Rendering(s, p, trackPlay).requests != s.requests
    ensures var s' := Rendering(s, p, trackPlay);
            && |s'.requests| == |s.requests| + 1 && s'.requests[..|s.requests|] == s.requests
            && var r := s'.requests[|s.requests|];
            && r.score == p.score && r.durationMs == p.endedAt.value - p.startedAt.value && r.trackPlay == trackPlay
            && r.phase.Waiting? && r.attempt == s'.attempts
  {
  }

  /** One attempt of the only game that is rejected, and the retry timer that then fires. */
  function FailedAttempt(p: Rendered, k: nat, message: string): seq<Event> {
    [Render(p, false), Reply(k, Rejected(message)), Settle(k), Fire(k)]
  }

  /** k attempts of the only game were rejected, and all their timers have fired. */
  predicate Tried(s: State, p: Rendered, k: nat)
    requires p.startedAt.Some?
  {
    && s.mounted && |s.requests| == |s.timers| == s.attempts == s.retryToken == k && s.inFlight.None?
    && (forall i :: 0 <= i < k ==> s.requests[i].id == 0 && s.requests[i].attempt == i + 1 && s.requests[i].phase.Done?)
    && (forall i :: 0 <= i < k ==> !s.timers[i].live)
    && (if k == 0 then s.submission.None? && s.nextId == 0 else s.wasOpen && s.submission == Some(Identity(p.startedAt.value, 0)))
  }

  lemma RunOfFour(s: State, a: Event, b: Event, c: Event, d: Event)
    ensures Run(s, [a, b, c, d]) == Step(Step(Step(Step(s, a), b), c), d)
  {
    assert [a, b, c, d][1..] == [b, c, d] && [b, c, d][1..] == [c, d] && [c, d][1..] == [d] && [d][1..] == [];
    var s1 := Step(s, a);
    var s2 := Step(s1, b);
    var s3 := Step(s2, c);
    assert Run(s, [a, b, c, d]) == Run(s1, [b, c, d]);
    assert Run(s1, [b, c, d]) == Run(s2, [c, d]);
    assert Run(s2, [c, d]) == Run(s3, [d]);
    assert Run(s3, [d]) == Run(Step(s3, d), []) == Step(s3, d);
  }

  /** The k-th attempt: sent, rejected, settled, and a retry asked for after its own wait. */
  lemma AttemptFails(s: State, p: Rendered, k: nat, message: string)
    requires Finished(p) && p.scoreId.None? && k < 3 && Tried(s, p, k)
    ensures Tried(Run(s, FailedAttempt(p, k, message)), p, k + 1)
    ensures Run(s, FailedAttempt(p, k, message)).timers[k].delayMs == if k == 0 then 1000 else if k == 1 then 2000 else 4000
  {
    FinishedIsSubmittable(p);
    RunOfFour(s, Render(p, false), Reply(k, Rejected(message)), Settle(k), Fire(k));
    var s1 := Step(s, Render(p, false));
    assert |s1.requests| == k + 1 && s1.requests[k].id == 0 && s1.requests[k].attempt == k + 1 && s1.requests[k].phase.Waiting?;
    var s2 := Step(s1, Reply(k, Rejected(message)));
    assert |s2.timers| == k + 1 && s2.timers[k].live && s2.timers[k].id == 0 && s2.requests[k].phase.Answered?;
    var s3 := Step(s2, Settle(k));
    assert s3.inFlight.None? && s3.requests[k].phase.Done?;
  }

  /** Three rejected attempts, each followed by its timer. */
  function ThreeFailures(p: Rendered, message: string): seq<Event> {
    [Mount] + FailedAttempt(p, 0, message) + FailedAttempt(p, 1, message) + FailedAttempt(p, 2, message)
  }

  lemma ThreeFailuresRun(p: Rendered, message: string)
    requires Finished(p) && p.scoreId.None?
    ensures Tried(Run(START, ThreeFailures(p, message)), p, 3)
  {
    var a, b, c := FailedAttempt(p, 0, message), FailedAttempt(p, 1, message), FailedAttempt(p, 2, message);
    assert [Mount][1..] == [];
    var s0 := Run(START, [Mount]);
    assert s0 == START.(mounted := true);
    RunSplit(START, [Mount], a);
    RunSplit(START, [Mount] + a, b);
    RunSplit(START, [Mount] + a + b, c);
    AttemptFails(s0, p, 0, message);
    AttemptFails(Run(s0, a), p, 1, message);
    AttemptFails(Run(Run(s0, a), b), p, 2, message);
  }

  lemma {:induction false} RunSplit(s: State, a: seq<Event>, b: seq<Event>)
    ensures Run(s, a + b) == Run(Run(s, a), b)
    decreases |a|
  {
    if a == [] {
      assert a + b == b;
    } else {
      assert (a + b)[0] == a[0] && (a + b)[1..] == a[1..] + b;
      RunSplit(Step(s, a[0]), a[1..], b);
    }
  }

  /**
   The retries that the code is there for: after three rejected attempts and their timers the next
   render sends a fourth request under the same id; after its rejection no timer is set, and
   further renders send nothing.
   */
  lemma FourAttempts(p: Rendered, message: string)
    requires Finished(p) && p.scoreId.None?
    ensures var s := Run(START, ThreeFailures(p, message));
            var s4 := Step(s, Render(p, false));
            var s5 := Step(Step(s4, Reply(3, Rejected(message))), Settle(3));
            && s.retryToken == 3 && |s4.requests| == 4 && s4.requests[3].attempt == 4
            && (forall i :: 0 <= i < 4 ==> s4.requests[i].id == 0)
            && s5.timers == s.timers && Step(s5, Render(p, false)).requests == s5.requests
  {
    ThreeFailuresRun(p, message);
    FinishedIsSubmittable(p);
  }

  /** What is shown changes only by a new game or by a reply whose id is current, while mounted. */
  lemma ShownOnlyByCurrent(s: State, e: Event)
    requires Step(s, e).shown != s.shown
    ensures s.mounted
    ensures || (e.Render? && Submittable(e.p) && NewGame(s, e.p.startedAt.value) && Step(s, e).shown == NOTHING_SHOWN)
            || (e.Reply? && e.request < |s.requests| && e.answer.Accepted? && Current(s, s.requests[e.request].id)
                && Step(s, e).shown.scoreId == Some(e.answer.scoreId))
  {
  }

  /**
   A failure asks for another attempt exactly while its id is current, the component is mounted
   and attempts are left; the waits double from one second.
   */
  lemma FailureSchedulesRetry(s: State, i: nat, message: string)
    requires i < |s.requests| && s.requests[i].attempt >= 1
    ensures var r, s' := s.requests[i], Replied(s, i, Rejected(message));
            && (s'.timers != s.timers <==> Current(s, r.id) && s.mounted && r.attempt < MAX_AUTO_ATTEMPTS)
            && (s'.timers != s.timers ==>
                  && s'.timers == s.timers + [s'.timers[|s.timers|]] && s'.retryTimer == Some(|s.timers|)
                  && s'.timers[|s.timers|].id == r.id && s'.timers[|s.timers|].live
                  && (r.attempt == 1 ==> s'.timers[|s.timers|].delayMs == 1000)
                  && (r.attempt > 1 ==> RetryDelayMs(r.attempt - 1).Some?
                                        && s'.timers[|s.timers|].delayMs == 2 * RetryDelayMs(r.attempt - 1).value))
  {
    assert |s.timers + [Timer(s.requests[i].id, 0, true)]| == |s.timers| + 1;
  }

  /**
   A reply that is waited for: an accepted score is shown, with every part of the report that is
   there, exactly while its id is current and the component mounted; the play conversion is marked
   for a current id in any case; a failure is shown exactly while current and mounted.
   */
  lemma ReplyIsShownIff(s: State, i: nat, answer: Answer)
    requires i < |s.requests| && s.requests[i].phase.Waiting?
    ensures var r, s' := s.requests[i], Step(s, Reply(i, answer));
            var current := Current(s, r.id);
            && (answer.Accepted? && current && s.mounted ==>
                  && s'.shown.scoreId == Some(answer.scoreId)
                  && (answer.report.reviewStatus.Some? ==> s'.shown.reviewStatus == answer.report.reviewStatus)
                  && (answer.report.percentile.Some? ==> s'.shown.percentile == answer.report.percentile)
                  && (answer.report.previousBest.Some? ==> s'.shown.previousBest == answer.report.previousBest)
                  && (answer.report.newBadges.Some? ==> s'.shown.newBadges == answer.report.newBadges.value)
                  && (answer.report.collectedCount.Some? ==> s'.shown.collectedCount == answer.report.collectedCount.value))
            && (answer.Rejected? || !current || !s.mounted ==> s'.shown == s.shown)
            && (s'.playConversionSent <==> s.playConversionSent || (answer.Accepted? && current && r.trackPlay))
            && (if answer.Rejected? && current && s.mounted then s'.submitError == Some(answer.message) else s'.submitError == s.submitError)
            && s'.requests[i].phase.Answered?
  {
  }

  /** Mounted exactly if the last of the mount changes was a mount. */
  lemma {:induction false} MountedIff(es: seq<Event>)
    ensures Run(START, es).mounted <==> exists k :: 0 <= k < |es| && es[k].Mount? && forall j :: k < j < |es| ==> !es[j].Unmount?
    decreases |es|
  {
    if es != [] {
      var n := |es| - 1;
      RunLast(START, es);
      MountedIff(es[..n]);
      KeepsMounted(Run(START, es[..n]), es[n]);
      if k :| 0 <= k < |es[..n]| && es[..n][k].Mount? && forall j :: k < j < |es[..n]| ==> !es[..n][j].Unmount? {
        assert es[k].Mount? && forall j :: k < j < n ==> es[..n][j] == es[j];
      }
      if k :| 0 <= k < n && es[k].Mount? && forall j :: k < j < |es| ==> !es[j].Unmount? {
        assert es[..n][k].Mount? && forall j :: k < j < n ==> es[..n][j] == es[j];
      }
    }
  }

  lemma KeepsMounted(s: State, e: Event)
    ensures Step(s, e).mounted <==> e.Mount? || (s.mounted && !e.Unmount?)
  {
  }

  /** As long as a request of the current game is open, the component shows that it is submitting. */
  lemma {:induction false} BusyWhileOpen(es: seq<Event>)
    ensures var s := Run(START, es);
            s.submission.Some? && HasOpen(s, s.submission.value.id) ==> s.submitting
    decreases |es|
  {
    RunKeepsInv(START, WATCH_START, es);
    BusyRun(es);
  }

  lemma {:induction false} BusyRun(es: seq<Event>)
    ensures Run(START, es).inFlight.Some? ==> Run(START, es).submitting
    decreases |es|
  {
    if es != [] {
      RunLast(START, es);
      BusyRun(es[..|es| - 1]);
      BusyStep(Run(START, es[..|es| - 1]), es[|es| - 1]);
    }
  }

  lemma BusyStep(s: State, e: Event)
    requires s.inFlight.Some? ==> s.submitting
    ensures Step(s, e).inFlight.Some? ==> Step(s, e).submitting
  {
  }

  /** A score that the render has already seen is never submitted again for the same game. */
  lemma SeenScoreStopsSending(s: State, p: Rendered, trackPlay: bool)
    requires p.scoreId.Some? && Step(s, Render(p, trackPlay)).requests != s.requests
    ensures s.mounted && Submittable(p) && NewGame(s, p.startedAt.value)
  {
  }

  // ---------------------------------------------------------------- results, repetitions and timers over runs

  lemma {:induction false} RunLast(s: State, es: seq<Event>)
    requires es != []
    ensures Run(s, es) == Step(Run(s, es[..|es| - 1]), es[|es| - 1])
    decreases |es|
  {
    var n := |es| - 1;
    if n == 0 {
      assert es[..0] == [] && es[1..] == [];
    } else {
      RunLast(Step(s, es[0]), es[1..]);
      assert es[..n][1..] == es[1..][..n - 1];
    }
  }

  /** Requests are only added; their ids and attempts stay, and none waits again. */
  predicate Extends(s: State, s': State) {
    && |s.requests| <= |s'.requests|
    && forall i: nat :: i < |s.requests| ==> SameRequest(s.requests[i], s'.requests[i])
  }

  predicate SameRequest(r: Request, r': Request) {
    r'.id == r.id && r'.attempt == r.attempt && (r'.phase.Waiting? ==> r.phase.Waiting?)
  }

  lemma StepExtends(s: State, e: Event)
    ensures Extends(s, Step(s, e))
    ensures Step(s, e).submission != s.submission ==> Step(s, e).shown == NOTHING_SHOWN
  {
    if e.Render? && s.mounted && Submittable(e.p) {
      RenderExtends(s, e.p, e.trackPlay);
    } else {
      QuietExtends(s, e);
    }
  }

  lemma RenderExtends(s: State, p: Rendered, trackPlay: bool)
    requires Submittable(p)
    ensures var s' := Rendering(s, p, trackPlay);
            s'.requests == s.requests || s'.requests == s.requests + [s'.requests[|s.requests|]]
    ensures Rendering(s, p, trackPlay).submission != s.submission ==> Rendering(s, p, trackPlay).shown == NOTHING_SHOWN
  {
  }

  lemma QuietExtends(s: State, e: Event)
    requires NoSubmission(s, e)
    ensures Extends(s, Step(s, e)) && Step(s, e).submission == s.submission
  {
  }

  /** The n-th event is the accepted reply to a request of the game that s shows. */
  predicate AcceptedForShown(s: State, es: seq<Event>, n: nat)
    requires n < |es|
  {
    && es[n].Reply? && es[n].answer.Accepted? && s.shown.scoreId == Some(es[n].answer.scoreId)
    && es[n].request < |s.requests| && Current(s, s.requests[es[n].request].id)
  }

  /** In every run, the score that is shown was accepted for the very game that is being shown. */
  lemma {:induction false} ShownIsOfCurrentGame(es: seq<Event>)
    ensures Run(START, es).shown.scoreId.Some? ==> exists n: nat :: n < |es| && AcceptedForShown(Run(START, es), es, n)
    decreases |es|
  {
    if es != [] {
      var k := |es| - 1;
      var s, e := Run(START, es[..k]), es[k];
      RunLast(START, es);
      StepExtends(s, e);
      ShownIsOfCurrentGame(es[..k]);
      var s' := Step(s, e);
      if s'.shown.scoreId.Some? {
        if s'.shown != s.shown {
          ShownOnlyByCurrent(s, e);
          assert SameRequest(s.requests[e.request], s'.requests[e.request]);
          SubmissionStays(s, e);
          assert AcceptedForShown(s', es, k);
        } else {
          var n: nat :| n < k && AcceptedForShown(s, es[..k], n);
          assert SameRequest(s.requests[es[n].request], s'.requests[es[n].request]);
          assert AcceptedForShown(s', es, n);
        }
      }
    }
  }

  lemma SubmissionStays(s: State, e: Event)
    requires Step(s, e).shown.scoreId.Some?
    ensures Step(s, e).submission == s.submission
  {
    StepExtends(s, e);
  }

  /** A render of the game with this id, which is the current one, and of no new game. */
  predicate RendersGame(s: State, e: Event, id: nat) {
    e.Render? && s.mounted && Submittable(e.p) && Current(s, id) && !NewGame(s, e.p.startedAt.value)
  }

  /** From here on every render of this game has seen its score; the renders of other games may see what they like. */
  predicate ScoreSeen(s: State, es: seq<Event>, id: nat)
    decreases |es|
  {
    es != [] ==> (RendersGame(s, es[0], id) ==> es[0].p.scoreId.Some?) && ScoreSeen(Step(s, es[0]), es[1..], id)
  }

  predicate NoRequestFrom(s: State, base: nat, id: nat) {
    forall i: nat :: base <= i < |s.requests| ==> s.requests[i].id != id
  }

  lemma StepIdsGrow(s: State, e: Event)
    ensures Step(s, e).nextId >= s.nextId
  {
    if e.Render? && s.mounted && Submittable(e.p) {
    } else {
      QuietRequests(s, e);
    }
  }

  lemma SeenStepSendsOthers(s: State, e: Event, id: nat, i: nat)
    requires id < s.nextId && (RendersGame(s, e, id) ==> e.p.scoreId.Some?)
    requires |s.requests| <= i < |Step(s, e).requests|
    ensures Step(s, e).requests[i].id != id
  {
    if NoSubmission(s, e) {
      QuietRequests(s, e);
    } else {
      RenderExtends(s, e.p, e.trackPlay);
    }
  }

  /**
   Once a render of a game has seen the score, no further request of any run carries the id of
   that game, whatever new games begin in between.
   */
  lemma {:induction false} SeenScoreEndsGame(s: State, es: seq<Event>, base: nat, id: nat)
    requires id < s.nextId && ScoreSeen(s, es, id) && base <= |s.requests| && NoRequestFrom(s, base, id)
    ensures base <= |Run(s, es).requests| && NoRequestFrom(Run(s, es), base, id)
    decreases |es|
  {
    if es != [] {
      var s' := Step(s, es[0]);
      StepExtends(s, es[0]);
      StepIdsGrow(s, es[0]);
      forall i: nat | base <= i < |s'.requests|
        ensures s'.requests[i].id != id
      {
        if i < |s.requests| {
          assert SameRequest(s.requests[i], s'.requests[i]);
        } else {
          SeenStepSendsOthers(s, es[0], id, i);
        }
      }
      SeenScoreEndsGame(s', es[1..], base, id);
    }
  }

  /** A timer waits for another attempt after a failed one: one, two or four seconds, never after the fourth. */
  ghost predicate TimerOk(s: State, t: Timer) {
    exists i: nat :: i < |s.requests| && s.requests[i].id == t.id && !s.requests[i].phase.Waiting?
                     && RetryDelayMs(s.requests[i].attempt) == Some(t.delayMs)
  }

  ghost predicate TimersOk(s: State) {
    forall k :: 0 <= k < |s.timers| ==> TimerOk(s, s.timers[k])
  }

  lemma TimerStaysOk(s: State, s': State, t: Timer, t': Timer)
    requires TimerOk(s, t) && Extends(s, s') && t'.id == t.id && t'.delayMs == t.delayMs
    ensures TimerOk(s', t')
  {
    var i: nat :| i < |s.requests| && s.requests[i].id == t.id && !s.requests[i].phase.Waiting?
                  && RetryDelayMs(s.requests[i].attempt) == Some(t.delayMs);
    assert SameRequest(s.requests[i], s'.requests[i]);
  }

  /** The same timers up to which of them are still running. */
  predicate SameTimers(s: State, s': State) {
    && |s'.timers| == |s.timers|
    && forall k :: 0 <= k < |s.timers| ==> s'.timers[k].id == s.timers[k].id && s'.timers[k].delayMs == s.timers[k].delayMs
  }

  lemma RenderKeepsTimers(s: State, p: Rendered, trackPlay: bool)
    ensures SameTimers(s, Rendering(s, p, trackPlay))
  {
  }

  lemma OtherKeepsTimers(s: State, e: Event)
    requires !e.Reply? && !e.Render?
    ensures SameTimers(s, Step(s, e))
  {
  }

  /** Only a failure adds a timer: one, for its own attempt. */
  lemma ReplyTimers(s: State, i: nat, answer: Answer)
    requires i < |s.requests|
    ensures var s' := Replied(s, i, answer);
            s'.timers == s.timers
            || exists t: Timer ::
                 && s'.timers == s.timers + [t] && t.id == s.requests[i].id
                 && RetryDelayMs(s.requests[i].attempt) == Some(t.delayMs)
                 && s'.requests[i] == s.requests[i].(phase := Answered)
  {
    var s' := Replied(s, i, answer);
    if s'.timers != s.timers {
      assert s'.timers == s.timers + [s'.timers[|s.timers|]];
    }
  }

  lemma StepTimers(s: State, e: Event, k: nat)
    requires k < |Step(s, e).timers|
    ensures if k < |s.timers| then Step(s, e).timers[k].id == s.timers[k].id && Step(s, e).timers[k].delayMs == s.timers[k].delayMs
            else e.Reply? && e.request < |s.requests|
                 && Step(s, e).timers[k].id == s.requests[e.request].id
                 && RetryDelayMs(s.requests[e.request].attempt) == Some(Step(s, e).timers[k].delayMs)
                 && Step(s, e).requests[e.request] == s.requests[e.request].(phase := Answered)
  {
    if e.Reply? {
      if e.request < |s.requests| {
        ReplyTimers(s, e.request, e.answer);
      }
    } else if e.Render? {
      RenderKeepsTimers(s, e.p, e.trackPlay);
    } else {
      OtherKeepsTimers(s, e);
    }
  }

  lemma StepKeepsTimersOk(s: State, e: Event)
    requires TimersOk(s)
    ensures TimersOk(Step(s, e))
  {
    StepExtends(s, e);
    var s' := Step(s, e);
    forall k: nat | k < |s'.timers|
      ensures TimerOk(s', s'.timers[k])
    {
      StepTimers(s, e, k);
      if k < |s.timers| {
        TimerStaysOk(s, s', s.timers[k], s'.timers[k]);
      } else {
        assert s'.requests[e.request].id == s'.timers[k].id;
      }
    }
  }

  /** In every run each retry timer belongs to an attempt that has failed, with the wait of that attempt. */
  lemma {:induction false} RunKeepsTimersOk(s: State, es: seq<Event>)
    requires TimersOk(s)
    ensures TimersOk(Run(s, es))
    decreases |es|
  {
    if es != [] {
      StepKeepsTimersOk(s, es[0]);
      RunKeepsTimersOk(Step(s, es[0]), es[1..]);
    }
  }

  lemma StepKeepsOld(s: State, v: Watch, e: Event, id: nat)
    requires GameTracked(s, v) && id < s.nextId && !Current(s, id)
    ensures id < Step(s, e).nextId && !Current(Step(s, e), id)
  {
    if NoSubmission(s, e) {
      QuietFacts(s, v, e);
    } else {
      RenderKeepsOld(s, e.p, e.trackPlay, id);
    }
  }

  lemma RenderKeepsOld(s: State, p: Rendered, trackPlay: bool, id: nat)
    requires Submittable(p) && id < s.nextId && !Current(s, id)
    ensures id < Rendering(s, p, trackPlay).nextId && !Current(Rendering(s, p, trackPlay), id)
  {
  }

  /** The reply of an earlier game never shows in a later one, however late it comes. */
  lemma {:induction false} OldRepliesStayOld(s: State, v: Watch, es: seq<Event>, id: nat)
    requires Inv(s, v) && id < s.nextId && !Current(s, id)
    ensures id < Run(s, es).nextId && !Current(Run(s, es), id)
    decreases |es|
  {
    if es != [] {
      StepKeepsInv(s, v, es[0]);
      StepKeepsOld(s, v, es[0], id);
      OldRepliesStayOld(Step(s, es[0]), Observe(v, s, es[0]), es[1..], id);
    }
  }

  // ---------------------------------------------------------------- the hook

  class Hook {
    var submission: Option<Identity>
    var wasOpen: bool
    var mounted: bool
    var inFlight: Option<nat>
    var attempts: nat
    var retryTimer: Option<nat>
    var shown: Shown
    var submitting: bool
    var submitError: Option<string>
    var retryToken: nat
    var playConversionSent: bool
    var requests: seq<Request>
    var timers: seq<Timer>
    var nextId: nat

    ghost function View(): State
      reads this
    {
      State(submission, wasOpen, mounted, inFlight, attempts, retryTimer, shown, submitting, submitError,
            retryToken, playConversionSent, requests, timers, nextId)
    }

    constructor ()
      ensures View() == START
    {
      submission, wasOpen, mounted, inFlight, attempts, retryTimer := None, false, false, None, 0, None;
      shown, submitting, submitError, retryToken, playConversionSent := NOTHING_SHOWN, false, None, 0, false;
      requests, timers, nextId := [], [], 0;
    }

    method ClearRetryTimer()
      modifies this
      ensures View() == WithoutTimer(old(View()))
    {
      if retryTimer.Some? {
        if retryTimer.value < |timers| {
          timers := timers[retryTimer.value := timers[retryTimer.value].(live := false)];
        }
        retryTimer := None;
      }
    }

    method RetrySubmission()
      modifies this
      ensures View() == Retried(old(View()))
    {
      if !mounted {
        return;
      }
      ClearRetryTimer();
      attempts := 0;
      submitError := None;
      retryToken := retryToken + 1;
    }

    method SetMounted(value: bool)
      modifies this
      ensures View() == if value then old(View()).(mounted := true) else WithoutTimer(old(View())).(mounted := false)
    {
      mounted := value;
      if !value {
        ClearRetryTimer();
      }
    }

    method SubmissionEffect(p: Rendered, trackPlay: bool)
      modifies this
      ensures View() == Rendering(old(View()), p, trackPlay)
    {
      if !p.open {
        wasOpen := false;
        ClearRetryTimer();
        return;
      }
      if p.score <= 0 {
        return;
      }
      var durationMs := ElapsedMs(p.startedAt, p.endedAt);
      if durationMs <= 0.0 {
        return;
      }
      var startedAt := p.startedAt.value;
      var openedNewResult := !wasOpen;
      wasOpen := true;
      var isNewGame := openedNewResult || submission.None? || submission.value.startedAt != startedAt;
      if isNewGame {
        StartGame(startedAt, openedNewResult);
      }
      var id := submission.value.id;
      if (!isNewGame && p.scoreId.Some?) || inFlight == Some(id) || attempts >= MAX_AUTO_ATTEMPTS {
        return;
      }
      Send(id, p, durationMs, trackPlay);
    }

    method StartGame(startedAt: real, openedNewResult: bool)
      requires wasOpen && (openedNewResult || submission.None? || submission.value.startedAt != startedAt)
      modifies this
      ensures View() == GameStarted(old(View()), startedAt)
    {
      ClearRetryTimer();
      var identity := IdentityForGame(startedAt, openedNewResult);
      submission := Some(identity);
      attempts := 0;
      inFlight := None;
      shown, submitting, submitError := NOTHING_SHOWN, false, None;
    }

    method Send(id: nat, p: Rendered, durationMs: real, trackPlay: bool)
      requires submission.Some? && submission.value.id == id && durationMs == ElapsedMs(p.startedAt, p.endedAt)
      modifies this
      ensures View() == Sent(old(View()), p, trackPlay)
    {
      var attempt := attempts + 1;
      attempts := attempt;
      inFlight := Some(id);
      submitting := true;
      submitError := None;
      requests := requests + [Request(id, attempt, p.score, durationMs, trackPlay, Waiting)];
    }

    /** The stored identity for an unchanged start time, unless a new one is forced. */
    method IdentityForGame(startedAt: real, forceNew: bool) returns (identity: Identity)
      modifies this`nextId
      ensures if !forceNew && submission.Some? && submission.value.startedAt == startedAt
              then identity == submission.value && nextId == old(nextId)
              else identity == Identity(startedAt, old(nextId)) && nextId == old(nextId) + 1
    {
      if !forceNew && submission.Some? && submission.value.startedAt == startedAt {
        return submission.value;
      }
      identity := Identity(startedAt, nextId);
      nextId := nextId + 1;
    }

    method OnReply(i: nat, answer: Answer)
      requires i < |requests|
      modifies this
      ensures View() == Replied(old(View()), i, answer)
    {
      var r := requests[i];
      requests := requests[i := r.(phase := Answered)];
      if submission.None? || submission.value.id != r.id {
        return;
      }
      match answer
      case Accepted(scoreId, report) =>
        if r.trackPlay {
          playConversionSent := true;
        }
        if !mounted {
          return;
        }
        shown := ShowReport(shown, scoreId, report);
      case Rejected(message) =>
        if !mounted {
          return;
        }
        submitError := Some(message);
        if RetryDelayMs(r.attempt).Some? {
          retryTimer := Some(|timers|);
          timers := timers + [Timer(r.id, RetryDelayMs(r.attempt).value, true)];
        }
    }

    method OnSettle(i: nat)
      requires i < |requests|
      modifies this
      ensures View() == Settled(old(View()), i)
    {
      var id := requests[i].id;
      requests := requests[i := requests[i].(phase := Done)];
      if inFlight == Some(id) {
        inFlight := None;
        if mounted && submission.Some? && submission.value.id == id {
          submitting := false;
        }
      }
    }

    method OnTimer(t: nat)
      requires t < |timers|
      modifies this
      ensures View() == Fired(old(View()), t)
    {
      var id := timers[t].id;
      timers := timers[t := timers[t].(live := false)];
      retryTimer := None;
      if mounted && submission.Some? && submission.value.id == id {
        retryToken := retryToken + 1;
      }
    }

    method Handle(events: seq<Event>)
      modifies this
      ensures View() == Run(old(View()), events)
    {
      var n := 0;
      while n < |events|
        invariant 0 <= n <= |events| && Run(View(), events[n..]) == Run(old(View()), events)
      {
        assert events[n..][0] == events[n] && events[n..][1..] == events[n + 1..];
        match events[n] {
          case Render(p, trackPlay) => if mounted { SubmissionEffect(p, trackPlay); }
          case Fire(t) => if t < |timers| && timers[t].live { OnTimer(t); }
          case Reply(i, answer) => if i < |requests| && requests[i].phase.Waiting? { OnReply(i, answer); }
          case Settle(i) => if i < |requests| && requests[i].phase.Answered? { OnSettle(i); }
          case Retry => RetrySubmission();
          case Mount => SetMounted(true);
          case Unmount => SetMounted(false);
        }
        n := n + 1;
      }
    }
  }
}
