/**
 Visit and share tracking in one tab.  First the meaning of every event and what every run
 keeps, then the tracker with its module variables and storage, proved against it.
 */
module Acquisition {
  import opened Wrappers

  const TTL_MS: int := 7776000000

  /** `id` numbers the records in the order of their creation; it stands for the record itself. */
  datatype FirstTouch = FirstTouch(id: nat, source: string, capturedAt: int, referrer: string, visitSent: bool, playSent: bool)

  datatype Payload =
    | Visit(firstTouch: bool, landing: string, source: string, referrer: string)
    | Share(surface: string, target: string, tier: Option<int>)

  /** What happens once the event was really handed over. */
  datatype OnSent = MarkCurrent | MarkFirstTouch(ft: FirstTouch) | Nothing

  /** The key that keeps a second event of its kind out of the queue is that of its mark. */
  datatype Queued = Queued(payload: Payload, onSent: OnSent)

  /** What sending touches: the clock, the marks in storage, and the log of this page. */
  datatype Mail = Mail(now: int, sessionWorks: bool, currentTracked: bool, stored: Option<FirstTouch>, nextId: nat,
                       outcomes: seq<bool>, attempts: nat, sent: seq<Queued>)

  datatype State = State(
    bot: bool, mail: Mail, queue: seq<Queued>, armed: bool, listening: bool, interacted: bool, touched: bool,
    lastShareAt: map<(string, string), int>, onceKeys: set<string>)

  datatype Event =
    | TrackVisit(landing: string, source: string, referrer: string)
    | TrackShare(surface: string, target: string, tier: Option<int>, onceKey: Option<string>)
    | Conversion(source: string, referrer: string)
    | PlayConverted(source: string, referrer: string)
    | Interact
    | Pass(ms: nat)

  // ---------------------------------------------------------------- first touch

  /** The stored record unless it is older than 90 days. */
  function FirstTouchNow(m: Mail): Option<FirstTouch> {
    if m.stored.None? || m.now - m.stored.value.capturedAt > TTL_MS then None else m.stored
  }

  function Ensured(m: Mail, source: string, referrer: string): Mail {
    if FirstTouchNow(m).Some? then m
    else m.(stored := Some(FirstTouch(m.nextId, source, m.now, referrer, false, false)), nextId := m.nextId + 1)
  }

  // ---------------------------------------------------------------- sending

  function Marked(m: Mail, e: Queued): Mail {
    match e.onSent
    case MarkCurrent => m.(currentTracked := m.currentTracked || m.sessionWorks)
    case MarkFirstTouch(ft) =>
      var current := if FirstTouchNow(m).Some? then FirstTouchNow(m).value else ft;
      m.(stored := Some(current.(visitSent := true)))
    case Nothing => m
  }

  function Attempted(m: Mail): Mail {
    m.(attempts := m.attempts + 1, outcomes := if m.outcomes == [] then [] else m.outcomes[1..])
  }

  function Logged(m: Mail, e: Queued): Mail {
    m.(sent := m.sent + [e])
  }

  predicate Succeeds(m: Mail) {
    m.outcomes == [] || m.outcomes[0]
  }

  function Dispatched(m: Mail, e: Queued): Mail {
    if Succeeds(m) then Marked(Logged(Attempted(m), e), e) else Attempted(m)
  }

  function DispatchedAll(m: Mail, es: seq<Queued>): Mail
    decreases |es|
  {
    if es == [] then m else DispatchedAll(Dispatched(m, es[0]), es[1..])
  }

  predicate SameKey(a: Queued, b: Queued) {
    (a.onSent.MarkCurrent? && b.onSent.MarkCurrent?) || (a.onSent.MarkFirstTouch? && b.onSent.MarkFirstTouch?)
  }

  predicate Waiting(queue: seq<Queued>, e: Queued) {
    exists i :: 0 <= i < |queue| && SameKey(queue[i], e)
  }

  predicate HasInteracted(s: State) {
    s.mail.sessionWorks && s.interacted
  }

  /** Bots send nothing; before the first interaction events wait, a keyed one at most once. */
  function Gated(s: State, e: Queued): State {
    if s.bot then s
    else if HasInteracted(s) then s.(mail := Dispatched(s.mail, e))
    else if Waiting(s.queue, e) then s
    else s.(queue := s.queue + [e], armed := true, listening := s.listening || !s.armed)
  }

  function FirstInteraction(s: State): State {
    if !s.listening then s.(touched := true)
    else s.(touched := true, listening := false, interacted := s.interacted || s.mail.sessionWorks, queue := [],
            mail := DispatchedAll(s.mail, s.queue))
  }

  function CurrentVisit(s: State, landing: string, source: string, referrer: string): State {
    if !s.mail.sessionWorks || s.mail.currentTracked then s
    else Gated(s, Queued(Visit(false, landing, source, referrer), MarkCurrent))
  }

  function FirstTouchVisit(s: State, landing: string, source: string, referrer: string): State {
    var s' := s.(mail := Ensured(s.mail, source, referrer));
    var ft := s'.mail.stored.value;
    if ft.visitSent then s'
    else Gated(s', Queued(Visit(true, landing, ft.source, ft.referrer), MarkFirstTouch(ft)))
  }

  function ShareEvent(surface: string, target: string, tier: Option<int>): Queued {
    Queued(Share(surface, target, if target == "score" then tier else None), Nothing)
  }

  function Shared(s: State, surface: string, target: string, tier: Option<int>, onceKey: Option<string>): State {
    var e := ShareEvent(surface, target, tier);
    if onceKey.Some? then
      if !s.mail.sessionWorks then Gated(s, e)
      else if onceKey.value in s.onceKeys then s
      else Gated(s.(onceKeys := s.onceKeys + {onceKey.value}), e)
    else
      var dk := (surface, target);
      if dk in s.lastShareAt && s.lastShareAt[dk] != 0 && s.mail.now - s.lastShareAt[dk] < 3000 then s
      else Gated(s.(lastShareAt := s.lastShareAt[dk := s.mail.now]), e)
  }

  function PlayMarked(m: Mail): Mail
    requires m.stored.Some?
  {
    m.(stored := Some(m.stored.value.(playSent := true)))
  }

  function Step(s: State, e: Event): State {
    match e
    case TrackVisit(landing, source, referrer) =>
      FirstTouchVisit(CurrentVisit(s, landing, source, referrer), landing, source, referrer)
    case TrackShare(surface, target, tier, onceKey) => Shared(s, surface, target, tier, onceKey)
    case Conversion(source, referrer) => if s.bot then s else s.(mail := Ensured(s.mail, source, referrer))
    case PlayConverted(source, referrer) => s.(mail := PlayMarked(Ensured(s.mail, source, referrer)))
    case Interact => FirstInteraction(s)
    case Pass(ms) => s.(mail := s.mail.(now := s.mail.now + ms))
  }

  function Run(s: State, es: seq<Event>): State
    decreases |es|
  {
    if es == [] then s else Run(Step(s, es[0]), es[1..])
  }

  /** A page that has just loaded: nothing queued or sent by it, storage as earlier pages left it. */
  predicate Loaded(s: State) {
    && s.queue == [] && !s.armed && !s.listening && s.mail.attempts == 0 && s.mail.sent == []
    && (s.mail.stored.Some? ==> s.mail.stored.value.id < s.mail.nextId) && (s.touched <==> s.interacted)
    && (s.mail.currentTracked ==> s.mail.sessionWorks)
  }

  // ---------------------------------------------------------------- invariants

  function CountCurrent(log: seq<Queued>): nat {
    if log == [] then 0 else CountCurrent(log[..|log| - 1]) + if log[|log| - 1].onSent.MarkCurrent? then 1 else 0
  }

  predicate IsFirstTouch(e: Queued, id: nat) {
    e.onSent.MarkFirstTouch? && e.onSent.ft.id == id
  }

  function CountFirstTouch(log: seq<Queued>, id: nat): nat {
    if log == [] then 0 else CountFirstTouch(log[..|log| - 1], id) + if IsFirstTouch(log[|log| - 1], id) then 1 else 0
  }

  lemma CountsAppend(log: seq<Queued>, e: Queued, id: nat)
    ensures CountCurrent(log + [e]) == CountCurrent(log) + if e.onSent.MarkCurrent? then 1 else 0
    ensures CountFirstTouch(log + [e], id) == CountFirstTouch(log, id) + if IsFirstTouch(e, id) then 1 else 0
  {
    assert (log + [e])[..|log|] == log;
  }

  /** Nothing is sent by a bot or before the first interaction, and nothing waits after it. */
  predicate GateOk(s: State) {
    && (s.bot ==> s.mail.attempts == 0 && s.queue == [])
    && (s.mail.attempts > 0 ==> s.touched)
    && (HasInteracted(s) ==> s.queue == [] && s.touched)
    && (s.queue != [] ==> s.armed)
    && (!s.armed ==> !s.listening)
  }

  /** Events that may still be sent: one of a kind, and no visit that is already marked. */
  predicate OneOfAKind(m: Mail, list: seq<Queued>) {
    && (forall i, k :: 0 <= i < k < |list| ==> !SameKey(list[i], list[k]))
    && (forall i :: 0 <= i < |list| && list[i].onSent.MarkCurrent? ==> !m.currentTracked && m.sessionWorks)
  }

  /** The mark of the current visit is set exactly by a sent visit; `before` tells if it was set on load. */
  predicate CurrentOk(m: Mail, before: bool) {
    && (m.currentTracked ==> m.sessionWorks)
    && CountCurrent(m.sent) + (if before then 1 else 0) == if m.currentTracked then 1 else 0
  }

  predicate IdOk(m: Mail, e: Queued) {
    e.onSent.MarkFirstTouch? ==> e.onSent.ft.id < m.nextId
  }

  /** What is known of a record whose visit was sent: marked while it is stored, never waiting again. */
  predicate SentRecordOk(m: Mail, list: seq<Queued>, id: nat) {
    && id < m.nextId && (m.stored.Some? && m.stored.value.id == id ==> m.stored.value.visitSent)
    && forall i :: 0 <= i < |list| ==> !IsFirstTouch(list[i], id)
  }

  ghost predicate FirstTouchOk(m: Mail, list: seq<Queued>) {
    && (m.stored.Some? ==> m.stored.value.id < m.nextId)
    && (forall i :: 0 <= i < |list| ==> IdOk(m, list[i]))
    && (forall id: nat :: CountFirstTouch(m.sent, id) <= 1)
    && (forall id: nat :: CountFirstTouch(m.sent, id) > 0 ==> SentRecordOk(m, list, id))
  }

  /** A waiting first-touch visit is that of the stored record, or its record is older than 90 days. */
  predicate NotOvertaken(m: Mail, e: Queued) {
    e.onSent.MarkFirstTouch? ==>
      && m.stored.Some?
      && (if m.stored.value.id == e.onSent.ft.id then m.stored.value.capturedAt == e.onSent.ft.capturedAt
          else m.now - e.onSent.ft.capturedAt > TTL_MS)
  }

  predicate NoneOvertaken(m: Mail, list: seq<Queued>) {
    forall i :: 0 <= i < |list| ==> NotOvertaken(m, list[i])
  }

  ghost predicate Pending(m: Mail, list: seq<Queued>, before: bool) {
    OneOfAKind(m, list) && CurrentOk(m, before) && FirstTouchOk(m, list)
  }

  ghost predicate Inv(s: State, before: bool) {
    GateOk(s) && Pending(s.mail, s.queue, before) && NoneOvertaken(s.mail, s.queue)
  }

  lemma LoadedInv(s: State)
    requires Loaded(s)
    ensures Inv(s, s.mail.currentTracked)
  {
  }

  // ---------------------------------------------------------------- one send

  lemma DispatchFrame(m: Mail, e: Queued)
    ensures var m' := Dispatched(m, e);
            && m'.now == m.now && m'.sessionWorks == m.sessionWorks && m'.nextId == m.nextId && m'.attempts == m.attempts + 1
            && m'.sent == (if Succeeds(m) then m.sent + [e] else m.sent)
            && m'.currentTracked == (m.currentTracked || (Succeeds(m) && e.onSent.MarkCurrent? && m.sessionWorks))
            && (!Succeeds(m) || !e.onSent.MarkFirstTouch? ==> m'.stored == m.stored)
  {
  }

  lemma HeadApart(e: Queued, rest: seq<Queued>, m: Mail)
    requires OneOfAKind(m, [e] + rest)
    ensures OneOfAKind(m, rest) && (forall i :: 0 <= i < |rest| ==> !SameKey(e, rest[i]))
    ensures e.onSent.MarkCurrent? ==> !m.currentTracked && m.sessionWorks
  {
    var list := [e] + rest;
    assert list[0] == e;
    forall i | 0 <= i < |rest|
      ensures !SameKey(e, rest[i]) && list[i + 1] == rest[i]
    {
      assert !SameKey(list[0], list[i + 1]);
    }
    forall i, k | 0 <= i < k < |rest|
      ensures !SameKey(rest[i], rest[k])
    {
      assert !SameKey(list[i + 1], list[k + 1]);
    }
  }

  lemma DispatchKeepsPending(m: Mail, e: Queued, rest: seq<Queued>, before: bool)
    requires Pending(m, [e] + rest, before)
    ensures Pending(Dispatched(m, e), rest, before)
  {
    HeadApart(e, rest, m);
    DispatchFrame(m, e);
    DispatchKeepsFirstTouch(m, e, rest);
    CountsAppend(m.sent, e, 0);
  }

  lemma DispatchKeepsFirstTouch(m: Mail, e: Queued, rest: seq<Queued>)
    requires FirstTouchOk(m, [e] + rest) && forall i :: 0 <= i < |rest| ==> !SameKey(e, rest[i])
    ensures FirstTouchOk(Dispatched(m, e), rest)
  {
    var m' := Dispatched(m, e);
    var list := [e] + rest;
    DispatchFrame(m, e);
    assert list[0] == e && forall i :: 0 <= i < |rest| ==> list[i + 1] == rest[i];
    assert IdOk(m, list[0]);
    forall i | 0 <= i < |rest|
      ensures IdOk(m', rest[i])
    {
      assert IdOk(m, list[i + 1]);
    }
    forall id: nat
      ensures CountFirstTouch(m'.sent, id) <= 1
      ensures CountFirstTouch(m'.sent, id) > 0 ==> SentRecordOk(m', rest, id)
    {
      CountsAppend(m.sent, e, id);
      DispatchKeepsRecordOk(m, e, rest, id);
    }
  }

  lemma DispatchKeepsRecordOk(m: Mail, e: Queued, rest: seq<Queued>, id: nat)
    requires CountFirstTouch(m.sent, id) > 0 ==> SentRecordOk(m, [e] + rest, id)
    requires IdOk(m, e) && forall i :: 0 <= i < |rest| ==> !SameKey(e, rest[i])
    ensures CountFirstTouch(m.sent, id) > 0 ==> !IsFirstTouch(e, id)
    ensures CountFirstTouch(m.sent, id) > 0 || (Succeeds(m) && IsFirstTouch(e, id)) ==> SentRecordOk(Dispatched(m, e), rest, id)
  {
    var list := [e] + rest;
    assert list[0] == e && forall i :: 0 <= i < |rest| ==> list[i + 1] == rest[i];
  }

  lemma {:induction false} DispatchAllKeepsPending(m: Mail, list: seq<Queued>, before: bool)
    requires Pending(m, list, before)
    ensures Pending(DispatchedAll(m, list), [], before)
    decreases |list|
  {
    if list != [] {
      assert list == [list[0]] + list[1..];
      DispatchKeepsPending(m, list[0], list[1..], before);
      DispatchAllKeepsPending(Dispatched(m, list[0]), list[1..], before);
    }
  }

  lemma {:induction false} DispatchAllFrame(m: Mail, list: seq<Queued>)
    ensures var m' := DispatchedAll(m, list);
            && m'.sessionWorks == m.sessionWorks && m'.now == m.now && m'.nextId == m.nextId
            && m'.attempts == m.attempts + |list| && m.sent <= m'.sent
    decreases |list|
  {
    if list != [] {
      DispatchFrame(m, list[0]);
      DispatchAllFrame(Dispatched(m, list[0]), list[1..]);
    }
  }

  // ---------------------------------------------------------------- every event

  /** What an event that may wait or be sent has to satisfy. */
  ghost predicate Admissible(m: Mail, e: Queued, before: bool) {
    Pending(m, [e], before) && NotOvertaken(m, e)
  }

  lemma EnqueueKeepsPending(m: Mail, queue: seq<Queued>, e: Queued, before: bool)
    requires Pending(m, queue, before) && Pending(m, [e], before) && !Waiting(queue, e)
    ensures Pending(m, queue + [e], before)
  {
    var queue' := queue + [e];
    assert [e][0] == e;
    forall i, k | 0 <= i < k < |queue'|
      ensures !SameKey(queue'[i], queue'[k])
    {
      assert !SameKey(queue[i], e);
    }
    forall i | 0 <= i < |queue'|
      ensures IdOk(m, queue'[i])
    {
      assert IdOk(m, [e][0]);
    }
    forall id: nat | CountFirstTouch(m.sent, id) > 0
      ensures SentRecordOk(m, queue', id)
    {
      assert SentRecordOk(m, queue, id) && SentRecordOk(m, [e], id);
      assert !IsFirstTouch([e][0], id);
    }
  }

  lemma GatedKeepsInv(s: State, e: Queued, before: bool)
    requires Inv(s, before) && Admissible(s.mail, e, before)
    ensures Inv(Gated(s, e), before)
  {
    if s.bot {
    } else if HasInteracted(s) {
      assert [e] + [] == [e];
      DispatchKeepsPending(s.mail, e, [], before);
      DispatchFrame(s.mail, e);
    } else if !Waiting(s.queue, e) {
      EnqueueKeepsPending(s.mail, s.queue, e, before);
    }
  }

  lemma EnsureKeepsPending(m: Mail, queue: seq<Queued>, source: string, referrer: string, before: bool)
    requires Pending(m, queue, before) && NoneOvertaken(m, queue)
    ensures var m' := Ensured(m, source, referrer); Pending(m', queue, before) && NoneOvertaken(m', queue)
  {
    var m' := Ensured(m, source, referrer);
    forall i | 0 <= i < |queue|
      ensures IdOk(m', queue[i]) && NotOvertaken(m', queue[i])
    {
      assert IdOk(m, queue[i]) && NotOvertaken(m, queue[i]);
    }
    forall id: nat | CountFirstTouch(m'.sent, id) > 0
      ensures SentRecordOk(m', queue, id)
    {
      assert SentRecordOk(m, queue, id);
    }
  }

  lemma CurrentIsAdmissible(m: Mail, queue: seq<Queued>, e: Queued, before: bool)
    requires Pending(m, queue, before) && !e.onSent.MarkFirstTouch?
    requires e.onSent.MarkCurrent? ==> m.sessionWorks && !m.currentTracked
    ensures Admissible(m, e, before)
  {
    forall id: nat | CountFirstTouch(m.sent, id) > 0
      ensures SentRecordOk(m, [e], id)
    {
      assert SentRecordOk(m, queue, id);
    }
  }

  lemma FirstTouchIsAdmissible(m: Mail, queue: seq<Queued>, e: Queued, before: bool)
    requires Pending(m, queue, before) && m.stored.Some? && !m.stored.value.visitSent && e.onSent == MarkFirstTouch(m.stored.value)
    ensures Admissible(m, e, before)
  {
    forall id: nat | CountFirstTouch(m.sent, id) > 0
      ensures SentRecordOk(m, [e], id)
    {
      assert SentRecordOk(m, queue, id);
    }
  }

  lemma CurrentVisitKeepsInv(s: State, landing: string, source: string, referrer: string, before: bool)
    requires Inv(s, before)
    ensures Inv(CurrentVisit(s, landing, source, referrer), before)
  {
    if s.mail.sessionWorks && !s.mail.currentTracked {
      var e := Queued(Visit(false, landing, source, referrer), MarkCurrent);
      CurrentIsAdmissible(s.mail, s.queue, e, before);
      GatedKeepsInv(s, e, before);
    }
  }

  lemma FirstTouchVisitKeepsInv(s: State, landing: string, source: string, referrer: string, before: bool)
    requires Inv(s, before)
    ensures Inv(FirstTouchVisit(s, landing, source, referrer), before)
  {
    EnsureKeepsPending(s.mail, s.queue, source, referrer, before);
    var s' := s.(mail := Ensured(s.mail, source, referrer));
    var ft := s'.mail.stored.value;
    if !ft.visitSent {
      var e := Queued(Visit(true, landing, ft.source, ft.referrer), MarkFirstTouch(ft));
      FirstTouchIsAdmissible(s'.mail, s'.queue, e, before);
      GatedKeepsInv(s', e, before);
    }
  }

  lemma ShareKeepsInv(s: State, surface: string, target: string, tier: Option<int>, onceKey: Option<string>, before: bool)
    requires Inv(s, before)
    ensures Inv(Shared(s, surface, target, tier, onceKey), before)
  {
    var e := ShareEvent(surface, target, tier);
    CurrentIsAdmissible(s.mail, s.queue, e, before);
    GatedKeepsInv(s, e, before);
    if onceKey.Some? {
      GatedKeepsInv(s.(onceKeys := s.onceKeys + {onceKey.value}), e, before);
    } else {
      GatedKeepsInv(s.(lastShareAt := s.lastShareAt[(surface, target) := s.mail.now]), e, before);
    }
  }

  lemma InteractKeepsInv(s: State, before: bool)
    requires Inv(s, before)
    ensures Inv(FirstInteraction(s), before)
  {
    if s.listening {
      DispatchAllKeepsPending(s.mail, s.queue, before);
      DispatchAllFrame(s.mail, s.queue);
    }
  }

  lemma SameMarksKeepPending(m: Mail, m': Mail, queue: seq<Queued>, before: bool)
    requires Pending(m, queue, before) && NoneOvertaken(m, queue) && m'.now >= m.now
    requires m' == m.(now := m'.now, stored := m'.stored)
    requires m'.stored == m.stored || (m.stored.Some? && m'.stored == Some(m.stored.value.(playSent := true)))
    ensures Pending(m', queue, before) && NoneOvertaken(m', queue)
  {
    forall i | 0 <= i < |queue|
      ensures IdOk(m', queue[i]) && NotOvertaken(m', queue[i])
    {
      assert IdOk(m, queue[i]) && NotOvertaken(m, queue[i]);
    }
    forall id: nat | CountFirstTouch(m'.sent, id) > 0
      ensures SentRecordOk(m', queue, id)
    {
      assert SentRecordOk(m, queue, id);
    }
  }

  lemma OtherKeepsInv(s: State, e: Event, before: bool)
    requires Inv(s, before) && (e.Conversion? || e.PlayConverted? || e.Pass?)
    ensures Inv(Step(s, e), before)
  {
    if e.Pass? {
      SameMarksKeepPending(s.mail, Step(s, e).mail, s.queue, before);
    } else {
      var m := Ensured(s.mail, e.source, e.referrer);
      EnsureKeepsPending(s.mail, s.queue, e.source, e.referrer, before);
      if e.PlayConverted? {
        SameMarksKeepPending(m, PlayMarked(m), s.queue, before);
      }
    }
  }

  lemma StepKeepsInv(s: State, e: Event, before: bool)
    requires Inv(s, before)
    ensures Inv(Step(s, e), before)
  {
    match e
    case TrackVisit(landing, source, referrer) =>
      CurrentVisitKeepsInv(s, landing, source, referrer, before);
      FirstTouchVisitKeepsInv(CurrentVisit(s, landing, source, referrer), landing, source, referrer, before);
    case TrackShare(surface, target, tier, onceKey) => ShareKeepsInv(s, surface, target, tier, onceKey, before);
    case Interact => InteractKeepsInv(s, before);
    case _ => OtherKeepsInv(s, e, before);
  }

  lemma {:induction false} RunKeepsInv(s: State, es: seq<Event>, before: bool)
    requires Inv(s, before)
    ensures Inv(Run(s, es), before)
    decreases |es|
  {
    if es != [] {
      StepKeepsInv(s, es[0], before);
      RunKeepsInv(Step(s, es[0]), es[1..], before);
    }
  }

  // ---------------------------------------------------------------- over every run

  /**
   Over every order of events after a load: a bot sends nothing, nobody sends before the first
   interaction, a keyed visit waits at most once, the current visit is sent at most once and
   marked exactly when it was, and no record's first-touch visit is sent twice.
   */
  lemma EveryRun(s: State, es: seq<Event>)
    requires Loaded(s)
    ensures var s' := Run(s, es);
            && (s'.bot || !s'.touched ==> s'.mail.attempts == 0)
            && (forall i, k :: 0 <= i < k < |s'.queue| ==> !SameKey(s'.queue[i], s'.queue[k]))
            && CountCurrent(s'.mail.sent) + (if s.mail.currentTracked then 1 else 0) == (if s'.mail.currentTracked then 1 else 0)
            && (forall id: nat :: CountFirstTouch(s'.mail.sent, id) <= 1)
  {
    LoadedInv(s);
    RunKeepsInv(s, es, s.mail.currentTracked);
  }

  /** Two records are the same up to the two marks, which are never taken back. */
  predicate SameRecord(a: FirstTouch, b: FirstTouch) {
    && a.id == b.id && a.source == b.source && a.capturedAt == b.capturedAt && a.referrer == b.referrer
    && (a.visitSent ==> b.visitSent) && (a.playSent ==> b.playSent)
  }

  predicate Keeps(m: Mail, ft: FirstTouch) {
    m.stored.Some? && SameRecord(ft, m.stored.value)
  }

  lemma DispatchKeepsRecord(m: Mail, e: Queued, ft: FirstTouch)
    requires FirstTouchNow(m).Some? && Keeps(m, ft)
    ensures Keeps(Dispatched(m, e), ft) && Dispatched(m, e).now == m.now
  {
  }

  lemma {:induction false} DispatchAllKeepsRecord(m: Mail, list: seq<Queued>, ft: FirstTouch)
    requires FirstTouchNow(m).Some? && Keeps(m, ft)
    ensures Keeps(DispatchedAll(m, list), ft) && DispatchedAll(m, list).now == m.now
    decreases |list|
  {
    if list != [] {
      DispatchKeepsRecord(m, list[0], ft);
      DispatchAllKeepsRecord(Dispatched(m, list[0]), list[1..], ft);
    }
  }

  lemma GatedKeepsRecord(s: State, e: Queued, ft: FirstTouch)
    requires FirstTouchNow(s.mail).Some? && Keeps(s.mail, ft)
    ensures Keeps(Gated(s, e).mail, ft) && Gated(s, e).mail.now == s.mail.now
  {
    DispatchKeepsRecord(s.mail, e, ft);
  }

  lemma VisitKeepsRecord(s: State, landing: string, source: string, referrer: string, ft: FirstTouch)
    requires FirstTouchNow(s.mail).Some? && Keeps(s.mail, ft)
    ensures Keeps(Step(s, TrackVisit(landing, source, referrer)).mail, ft)
  {
    GatedKeepsRecord(s, Queued(Visit(false, landing, source, referrer), MarkCurrent), ft);
    var s1 := CurrentVisit(s, landing, source, referrer);
    var r := s1.mail.stored.value;
    GatedKeepsRecord(s1, Queued(Visit(true, landing, r.source, r.referrer), MarkFirstTouch(r)), ft);
  }

  lemma ShareKeepsRecord(s: State, surface: string, target: string, tier: Option<int>, onceKey: Option<string>, ft: FirstTouch)
    requires FirstTouchNow(s.mail).Some? && Keeps(s.mail, ft)
    ensures Keeps(Shared(s, surface, target, tier, onceKey).mail, ft)
  {
    var e := ShareEvent(surface, target, tier);
    GatedKeepsRecord(s, e, ft);
    if onceKey.Some? {
      GatedKeepsRecord(s.(onceKeys := s.onceKeys + {onceKey.value}), e, ft);
    } else {
      GatedKeepsRecord(s.(lastShareAt := s.lastShareAt[(surface, target) := s.mail.now]), e, ft);
    }
  }

  lemma StepKeepsRecord(s: State, e: Event, ft: FirstTouch)
    requires FirstTouchNow(s.mail).Some? && Keeps(s.mail, ft)
    ensures Keeps(Step(s, e).mail, ft)
  {
    match e
    case TrackVisit(landing, source, referrer) => VisitKeepsRecord(s, landing, source, referrer, ft);
    case TrackShare(surface, target, tier, onceKey) => ShareKeepsRecord(s, surface, target, tier, onceKey, ft);
    case Interact => DispatchAllKeepsRecord(s.mail, s.queue, ft);
    case _ =>
  }

  lemma GatedTime(s: State, e: Queued)
    ensures Gated(s, e).mail.now == s.mail.now
  {
    DispatchFrame(s.mail, e);
  }

  lemma StepTime(s: State, e: Event)
    ensures Step(s, e).mail.now >= s.mail.now
  {
    match e
    case TrackVisit(landing, source, referrer) => VisitTime(s, landing, source, referrer);
    case TrackShare(surface, target, tier, onceKey) => ShareTime(s, surface, target, tier, onceKey);
    case Interact => DispatchAllFrame(s.mail, s.queue);
    case _ =>
  }

  lemma VisitTime(s: State, landing: string, source: string, referrer: string)
    ensures Step(s, TrackVisit(landing, source, referrer)).mail.now == s.mail.now
  {
    GatedTime(s, Queued(Visit(false, landing, source, referrer), MarkCurrent));
    var s1 := CurrentVisit(s, landing, source, referrer);
    var s2 := s1.(mail := Ensured(s1.mail, source, referrer));
    var ft := s2.mail.stored.value;
    GatedTime(s2, Queued(Visit(true, landing, ft.source, ft.referrer), MarkFirstTouch(ft)));
  }

  lemma ShareTime(s: State, surface: string, target: string, tier: Option<int>, onceKey: Option<string>)
    ensures Shared(s, surface, target, tier, onceKey).mail.now == s.mail.now
  {
    var e := ShareEvent(surface, target, tier);
    GatedTime(s, e);
    if onceKey.Some? {
      GatedTime(s.(onceKeys := s.onceKeys + {onceKey.value}), e);
    } else {
      GatedTime(s.(lastShareAt := s.lastShareAt[(surface, target) := s.mail.now]), e);
    }
  }

  lemma {:induction false} TimeMoves(s: State, es: seq<Event>)
    ensures Run(s, es).mail.now >= s.mail.now
    decreases |es|
  {
    if es != [] {
      StepTime(s, es[0]);
      TimeMoves(Step(s, es[0]), es[1..]);
    }
  }

  /** The first-touch source, once captured, does not change for 90 days, whatever happens. */
  lemma {:induction false} SourceFixedFor90Days(s: State, es: seq<Event>, ft: FirstTouch)
    requires Keeps(s.mail, ft) && Run(s, es).mail.now - ft.capturedAt <= TTL_MS
    ensures Keeps(Run(s, es).mail, ft)
    decreases |es|
  {
    if es != [] {
      TimeMoves(s, es);
      StepKeepsRecord(s, es[0], ft);
      SourceFixedFor90Days(Step(s, es[0]), es[1..], ft);
    }
  }

  // ---------------------------------------------------------------- whose visit a mark stands for

  predicate Unmarked(m: Mail, id: nat) {
    m.stored.Some? && m.stored.value.id == id && !m.stored.value.visitSent
  }

  predicate MarkedNow(m: Mail, id: nat) {
    m.stored.Some? && m.stored.value.id == id && m.stored.value.visitSent
  }

  /** A first-touch visit of this very record was sent. */
  predicate SentOwn(log: seq<Queued>, id: nat) {
    exists i :: 0 <= i < |log| && IsFirstTouch(log[i], id)
  }

  /** The visit of another record that has become older than 90 days. */
  predicate Overtaken(m: Mail, id: nat, e: Queued) {
    e.onSent.MarkFirstTouch? && e.onSent.ft.id != id && m.now - e.onSent.ft.capturedAt > TTL_MS
  }

  predicate SentOvertaken(m: Mail, id: nat, log: seq<Queued>) {
    exists i :: 0 <= i < |log| && Overtaken(m, id, log[i])
  }

  /** What sending these events in order hands over. */
  function HandedOver(m: Mail, list: seq<Queued>): seq<Queued>
    decreases |list|
  {
    if list == [] then []
    else (if Succeeds(m) then [list[0]] else []) + HandedOver(Dispatched(m, list[0]), list[1..])
  }

  lemma {:induction false} HandedOverIsLogged(m: Mail, list: seq<Queued>)
    ensures DispatchedAll(m, list).sent == m.sent + HandedOver(m, list)
    ensures forall x :: x in HandedOver(m, list) ==> x in list
    decreases |list|
  {
    if list != [] {
      DispatchFrame(m, list[0]);
      HandedOverIsLogged(Dispatched(m, list[0]), list[1..]);
      assert list == [list[0]] + list[1..];
    }
  }

  predicate NoFirstTouch(list: seq<Queued>) {
    forall i :: 0 <= i < |list| ==> !list[i].onSent.MarkFirstTouch?
  }

  lemma {:induction false} OthersLeaveRecord(m: Mail, list: seq<Queued>)
    requires NoFirstTouch(list)
    ensures DispatchedAll(m, list).stored == m.stored && NoFirstTouch(HandedOver(m, list))
    decreases |list|
  {
    if list != [] {
      DispatchFrame(m, list[0]);
      OthersLeaveRecord(Dispatched(m, list[0]), list[1..]);
    }
  }

  /** What a sent first-touch visit does to the stored record. */
  lemma FirstTouchSent(m: Mail, e: Queued, id: nat)
    requires Succeeds(m) && e.onSent.MarkFirstTouch? && NotOvertaken(m, e)
    ensures Unmarked(m, id) ==> (MarkedNow(Dispatched(m, e), id) <==> IsFirstTouch(e, id) || FirstTouchNow(m).Some?)
    ensures Unmarked(m, id) ==> IsFirstTouch(e, id) || Overtaken(m, id, e)
    ensures Dispatched(m, e).stored.Some? && Dispatched(m, e).stored.value.visitSent
    ensures Dispatched(m, e).stored.value.id == if FirstTouchNow(m).Some? then m.stored.value.id else e.onSent.ft.id
  {
  }

  lemma SentSplit(e: Queued, rest: seq<Queued>, m: Mail, id: nat)
    ensures SentOwn([e] + rest, id) <==> IsFirstTouch(e, id) || SentOwn(rest, id)
    ensures SentOvertaken(m, id, [e] + rest) <==> Overtaken(m, id, e) || SentOvertaken(m, id, rest)
  {
    var log := [e] + rest;
    assert log[0] == e && forall i :: 0 <= i < |rest| ==> log[i + 1] == rest[i];
    if SentOwn(rest, id) {
      var i :| 0 <= i < |rest| && IsFirstTouch(rest[i], id);
      assert IsFirstTouch(log[i + 1], id);
    }
    if SentOvertaken(m, id, rest) {
      var i :| 0 <= i < |rest| && Overtaken(m, id, rest[i]);
      assert Overtaken(m, id, log[i + 1]);
    }
  }

  lemma SameMailSameOvertaken(m: Mail, m': Mail, id: nat, log: seq<Queued>)
    requires m'.now == m.now
    ensures SentOvertaken(m', id, log) <==> SentOvertaken(m, id, log)
  {
    assert forall i :: 0 <= i < |log| ==> (Overtaken(m', id, log[i]) <==> Overtaken(m, id, log[i]));
  }

  /** A flush marks a record exactly by its own visit, or by an overtaken one while it is not old itself. */
  lemma {:induction false} FlushMarksIff(m: Mail, list: seq<Queued>, id: nat)
    requires Unmarked(m, id) && NoneOvertaken(m, list) && OneOfAKind(m, list)
    ensures var log := HandedOver(m, list);
            && (MarkedNow(DispatchedAll(m, list), id)
                <==> SentOwn(log, id) || (FirstTouchNow(m).Some? && SentOvertaken(m, id, log)))
            && !(SentOwn(log, id) && SentOvertaken(m, id, log))
    decreases |list|, 1
  {
    if list != [] {
      var e, rest, m1 := list[0], list[1..], Dispatched(m, list[0]);
      assert list == [e] + rest;
      HeadApart(e, rest, m);
      DispatchFrame(m, e);
      SentSplit(e, HandedOver(m1, rest), m, id);
      if Succeeds(m) && e.onSent.MarkFirstTouch? {
        FirstTouchSent(m, e, id);
        OthersLeaveRecord(m1, rest);
      } else {
        forall i | 0 <= i < |rest|
          ensures NotOvertaken(m1, rest[i])
        {
          assert NotOvertaken(m, list[i + 1]);
        }
        FlushLater(m, e, rest, id);
        assert [] + HandedOver(m1, rest) == HandedOver(m1, rest);
      }
    }
  }

  lemma {:induction false} FlushLater(m: Mail, e: Queued, rest: seq<Queued>, id: nat)
    requires Unmarked(m, id) && NoneOvertaken(Dispatched(m, e), rest) && OneOfAKind(m, [e] + rest)
    requires !Succeeds(m) || !e.onSent.MarkFirstTouch?
    ensures var m1 := Dispatched(m, e); var log := HandedOver(m1, rest);
            && (MarkedNow(DispatchedAll(m1, rest), id)
                <==> SentOwn(log, id) || (FirstTouchNow(m).Some? && SentOvertaken(m, id, log)))
            && !(SentOwn(log, id) && SentOvertaken(m, id, log))
    decreases |rest| + 1, 0
  {
    var m1 := Dispatched(m, e);
    DispatchFrame(m, e);
    HeadApart(e, rest, m);
    KindsAfter(m, e, rest);
    FlushMarksIff(m1, rest, id);
    SameMailSameOvertaken(m, m1, id, HandedOver(m1, rest));
  }

  lemma KindsAfter(m: Mail, e: Queued, rest: seq<Queued>)
    requires OneOfAKind(m, [e] + rest)
    ensures OneOfAKind(Dispatched(m, e), rest)
  {
    HeadApart(e, rest, m);
    DispatchFrame(m, e);
  }

  /** What this event itself hands over. */
  function NewlySent(s: State, e: Event): seq<Queued> {
    var log := Step(s, e).mail.sent;
    if |s.mail.sent| <= |log| then log[|s.mail.sent|..] else []
  }

  lemma GatedSends(s: State, e: Queued, id: nat)
    ensures var m := Gated(s, e).mail;
            && (m == s.mail || (!s.bot && HasInteracted(s) && m == Dispatched(s.mail, e)))
            && m.now == s.mail.now && m.nextId == s.mail.nextId && s.mail.sent <= m.sent
            && (m.sent == s.mail.sent || m.sent == s.mail.sent + [e])
            && (!e.onSent.MarkFirstTouch? ==> m.stored == s.mail.stored)
            && (m.sent == s.mail.sent ==> m.stored == s.mail.stored)
  {
    DispatchFrame(s.mail, e);
  }

  lemma CurrentVisitSends(s: State, landing: string, source: string, referrer: string)
    ensures var m := CurrentVisit(s, landing, source, referrer).mail;
            && m.stored == s.mail.stored && m.now == s.mail.now && m.nextId == s.mail.nextId
            && s.mail.sent <= m.sent && NoFirstTouch(m.sent[|s.mail.sent|..])
  {
    var e := Queued(Visit(false, landing, source, referrer), MarkCurrent);
    GatedSends(s, e, 0);
    var m := CurrentVisit(s, landing, source, referrer).mail;
    assert m.sent == s.mail.sent || m.sent[|s.mail.sent|..] == [e];
  }

  /** The record that a visit ensures is marked by this visit exactly if its visit is handed over now. */
  lemma FirstTouchVisitSends(s: State, landing: string, source: string, referrer: string)
    requires s.mail.stored.Some? ==> s.mail.stored.value.id < s.mail.nextId
    ensures var ft := Ensured(s.mail, source, referrer).stored.value;
            var m := FirstTouchVisit(s, landing, source, referrer).mail;
            && m.stored.Some? && m.stored.value.id == ft.id && s.mail.sent <= m.sent
            && (m.stored.value.visitSent <==> ft.visitSent || m.sent != s.mail.sent)
            && (m.sent == s.mail.sent
                || (m.sent[|s.mail.sent|..] == [m.sent[|s.mail.sent|]] && IsFirstTouch(m.sent[|s.mail.sent|], ft.id)))
  {
    var s1 := s.(mail := Ensured(s.mail, source, referrer));
    var ft := s1.mail.stored.value;
    var e := Queued(Visit(true, landing, ft.source, ft.referrer), MarkFirstTouch(ft));
    GatedSends(s1, e, ft.id);
    if !ft.visitSent && Gated(s1, e).mail.sent != s1.mail.sent {
      FirstTouchSent(s1.mail, e, ft.id);
      assert FirstTouchNow(s1.mail).Some?;
    }
  }

  lemma ShareSends(s: State, surface: string, target: string, tier: Option<int>, onceKey: Option<string>)
    ensures var m := Shared(s, surface, target, tier, onceKey).mail;
            m.stored == s.mail.stored && s.mail.sent <= m.sent && NoFirstTouch(m.sent[|s.mail.sent|..])
  {
    var e := ShareEvent(surface, target, tier);
    GatedSends(s, e, 0);
    GatedSends(s.(onceKeys := s.onceKeys + {if onceKey.Some? then onceKey.value else ""}), e, 0);
    GatedSends(s.(lastShareAt := s.lastShareAt[(surface, target) := s.mail.now]), e, 0);
    var m := Shared(s, surface, target, tier, onceKey).mail;
    assert m.sent == s.mail.sent || m.sent[|s.mail.sent|..] == [e];
  }

  lemma NoneOwn(log: seq<Queued>, m: Mail, id: nat)
    requires NoFirstTouch(log)
    ensures !SentOwn(log, id) && !SentOvertaken(m, id, log)
  {
  }

  lemma {:induction false} SentConcat(a: seq<Queued>, b: seq<Queued>, id: nat)
    ensures SentOwn(a + b, id) <==> SentOwn(a, id) || SentOwn(b, id)
  {
    if SentOwn(a, id) {
      var i :| 0 <= i < |a| && IsFirstTouch(a[i], id);
      assert IsFirstTouch((a + b)[i], id);
    }
    if SentOwn(b, id) {
      var i :| 0 <= i < |b| && IsFirstTouch(b[i], id);
      assert IsFirstTouch((a + b)[|a| + i], id);
    }
  }

  /** How a visit changes the stored record, and what of it the visit hands over. */
  lemma VisitSends(s: State, landing: string, source: string, referrer: string, id: nat)
    requires s.mail.stored.Some? ==> s.mail.stored.value.id < s.mail.nextId
    ensures var e := TrackVisit(landing, source, referrer);
            var ft, m := Ensured(s.mail, source, referrer).stored.value, Step(s, e).mail;
            && s.mail.sent <= m.sent && m.stored.Some? && m.stored.value.id == ft.id
            && (SentOwn(NewlySent(s, e), id) ==> id == ft.id)
            && (m.stored.value.visitSent <==> ft.visitSent || SentOwn(NewlySent(s, e), ft.id))
  {
    CurrentVisitSends(s, landing, source, referrer);
    var s1 := CurrentVisit(s, landing, source, referrer);
    FirstTouchVisitSends(s1, landing, source, referrer);
    var ft := Ensured(s.mail, source, referrer).stored.value;
    var log := FirstTouchVisit(s1, landing, source, referrer).mail.sent;
    VisitLog(s.mail.sent, s1.mail.sent, log, ft.id, id);
    VisitLog(s.mail.sent, s1.mail.sent, log, ft.id, ft.id);
  }

  lemma VisitLog(a: seq<Queued>, b: seq<Queued>, c: seq<Queued>, own: nat, id: nat)
    requires a <= b <= c && NoFirstTouch(b[|a|..])
    requires c == b || (c[|b|..] == [c[|b|]] && IsFirstTouch(c[|b|], own))
    ensures SentOwn(c[|a|..], id) <==> c != b && id == own
  {
    assert c[|a|..] == b[|a|..] + c[|b|..];
    SentConcat(b[|a|..], c[|b|..], id);
    if c != b {
      assert c[|b|..][0] == c[|b|];
    }
  }

  /** The one way in which a record is marked by the visit of another one. */
  predicate MarkedByOvertaken(s: State, e: Event, id: nat) {
    e.Interact? && FirstTouchNow(s.mail).Some? && s.mail.stored.value.id == id && SentOvertaken(s.mail, id, NewlySent(s, e))
  }

  lemma InteractSends(s: State)
    ensures NewlySent(s, Interact) == if s.listening then HandedOver(s.mail, s.queue) else []
    ensures forall x :: x in NewlySent(s, Interact) ==> x in s.queue
    ensures s.mail.sent <= Step(s, Interact).mail.sent
  {
    HandedOverIsLogged(s.mail, s.queue);
  }

  /**
   An event marks a record exactly if it hands over the record's own visit, or if this flush
   hands over a waiting visit of another record that is older than 90 days by now, while the
   marked record is not; never both.
   */
  lemma MarkedIff(s: State, e: Event, before: bool, id: nat)
    requires Inv(s, before) && Unmarked(s.mail, id)
    ensures MarkedNow(Step(s, e).mail, id) <==> SentOwn(NewlySent(s, e), id) || MarkedByOvertaken(s, e, id)
    ensures !(SentOwn(NewlySent(s, e), id) && MarkedByOvertaken(s, e, id))
  {
    match e
    case Interact =>
      InteractSends(s);
      FlushMarksIff(s.mail, s.queue, id);
    case TrackVisit(landing, source, referrer) =>
      VisitSends(s, landing, source, referrer, id);
      VisitSends(s, landing, source, referrer, Ensured(s.mail, source, referrer).stored.value.id);
    case TrackShare(surface, target, tier, onceKey) =>
      ShareSends(s, surface, target, tier, onceKey);
      NoneOwn(NewlySent(s, e), s.mail, id);
    case _ =>
  }

  /** Exactly when a mark stands for no visit of its own record; what is sent then had been waiting. */
  lemma MarkedWithoutOwnVisitIff(s: State, e: Event, before: bool, id: nat)
    requires Inv(s, before) && Unmarked(s.mail, id)
    ensures MarkedNow(Step(s, e).mail, id) && !SentOwn(NewlySent(s, e), id) <==> MarkedByOvertaken(s, e, id)
    ensures MarkedByOvertaken(s, e, id) ==> exists x :: x in s.queue && x in NewlySent(s, e) && Overtaken(s.mail, id, x)
  {
    MarkedIff(s, e, before, id);
    if MarkedByOvertaken(s, e, id) {
      InteractSends(s);
      var log := NewlySent(s, e);
      var i :| 0 <= i < |log| && Overtaken(s.mail, id, log[i]);
      assert log[i] in log;
    }
  }

  // ---------------------------------------------------------------- marks over whole runs

  lemma {:induction false} CountConcat(a: seq<Queued>, b: seq<Queued>, id: nat)
    ensures CountFirstTouch(a + b, id) == CountFirstTouch(a, id) + CountFirstTouch(b, id)
    ensures CountFirstTouch(b, id) > 0 <==> SentOwn(b, id)
    decreases |b|
  {
    if b == [] {
      assert a + b == a;
    } else {
      var n := |b| - 1;
      CountConcat(a, b[..n], id);
      assert (a + b)[..|a| + n] == a + b[..n];
      assert b == b[..n] + [b[n]];
      SentConcat(b[..n], [b[n]], id);
      assert SentOwn([b[n]], id) <==> IsFirstTouch(b[n], id) by {
        assert [b[n]][0] == b[n];
      }
    }
  }

  lemma LogOnlyGrows(s: State, e: Event)
    requires s.mail.stored.Some? ==> s.mail.stored.value.id < s.mail.nextId
    ensures s.mail.sent <= Step(s, e).mail.sent
  {
    match e
    case Interact => InteractSends(s);
    case TrackVisit(landing, source, referrer) => VisitSends(s, landing, source, referrer, 0);
    case TrackShare(surface, target, tier, onceKey) => ShareSends(s, surface, target, tier, onceKey);
    case _ =>
  }

  lemma StepLogs(s: State, e: Event, before: bool, id: nat)
    requires Inv(s, before)
    ensures CountFirstTouch(Step(s, e).mail.sent, id)
            == CountFirstTouch(s.mail.sent, id) + CountFirstTouch(NewlySent(s, e), id)
    ensures CountFirstTouch(NewlySent(s, e), id) > 0 <==> SentOwn(NewlySent(s, e), id)
  {
    LogOnlyGrows(s, e);
    LogCount(s.mail.sent, Step(s, e).mail.sent, id);
  }

  lemma LogCount(a: seq<Queued>, c: seq<Queued>, id: nat)
    requires a <= c
    ensures CountFirstTouch(c, id) == CountFirstTouch(a, id) + CountFirstTouch(c[|a|..], id)
    ensures CountFirstTouch(c[|a|..], id) > 0 <==> SentOwn(c[|a|..], id)
  {
    assert c == a + c[|a|..];
    CountConcat(a, c[|a|..], id);
  }

  ghost predicate OvertakenIn(s: State, es: seq<Event>, id: nat)
    decreases |es|
  {
    es != [] && ((Unmarked(s.mail, id) && MarkedByOvertaken(s, es[0], id)) || OvertakenIn(Step(s, es[0]), es[1..], id))
  }

  /** The mark of record id says that its visit was sent, or that it was overtaken before. */
  predicate MarkExplained(m: Mail, id: nat, overtaken: bool) {
    && (overtaken ==> id < m.nextId)
    && (m.stored.Some? && m.stored.value.id == id ==>
          (m.stored.value.visitSent <==> CountFirstTouch(m.sent, id) > 0 || overtaken))
  }

  lemma {:induction false} FlushKeepsMark(m: Mail, list: seq<Queued>, id: nat)
    requires OneOfAKind(m, list) && NoneOvertaken(m, list)
    requires m.stored.Some? ==> m.stored.value.id != id || m.stored.value.visitSent
    ensures var m' := DispatchedAll(m, list);
            m'.stored.Some? && m'.stored.value.id == id ==>
              m'.stored.value.visitSent && ((m.stored.Some? && m.stored.value.id == id) || SentOwn(HandedOver(m, list), id))
    decreases |list|
  {
    if list != [] {
      var e, rest, m1 := list[0], list[1..], Dispatched(m, list[0]);
      assert list == [e] + rest;
      HeadApart(e, rest, m);
      DispatchFrame(m, e);
      SentSplit(e, HandedOver(m1, rest), m, id);
      if Succeeds(m) && e.onSent.MarkFirstTouch? {
        FirstTouchSent(m, e, id);
        OthersLeaveRecord(m1, rest);
      } else {
        forall i | 0 <= i < |rest|
          ensures NotOvertaken(m1, rest[i])
        {
          assert NotOvertaken(m, list[i + 1]);
        }
        KindsAfter(m, e, rest);
        FlushKeepsMark(m1, rest, id);
        assert [] + HandedOver(m1, rest) == HandedOver(m1, rest);
      }
    }
  }

  /** A record that is not an unmarked stored one becomes stored only as a fresh one, or marked. */
  lemma OtherwiseMarked(s: State, e: Event, before: bool, id: nat)
    requires Inv(s, before) && !Unmarked(s.mail, id)
    ensures var m, m' := s.mail, Step(s, e).mail;
            m'.stored.Some? && m'.stored.value.id == id ==>
              if m.stored.Some? && m.stored.value.id == id then m'.stored.value.visitSent
              else (m'.stored.value.visitSent <==> SentOwn(NewlySent(s, e), id)) && (id < m.nextId ==> m'.stored.value.visitSent)
  {
    match e
    case Interact =>
      InteractSends(s);
      if s.listening {
        FlushKeepsMark(s.mail, s.queue, id);
      }
    case TrackVisit(landing, source, referrer) =>
      VisitSends(s, landing, source, referrer, id);
      VisitSends(s, landing, source, referrer, Ensured(s.mail, source, referrer).stored.value.id);
    case TrackShare(surface, target, tier, onceKey) => ShareSends(s, surface, target, tier, onceKey);
    case _ =>
  }

  lemma IdsNeverShrink(s: State, e: Event)
    ensures Step(s, e).mail.nextId >= s.mail.nextId
  {
    match e
    case Interact => DispatchAllFrame(s.mail, s.queue);
    case TrackVisit(landing, source, referrer) =>
      CurrentVisitSends(s, landing, source, referrer);
      var s1 := CurrentVisit(s, landing, source, referrer);
      var s2 := s1.(mail := Ensured(s1.mail, source, referrer));
      var ft := s2.mail.stored.value;
      GatedSends(s2, Queued(Visit(true, landing, ft.source, ft.referrer), MarkFirstTouch(ft)), 0);
    case TrackShare(surface, target, tier, onceKey) =>
      var e := ShareEvent(surface, target, tier);
      GatedSends(s, e, 0);
      GatedSends(s.(onceKeys := s.onceKeys + {if onceKey.Some? then onceKey.value else ""}), e, 0);
      GatedSends(s.(lastShareAt := s.lastShareAt[(surface, target) := s.mail.now]), e, 0);
    case _ =>
  }

  lemma StepKeepsExplained(s: State, e: Event, before: bool, id: nat, overtaken: bool)
    requires Inv(s, before) && MarkExplained(s.mail, id, overtaken)
    ensures MarkExplained(Step(s, e).mail, id, overtaken || (Unmarked(s.mail, id) && MarkedByOvertaken(s, e, id)))
  {
    StepLogs(s, e, before, id);
    IdsNeverShrink(s, e);
    if CountFirstTouch(s.mail.sent, id) > 0 {
      assert SentRecordOk(s.mail, s.queue, id);
    }
    if Unmarked(s.mail, id) {
      MarkedIff(s, e, before, id);
    } else {
      OtherwiseMarked(s, e, before, id);
    }
  }

  lemma {:induction false} RunKeepsExplained(s: State, es: seq<Event>, before: bool, id: nat, overtaken: bool)
    requires Inv(s, before) && MarkExplained(s.mail, id, overtaken)
    ensures MarkExplained(Run(s, es).mail, id, overtaken || OvertakenIn(s, es, id))
    decreases |es|
  {
    if es != [] {
      StepKeepsExplained(s, es[0], before, id, overtaken);
      StepKeepsInv(s, es[0], before);
      RunKeepsExplained(Step(s, es[0]), es[1..], before, id, overtaken || (Unmarked(s.mail, id) && MarkedByOvertaken(s, es[0], id)));
    }
  }

  /**
   Over every run after a load: a record that was not marked by an earlier page is marked exactly
   if its own visit was sent, once, or an overtaken visit of an expired record was taken for it.
   */
  lemma MarksAreExact(s: State, es: seq<Event>, id: nat)
    requires Loaded(s) && (s.mail.stored.Some? && s.mail.stored.value.id == id ==> !s.mail.stored.value.visitSent)
    requires Run(s, es).mail.stored.Some? && Run(s, es).mail.stored.value.id == id
    ensures var m := Run(s, es).mail;
            m.stored.value.visitSent <==> CountFirstTouch(m.sent, id) == 1 || OvertakenIn(s, es, id)
  {
    LoadedInv(s);
    RunKeepsExplained(s, es, s.mail.currentTracked, id, false);
    EveryRun(s, es);
  }

  /** The exception does occur: the mark of a fresh record without any visit of its own. */
  lemma MarkWithoutOwnVisit(landing: string, source: string, later: string) returns (s: State, es: seq<Event>)
    ensures Loaded(s)
    ensures var m := Run(s, es).mail;
            m.stored.Some? && m.stored.value.source == later && m.stored.value.visitSent
            && CountFirstTouch(m.sent, m.stored.value.id) == 0
  {
    var m0 := Mail(0, true, false, None, 0, [], 0, []);
    s := State(false, m0, [], false, false, false, false, map[], {});
    es := [TrackVisit(landing, source, ""), Pass(TTL_MS + 1), TrackVisit(landing, later, ""), Interact];
    var ft0 := FirstTouch(0, source, 0, "", false, false);
    var ft1 := FirstTouch(1, later, TTL_MS + 1, "", false, false);
    var current := Queued(Visit(false, landing, source, ""), MarkCurrent);
    var overtaken := Queued(Visit(true, landing, source, ""), MarkFirstTouch(ft0));
    var queue := [current, overtaken];
    var s3 := LateVisitRun(s, landing, source, later, current, overtaken);
    assert Step(Step(Step(s, es[0]), es[1]), es[2]) == s3;
    FlushTwo(s3.mail, current, overtaken, ft1);
    RunFour(s, es);
  }

  lemma FirstVisitWaits(s: State, landing: string, source: string, current: Queued, first: Queued)
    requires !s.bot && s.mail.sessionWorks && !s.interacted && !s.mail.currentTracked && s.queue == [] && !s.armed && s.mail.stored.None?
    requires current == Queued(Visit(false, landing, source, ""), MarkCurrent)
    requires var ft := FirstTouch(s.mail.nextId, source, s.mail.now, "", false, false);
             first == Queued(Visit(true, landing, source, ""), MarkFirstTouch(ft))
    ensures Step(s, TrackVisit(landing, source, ""))
            == s.(queue := [current, first], armed := true, listening := true, mail := Ensured(s.mail, source, ""))
  {
    assert !Waiting(s.queue, current);
    var s1 := CurrentVisit(s, landing, source, "");
    assert s1.queue == [current];
    assert !Waiting(s1.queue, first);
    assert [current] + [first] == [current, first];
  }

  lemma LateVisitIsDropped(s: State, landing: string, later: string, current: Queued, first: Queued)
    requires !s.bot && s.mail.sessionWorks && !s.interacted && !s.mail.currentTracked && s.queue == [current, first]
    requires current.onSent.MarkCurrent? && first.onSent.MarkFirstTouch? && FirstTouchNow(s.mail).None?
    ensures Step(s, TrackVisit(landing, later, "")) == s.(mail := Ensured(s.mail, later, ""))
  {
    var again := Queued(Visit(false, landing, later, ""), MarkCurrent);
    assert SameKey(s.queue[0], again);
    assert CurrentVisit(s, landing, later, "") == s;
    var ft := Ensured(s.mail, later, "").stored.value;
    assert SameKey(s.queue[1], Queued(Visit(true, landing, ft.source, ft.referrer), MarkFirstTouch(ft)));
  }

  /** A second visit, after the record of the waiting one has expired. */
  lemma LateVisitRun(s: State, landing: string, source: string, later: string, current: Queued, first: Queued) returns (s3: State)
    requires s == State(false, Mail(0, true, false, None, 0, [], 0, []), [], false, false, false, false, map[], {})
    requires current == Queued(Visit(false, landing, source, ""), MarkCurrent)
    requires first == Queued(Visit(true, landing, source, ""), MarkFirstTouch(FirstTouch(0, source, 0, "", false, false)))
    ensures s3 == Step(Step(Step(s, TrackVisit(landing, source, "")), Pass(TTL_MS + 1)), TrackVisit(landing, later, ""))
    ensures s3.listening && s3.queue == [current, first] && s3.mail.outcomes == [] && s3.mail.sent == []
    ensures s3.mail.stored == Some(FirstTouch(1, later, TTL_MS + 1, "", false, false)) && s3.mail.now == TTL_MS + 1
  {
    FirstVisitWaits(s, landing, source, current, first);
    var s1 := Step(s, TrackVisit(landing, source, ""));
    var s2 := Step(s1, Pass(TTL_MS + 1));
    LateVisitIsDropped(s2, landing, later, current, first);
    s3 := Step(s2, TrackVisit(landing, later, ""));
  }

  lemma RunFour(s: State, es: seq<Event>)
    requires |es| == 4
    ensures Run(s, es) == Step(Step(Step(Step(s, es[0]), es[1]), es[2]), es[3])
  {
    assert es[1..][1..] == es[2..] && es[2..][1..] == es[3..] && es[3..][1..] == [];
    var s1 := Step(s, es[0]);
    var s2 := Step(s1, es[1]);
    var s3 := Step(s2, es[2]);
    assert Run(s, es) == Run(s1, es[1..]);
    assert Run(s1, es[1..]) == Run(s2, es[2..]);
    assert Run(s2, es[2..]) == Run(s3, es[3..]);
    assert Run(s3, es[3..]) == Run(Step(s3, es[3]), []);
  }

  lemma FlushTwo(m: Mail, current: Queued, overtaken: Queued, ft: FirstTouch)
    requires m.outcomes == [] && m.sent == [] && m.stored == Some(ft) && FirstTouchNow(m).Some?
    requires current.onSent.MarkCurrent? && overtaken.onSent.MarkFirstTouch? && overtaken.onSent.ft.id != ft.id
    ensures var m' := DispatchedAll(m, [current, overtaken]);
            m'.stored == Some(ft.(visitSent := true)) && CountFirstTouch(m'.sent, ft.id) == 0
  {
    var m1 := Dispatched(m, current);
    var m2 := Dispatched(m1, overtaken);
    assert [current, overtaken][1..] == [overtaken] && [overtaken][1..] == [];
    assert DispatchedAll(m, [current, overtaken]) == DispatchedAll(m1, [overtaken]) == m2;
    DispatchFrame(m, current);
    DispatchFrame(m1, overtaken);
    CountsAppend([], current, ft.id);
    CountsAppend([current], overtaken, ft.id);
    assert m2.sent == [current] + [overtaken];
  }

  /** The page's listeners have heard the first interaction, or an earlier page of the tab has stored it. */
  predicate Flushed(s: State) {
    !s.bot && !s.listening && (s.armed || HasInteracted(s))
  }

  /** What an event hands to the gate, whatever the gate then does with it. */
  function Offered(s: State, e: Event): seq<Queued> {
    match e
    case TrackVisit(landing, source, referrer) =>
      var ft := Ensured(s.mail, source, referrer).stored.value;
      (if s.mail.sessionWorks && !s.mail.currentTracked then [Queued(Visit(false, landing, source, referrer), MarkCurrent)] else [])
      + (if ft.visitSent then [] else [Queued(Visit(true, landing, ft.source, ft.referrer), MarkFirstTouch(ft))])
    case TrackShare(surface, target, tier, onceKey) =>
      if Repeated(s, surface, target, onceKey) then [] else [ShareEvent(surface, target, tier)]
    case _ => []
  }

  /** A share with a key that was used, or three seconds after the last one of its kind. */
  predicate Repeated(s: State, surface: string, target: string, onceKey: Option<string>) {
    if onceKey.Some? then s.mail.sessionWorks && onceKey.value in s.onceKeys
    else
      var dk := (surface, target);
      dk in s.lastShareAt && s.lastShareAt[dk] != 0 && s.mail.now - s.lastShareAt[dk] < 3000
  }

  function OfferedIn(s: State, es: seq<Event>): seq<Queued>
    decreases |es|
  {
    if es == [] then [] else Offered(s, es[0]) + OfferedIn(Step(s, es[0]), es[1..])
  }

  /** Working session storage remembers the interaction that emptied the queue. */
  predicate Remembered(s: State) {
    s.mail.sessionWorks && s.armed && !s.listening ==> s.interacted
  }

  lemma GatedKeepsRemembered(s: State, e: Queued)
    requires Remembered(s)
    ensures Remembered(Gated(s, e)) && (Flushed(s) ==> Flushed(Gated(s, e)))
    ensures Gated(s, e).mail.sessionWorks == s.mail.sessionWorks
  {
    DispatchFrame(s.mail, e);
  }

  lemma StepKeepsRemembered(s: State, e: Event)
    requires Remembered(s)
    ensures Remembered(Step(s, e)) && (Flushed(s) ==> Flushed(Step(s, e)))
    ensures Step(s, e).mail.sessionWorks == s.mail.sessionWorks
  {
    match e
    case TrackVisit(landing, source, referrer) => VisitKeepsRemembered(s, landing, source, referrer);
    case TrackShare(surface, target, tier, onceKey) => ShareKeepsRemembered(s, surface, target, tier, onceKey);
    case Interact => FlushKeepsStorage(s.mail, s.queue);
    case _ =>
  }

  lemma VisitKeepsRemembered(s: State, landing: string, source: string, referrer: string)
    requires Remembered(s)
    ensures var s' := Step(s, TrackVisit(landing, source, referrer));
            Remembered(s') && (Flushed(s) ==> Flushed(s')) && s'.mail.sessionWorks == s.mail.sessionWorks
  {
    GatedKeepsRemembered(s, Queued(Visit(false, landing, source, referrer), MarkCurrent));
    var s1 := CurrentVisit(s, landing, source, referrer);
    var s2 := s1.(mail := Ensured(s1.mail, source, referrer));
    var ft := s2.mail.stored.value;
    GatedKeepsRemembered(s2, Queued(Visit(true, landing, ft.source, ft.referrer), MarkFirstTouch(ft)));
  }

  lemma ShareKeepsRemembered(s: State, surface: string, target: string, tier: Option<int>, onceKey: Option<string>)
    requires Remembered(s)
    ensures var s' := Shared(s, surface, target, tier, onceKey);
            Remembered(s') && (Flushed(s) ==> Flushed(s')) && s'.mail.sessionWorks == s.mail.sessionWorks
  {
    var e := ShareEvent(surface, target, tier);
    GatedKeepsRemembered(s, e);
    if onceKey.Some? {
      GatedKeepsRemembered(s.(onceKeys := s.onceKeys + {onceKey.value}), e);
    } else {
      GatedKeepsRemembered(s.(lastShareAt := s.lastShareAt[(surface, target) := s.mail.now]), e);
    }
  }

  lemma {:induction false} FlushKeepsStorage(m: Mail, list: seq<Queued>)
    ensures DispatchedAll(m, list).sessionWorks == m.sessionWorks
    decreases |list|
  {
    if list != [] {
      DispatchFrame(m, list[0]);
      FlushKeepsStorage(Dispatched(m, list[0]), list[1..]);
    }
  }

  /** What the mail of a later moment has attempted, and sent if nothing fails, since an earlier one. */
  predicate Attempts(m: Mail, m': Mail, handed: seq<Queued>) {
    m'.attempts == m.attempts + |handed| && (m.outcomes == [] ==> m'.outcomes == [] && m'.sent == m.sent + handed)
  }

  lemma AttemptsJoin(m: Mail, a: seq<Queued>, m': Mail, b: seq<Queued>, m'': Mail)
    requires Attempts(m, m', a) && Attempts(m', m'', b)
    ensures Attempts(m, m'', a + b)
  {
    assert m.sent + (a + b) == (m.sent + a) + b;
  }

  lemma GatedAfterFlush(s: State, e: Queued)
    requires Flushed(s) && Remembered(s)
    ensures Attempts(s.mail, Gated(s, e).mail, if s.mail.sessionWorks then [e] else [])
    ensures Gated(s, e).mail.now == s.mail.now && Gated(s, e).mail.nextId == s.mail.nextId
    ensures e.onSent.MarkFirstTouch? || Gated(s, e).mail.stored == s.mail.stored
  {
    DispatchFrame(s.mail, e);
  }

  /** What one event does to the log once the first interaction lies behind. */
  lemma StepAfterFlush(s: State, e: Event)
    requires Flushed(s) && Remembered(s)
    ensures Attempts(s.mail, Step(s, e).mail, if s.mail.sessionWorks then Offered(s, e) else [])
  {
    match e
    case TrackVisit(landing, source, referrer) => VisitAfterFlush(s, landing, source, referrer);
    case TrackShare(surface, target, tier, onceKey) => ShareAfterFlush(s, surface, target, tier, onceKey);
    case _ =>
  }

  lemma ShareAfterFlush(s: State, surface: string, target: string, tier: Option<int>, onceKey: Option<string>)
    requires Flushed(s) && Remembered(s)
    ensures var e := TrackShare(surface, target, tier, onceKey);
            Attempts(s.mail, Step(s, e).mail, if s.mail.sessionWorks then Offered(s, e) else [])
  {
    var e := ShareEvent(surface, target, tier);
    GatedAfterFlush(s, e);
    if onceKey.Some? {
      GatedAfterFlush(s.(onceKeys := s.onceKeys + {onceKey.value}), e);
    } else {
      GatedAfterFlush(s.(lastShareAt := s.lastShareAt[(surface, target) := s.mail.now]), e);
    }
  }

  lemma VisitAfterFlush(s: State, landing: string, source: string, referrer: string)
    requires Flushed(s) && Remembered(s)
    ensures var e := TrackVisit(landing, source, referrer);
            Attempts(s.mail, Step(s, e).mail, if s.mail.sessionWorks then Offered(s, e) else [])
  {
    var current := Queued(Visit(false, landing, source, referrer), MarkCurrent);
    GatedAfterFlush(s, current);
    GatedKeepsRemembered(s, current);
    var s1 := CurrentVisit(s, landing, source, referrer);
    var a := if s.mail.sessionWorks && !s.mail.currentTracked then [current] else [];
    assert Attempts(s.mail, s1.mail, a);
    var s2 := s1.(mail := Ensured(s1.mail, source, referrer));
    var ft := s2.mail.stored.value;
    assert ft == Ensured(s.mail, source, referrer).stored.value;
    var first := Queued(Visit(true, landing, ft.source, ft.referrer), MarkFirstTouch(ft));
    GatedAfterFlush(s2, first);
    var b := if ft.visitSent || !s.mail.sessionWorks then [] else [first];
    var m' := FirstTouchVisit(s1, landing, source, referrer).mail;
    assert Attempts(s1.mail, m', b);
    AttemptsJoin(s.mail, a, s1.mail, b, m');
  }

  /**
   After the flush: with session storage every event that reaches the gate is attempted in its own
   step, and nothing else is; without it nothing is attempted any more.
   */
  lemma {:induction false} AfterFlush(s: State, es: seq<Event>)
    requires Flushed(s) && Remembered(s)
    ensures Attempts(s.mail, Run(s, es).mail, if s.mail.sessionWorks then OfferedIn(s, es) else [])
    decreases |es|
  {
    if es != [] {
      var s', works := Step(s, es[0]), s.mail.sessionWorks;
      StepAfterFlush(s, es[0]);
      StepKeepsRemembered(s, es[0]);
      AfterFlush(s', es[1..]);
      AttemptsJoin(s.mail, if works then Offered(s, es[0]) else [], s'.mail, if works then OfferedIn(s', es[1..]) else [],
                   Run(s', es[1..]).mail);
    }
  }

  lemma {:induction false} LoadedRemembers(s: State, es: seq<Event>)
    requires Remembered(s)
    ensures Remembered(Run(s, es)) && Run(s, es).mail.sessionWorks == s.mail.sessionWorks
    decreases |es|
  {
    if es != [] {
      StepKeepsRemembered(s, es[0]);
      LoadedRemembers(Step(s, es[0]), es[1..]);
    }
  }

  predicate AllAttempted(s: State, es: seq<Event>) {
    Run(s, es).mail.attempts == s.mail.attempts + |OfferedIn(s, es)|
  }

  /**
   Whenever, in any run of a loaded page, the first interaction lies behind: every event that comes to the
   gate from then on is attempted, in every continuation, if and only if session storage works.
   */
  lemma AllAttemptedIff(s: State, es: seq<Event>)
    requires Loaded(s) && Flushed(Run(s, es))
    ensures (forall later :: AllAttempted(Run(s, es), later)) <==> s.mail.sessionWorks
  {
    LoadedRemembers(s, es);
    var v := Run(s, es);
    if v.mail.sessionWorks {
      forall later
        ensures AllAttempted(v, later)
      {
        AfterFlush(v, later);
      }
    } else {
      var share := TrackShare("game_over", "score", None, Some("key"));
      AfterFlush(v, [share]);
      assert OfferedIn(v, [share]) == Offered(v, share) + OfferedIn(Step(v, share), []);
      assert !AllAttempted(v, [share]);
    }
  }

  // ---------------------------------------------------------------- the tracker

  /** The module's variables, the tab's session storage, local storage and the network. */
  class Tracker {
    const bot: bool
    const sessionWorks: bool
    var pendingQueue: seq<Queued>
    var listenersArmed: bool
    var listening: bool
    var lastShareAt: map<(string, string), int>
    var interacted: bool
    var currentTracked: bool
    var onceKeys: set<string>
    var stored: Option<FirstTouch>
    var nextId: nat
    var now: int
    var outcomes: seq<bool>
    ghost var attempts: nat
    var sent: seq<Queued>
    ghost var touched: bool

    ghost function View(): State
      reads this
    {
      State(bot, MailView(), pendingQueue, listenersArmed, listening, interacted, touched, lastShareAt, onceKeys)
    }

    ghost function MailView(): Mail
      reads this
    {
      Mail(now, sessionWorks, currentTracked, stored, nextId, outcomes, attempts, sent)
    }

    constructor (bot: bool, sessionWorks: bool, interacted: bool, currentTracked: bool, onceKeys: set<string>,
                 stored: Option<FirstTouch>, nextId: nat, now: int, outcomes: seq<bool>)
      requires (stored.Some? ==> stored.value.id < nextId) && (currentTracked ==> sessionWorks)
      ensures Loaded(View()) && this.bot == bot && this.sessionWorks == sessionWorks && this.stored == stored && this.now == now
    {
      this.bot, this.sessionWorks, this.interacted, this.currentTracked := bot, sessionWorks, interacted, currentTracked;
      this.onceKeys, this.stored, this.nextId, this.now, this.outcomes := onceKeys, stored, nextId, now, outcomes;
      pendingQueue, listenersArmed, listening, lastShareAt := [], false, false, map[];
      attempts, sent, touched := 0, [], interacted;
    }

    method Send(e: Queued) returns (ok: bool)
      modifies this`outcomes, this`attempts, this`sent
      ensures ok == (old(outcomes) == [] || old(outcomes)[0])
      ensures outcomes == (if old(outcomes) == [] then [] else old(outcomes)[1..]) && attempts == old(attempts) + 1
      ensures sent == if ok then old(sent) + [e] else old(sent)
    {
      ok := outcomes == [] || outcomes[0];
      outcomes := if outcomes == [] then [] else outcomes[1..];
      attempts := attempts + 1;
      if ok {
        sent := sent + [e];
      }
    }

    method ReadFirstTouch() returns (ft: Option<FirstTouch>)
      modifies this`stored
      ensures ft == FirstTouchNow(old(MailView()))
      ensures stored == FirstTouchNow(old(MailView()))
    {
      if stored.None? {
        return None;
      }
      if now - stored.value.capturedAt > TTL_MS {
        stored := None;
        return None;
      }
      ft := stored;
    }

    method EnsureFirstTouch(source: string, referrer: string) returns (ft: FirstTouch)
      modifies this`stored, this`nextId
      ensures MailView() == Ensured(old(MailView()), source, referrer) && stored == Some(ft)
    {
      var existing := ReadFirstTouch();
      if existing.Some? {
        return existing.value;
      }
      ft := FirstTouch(nextId, source, now, referrer, false, false);
      nextId := nextId + 1;
      stored := Some(ft);
    }

    method Dispatch(e: Queued)
      modifies this`outcomes, this`attempts, this`sent, this`currentTracked, this`stored
      ensures MailView() == Dispatched(old(MailView()), e)
    {
      var ok := Send(e);
      if ok {
        match e.onSent {
          case MarkCurrent =>
            if sessionWorks {
              currentTracked := true;
            }
          case MarkFirstTouch(ft) =>
            var read := ReadFirstTouch();
            var current := if read.Some? then read.value else ft;
            stored := Some(current.(visitSent := true));
          case Nothing =>
        }
      }
    }

    method GatedSend(e: Queued)
      modifies this
      ensures View() == Gated(old(View()), e)
    {
      if bot {
        return;
      }
      if sessionWorks && interacted {
        Dispatch(e);
        return;
      }
      if exists i :: 0 <= i < |pendingQueue| && SameKey(pendingQueue[i], e) {
        return;
      }
      pendingQueue := pendingQueue + [e];
      if !listenersArmed {
        listenersArmed := true;
        listening := true;
      }
    }

    method OnFirstInteraction()
      modifies this
      ensures View() == FirstInteraction(old(View()))
    {
      touched := true;
      if !listening {
        return;
      }
      listening := false;
      if sessionWorks {
        interacted := true;
      }
      var queued := pendingQueue;
      pendingQueue := [];
      Flush(queued);
    }

    method Flush(queued: seq<Queued>)
      modifies this`outcomes, this`attempts, this`sent, this`currentTracked, this`stored
      ensures MailView() == DispatchedAll(old(MailView()), queued)
    {
      var i := 0;
      while i < |queued|
        invariant 0 <= i <= |queued| && DispatchedAll(MailView(), queued[i..]) == DispatchedAll(old(MailView()), queued)
      {
        assert queued[i..][0] == queued[i] && queued[i..][1..] == queued[i + 1..];
        Dispatch(queued[i]);
        i := i + 1;
      }
    }

    method OnTrackVisit(landing: string, source: string, referrer: string)
      modifies this
      ensures View() == Step(old(View()), TrackVisit(landing, source, referrer))
    {
      if sessionWorks && !currentTracked {
        GatedSend(Queued(Visit(false, landing, source, referrer), MarkCurrent));
      }
      var ft := EnsureFirstTouch(source, referrer);
      if !ft.visitSent {
        GatedSend(Queued(Visit(true, landing, ft.source, ft.referrer), MarkFirstTouch(ft)));
      }
    }

    method OnTrackShare(surface: string, target: string, tier: Option<int>, onceKey: Option<string>)
      modifies this
      ensures View() == Shared(old(View()), surface, target, tier, onceKey)
    {
      if onceKey.Some? {
        if sessionWorks {
          if onceKey.value in onceKeys {
            return;
          }
          onceKeys := onceKeys + {onceKey.value};
        }
      } else {
        var dk := (surface, target);
        if dk in lastShareAt && lastShareAt[dk] != 0 && now - lastShareAt[dk] < 3000 {
          return;
        }
        lastShareAt := lastShareAt[dk := now];
      }
      GatedSend(ShareEvent(surface, target, tier));
    }

    method MarkPlayConversionSent(source: string, referrer: string)
      modifies this
      ensures View() == Step(old(View()), PlayConverted(source, referrer))
    {
      var ft := EnsureFirstTouch(source, referrer);
      stored := Some(ft.(playSent := true));
    }

    method ShouldSendPlayConversion(source: string, referrer: string) returns (should: bool)
      modifies this
      ensures View() == Step(old(View()), Conversion(source, referrer))
      ensures should <==> !bot && !Ensured(old(MailView()), source, referrer).stored.value.playSent
    {
      if bot {
        return false;
      }
      var ft := EnsureFirstTouch(source, referrer);
      should := !ft.playSent;
    }
  }
}
