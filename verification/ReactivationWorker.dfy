/**
 The reactivation worker: one attempt at one leased job, step by step as the service runs it.
 Three things are proved about every attempt, under every script: each address update is sent
 directly after a read that showed the one permitted old address under this lease's exact
 fence; a reported terminal outcome is the durable one; and without interference an attempt
 at a job that is on track reaches the terminal state, from whatever state earlier attempts
 left behind.
 */
module ReactivationWorker {
  import opened Wrappers
  import opened ReactivationWorld
  import opened ReactivationSafety
  import opened ReactivationTheorems
  import opened ReactivationCloud

  datatype Outcome =
    | Idle
    | CompletedOutcome(requestId: nat, attempts: nat)
    | CancelledOutcome(requestId: nat, attempts: nat)
    | PendingOutcome(requestId: nat, attempts: nat, failure: string, retryRecorded: bool)

  predicate ExactFence(u: User, l: Lease) {
    u.fence == Some(FenceFor(l))
  }

  /** The address an update of this lease may replace, and the one it may write. */
  function OldAddress(l: Lease): Email {
    if l.action == Activate then Marker else l.email
  }

  function NewAddress(l: Lease): Email {
    if l.action == Activate then l.email else Marker
  }

  /** What an attempt may have sent: nothing, or one update that directly follows a read of the
      old address under the exact fence. */
  ghost predicate Disciplined(l: Lease, before: seq<Send>, after: seq<Send>) {
    after == before
    || after == before + [Send(NewAddress(l), Some(User(OldAddress(l), Some(FenceFor(l)))))]
  }

  /** The lease is the live one of its job and carries that job's columns. */
  ghost predicate LeaseOf(w: World, l: Lease) {
    && LiveLease(w, l)
    && var j := w.jobs[l.requestId];
    && l.email == j.email && l.deletedAt == j.deletedAt && l.generation == j.generation
    && l.action == ActionOf(j)
  }

  // ---------------------------------------------------------------- what a recorded retry is

  /** The finish found the lease live and put its job off, with all counters kept. */
  predicate PutOff(w: World, w': World, l: Lease) {
    && LiveLease(w, l) && l.requestId in w'.jobs
    && w'.jobs[l.requestId] == w.jobs[l.requestId].(status := Pending, nextAttempt := w.now + Backoff(w.jobs[l.requestId].attempts))
  }

  /** Among the events from `from` on is a failure finish of this lease that put its job off. */
  ghost predicate RetryRecorded(start: World, trace: seq<Event>, from: nat, l: Lease) {
    exists k :: from <= k < |trace| && trace[k] == FinishJob(l, false) && PutOff(Run(start, trace[..k]), Run(start, trace[..k + 1]), l)
  }

  lemma RetryStaysRecorded(start: World, trace: seq<Event>, trace': seq<Event>, from: nat, later: nat, l: Lease)
    requires trace <= trace' && from <= later && RetryRecorded(start, trace, later, l)
    ensures RetryRecorded(start, trace', from, l)
  {
    var k :| later <= k < |trace| && trace[k] == FinishJob(l, false) && PutOff(Run(start, trace[..k]), Run(start, trace[..k + 1]), l);
    assert trace'[k] == trace[k] && trace'[..k] == trace[..k] && trace'[..k + 1] == trace[..k + 1];
  }

  lemma FinishRecordsRetry(start: World, before: seq<Event>, after: seq<Event>, from: nat, l: Lease)
    requires from <= |before| && LiveLease(Run(start, before), l)
    ensures RetryRecorded(start, before + [FinishJob(l, false)] + after, from, l)
  {
    var trace, k := before + [FinishJob(l, false)] + after, |before|;
    assert trace[..k] == before && trace[..k + 1] == before + [FinishJob(l, false)] && trace[k] == FinishJob(l, false);
    SplitRun(start, before, [FinishJob(l, false)]);
    var w := Run(start, before);
    OneEvent(w, FinishJob(l, false));
    FailurePutsOff(w, l);
    assert PutOff(Run(start, trace[..k]), Run(start, trace[..k + 1]), l);
  }

  lemma FailurePutsOff(w: World, l: Lease)
    requires LiveLease(w, l)
    ensures PutOff(w, Step(w, FinishJob(l, false)), l)
  {
  }

  /** The wait grows from five seconds, doubling with each attempt, up to one hour. */
  lemma BackoffDoubles(attempts: nat)
    ensures Backoff(0) == 5 && 5 <= Backoff(attempts) <= 3600
    ensures Backoff(attempts + 1) == if 2 * Backoff(attempts) < 3600 then 2 * Backoff(attempts) else 3600
  {
    PowerBounds(if attempts < 10 then attempts else 10);
    PowerBounds(if attempts < 9 then attempts + 1 else 10);
    assert PowerOfTwo(10) == 1024 && PowerOfTwo(9) == 512;
  }

  lemma {:induction false} PowerBounds(n: nat)
    ensures PowerOfTwo(n) >= 1
  {
    if n > 0 {
      PowerBounds(n - 1);
    }
  }

  /** The world after the exact fence was written. */
  function Armed(w: World, l: Lease): World
    requires w.user.Some?
  {
    w.(user := Some(w.user.value.(fence := Some(FenceFor(l)))))
  }

  /** A read; for an activation a missing user is an error, for a cancellation an answer. */
  method ReadAuth(cloud: Cloud, lease: Lease) returns (r: Result<Option<User>, string>)
    requires cloud.Valid()
    modifies cloud
    ensures cloud.Valid() && cloud.script == Rest(old(cloud.script)) && old(cloud.trace) <= cloud.trace
    ensures cloud.sends == old(cloud.sends) && cloud.finishes == old(cloud.finishes) && (r.Ok? ==> cloud.lastRead == r.value)
    ensures r.Ok? && lease.action == Activate ==> r.value.Some?
    ensures r.Err? ==> r.error in {READ, DEADLINE, MISSING}
    ensures r.Ok? ==> Head(old(cloud.script)).transport.Delivered?
    ensures r.Err? && Head(old(cloud.script)).transport.Delivered? ==> r.error == MISSING && cloud.lastRead == None
    ensures old(cloud.script) == [] ==> cloud.world == old(cloud.world)
    ensures old(cloud.script) == [] && (lease.action == Cancel || old(cloud.world.user).Some?) ==>
              r == Ok(old(cloud.world.user))
    ensures old(cloud.script) == [] && lease.action == Activate && old(cloud.world.user).None? ==> r == Err(MISSING)
  {
    r := cloud.GetUser();
    if r.Ok? && r.value.None? && lease.action == Activate {
      r := Err(MISSING);
    }
  }

  /** The server answers the arming with the action of this lease. */
  predicate ArmAnswered(w: World, script: seq<Fate>, l: Lease) {
    var at := Run(w, Head(script).before);
    Head(script).transport.Delivered? && ArmAllowed(at, l) && ActionOf(at.jobs[l.requestId]) == l.action
  }

  /** The server answers the update with the new address. */
  predicate UpdateAnswered(w: World, script: seq<Fate>, l: Lease) {
    Head(script).transport.Delivered? && UpdateAllowed(Run(w, Head(script).before), NewAddress(l))
  }

  /** Arms the fence, ignores the answer, and accepts only what a fresh read shows. */
  method StageFence(cloud: Cloud, lease: Lease) returns (r: Result<Option<User>, string>)
    requires cloud.Valid()
    modifies cloud
    ensures cloud.Valid() && old(cloud.trace) <= cloud.trace
    ensures cloud.sends == old(cloud.sends) && cloud.finishes == old(cloud.finishes)
    ensures r.Ok? ==> cloud.lastRead == r.value
    ensures r.Ok? && r.value.None? ==> lease.action == Cancel
    ensures r.Err? ==> r.error != CONFLICT
    ensures r == Err(NotObserved(lease)) ==> ArmAnswered(old(cloud.world), old(cloud.script), lease)
    ensures r == Err(Unconfirmed(lease)) ==> !ArmAnswered(old(cloud.world), old(cloud.script), lease)
    ensures r.Err? ==> r.error in {READ, DEADLINE, MISSING, NotObserved(lease), Unconfirmed(lease)}
    ensures r.Ok? && r.value.Some? ==>
              ExactFence(r.value.value, lease) && (r.value.value.email == Marker || r.value.value.email == lease.email)
    ensures old(cloud.script) == [] && old(LeaseOf(cloud.world, lease)) && old(ArmAllowed(cloud.world, lease)) ==>
              && cloud.script == [] && cloud.world == Armed(old(cloud.world), lease) && r == Ok(cloud.world.user)
  {
    var armed := cloud.ArmFence(lease);
    var stageFailure := armed.Err? || armed.value != lease.action;
    r := ReadAuth(cloud, lease);
    if r.Err? {
      return Err(if stageFailure then Unconfirmed(lease) else r.error);
    }
    if r.value.Some? {
      var current := r.value.value;
      if !ExactFence(current, lease) || (current.email != Marker && current.email != lease.email) {
        return Err(if stageFailure then Unconfirmed(lease) else NotObserved(lease));
      }
    }
  }

  function Unconfirmed(l: Lease): string {
    if l.action == Activate then "auth_fence_stage_unconfirmed" else "auth_cancel_fence_stage_unconfirmed"
  }

  function NotObserved(l: Lease): string {
    if l.action == Activate then "auth_fence_stage_not_observed" else "auth_cancel_fence_stage_not_observed"
  }

  /** Nothing interferes; at most the answer of the first call is lost after it committed. */
  predicate OnlyAnswerLost(script: seq<Fate>) {
    Rest(script) == [] && Head(script).before == [] && Head(script).after == [] && !Head(script).transport.RequestLost?
  }

  function UpdateUnconfirmed(l: Lease): string {
    if l.action == Activate then "auth_email_update_unconfirmed" else "auth_cancel_update_unconfirmed"
  }

  function UpdateNotObserved(l: Lease): string {
    if l.action == Activate then "auth_email_not_observed" else "auth_marker_not_observed"
  }

  /** Sends the one permitted update; only a fresh read of address and fence proves it. */
  method UpdateAndObserve(cloud: Cloud, lease: Lease) returns (failure: Option<string>)
    requires cloud.Valid()
    modifies cloud
    ensures cloud.Valid() && old(cloud.trace) <= cloud.trace
    ensures cloud.sends == old(cloud.sends) + [Send(NewAddress(lease), old(cloud.lastRead))] && cloud.finishes == old(cloud.finishes)
    ensures failure.Some? ==> failure.value in {UpdateUnconfirmed(lease), UpdateNotObserved(lease)} && failure.value != CONFLICT
    ensures failure == Some(UpdateNotObserved(lease)) ==>
              && UpdateAnswered(old(cloud.world), old(cloud.script), lease)
              && Head(Rest(old(cloud.script))).transport.Delivered? && cloud.lastRead.Some?
    ensures failure == Some(UpdateUnconfirmed(lease)) && Head(Rest(old(cloud.script))).transport.Delivered? && cloud.lastRead.Some? ==>
              !UpdateAnswered(old(cloud.world), old(cloud.script), lease)
    ensures failure.None? ==>
              || cloud.lastRead == Some(User(NewAddress(lease), Some(FenceFor(lease))))
              || (lease.action == Cancel && cloud.lastRead == None)
    ensures var w := old(cloud.world);
            OnlyAnswerLost(old(cloud.script)) && UpdateAllowed(w, NewAddress(lease)) && ExactFence(w.user.value, lease) ==>
              failure.None? && cloud.script == [] && cloud.world == AuthUpdate(w, NewAddress(lease))
  {
    var update := cloud.UpdateUser(NewAddress(lease));
    var updateFailure := update.Err? || update.value.None? || update.value.value.email != NewAddress(lease);
    var observed := ReadAuth(cloud, lease);
    if observed.Ok? {
      if observed.value.None? || (observed.value.value.email == NewAddress(lease) && ExactFence(observed.value.value, lease)) {
        return None;
      }
    } else {
      updateFailure := true;
    }
    return Some(if updateFailure then UpdateUnconfirmed(lease) else UpdateNotObserved(lease));
  }

  const CONFLICT := "auth_identity_conflict"

  predicate ThirdAddress(u: Option<User>, l: Lease) {
    u.Some? && u.value.email != Marker && u.value.email != l.email
  }

  /** Every failure that an activation can come to before its finish. */
  const ACTIVATION_FAILURES: set<string> := {
    READ, DEADLINE, MISSING, CONFLICT, "invalid_reactivation_email", "auth_fence_stage_unconfirmed", "auth_fence_stage_not_observed",
    "auth_email_update_unconfirmed", "auth_email_not_observed" }

  /** Every failure that a cancellation can come to before its finish. */
  const CANCELLATION_FAILURES: set<string> := {
    READ, DEADLINE, MISSING, CONFLICT, "invalid_reactivation_email", "auth_cancel_fence_stage_unconfirmed",
    "auth_cancel_fence_stage_not_observed", "auth_cancel_update_unconfirmed", "auth_marker_not_observed" }

  /** Marker -> receipt address, under the live activate lease. */
  method EnsureReceiptBoundAuthEmail(cloud: Cloud, lease: Lease) returns (failure: Option<string>)
    requires cloud.Valid()
    modifies cloud
    ensures cloud.Valid() && old(cloud.trace) <= cloud.trace
    ensures Disciplined(lease, old(cloud.sends), cloud.sends) && cloud.finishes == old(cloud.finishes)
    ensures failure.Some? ==> failure.value in if lease.action == Activate then ACTIVATION_FAILURES else {"reactivation_action_mismatch"}
    ensures failure == Some(CONFLICT) ==> cloud.lastRead.Some? && ThirdAddress(cloud.lastRead, lease)
    ensures var w := old(cloud.world);
            old(cloud.script) == [] && lease.action == Activate && lease.email.Real? && (w.user.None? || ThirdAddress(w.user, lease)) ==>
              && failure == Some(if w.user.None? then MISSING else CONFLICT)
              && cloud.script == [] && cloud.world == w && cloud.sends == old(cloud.sends)
    ensures failure.None? ==> cloud.lastRead == Some(User(lease.email, Some(FenceFor(lease))))
    ensures var w := old(cloud.world);
            old(cloud.script) == [] && LeaseOf(w, lease) && lease.action == Activate && Inv(w) && OnTrack(w, lease.requestId) ==>
              && failure.None? && cloud.script == []
              && cloud.world == w.(user := Some(User(lease.email, Some(FenceFor(lease)))))
  {
    if lease.action != Activate {
      return Some("reactivation_action_mismatch");
    }
    var expected, marker := lease.email, Marker;
    if expected == marker {
      return Some("invalid_reactivation_email");
    }
    var current := ReadAuth(cloud, lease);
    if current.Err? {
      return Some(current.error);
    }
    if current.value.value.email != expected && current.value.value.email != marker {
      return Some(CONFLICT);
    }
    if !ExactFence(current.value.value, lease) {
      current := StageFence(cloud, lease);
      if current.Err? {
        return Some(current.error);
      }
    }
    if current.value.value.email == expected {
      return None;
    }
    failure := UpdateAndObserve(cloud, lease);
  }

  /** Receipt address -> marker, under the live cancel lease; a missing user needs no work. */
  method EnsureCancelledAuthEmail(cloud: Cloud, lease: Lease) returns (failure: Option<string>)
    requires cloud.Valid()
    modifies cloud
    ensures cloud.Valid() && old(cloud.trace) <= cloud.trace
    ensures Disciplined(lease, old(cloud.sends), cloud.sends) && cloud.finishes == old(cloud.finishes)
    ensures failure.Some? ==> failure.value in if lease.action == Cancel then CANCELLATION_FAILURES else {"reactivation_action_mismatch"}
    ensures failure == Some(CONFLICT) ==> cloud.lastRead.Some? && ThirdAddress(cloud.lastRead, lease)
    ensures var w := old(cloud.world);
            old(cloud.script) == [] && lease.action == Cancel && lease.email.Real? && ThirdAddress(w.user, lease) ==>
              failure == Some(CONFLICT) && cloud.script == [] && cloud.world == w && cloud.sends == old(cloud.sends)
    ensures failure.None? ==> cloud.lastRead.Some? ==> cloud.lastRead.value.email == Marker
    ensures var w := old(cloud.world);
            old(cloud.script) == [] && LeaseOf(w, lease) && lease.action == Cancel && Inv(w)
            && (w.user.Some? ==> w.user.value.email == Marker || w.user.value.email == lease.email) ==>
              && failure.None? && cloud.script == []
              && (cloud.world == w || cloud.world == w.(user := Some(User(Marker, Some(FenceFor(lease))))))
              && (cloud.world.user.Some? ==> cloud.world.user.value.email == Marker)
  {
    if lease.action != Cancel {
      return Some("reactivation_action_mismatch");
    }
    var expected, marker := lease.email, Marker;
    if expected == marker {
      return Some("invalid_reactivation_email");
    }
    var current := ReadAuth(cloud, lease);
    if current.Err? {
      return Some(current.error);
    }
    if current.value.None? || current.value.value.email == marker {
      return None;
    }
    if current.value.value.email != expected {
      return Some(CONFLICT);
    }
    if !ExactFence(current.value.value, lease) {
      current := StageFence(cloud, lease);
      if current.Err? {
        return Some(current.error);
      }
    }
    if current.value.None? || current.value.value.email == marker {
      return None;
    }
    failure := UpdateAndObserve(cloud, lease);
  }

  /** The success finish: accepted only with the status that belongs to this lease's action. */
  method FinishSuccess(cloud: Cloud, lease: Lease) returns (failure: Option<string>)
    requires cloud.Valid()
    modifies cloud
    ensures cloud.Valid() && old(cloud.trace) <= cloud.trace && cloud.sends == old(cloud.sends)
    ensures cloud.finishes == old(cloud.finishes) + [OfJob(lease, None)]
    ensures failure.None? ==> ReachedTerminal(cloud.world, lease)
    ensures var w := old(cloud.world);
            OnlyAnswerLost(old(cloud.script)) && LeaseOf(w, lease) && FinishAllowed(w, lease, true) ==>
              && cloud.script == [] && cloud.world == Finish(w, lease, true)
              && (failure.None? || old(cloud.script) != [])
  {
    ghost var at := Run(cloud.world, Head(cloud.script).before);
    ghost var after := Head(cloud.script).after;
    var status := cloud.FinishReactivation(lease, None);
    if status.Err? {
      return Some(status.error);
    }
    if (lease.action == Activate && status.value != Completed) || (lease.action == Cancel && status.value != Cancelled) {
      return Some("invalid_reactivation_finish_status");
    }
    TerminalIsFinal(Finish(at, lease, true), after, lease.requestId);
    return None;
  }

  ghost predicate ReachedTerminal(w: World, l: Lease) {
    if l.action == Activate then IsCompleted(w, l.requestId) else IsCancelled(w, l.requestId)
  }

  /** After a finish whose answer was lost, the durable status may still prove the outcome. */
  method RecoverTerminalStatus(cloud: Cloud, lease: Lease) returns (proved: bool)
    requires cloud.Valid()
    modifies cloud
    ensures cloud.Valid() && old(cloud.trace) <= cloud.trace && cloud.sends == old(cloud.sends) && cloud.finishes == old(cloud.finishes)
    ensures proved ==> ReachedTerminal(cloud.world, lease)
    ensures var w := old(cloud.world);
            old(cloud.script) == [] && ReachedTerminal(w, lease) && w.jobs[lease.requestId].adminId == lease.adminId ==>
              proved
  {
    ghost var at := Run(cloud.world, Head(cloud.script).before);
    ghost var after := Head(cloud.script).after;
    var status := cloud.ReadStatus(lease.requestId, lease.adminId);
    proved := status.Ok? && ((lease.action == Activate && status.value == Completed)
                             || (lease.action == Cancel && status.value == Cancelled));
    if proved {
      TerminalIsFinal(at, after, lease.requestId);
    }
  }

  /** Reports the failure to the server; the retry counts as recorded only on the server's answer. */
  method RecordRetry(cloud: Cloud, lease: Lease, failure: string) returns (o: Outcome)
    requires cloud.Valid()
    modifies cloud
    ensures cloud.Valid() && old(cloud.trace) <= cloud.trace && cloud.sends == old(cloud.sends)
    ensures cloud.finishes == old(cloud.finishes) + [OfJob(lease, Some(failure))]
    ensures o.PendingOutcome? && o == PendingOutcome(lease.requestId, lease.attempts, failure, o.retryRecorded)
    ensures o.retryRecorded <==>
              Head(old(cloud.script)).transport.Delivered? && LiveLease(Run(old(cloud.world), Head(old(cloud.script)).before), lease)
    ensures o.retryRecorded ==> RetryRecorded(cloud.start, cloud.trace, |old(cloud.trace)|, lease)
    ensures old(cloud.script) == [] ==> cloud.script == [] && cloud.world == Finish(old(cloud.world), lease, false)
  {
    ghost var before := cloud.trace + Head(cloud.script).before;
    SplitRun(cloud.start, cloud.trace, Head(cloud.script).before);
    var status := cloud.FinishReactivation(lease, Some(failure));
    o := PendingOutcome(lease.requestId, lease.attempts, failure, status.Ok? && status.value == Pending);
    if o.retryRecorded {
      FinishRecordsRetry(cloud.start, before, Head(old(cloud.script)).after, |old(cloud.trace)|, lease);
    }
  }

  /** The lease that this claim hands out. */
  predicate ClaimedLease(w: World, l: Lease) {
    Claim(w, l.requestId).1 == Some(l)
  }

  predicate Reports(o: Outcome, l: Lease) {
    o == TerminalOutcome(l) || (o.PendingOutcome? && o.requestId == l.requestId && o.attempts == l.attempts)
  }

  predicate RetryClaimed(o: Outcome) {
    o.PendingOutcome? && o.retryRecorded
  }

  /** The failure finish of an attempt: none once the deadline has passed. */
  function RetryCalls(o: Outcome, l: Lease): seq<Finishing> {
    if o.PendingOutcome? && o.failure != DEADLINE then [OfJob(l, Some(o.failure))] else []
  }

  /** An attempt calls the success finish at most once, and then reports the failure that it returns. */
  predicate FinishesLease(l: Lease, o: Outcome, before: seq<Finishing>, after: seq<Finishing>) {
    || after == before + [OfJob(l, None)] + RetryCalls(o, l)
    || (o.PendingOutcome? && after == before + if l.preflight.Some? then [OfJob(l, l.preflight)] else RetryCalls(o, l))
  }

  /** What keeps an undisturbed attempt from its end. */
  function Obstacle(w: World, l: Lease): Option<string> {
    if l.preflight.Some? then l.preflight
    else if l.action == Activate && w.user.None? then Some(MISSING)
    else if ThirdAddress(w.user, l) then Some(CONFLICT)
    else None
  }

  function TerminalOutcome(l: Lease): Outcome {
    if l.action == Activate then CompletedOutcome(l.requestId, l.attempts)
    else CancelledOutcome(l.requestId, l.attempts)
  }

  /** Nothing but interference can keep an attempt at job q from its terminal state. */
  predicate Able(w: World, q: nat) {
    && IsLive(w, q)
    && ExpectedLifecycle(w, w.jobs[q])
    && (if w.jobs[q].cancelRequested then
          w.user.Some? ==> w.user.value.email == Marker || w.user.value.email == w.jobs[q].email
        else OnTrack(w, q))
  }

  /** Finishes a lease whose Auth side is proved.  A lost answer is recovered from the status. */
  method SettleLease(cloud: Cloud, lease: Lease) returns (o: Outcome)
    requires cloud.Valid()
    modifies cloud
    ensures cloud.Valid() && old(cloud.trace) <= cloud.trace && cloud.sends == old(cloud.sends)
    ensures o == TerminalOutcome(lease) ==> ReachedTerminal(cloud.world, lease)
    ensures Reports(o, lease) && (RetryClaimed(o) ==> RetryRecorded(cloud.start, cloud.trace, |old(cloud.trace)|, lease))
    ensures cloud.finishes == old(cloud.finishes) + [OfJob(lease, None)] + RetryCalls(o, lease)
    ensures var w := old(cloud.world);
            OnlyAnswerLost(old(cloud.script)) && LeaseOf(w, lease) && FinishAllowed(w, lease, true) ==>
              o == TerminalOutcome(lease)
  {
    var failure := FinishSuccess(cloud, lease);
    if failure.None? {
      return TerminalOutcome(lease);
    }
    var proved := RecoverTerminalStatus(cloud, lease);
    if proved {
      return TerminalOutcome(lease);
    }
    if failure.value == DEADLINE {
      return PendingOutcome(lease.requestId, lease.attempts, failure.value, false);
    }
    o := RecordRetry(cloud, lease, failure.value);
  }

  method EnsureAuthEmail(cloud: Cloud, lease: Lease) returns (failure: Option<string>)
    requires cloud.Valid()
    modifies cloud
    ensures cloud.Valid() && old(cloud.trace) <= cloud.trace
    ensures Disciplined(lease, old(cloud.sends), cloud.sends) && cloud.finishes == old(cloud.finishes)
    ensures var w := old(cloud.world);
            old(cloud.script) == [] && Inv(w) && LeaseOf(w, lease) && Able(w, lease.requestId) ==>
              failure.None? && cloud.script == [] && LeaseOf(cloud.world, lease) && FinishAllowed(cloud.world, lease, true)
    ensures var w := old(cloud.world);
            old(cloud.script) == [] && Inv(w) && LeaseOf(w, lease) && lease.preflight.None? && Obstacle(w, lease).Some? ==>
              failure == Obstacle(w, lease) && cloud.script == [] && cloud.world == w && cloud.sends == old(cloud.sends)
  {
    if lease.action == Activate {
      failure := EnsureReceiptBoundAuthEmail(cloud, lease);
    } else {
      failure := EnsureCancelledAuthEmail(cloud, lease);
    }
  }

  method ProcessLease(cloud: Cloud, lease: Lease) returns (o: Outcome)
    requires cloud.Valid()
    modifies cloud
    ensures cloud.Valid() && old(cloud.trace) <= cloud.trace
    ensures Disciplined(lease, old(cloud.sends), cloud.sends)
    ensures o == TerminalOutcome(lease) ==> ReachedTerminal(cloud.world, lease)
    ensures Reports(o, lease) && (RetryClaimed(o) ==> RetryRecorded(cloud.start, cloud.trace, |old(cloud.trace)|, lease))
    ensures FinishesLease(lease, o, old(cloud.finishes), cloud.finishes)
    ensures lease.preflight.Some? ==>
              && o.PendingOutcome? && o.failure == lease.preflight.value && cloud.sends == old(cloud.sends)
              && cloud.finishes == old(cloud.finishes) + [OfJob(lease, lease.preflight)]
    // Left alone, a lease that nothing stands against ends its job ...
    ensures var w := old(cloud.world);
            old(cloud.script) == [] && Inv(w) && LeaseOf(w, lease) && lease.preflight.None? && Able(w, lease.requestId) ==>
              o == TerminalOutcome(lease)
    // ... and one that something stands against is put off, with exactly that failure recorded.
    ensures var w := old(cloud.world);
            old(cloud.script) == [] && Inv(w) && LeaseOf(w, lease) && Obstacle(w, lease).Some? ==>
              && o == PendingOutcome(lease.requestId, lease.attempts, Obstacle(w, lease).value, true)
              && cloud.world == Finish(w, lease, false) && PutOff(w, cloud.world, lease) && cloud.sends == old(cloud.sends)
  {
    if lease.preflight.Some? {
      o := RecordRetry(cloud, lease, lease.preflight.value);
      return;
    }

    var failure := EnsureAuthEmail(cloud, lease);
    if failure.Some? {
      if failure.value == DEADLINE {
        return PendingOutcome(lease.requestId, lease.attempts, failure.value, false);
      }
      o := RecordRetry(cloud, lease, failure.value);
      return;
    }

    o := SettleLease(cloud, lease);
  }

  /** What stands against job q, if it is claimed now and nothing else happens. */
  function ObstacleFor(w: World, q: nat): Option<string>
    requires q in w.jobs
  {
    var j := w.jobs[q];
    if Preflight(w, j).Some? then Preflight(w, j)
    else if w.user.Some? && w.user.value.email != Marker && w.user.value.email != j.email then Some(CONFLICT)
    else None
  }

  lemma ClaimOfDueJob(w: World, q: nat)
    requires Inv(w) && Claimable(w, q)
    ensures var (w', l) := Claim(w, q);
            && l.Some? && l.value.requestId == q && l.value.attempts == w.jobs[q].attempts + 1
            && l.value.action == ActionOf(w.jobs[q]) && l.value.preflight == Preflight(w, w.jobs[q])
            && Inv(w') && LeaseOf(w', l.value) && Obstacle(w', l.value) == ObstacleFor(w, q)
            && (ObstacleFor(w, q).None? ==> Able(w', q))
  {
    ClaimKeepsInv(w, q);
  }

  /** What is true of the attempt at this lease. */
  ghost predicate Attempted(l: Lease, o: Outcome, sends: seq<Send>, sends': seq<Send>,
                            finishes: seq<Finishing>, finishes': seq<Finishing>)
  {
    && Reports(o, l)
    && Disciplined(l, sends, sends') && FinishesLease(l, o, finishes, finishes')
    && (l.preflight.Some? ==> o.PendingOutcome? && o.failure == l.preflight.value && sends' == sends
                              && finishes' == finishes + [OfJob(l, l.preflight)])
  }

  /** The undisturbed attempt at job q: it ends the job, or puts it off with what stands against it. */
  predicate Alone(w: World, q: nat, o: Outcome, w': World)
    requires q in w.jobs && q in w'.jobs
  {
    var j := w.jobs[q];
    match ObstacleFor(w, q)
    case None =>
      if j.cancelRequested then o == CancelledOutcome(q, j.attempts + 1) && w'.jobs[q].status == Cancelled
      else o == CompletedOutcome(q, j.attempts + 1) && w'.jobs[q].status == Completed
    case Some(failure) =>
      && o == PendingOutcome(q, j.attempts + 1, failure, true)
      && w'.jobs[q] == j.(status := Pending, version := j.version + 1, attempts := j.attempts + 1,
                          nextAttempt := w.now + Backoff(j.attempts + 1))
      && w'.user == w.user
  }

  lemma AloneAfterLease(w: World, claimed: World, l: Lease, o: Outcome, w': World)
    requires Inv(w) && Claimable(w, l.requestId) && Claim(w, l.requestId) == (claimed, Some(l))
    requires Obstacle(claimed, l).None? ==> o == TerminalOutcome(l) && ReachedTerminal(w', l)
    requires Obstacle(claimed, l).Some? ==>
               && o == PendingOutcome(l.requestId, l.attempts, Obstacle(claimed, l).value, true)
               && w' == Finish(claimed, l, false) && PutOff(claimed, w', l)
    ensures l.requestId in w'.jobs && Alone(w, l.requestId, o, w')
  {
    ClaimOfDueJob(w, l.requestId);
  }

  /**
   Claims one due job and carries it as far as the services allow.  The last clauses are the
   convergence of the saga: an attempt that nothing disturbs ends the job, whatever earlier
   attempts with lost answers, expired leases or crashes have left behind, or records what
   stands against it.
   */
  method ProcessAccountReactivationJob(cloud: Cloud, want: Option<nat>) returns (r: Result<Outcome, string>)
    requires cloud.Valid()
    modifies cloud
    ensures cloud.Valid() && old(cloud.trace) + Head(old(cloud.script)).before <= cloud.trace
    ensures r.Err? || r.value.Idle? ==> cloud.sends == old(cloud.sends) && cloud.finishes == old(cloud.finishes)
    ensures r.Err? ==> !Head(old(cloud.script)).transport.Delivered?
    ensures var at := Run(old(cloud.world), Head(old(cloud.script)).before);
            r == Ok(Idle) ==> forall q :: Wanted(want, q) ==> !Claimable(at, q)
    ensures var at := Run(old(cloud.world), Head(old(cloud.script)).before);
            r.Ok? && !r.value.Idle? ==>
              exists l: Lease ::
                && ClaimedLease(at, l) && Attempted(l, r.value, old(cloud.sends), cloud.sends, old(cloud.finishes), cloud.finishes)
                && (RetryClaimed(r.value) ==> RetryRecorded(cloud.start, cloud.trace, |old(cloud.trace)|, l))
    ensures r.Ok? && r.value.CompletedOutcome? ==> IsCompleted(cloud.world, r.value.requestId)
    ensures r.Ok? && r.value.CancelledOutcome? ==> IsCancelled(cloud.world, r.value.requestId)
    ensures var w := old(cloud.world);
            old(cloud.script) == [] ==>
              forall q: nat :: Wanted(want, q) && Claimable(w, q) ==>
                r.Ok? && q in cloud.world.jobs && Alone(w, q, r.value, cloud.world)
  {
    ghost var w := cloud.world;
    var claim := ClaimForJob(cloud, want);
    if claim.Err? {
      return Err(claim.error);
    }
    if claim.value.None? {
      return Ok(Idle);
    }
    var lease := claim.value.value;
    ghost var later := |cloud.trace|;
    var o := AttemptJob(cloud, lease, w);
    if RetryClaimed(o) {
      RetryStaysRecorded(cloud.start, cloud.trace, cloud.trace, |old(cloud.trace)|, later, lease);
    }
    return Ok(o);
  }

  method ClaimForJob(cloud: Cloud, want: Option<nat>) returns (r: Result<Option<Lease>, string>)
    requires cloud.Valid()
    modifies cloud
    ensures cloud.Valid() && Inv(old(cloud.world)) && old(cloud.trace) + Head(old(cloud.script)).before <= cloud.trace
    ensures cloud.script == Rest(old(cloud.script)) && cloud.sends == old(cloud.sends) && cloud.finishes == old(cloud.finishes)
    ensures r.Err? ==> !Head(old(cloud.script)).transport.Delivered?
    ensures var at := Run(old(cloud.world), Head(old(cloud.script)).before);
            && (r == Ok(None) ==> forall q :: Wanted(want, q) ==> !Claimable(at, q))
            && (r.Ok? && r.value.Some? ==> ClaimedLease(at, r.value.value))
    ensures old(cloud.script) == [] ==>
              forall q :: Claimable(old(cloud.world), q) && Wanted(want, q) ==>
                r == Ok(Claim(old(cloud.world), q).1) && r.value.Some? && r.value.value.requestId == q
                && cloud.world == Claim(old(cloud.world), q).0
  {
    cloud.Reachable();
    RunKeepsInv(cloud.world, Head(cloud.script).before);
    r := cloud.ClaimReactivation(want);
  }

  /** The attempt that a claim at world w has started. */
  method AttemptJob(cloud: Cloud, lease: Lease, ghost w: World) returns (o: Outcome)
    requires cloud.Valid()
    modifies cloud
    ensures cloud.Valid() && old(cloud.trace) <= cloud.trace
    ensures Attempted(lease, o, old(cloud.sends), cloud.sends, old(cloud.finishes), cloud.finishes)
    ensures RetryClaimed(o) ==> RetryRecorded(cloud.start, cloud.trace, |old(cloud.trace)|, lease)
    ensures o.CompletedOutcome? ==> IsCompleted(cloud.world, o.requestId)
    ensures o.CancelledOutcome? ==> IsCancelled(cloud.world, o.requestId)
    ensures old(cloud.script) == [] && Inv(w) && Claimable(w, lease.requestId) && Claim(w, lease.requestId) == (old(cloud.world), Some(lease)) ==>
              lease.requestId in cloud.world.jobs && Alone(w, lease.requestId, o, cloud.world)
  {
    ghost var claimed, script := cloud.world, cloud.script;
    ghost var lone := script == [] && Inv(w) && Claimable(w, lease.requestId) && Claim(w, lease.requestId) == (claimed, Some(lease));
    if lone {
      ClaimOfDueJob(w, lease.requestId);
    }
    o := ProcessLease(cloud, lease);
    if lone {
      AloneAfterLease(w, claimed, lease, o, cloud.world);
    }
  }
}
