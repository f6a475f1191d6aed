/**
 The legacy repair worker, and where it does not converge.  A repair attempt that finds the
 address already restored returns before it arms its fence, but the finish transaction
 demands the exact fence of the current lease.  So an attempt that is left alone completes
 exactly when it starts from the marker, and a repair whose address was restored by an earlier
 attempt that died before its finish is retried for ever.
 */
module ReactivationRepair {
  import opened Wrappers
  import opened ReactivationWorld
  import opened ReactivationSafety
  import opened ReactivationTheorems
  import opened ReactivationCloud

  datatype RepairOutcome =
    | RepairIdle
    | RepairCompleted(repairId: nat)
    | RepairWasSuperseded(repairId: nat)
    | RepairPending(repairId: nat, failure: string, retryRecorded: bool)

  predicate ExactRepairFence(u: User, l: RepairLease) {
    u.fence == Some(RepairFenceFor(l))
  }

  ghost predicate DisciplinedRepair(l: RepairLease, before: seq<Send>, after: seq<Send>) {
    after == before || after == before + [Send(l.email, Some(User(Marker, Some(RepairFenceFor(l)))))]
  }

  // ---------------------------------------------------------------- what a recorded retry is

  /** The finish found the lease live and put its repair off, with all counters kept. */
  predicate RepairPutOff(w: World, w': World, l: RepairLease) {
    && LiveRepairLease(w, l) && l.repairId in w'.repairs
    && w'.repairs[l.repairId]
       == w.repairs[l.repairId].(status := Pending, nextAttempt := w.now + Backoff(w.repairs[l.repairId].attempts))
  }

  /** Among the events from `from` on is a failure finish of this lease that put its repair off. */
  ghost predicate RepairRetryRecorded(start: World, trace: seq<Event>, from: nat, l: RepairLease) {
    exists k :: from <= k < |trace| && trace[k] == FinishLegacy(l, false) && RepairPutOff(Run(start, trace[..k]), Run(start, trace[..k + 1]), l)
  }

  lemma RepairRetryStaysRecorded(start: World, trace: seq<Event>, trace': seq<Event>, from: nat, later: nat, l: RepairLease)
    requires trace <= trace' && from <= later && RepairRetryRecorded(start, trace, later, l)
    ensures RepairRetryRecorded(start, trace', from, l)
  {
    var k :| later <= k < |trace| && trace[k] == FinishLegacy(l, false)
             && RepairPutOff(Run(start, trace[..k]), Run(start, trace[..k + 1]), l);
    assert trace'[k] == trace[k] && trace'[..k] == trace[..k] && trace'[..k + 1] == trace[..k + 1];
  }

  lemma FinishRecordsRepairRetry(start: World, before: seq<Event>, after: seq<Event>, from: nat, l: RepairLease)
    requires from <= |before| && LiveRepairLease(Run(start, before), l)
    ensures RepairRetryRecorded(start, before + [FinishLegacy(l, false)] + after, from, l)
  {
    var trace, k := before + [FinishLegacy(l, false)] + after, |before|;
    assert trace[..k] == before && trace[..k + 1] == before + [FinishLegacy(l, false)] && trace[k] == FinishLegacy(l, false);
    SplitRun(start, before, [FinishLegacy(l, false)]);
    var w := Run(start, before);
    OneEvent(w, FinishLegacy(l, false));
    FailurePutsOff(w, l);
    assert RepairPutOff(Run(start, trace[..k]), Run(start, trace[..k + 1]), l);
  }

  lemma FailurePutsOff(w: World, l: RepairLease)
    requires LiveRepairLease(w, l)
    ensures RepairPutOff(w, Step(w, FinishLegacy(l, false)), l)
  {
  }

  predicate RepairRetryClaimed(o: RepairOutcome) {
    o.RepairPending? && o.retryRecorded
  }

  /** The failure finish of an attempt: none once the deadline has passed. */
  function RepairRetryCalls(o: RepairOutcome, l: RepairLease): seq<Finishing> {
    if o.RepairPending? && o.failure != DEADLINE then [OfRepair(l, Some(o.failure))] else []
  }

  /** An attempt calls the success finish at most once, and then reports the failure that it returns. */
  predicate FinishesRepair(l: RepairLease, o: RepairOutcome, before: seq<Finishing>, after: seq<Finishing>) {
    || after == before + [OfRepair(l, None)] + RepairRetryCalls(o, l)
    || (o.RepairPending? && after == before + if l.preflight.Some? then [OfRepair(l, l.preflight)] else RepairRetryCalls(o, l))
  }

  const REPAIR_CONFLICT := "legacy_repair_auth_identity_conflict"
  const FINISH_REFUSED := "account.reactivation.legacy_repair.finish"

  /** What keeps an undisturbed attempt under a new lease from its end. */
  function RepairObstacle(w: World, l: RepairLease): Option<string>
    requires w.user.Some?
  {
    if l.preflight.Some? then l.preflight
    else if w.user.value.email == l.email then Some(FINISH_REFUSED)
    else if w.user.value.email != Marker then Some(REPAIR_CONFLICT)
    else None
  }

  // ---------------------------------------------------------------- one attempt

  method ReadAuthUser(cloud: Cloud) returns (r: Result<User, string>)
    requires cloud.Valid()
    modifies cloud
    ensures cloud.Valid() && cloud.script == Rest(old(cloud.script)) && old(cloud.trace) <= cloud.trace
    ensures cloud.sends == old(cloud.sends) && cloud.finishes == old(cloud.finishes) && (r.Ok? ==> cloud.lastRead == Some(r.value))
    ensures old(cloud.script) == [] ==> cloud.world == old(cloud.world)
    ensures old(cloud.script) == [] && old(cloud.world.user).Some? ==> r == Ok(old(cloud.world.user.value))
    ensures r.Ok? ==> Head(old(cloud.script)).transport.Delivered?
    ensures r.Err? && Head(old(cloud.script)).transport.Delivered? ==> r.error == MISSING && cloud.lastRead == None
    ensures r.Err? ==> r.error in {READ, DEADLINE, MISSING}
  {
    var answer := cloud.GetUser();
    r := if answer.Err? then Err(answer.error)
         else if answer.value.None? then Err(MISSING)
         else Ok(answer.value.value);
  }

  /** Nothing but the address and the fence stands between this lease and its finish. */
  ghost predicate RepairAble(w: World, l: RepairLease) {
    && LiveRepairLease(w, l)
    && l.email == w.repairs[l.repairId].email && l.generation == w.repairs[l.repairId].generation
    && l.email.Real?
    && RepairLifecycle(w, w.repairs[l.repairId])
    && w.member == Some(l.email)
    && w.user.Some?
    && !HasLiveJob(w)
  }

  const FENCE_UNCONFIRMED := "legacy_repair_auth_fence_stage_unconfirmed"
  const FENCE_NOT_OBSERVED := "legacy_repair_auth_fence_stage_not_observed"
  const UPDATE_UNCONFIRMED := "legacy_repair_auth_update_unconfirmed"
  const UPDATE_NOT_OBSERVED := "legacy_repair_auth_email_not_observed"

  /** The server answers the arming. */
  predicate ArmRepairAnswered(w: World, script: seq<Fate>, l: RepairLease) {
    Head(script).transport.Delivered? && ArmRepairAllowed(Run(w, Head(script).before), l)
  }

  /** The server answers the update with the new address. */
  predicate RepairUpdateAnswered(w: World, script: seq<Fate>, l: RepairLease) {
    Head(script).transport.Delivered? && UpdateAllowed(Run(w, Head(script).before), l.email)
  }

  method StageRepairFence(cloud: Cloud, lease: RepairLease) returns (r: Result<User, string>)
    requires cloud.Valid()
    modifies cloud
    ensures cloud.Valid() && old(cloud.trace) <= cloud.trace && cloud.sends == old(cloud.sends) && cloud.finishes == old(cloud.finishes)
    ensures r.Ok? ==> cloud.lastRead == Some(r.value) && ExactRepairFence(r.value, lease)
                      && (r.value.email == Marker || r.value.email == lease.email)
    ensures var w := old(cloud.world);
            old(cloud.script) == [] && RepairAble(w, lease) && w.user.value.email == Marker ==>
              && cloud.script == [] && cloud.world == w.(user := Some(User(Marker, Some(RepairFenceFor(lease)))))
              && r == Ok(cloud.world.user.value)
    ensures r.Err? ==> r.error in {READ, DEADLINE, MISSING, FENCE_UNCONFIRMED, FENCE_NOT_OBSERVED}
    ensures r.Err? ==> (r.error == FENCE_UNCONFIRMED <==> !ArmRepairAnswered(old(cloud.world), old(cloud.script), lease))
    ensures r == Err(FENCE_NOT_OBSERVED) ==> Head(Rest(old(cloud.script))).transport.Delivered? && cloud.lastRead.Some?
  {
    var armed := cloud.ArmRepairFence(lease);
    r := ReadAuthUser(cloud);
    if r.Err? {
      return Err(if !armed then FENCE_UNCONFIRMED else r.error);
    }
    if !ExactRepairFence(r.value, lease) || (r.value.email != Marker && r.value.email != lease.email) {
      return Err(if !armed then FENCE_UNCONFIRMED else FENCE_NOT_OBSERVED);
    }
  }

  /** Sends the one permitted update; only a fresh read of address and fence proves it. */
  method RestoreAndObserve(cloud: Cloud, lease: RepairLease) returns (failure: Option<string>)
    requires cloud.Valid()
    modifies cloud
    ensures cloud.Valid() && old(cloud.trace) <= cloud.trace
    ensures cloud.sends == old(cloud.sends) + [Send(lease.email, old(cloud.lastRead))] && cloud.finishes == old(cloud.finishes)
    ensures failure.None? ==> cloud.lastRead == Some(User(lease.email, Some(RepairFenceFor(lease))))
    ensures var w := old(cloud.world);
            old(cloud.script) == [] && UpdateAllowed(w, lease.email) && ExactRepairFence(w.user.value, lease) ==>
              failure.None? && cloud.script == [] && cloud.world == AuthUpdate(w, lease.email)
    ensures failure.Some? ==> failure.value in {UPDATE_UNCONFIRMED, UPDATE_NOT_OBSERVED}
    ensures failure.Some? ==>
              (failure.value == UPDATE_NOT_OBSERVED <==>
                && RepairUpdateAnswered(old(cloud.world), old(cloud.script), lease)
                && Head(Rest(old(cloud.script))).transport.Delivered? && cloud.lastRead.Some?)
  {
    var update := cloud.UpdateUser(lease.email);
    var updateFailure := update.Err? || update.value.None? || update.value.value.email != lease.email;
    var observed := ReadAuthUser(cloud);
    if observed.Ok? {
      if observed.value.email == lease.email && ExactRepairFence(observed.value, lease) {
        return None;
      }
    } else {
      updateFailure := true;
    }
    return Some(if updateFailure then UPDATE_UNCONFIRMED else UPDATE_NOT_OBSERVED);
  }

  const REPAIR_FAILURES: set<string> := {
    "invalid_legacy_repair_email", REPAIR_CONFLICT, READ, DEADLINE, MISSING,
    FENCE_UNCONFIRMED, FENCE_NOT_OBSERVED, UPDATE_UNCONFIRMED, UPDATE_NOT_OBSERVED }

  method EnsureLegacyRepairAuthEmail(cloud: Cloud, lease: RepairLease) returns (failure: Option<string>)
    requires cloud.Valid()
    modifies cloud
    ensures cloud.Valid() && old(cloud.trace) <= cloud.trace
    ensures DisciplinedRepair(lease, old(cloud.sends), cloud.sends) && cloud.finishes == old(cloud.finishes)
    ensures failure.None? ==> cloud.lastRead.Some? && cloud.lastRead.value.email == lease.email
    ensures failure == Some(REPAIR_CONFLICT) ==>
              cloud.lastRead.Some? && cloud.lastRead.value.email != lease.email && cloud.lastRead.value.email != Marker
    ensures failure == Some("invalid_legacy_repair_email") <==> lease.email == Marker
    ensures failure.Some? ==> failure.value in REPAIR_FAILURES
    ensures var w := old(cloud.world);
            old(cloud.script) == [] && RepairAble(w, lease) && w.user.value.email == Marker ==>
              failure.None? && cloud.script == [] && cloud.world == w.(user := Some(User(lease.email, Some(RepairFenceFor(lease)))))
    ensures var w := old(cloud.world);
            old(cloud.script) == [] && RepairAble(w, lease) && w.user.value.email == lease.email ==>
              failure.None? && cloud.script == [] && cloud.world == w
    ensures var w := old(cloud.world);
            old(cloud.script) == [] && RepairAble(w, lease) && w.user.value.email != Marker && w.user.value.email != lease.email ==>
              failure == Some(REPAIR_CONFLICT) && cloud.script == [] && cloud.world == w
  {
    var expected, marker := lease.email, Marker;
    if expected == marker {
      return Some("invalid_legacy_repair_email");
    }
    var current := ReadAuthUser(cloud);
    if current.Err? {
      return Some(current.error);
    }
    if current.value.email == expected {
      return None;
    }
    if current.value.email != marker {
      return Some(REPAIR_CONFLICT);
    }
    if !ExactRepairFence(current.value, lease) {
      current := StageRepairFence(cloud, lease);
      if current.Err? {
        return Some(current.error);
      }
    }
    if current.value.email == expected {
      return None;
    }

    failure := RestoreAndObserve(cloud, lease);
  }

  /** Reports the failure to the server; the retry counts as recorded only on the server's answer. */
  method RecordLegacyRetry(cloud: Cloud, lease: RepairLease, failure: string) returns (o: RepairOutcome)
    requires cloud.Valid()
    modifies cloud
    ensures cloud.Valid() && old(cloud.trace) <= cloud.trace && cloud.sends == old(cloud.sends)
    ensures cloud.finishes == old(cloud.finishes) + [OfRepair(lease, Some(failure))]
    ensures o.RepairPending? && o == RepairPending(lease.repairId, failure, o.retryRecorded)
    ensures o.retryRecorded <==>
              Head(old(cloud.script)).transport.Delivered? && LiveRepairLease(Run(old(cloud.world), Head(old(cloud.script)).before), lease)
    ensures o.retryRecorded ==> RepairRetryRecorded(cloud.start, cloud.trace, |old(cloud.trace)|, lease)
    ensures old(cloud.script) == [] ==> cloud.script == [] && cloud.world == FinishRepair(old(cloud.world), lease, false)
  {
    ghost var before := cloud.trace + Head(cloud.script).before;
    SplitRun(cloud.start, cloud.trace, Head(cloud.script).before);
    var status := cloud.FinishLegacyRepair(lease, Some(failure));
    o := RepairPending(lease.repairId, failure, status.Ok? && status.value == RepairRetry);
    if o.retryRecorded {
      FinishRecordsRepairRetry(cloud.start, before, Head(old(cloud.script)).after, |old(cloud.trace)|, lease);
    }
  }

  /** A repair, once retired or completed, stays so. */
  lemma RepairStatusIsFinal(w: World, es: seq<Event>, id: nat)
    requires id in w.repairs && Terminal(w.repairs[id].status)
    ensures id in Run(w, es).repairs && Run(w, es).repairs[id] == w.repairs[id]
    decreases |es|
  {
    if es != [] {
      RepairStepKeepsTerminal(w, es[0], id);
      RepairStatusIsFinal(Step(w, es[0]), es[1..], id);
    }
  }

  lemma RepairStepKeepsTerminal(w: World, e: Event, id: nat)
    requires id in w.repairs && Terminal(w.repairs[id].status)
    ensures id in Step(w, e).repairs && Step(w, e).repairs[id] == w.repairs[id]
  {
  }

  method ProcessRepairLease(cloud: Cloud, lease: RepairLease) returns (o: RepairOutcome)
    requires cloud.Valid()
    modifies cloud
    ensures cloud.Valid() && old(cloud.trace) <= cloud.trace
    ensures DisciplinedRepair(lease, old(cloud.sends), cloud.sends)
    ensures !o.RepairIdle? && o.repairId == lease.repairId
    ensures RepairRetryClaimed(o) ==> RepairRetryRecorded(cloud.start, cloud.trace, |old(cloud.trace)|, lease)
    ensures FinishesRepair(lease, o, old(cloud.finishes), cloud.finishes)
    ensures lease.preflight.Some? ==>
              && o.RepairPending? && o.failure == lease.preflight.value && cloud.sends == old(cloud.sends)
              && cloud.finishes == old(cloud.finishes) + [OfRepair(lease, lease.preflight)]
    ensures var w := old(cloud.world);
            old(cloud.script) == [] && LiveRepairLease(w, lease) && lease.preflight.Some? ==>
              && o == RepairPending(lease.repairId, lease.preflight.value, true)
              && cloud.world == FinishRepair(w, lease, false) && RepairPutOff(w, cloud.world, lease)
    ensures o.RepairCompleted? ==> lease.repairId in cloud.world.repairs && cloud.world.repairs[lease.repairId].status.Completed?
    ensures o.RepairWasSuperseded? ==> lease.repairId in cloud.world.repairs && cloud.world.repairs[lease.repairId].status.Superseded?
    // Left alone, an attempt under a new lease completes if and only if it starts from the marker.
    ensures var w := old(cloud.world);
            old(cloud.script) == [] && RepairAble(w, lease) && lease.preflight.None? && !ExactRepairFence(w.user.value, lease) ==>
              && (o.RepairCompleted? <==> w.user.value.email == Marker)
              && (w.user.value.email != Marker ==>
                    && o == RepairPending(lease.repairId, RepairObstacle(w, lease).value, true)
                    && cloud.script == [] && cloud.world == FinishRepair(w, lease, false) && RepairPutOff(w, cloud.world, lease))
  {
    if lease.preflight.Some? {
      o := RecordLegacyRetry(cloud, lease, lease.preflight.value);
      return;
    }
    var failure := EnsureLegacyRepairAuthEmail(cloud, lease);
    if failure.Some? {
      if failure.value == DEADLINE {
        return RepairPending(lease.repairId, failure.value, false);
      }
      o := RecordLegacyRetry(cloud, lease, failure.value);
      return;
    }
    o := SettleRepair(cloud, lease);
  }

  method SettleRepair(cloud: Cloud, lease: RepairLease) returns (o: RepairOutcome)
    requires cloud.Valid()
    modifies cloud
    ensures cloud.Valid() && old(cloud.trace) <= cloud.trace && cloud.sends == old(cloud.sends)
    ensures !o.RepairIdle? && o.repairId == lease.repairId
    ensures RepairRetryClaimed(o) ==> RepairRetryRecorded(cloud.start, cloud.trace, |old(cloud.trace)|, lease)
    ensures cloud.finishes == old(cloud.finishes) + [OfRepair(lease, None)] + RepairRetryCalls(o, lease)
    ensures o.RepairCompleted? ==> lease.repairId in cloud.world.repairs && cloud.world.repairs[lease.repairId].status.Completed?
    ensures o.RepairWasSuperseded? ==> lease.repairId in cloud.world.repairs && cloud.world.repairs[lease.repairId].status.Superseded?
    ensures var w := old(cloud.world);
            old(cloud.script) == [] && RepairAble(w, lease) && w.user.value.email == lease.email ==>
              && (o.RepairCompleted? <==> ExactRepairFence(w.user.value, lease))
              && (!o.RepairCompleted? ==>
                    && o == RepairPending(lease.repairId, FINISH_REFUSED, true)
                    && cloud.script == [] && cloud.world == FinishRepair(w, lease, false) && RepairPutOff(w, cloud.world, lease))
  {
    ghost var at, after := Run(cloud.world, Head(cloud.script).before), Head(cloud.script).after;
    var finished := cloud.FinishLegacyRepair(lease, None);
    if finished.Ok? {
      RepairStatusIsFinal(FinishRepair(at, lease, true), after, lease.repairId);
      return if finished.value.RepairDone? then RepairCompleted(lease.repairId) else RepairWasSuperseded(lease.repairId);
    }
    at, after := Run(cloud.world, Head(cloud.script).before), Head(cloud.script).after;
    var status := cloud.ReadRepairStatus(lease.repairId);
    if status.Ok? && (status.value.Completed? || status.value.Superseded?) {
      RepairStatusIsFinal(at, after, lease.repairId);
      return if status.value.Completed? then RepairCompleted(lease.repairId) else RepairWasSuperseded(lease.repairId);
    }
    if finished.error == DEADLINE {
      return RepairPending(lease.repairId, finished.error, false);
    }
    o := RecordLegacyRetry(cloud, lease, finished.error);
  }

  // ---------------------------------------------------------------- a repair that never ends

  /** The address is restored, but the fence of every later lease will be missing. */
  ghost predicate RepairStuck(w: World, id: nat) {
    && id in w.repairs && Live(w.repairs[id].status)
    && w.repairs[id].email.Real?
    && RepairLifecycle(w, w.repairs[id])
    && w.member == Some(w.repairs[id].email)
    && w.user.Some? && w.user.value.email == w.repairs[id].email
  }

  ghost predicate RepairClaimable(w: World, id: nat) {
    RepairDue(w, id) && w.repairs[id].version < MAX_INT4 && w.repairs[id].attempts < MAX_INT4
  }

  lemma QuarantineOfClaimable(w: World, id: nat)
    requires RepairClaimable(w, id) && forall k: nat :: RepairDue(w, k) ==> k == id
    ensures QuarantineRepairs(w) == w
  {
    assert QuarantineRepairs(w).repairs == w.repairs;
  }

  predicate ClaimedRepair(w: World, l: RepairLease) {
    ClaimRepair(w, l.repairId).1 == RepairLeased(l)
  }

  /** What one undisturbed attempt makes of a stuck repair. */
  function LoneAttempt(w: World, id: nat): World {
    match ClaimRepair(w, id).1
    case RepairLeased(l) => FinishRepair(ClaimRepair(w, id).0, l, false)
    case _ => w
  }

  function LoneAttempts(w: World, id: nat, waits: seq<nat>): World
    decreases |waits|
  {
    if waits == [] then w
    else LoneAttempts(LoneAttempt(w.(now := w.now + waits[0]), id), id, waits[1..])
  }

  lemma ClaimOfStuckRepair(w: World, id: nat)
    requires Inv(w) && RepairStuck(w, id) && RepairClaimable(w, id)
    ensures ClaimRepair(w, id).1.RepairLeased?
    ensures var (w', c) := ClaimRepair(w, id);
            && c.lease.repairId == id && c.lease.email == w.repairs[id].email && c.lease.preflight.None?
            && RepairAble(w', c.lease) && !ExactRepairFence(w'.user.value, c.lease) && RepairStuck(w', id)
  {
  }

  lemma LoneAttemptKeepsStuck(w: World, id: nat)
    requires RepairStuck(w, id)
    ensures RepairStuck(LoneAttempt(w, id), id)
  {
  }

  /** However often and however late an undisturbed attempt runs, the repair stays unfinished. */
  lemma {:induction false} StuckRepairNeverCompletes(w: World, id: nat, waits: seq<nat>)
    requires RepairStuck(w, id)
    ensures RepairStuck(LoneAttempts(w, id, waits), id)
    decreases |waits|
  {
    if waits != [] {
      var later := w.(now := w.now + waits[0]);
      LoneAttemptKeepsStuck(later, id);
      StuckRepairNeverCompletes(LoneAttempt(later, id), id, waits[1..]);
    }
  }

  const Restored := Real("member")
  const RepairStart := World(0, Some(User(Marker, None)), Some(5), 1, Some(Marker), Some(Restored), false, false, map[], map[], 0)
  const CrashedLease := RepairLease(3, Restored, 1, 0, 1, 1, None)
  // The worker claims, arms and updates; it dies before its finish.
  const CrashedAttempt := [ActivateLegacy(3, Restored), ClaimLegacy(3), ArmLegacy(CrashedLease)]

  /** A run of the ordinary protocol that ends in a stuck repair whose lease has expired. */
  lemma CrashLeavesRepairStuck()
    ensures Initial(RepairStart)
    ensures var w := Run(RepairStart, CrashedAttempt + [UpdateEmail(Restored), Tick(LEASE_SECONDS)]);
            RepairStuck(w, 3) && RepairClaimable(w, 3)
  {
    CrashedAttemptRuns();
    var w := Run(RepairStart, CrashedAttempt);
    var tail := [UpdateEmail(Restored), Tick(LEASE_SECONDS)];
    SplitRun(RepairStart, CrashedAttempt, tail);
    UpdateAndExpire(w);
  }

  /** The repair as the claim left it. */
  const LeasedRepair := Repair(Restored, 1, Leased(0, LEASE_SECONDS), 1, 1, 0)

  lemma CrashedAttemptRuns()
    ensures var w := Run(RepairStart, CrashedAttempt);
            && w.user == Some(User(Marker, Some(RepairFenceFor(CrashedLease)))) && w.repairs == map[3 := LeasedRepair]
            && w.jobs == map[] && w.deletedAt.None? && w.generation == 1 && w.now == 0 && w.member == Some(Restored)
  {
    RunOfThree(RepairStart, CrashedAttempt[0], CrashedAttempt[1], CrashedAttempt[2]);
    var w1 := LegacyActivate(RepairStart, 3, Restored);
    assert w1.repairs == map[3 := Repair(Restored, 1, Pending, 0, 0, 0)];
    var w2 := ClaimRepair(w1, 3).0;
    assert ClaimRepair(w1, 3).1 == RepairLeased(CrashedLease);
    assert w2.repairs[3] == LeasedRepair;
    var w3 := ArmRepair(w2, CrashedLease);
    assert w3.user == Some(User(Marker, Some(RepairFenceFor(CrashedLease))));
  }

  lemma UpdateAndExpire(w: World)
    requires w.user == Some(User(Marker, Some(RepairFenceFor(CrashedLease)))) && w.repairs == map[3 := LeasedRepair]
    requires w.jobs == map[] && w.deletedAt.None? && w.generation == 1 && w.now == 0 && w.member == Some(Restored)
    ensures var w' := Run(w, [UpdateEmail(Restored), Tick(LEASE_SECONDS)]); RepairStuck(w', 3) && RepairClaimable(w', 3)
  {
    assert UpdateAllowed(w, Restored);
    var w1 := AuthUpdate(w, Restored);
    var tail := [UpdateEmail(Restored), Tick(LEASE_SECONDS)];
    assert tail[1..] == [Tick(LEASE_SECONDS)] && tail[1..][1..] == [];
    assert Run(w, tail) == Run(w1, tail[1..]);
    assert Run(w1, tail[1..]) == Run(Step(w1, Tick(LEASE_SECONDS)), []);
    var w2 := Step(w1, Tick(LEASE_SECONDS));
    assert w2.repairs == w.repairs && w2.repairs[3] == LeasedRepair;
    assert w2.user.value.email == Restored && w2.now == LEASE_SECONDS;
  }

  /** What is true of the attempt that this lease starts. */
  ghost predicate RepairAttempted(l: RepairLease, o: RepairOutcome, sends: seq<Send>, sends': seq<Send>,
                                  finishes: seq<Finishing>, finishes': seq<Finishing>)
  {
    && !o.RepairIdle? && o.repairId == l.repairId
    && DisciplinedRepair(l, sends, sends') && FinishesRepair(l, o, finishes, finishes')
    && (l.preflight.Some? ==> o.RepairPending? && o.failure == l.preflight.value && sends' == sends
                              && finishes' == finishes + [OfRepair(l, l.preflight)])
  }

  /** The only due repair is stuck. */
  ghost predicate OnlyStuck(w: World, id: nat) {
    RepairStuck(w, id) && RepairClaimable(w, id) && !HasLiveJob(w) && forall k: nat :: RepairDue(w, k) ==> k == id
  }

  ghost function LoneRepair(w: World): (id: Option<nat>)
    ensures id.Some? ==> OnlyStuck(w, id.value)
    ensures forall k: nat :: OnlyStuck(w, k) ==> id == Some(k)
  {
    if k: nat :| OnlyStuck(w, k) then Some(k) else None
  }

  ghost predicate StuckLease(w: World, l: RepairLease, id: nat) {
    RepairAble(w, l) && l.preflight.None? && l.repairId == id && !ExactRepairFence(w.user.value, l) && w.user.value.email == l.email
  }

  /** After the quarantine no due repair is exhausted. */
  lemma NoneExhausted(w: World)
    ensures var q := QuarantineRepairs(w);
            q.now < QUARANTINE_AT ==> forall id :: RepairDue(q, id) ==> ClaimRepair(q, id).1 != NoRepair
  {
  }

  /** The repair that the claim itself retires. */
  predicate RetiredByClaim(at: World, o: RepairOutcome) {
    o.RepairWasSuperseded? && ClaimRepair(at, o.repairId).1 == RepairSuperseded(o.repairId)
  }

  method AttemptRepair(cloud: Cloud, lease: RepairLease) returns (o: RepairOutcome)
    requires cloud.Valid()
    modifies cloud
    ensures cloud.Valid() && old(cloud.trace) <= cloud.trace
    ensures RepairAttempted(lease, o, old(cloud.sends), cloud.sends, old(cloud.finishes), cloud.finishes)
    ensures RepairRetryClaimed(o) ==> RepairRetryRecorded(cloud.start, cloud.trace, |old(cloud.trace)|, lease)
    ensures RepairEnded(cloud.world, o)
    ensures forall id :: old(cloud.script) == [] && StuckLease(old(cloud.world), lease, id) ==>
              o == RepairPending(id, FINISH_REFUSED, true) && cloud.world == FinishRepair(old(cloud.world), lease, false)
  {
    o := ProcessRepairLease(cloud, lease);
  }

  predicate RepairEnded(w: World, o: RepairOutcome) {
    && (o.RepairCompleted? ==> o.repairId in w.repairs && w.repairs[o.repairId].status.Completed?)
    && (o.RepairWasSuperseded? ==> o.repairId in w.repairs && w.repairs[o.repairId].status.Superseded?)
  }

  method ProcessLegacyAccountReactivationRepair(cloud: Cloud) returns (r: Result<RepairOutcome, string>)
    requires cloud.Valid()
    modifies cloud
    ensures cloud.Valid() && old(cloud.trace) + Head(old(cloud.script)).before <= cloud.trace
    ensures r.Err? || r.value.RepairIdle? ==> cloud.sends == old(cloud.sends) && cloud.finishes == old(cloud.finishes)
    ensures r.Err? ==> !Head(old(cloud.script)).transport.Delivered?
    ensures var at := QuarantineRepairs(Run(old(cloud.world), Head(old(cloud.script)).before));
            r == Ok(RepairIdle) && at.now < QUARANTINE_AT ==> forall id :: !RepairDue(at, id)
    ensures var at := QuarantineRepairs(Run(old(cloud.world), Head(old(cloud.script)).before));
            r.Ok? && !r.value.RepairIdle? ==>
              || (RetiredByClaim(at, r.value) && cloud.sends == old(cloud.sends) && cloud.finishes == old(cloud.finishes))
              || exists l: RepairLease ::
                   && ClaimedRepair(at, l) && RepairAttempted(l, r.value, old(cloud.sends), cloud.sends, old(cloud.finishes), cloud.finishes)
                   && (RepairRetryClaimed(r.value) ==> RepairRetryRecorded(cloud.start, cloud.trace, |old(cloud.trace)|, l))
    ensures r.Ok? ==> RepairEnded(cloud.world, r.value)
    // Left alone with one due repair that is stuck, the attempt is the lone attempt above.
    ensures old(cloud.script) == [] && LoneRepair(old(cloud.world)).Some? ==>
              var id := LoneRepair(old(cloud.world)).value;
              r == Ok(RepairPending(id, FINISH_REFUSED, true)) && cloud.world == LoneAttempt(old(cloud.world), id)
  {
    ghost var at, base := ClaimMoment(cloud), |cloud.trace|;
    var claim := ClaimForRepair(cloud);
    if claim.Err? {
      return Err(claim.error);
    }
    match claim.value
    case NoRepair =>
      return Ok(RepairIdle);
    case RepairSuperseded(id) =>
      return Ok(RepairWasSuperseded(id));
    case RepairLeased(lease) =>
      ghost var later := |cloud.trace|;
      var o := AttemptRepair(cloud, lease);
      if RepairRetryClaimed(o) {
        RepairRetryStaysRecorded(cloud.start, cloud.trace, cloud.trace, base, later, lease);
      }
      return Ok(o);
  }

  /** The world in which the next claim, if it arrives, looks for a repair. */
  ghost function ClaimMoment(cloud: Cloud): World
    reads cloud
  {
    QuarantineRepairs(Run(cloud.world, Head(cloud.script).before))
  }

  method ClaimForRepair(cloud: Cloud) returns (r: Result<RepairClaim, string>)
    requires cloud.Valid()
    modifies cloud
    ensures cloud.Valid() && old(cloud.trace) + Head(old(cloud.script)).before <= cloud.trace
    ensures cloud.sends == old(cloud.sends) && cloud.finishes == old(cloud.finishes)
    ensures r.Err? ==> !Head(old(cloud.script)).transport.Delivered?
    ensures r == Ok(NoRepair) && old(ClaimMoment(cloud)).now < QUARANTINE_AT ==> forall id :: !RepairDue(old(ClaimMoment(cloud)), id)
    ensures r.Ok? && r.value.RepairSuperseded? ==>
              RetiredByClaim(old(ClaimMoment(cloud)), RepairWasSuperseded(r.value.repairId))
              && RepairEnded(cloud.world, RepairWasSuperseded(r.value.repairId))
    ensures r.Ok? && r.value.RepairLeased? ==> ClaimedRepair(old(ClaimMoment(cloud)), r.value.lease)
    ensures old(cloud.script) == [] && LoneRepair(old(cloud.world)).Some? ==>
              var id := LoneRepair(old(cloud.world)).value;
              && r.Ok? && r.value == ClaimRepair(old(cloud.world), id).1 && r.value.RepairLeased?
              && cloud.script == [] && cloud.world == ClaimRepair(old(cloud.world), id).0 && StuckLease(cloud.world, r.value.lease, id)
  {
    ghost var w, script, at := cloud.world, cloud.script, ClaimMoment(cloud);
    ghost var lone := LoneRepair(w);
    cloud.Reachable();
    r := cloud.ClaimLegacyRepair();
    if script == [] && lone.Some? {
      ClaimOfStuckRepair(w, lone.value);
      QuarantineOfClaimable(w, lone.value);
    }
    NoneExhausted(Run(w, Head(script).before));
    if r.Ok? && r.value.RepairSuperseded? {
      RepairStatusIsFinal(ClaimRepair(at, r.value.repairId).0, Head(script).after, r.value.repairId);
    }
  }
}
