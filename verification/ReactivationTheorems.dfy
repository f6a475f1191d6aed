/**
 The guarantees of account reactivation over whole runs: what a terminal job says about the
 Auth user, that a job action changes the address at most once, and who may change a third
 address.
 */
module ReactivationTheorems {
  import opened Wrappers
  import opened ReactivationWorld
  import opened ReactivationSafety

  predicate IsCompleted(w: World, r: nat) {
    r in w.jobs && w.jobs[r].status.Completed?
  }

  predicate IsCancelled(w: World, r: nat) {
    r in w.jobs && w.jobs[r].status.Cancelled?
  }

  predicate IsLive(w: World, r: nat) {
    r in w.jobs && Live(w.jobs[r].status)
  }

  // ---------------------------------------------------------------- single steps

  /** The receipt columns never change, cancellation is never withdrawn, terminal rows are frozen. */
  predicate SameReceipt(j: Job, j': Job) {
    && j'.email == j.email && j'.adminId == j.adminId
    && j'.deletedAt == j.deletedAt && j'.generation == j.generation
    && (j.cancelRequested ==> j'.cancelRequested)
    && (Terminal(j.status) ==> j' == j)
  }

  lemma FinishKeepsRows(w: World, l: Lease, success: bool, r: nat)
    requires r in w.jobs
    ensures r in Finish(w, l, success).jobs && SameReceipt(w.jobs[r], Finish(w, l, success).jobs[r])
  {
    if FinishAllowed(w, l, success) {
      assert LiveLease(w, l) && !Terminal(w.jobs[l.requestId].status);
    }
  }

  lemma ClaimKeepsRows(w: World, q: nat, r: nat)
    requires r in w.jobs
    ensures r in Claim(w, q).0.jobs && SameReceipt(w.jobs[r], Claim(w, q).0.jobs[r])
  {
  }

  lemma StepKeepsRows(w: World, e: Event, r: nat)
    requires r in w.jobs
    ensures r in Step(w, e).jobs && SameReceipt(w.jobs[r], Step(w, e).jobs[r])
  {
    match e
    case FinishJob(l, s) => FinishKeepsRows(w, l, s, r);
    case ClaimJob(q) => ClaimKeepsRows(w, q, r);
    case _ =>
  }

  /** What the transaction that completes a job has just checked. */
  lemma CompletionEvidence(w: World, e: Event, r: nat)
    requires Inv(w) && !IsCompleted(w, r) && IsCompleted(Step(w, e), r)
    ensures e.FinishJob? && e.success && e.lease.requestId == r && CompleteAllowed(w, e.lease)
    ensures w.user == Some(User(w.jobs[r].email, Some(StoredFence(w.jobs[r], e.lease))))
    ensures Step(w, e).user == Some(User(w.jobs[r].email, None)) && Step(w, e).deletedAt == None
  {
    match e
    case FinishJob(l, s) => FinishCompletes(w, l, s, r);
    case ClaimJob(q) =>
    case _ => OthersDoNotEnd(w, e, r);
  }

  lemma FinishCompletes(w: World, l: Lease, success: bool, r: nat)
    requires !IsCompleted(w, r) && IsCompleted(Finish(w, l, success), r)
    ensures success && l.requestId == r && CompleteAllowed(w, l)
    ensures w.user == Some(User(w.jobs[r].email, Some(StoredFence(w.jobs[r], l))))
    ensures Finish(w, l, success).user == Some(User(w.jobs[r].email, None)) && Finish(w, l, success).deletedAt == None
  {
    assert l.requestId == r;
  }

  lemma OthersDoNotEnd(w: World, e: Event, r: nat)
    requires !e.FinishJob? && !e.ClaimJob?
    ensures IsCompleted(Step(w, e), r) ==> IsCompleted(w, r)
    ensures IsCancelled(Step(w, e), r) ==> IsCancelled(w, r)
  {
  }

  /** What the transaction that cancels a job has just checked. */
  lemma CancellationEvidence(w: World, e: Event, r: nat)
    requires Inv(w) && !IsCancelled(w, r) && IsCancelled(Step(w, e), r)
    ensures e.FinishJob? && e.success && e.lease.requestId == r && CancelAllowed(w, e.lease)
    ensures Step(w, e).user == None || Step(w, e).user == Some(User(Marker, None))
    ensures Step(w, e).deletedAt == w.deletedAt == Some(w.jobs[r].deletedAt)
    ensures !HasLiveJob(Step(w, e))
  {
    match e
    case FinishJob(l, s) =>
      assert l.requestId == r;
      TerminalKeepsJobsOk(w, Step(w, e), r);
    case ClaimJob(q) =>
    case _ => OthersDoNotEnd(w, e, r);
  }

  // ---------------------------------------------------------------- what the transactions do when they may

  /** A reactivation begins exactly for a deleted member with a proved address, without pending clean-up or live job. */
  lemma BeginStartsIff(w: World, r: nat, adminId: nat)
    ensures var w' := Step(w, BeginJob(r, adminId));
            && (w' != w <==> r !in w.jobs && !HasLiveJob(w) && w.deletedAt.Some? && w.generation > 0
                             && w.member.Some? && !w.cleanupPending && w.identity.Some? && w.identity.value.Real?)
            && (w' != w ==>
                  && r in w'.jobs && w' == w.(jobs := w.jobs[r := w'.jobs[r]])
                  && var j := w'.jobs[r];
                  && j.adminId == adminId && Some(j.email) == w.identity && Some(j.deletedAt) == w.deletedAt && j.generation == w.generation
                  && j.status == Pending && j.attempts == j.version == 0 && !j.cancelRequested && Due(w', r))
  {
  }

  /** A cancel request takes effect on a live job, makes it claimable at once, and gives used-up counters back. */
  lemma CancelTakesEffect(w: World, r: nat)
    requires Inv(w) && IsLive(w, r)
    ensures var w', j := Step(w, CancelRequest(r)), w.jobs[r];
            && r in w'.jobs && w'.jobs[r].cancelRequested
            && (!j.cancelRequested ==> Due(w', r) && Claimable(w', r))
            && (j.cancelRequested && j.version < MAX_INT4 && j.attempts < MAX_INT4 ==> w' == w)
            && w'.jobs[r].version == (if j.version == 2147483647 then 0 else j.version)
            && w'.jobs[r].attempts == (if j.attempts == 2147483647 then 0 else j.attempts)
            && (w'.user == w.user && w'.deletedAt == w.deletedAt)
    requires w.jobs[r].version <= MAX_INT4 && w.jobs[r].attempts <= MAX_INT4
  {
  }

  /** A withdrawal takes effect exactly for an active account without a live job, under the next generation. */
  lemma WithdrawIff(w: World, at: nat)
    ensures var w' := Step(w, WithdrawAccount(at));
            && (w' != w <==> w.deletedAt.None? && !HasLiveJob(w))
            && (w' != w ==>
                  && w'.deletedAt == Some(at) && w'.generation == w.generation + 1 && w'.cleanupPending
                  && (w'.member == Some(Marker) <==> w.member.Some?) && w'.user == w.user && w'.jobs == w.jobs && w'.repairs == w.repairs)
  {
  }

  predicate Claimable(w: World, q: nat) {
    Due(w, q) && w.jobs[q].version < MAX_INT4 && w.jobs[q].attempts < MAX_INT4
  }

  /** A claim leases a due job with counters left for two minutes, puts a due job without them off for good, and leaves all else. */
  lemma ClaimLeasesIff(w: World, r: nat)
    ensures var (w', l) := Claim(w, r);
            && (l.Some? <==> Claimable(w, r))
            && (l.Some? ==>
                  && r in w'.jobs && HoldsLease(w.now, w'.jobs[r].status, w'.jobs[r].version, l.value.token, l.value.version)
                  && w'.jobs[r].status.until == w.now + 120 && w'.jobs[r].attempts == w.jobs[r].attempts + 1 == l.value.attempts
                  && w'.jobs[r].version == w.jobs[r].version + 1 && l.value.token == w.nextToken < w'.nextToken)
            && (l.None? && Due(w, r) ==> r in w'.jobs && w'.jobs[r].status == Pending && w'.jobs[r].nextAttempt == QUARANTINE_AT)
            && (!Due(w, r) ==> w' == w)
  {
  }

  /** The preflight of a claim finds nothing exactly if every condition of the finish can still be met. */
  lemma PreflightClearIff(w: World, j: Job)
    ensures Preflight(w, j).None? <==>
              && ExpectedLifecycle(w, j)
              && (j.cancelRequested
                  || (&& w.member.Some? && !w.cleanupPending && w.identity == Some(j.email)
                      && w.user.Some? && (w.user.value.email == j.email || w.user.value.email == Marker)))
    ensures Preflight(w, j) == Some("member_not_found") ==> w.member.None?
    ensures Preflight(w, j) == Some("account_cleanup_pending") ==> w.cleanupPending
    ensures Preflight(w, j) == Some("identity_email_missing") ==> w.identity.None?
    ensures Preflight(w, j) == Some("reactivation_email_changed") ==> w.identity.Some? && w.identity.value != j.email
    ensures Preflight(w, j) == Some("auth_user_missing") ==> w.user.None?
    ensures Preflight(w, j) == Some("auth_identity_conflict") ==> w.user.Some? && w.user.value.email != j.email && w.user.value.email != Marker
    ensures Preflight(w, j) == Some("state_conflict") <==> !ExpectedLifecycle(w, j)
    ensures Preflight(w, j).Some? ==>
              Preflight(w, j).value in {"state_conflict", "member_not_found", "account_cleanup_pending", "identity_email_missing",
                                        "reactivation_email_changed", "auth_user_missing", "auth_identity_conflict"}
  {
  }

  /** The retired route activates a deleted member at once and leaves a repair exactly if the address is not that of the user. */
  lemma LegacyActivatesIff(w: World, id: nat, email: Email)
    ensures var w' := Step(w, ActivateLegacy(id, email));
            && (w.deletedAt.Some? && !HasLiveJob(w) && w.member.Some? && email.Real? ==>
                  w'.deletedAt.None? && w'.member == Some(email) && w'.user == w.user && w'.jobs == w.jobs)
            && (!(w.deletedAt.Some? && !HasLiveJob(w) && w.member.Some? && email.Real?) ==> w' == w)
            && (w'.repairs != w.repairs <==>
                  && w.deletedAt.Some? && !HasLiveJob(w) && w.member.Some? && email.Real? && id !in w.repairs
                  && (forall k :: k in w.repairs ==> w.repairs[k].generation != w.generation)
                  && (w.user.Some? ==> w.user.value.email != email))
            && (w'.repairs != w.repairs ==> id in w'.repairs && RepairDue(w', id) && w'.repairs[id].email == email)
  {
    if id !in w.repairs && id in Step(w, ActivateLegacy(id, email)).repairs {
      assert Step(w, ActivateLegacy(id, email)).repairs != w.repairs;
    }
  }

  /** A repair claim retires a due repair of another life cycle, leases one with counters left for two minutes, and puts off the others. */
  lemma RepairClaimIff(w: World, id: nat)
    ensures var (w', c) := ClaimRepair(w, id);
            var fit := RepairDue(w, id) && w.repairs[id].version < MAX_INT4 && w.repairs[id].attempts < MAX_INT4;
            && (c.RepairLeased? <==> fit && RepairLifecycle(w, w.repairs[id]))
            && (c == RepairSuperseded(id) <==> fit && !RepairLifecycle(w, w.repairs[id]))
            && (c.RepairLeased? ==>
                  && LiveRepairLease(w', c.lease) && w'.repairs[id].status.until == w.now + 120
                  && c.lease.repairId == id && c.lease.email == w.repairs[id].email && c.lease.generation == w.repairs[id].generation
                  && w'.repairs[id].attempts == w.repairs[id].attempts + 1 == c.lease.attempts && c.lease.token == w.nextToken < w'.nextToken
                  && (c.lease.preflight.None? <==> w.member == Some(c.lease.email)))
            && (c.RepairSuperseded? ==> id in w'.repairs && w'.repairs[id].status.Superseded?)
            && (c.NoRepair? && RepairDue(w, id) ==> id in w'.repairs && w'.repairs[id].nextAttempt == QUARANTINE_AT && w'.repairs[id].status == Pending)
            && (!RepairDue(w, id) ==> w' == w)
  {
  }

  // ---------------------------------------------------------------- terminal is final

  lemma {:induction false} TerminalIsFinal(w: World, es: seq<Event>, r: nat)
    requires r in w.jobs
    ensures r in Run(w, es).jobs
    ensures Run(w, es).jobs[r].email == w.jobs[r].email
    ensures w.jobs[r].cancelRequested ==> Run(w, es).jobs[r].cancelRequested
    ensures Terminal(w.jobs[r].status) ==> Run(w, es).jobs[r] == w.jobs[r]
    decreases |es|
  {
    if es != [] {
      StepKeepsRows(w, es[0], r);
      TerminalIsFinal(Step(w, es[0]), es[1..], r);
    }
  }

  /** No run shows one job completed at one moment and cancelled at another. */
  lemma NeverBothTerminals(w: World, es: seq<Event>, i: nat, k: nat, r: nat)
    requires i <= |es| && k <= |es|
    requires IsCompleted(Run(w, es[..i]), r)
    ensures !IsCancelled(Run(w, es[..k]), r)
  {
    if i <= k {
      SplitRun(w, es[..i], es[i..k]);
      assert es[..i] + es[i..k] == es[..k];
      TerminalIsFinal(Run(w, es[..i]), es[i..k], r);
    } else if IsCancelled(Run(w, es[..k]), r) {
      SplitRun(w, es[..k], es[k..i]);
      assert es[..k] + es[k..i] == es[..i];
      TerminalIsFinal(Run(w, es[..k]), es[k..i], r);
    }
  }

  lemma {:induction false} SplitRun(w: World, a: seq<Event>, b: seq<Event>)
    ensures Run(w, a + b) == Run(Run(w, a), b)
    decreases |a|
  {
    if a == [] {
      assert a + b == b;
    } else {
      assert (a + b)[0] == a[0] && (a + b)[1..] == a[1..] + b;
      SplitRun(Step(w, a[0]), a[1..], b);
    }
  }

  // ---------------------------------------------------------------- completed <-> receipt address

  ghost predicate CompletedHolds(w: World, r: nat) {
    IsCompleted(w, r) ==> w.deletedAt.None? && w.user.Some? && w.user.value.email == w.jobs[r].email
  }

  /** Events that take an active account away from this receipt, whoever causes them. */
  predicate MovesAway(e: Event, receipt: Email) {
    e.WithdrawAccount? || e.RemoveUser? || (e.UpdateEmail? && e.email != Marker && e.email != receipt)
  }

  ghost predicate NothingMovesAway(w: World, es: seq<Event>, r: nat)
    decreases |es|
  {
    es != [] ==>
      && (IsCompleted(w, r) ==> !MovesAway(es[0], w.jobs[r].email))
      && NothingMovesAway(Step(w, es[0]), es[1..], r)
  }

  /** An active account cannot be turned back into the marker by any message. */
  lemma ActiveRejectsMarker(w: World)
    requires Inv(w) && w.deletedAt.None? && w.user.Some?
    ensures AuthUpdate(w, Marker) == w
  {
  }

  lemma StepKeepsCompletedHolds(w: World, e: Event, r: nat)
    requires Inv(w) && CompletedHolds(w, r)
    requires IsCompleted(w, r) ==> !MovesAway(e, w.jobs[r].email)
    ensures CompletedHolds(Step(w, e), r)
  {
    if IsCompleted(Step(w, e), r) {
      if !IsCompleted(w, r) {
        CompletionEvidence(w, e, r);
      } else {
        ActiveRejectsMarker(w);
        NoLiveJobWhileActive(w);
        StepOfActiveAccount(w, e);
      }
    }
  }

  /** On an active account without a live job, no left-over message touches jobs or address. */
  lemma StepOfActiveAccount(w: World, e: Event)
    requires !HasLiveJob(w) && w.deletedAt.None? && w.user.Some? && AuthUpdate(w, Marker) == w
    requires !MovesAway(e, w.user.value.email)
    ensures Step(w, e).jobs == w.jobs && Step(w, e).deletedAt == None
    ensures Step(w, e).user.Some? && Step(w, e).user.value.email == w.user.value.email
  {
  }

  lemma NoLiveJobWhileActive(w: World)
    requires Inv(w) && w.deletedAt.None?
    ensures !HasLiveJob(w)
  {
  }

  /**
   A job is completed only while the Auth address is the receipt address: whatever workers,
   late updates, claims, cancel requests and repairs do, this holds at the end of every run in
   which nothing moved the account away after the completion.  Which senders may do that is
   the subject of the aftermath.
   */
  lemma {:induction false} CompletedMeansReceiptEmail(w: World, es: seq<Event>, r: nat)
    requires Inv(w) && CompletedHolds(w, r)
    requires NothingMovesAway(w, es, r)
    ensures CompletedHolds(Run(w, es), r)
    decreases |es|
  {
    if es != [] {
      StepKeepsInv(w, es[0]);
      StepKeepsCompletedHolds(w, es[0], r);
      CompletedMeansReceiptEmail(Step(w, es[0]), es[1..], r);
    }
  }

  // ---------------------------------------------------------------- cancelled <-> marker or missing

  ghost predicate CancelledHolds(w: World, r: nat) {
    IsCancelled(w, r) ==>
      w.deletedAt.Some? && !HasLiveJob(w) && (w.user.None? || w.user.value.email == Marker)
  }

  /** Only a new reactivation may bring the address back after a cancellation. */
  ghost predicate NoNewReactivationAfterCancel(w: World, es: seq<Event>, r: nat)
    decreases |es|
  {
    es != [] ==>
      && (IsCancelled(w, r) ==> !es[0].BeginJob? && !es[0].ActivateLegacy?)
      && NoNewReactivationAfterCancel(Step(w, es[0]), es[1..], r)
  }

  lemma StepKeepsCancelledHolds(w: World, e: Event, r: nat)
    requires Inv(w) && CancelledHolds(w, r)
    requires IsCancelled(w, r) ==> !e.BeginJob? && !e.ActivateLegacy?
    ensures CancelledHolds(Step(w, e), r)
  {
    if IsCancelled(Step(w, e), r) {
      if !IsCancelled(w, r) {
        CancellationEvidence(w, e, r);
      } else {
        StepWithoutLiveJob(w, e);
      }
    }
  }

  /** Without a live job and with the account deleted, jobs and deletion stay as they are. */
  lemma StepWithoutLiveJob(w: World, e: Event)
    requires !HasLiveJob(w) && w.deletedAt.Some? && !e.BeginJob? && !e.ActivateLegacy?
    ensures Step(w, e).jobs == w.jobs && Step(w, e).deletedAt == w.deletedAt
    ensures w.user.None? || w.user.value.email == Marker ==>
              Step(w, e).user.None? || Step(w, e).user.value.email == Marker
  {
  }

  /** A job is cancelled only while the address is the marker or the user is gone. */
  lemma {:induction false} CancelledMeansMarkerOrMissing(w: World, es: seq<Event>, r: nat)
    requires Inv(w) && CancelledHolds(w, r)
    requires NoNewReactivationAfterCancel(w, es, r)
    ensures CancelledHolds(Run(w, es), r)
    decreases |es|
  {
    if es != [] {
      StepKeepsInv(w, es[0]);
      StepKeepsCancelledHolds(w, es[0], r);
      CancelledMeansMarkerOrMissing(Step(w, es[0]), es[1..], r);
    }
  }

  // ---------------------------------------------------------------- at most one change per action

  /** While a job is live, only its own exact lease moves the address, and only one way per action. */
  lemma ChangeWhileLive(w: World, m: Email, r: nat)
    requires Inv(w) && IsLive(w, r) && AuthUpdate(w, m) != w
    ensures w.user.Some?
    ensures var j, old' := w.jobs[r], w.user.value.email;
            if j.cancelRequested then old' == j.email && m == Marker else old' == Marker && m == j.email
    ensures w.user.value.fence.Some? && w.user.value.fence.value.JobFence?
    ensures var f := w.user.value.fence.value;
            && f.requestId == r && f.action == ActionOf(w.jobs[r])
            && HoldsLease(w.now, w.jobs[r].status, w.jobs[r].version, f.token, f.version)
  {
    assert HasLiveJob(w);
    assert w.deletedAt.Some?;
    assert w.user.value.email != m;
  }

  /** The address changes that were accepted while job r was live with action a. */
  ghost function AcceptedChanges(w: World, es: seq<Event>, r: nat, a: Action): nat
    decreases |es|
  {
    if es == [] then 0
    else
      (if IsLive(w, r) && ActionOf(w.jobs[r]) == a && es[0].UpdateEmail? && Step(w, es[0]) != w then 1 else 0)
      + AcceptedChanges(Step(w, es[0]), es[1..], r, a)
  }

  /** How many changes under action a can still be accepted for job r. */
  ghost function ChangesLeft(w: World, r: nat, a: Action): nat {
    if r !in w.jobs then 1
    else if Terminal(w.jobs[r].status) then 0
    else if a == Activate then
      if !w.jobs[r].cancelRequested && w.user.Some? && w.user.value.email == Marker then 1 else 0
    else
      if w.jobs[r].cancelRequested && !(w.user.Some? && w.user.value.email == w.jobs[r].email) then 0 else 1
  }

  lemma StepUsesChanges(w: World, e: Event, r: nat, a: Action)
    requires Inv(w)
    ensures AcceptedChanges(w, [e], r, a) + ChangesLeft(Step(w, e), r, a) <= ChangesLeft(w, r, a)
  {
    assert [e][1..] == [];
    assert AcceptedChanges(Step(w, e), [], r, a) == 0;
    if r in w.jobs {
      StepKeepsRows(w, e, r);
      if e.UpdateEmail? && IsLive(w, r) && Step(w, e) != w {
        ChangeWhileLive(w, e.email, r);
      } else if !e.UpdateEmail? {
        OnlyUpdatesMoveEmail(w, e);
      }
    }
  }

  /** Nothing but an address update moves the address. */
  lemma OnlyUpdatesMoveEmail(w: World, e: Event)
    requires !e.UpdateEmail?
    ensures Step(w, e).user.Some? ==> w.user.Some? && Step(w, e).user.value.email == w.user.value.email
    ensures !e.RemoveUser? && w.user.Some? ==> Step(w, e).user.Some?
  {
  }

  /** In every run each job accepts at most one change while activating and one while cancelling. */
  lemma {:induction false} AtMostOneChangePerAction(w: World, es: seq<Event>, r: nat, a: Action)
    requires Inv(w)
    ensures AcceptedChanges(w, es, r, a) <= ChangesLeft(w, r, a) <= 1
    decreases |es|
  {
    if es != [] {
      StepUsesChanges(w, es[0], r, a);
      StepKeepsInv(w, es[0]);
      assert [es[0]][1..] == [];
      AtMostOneChangePerAction(Step(w, es[0]), es[1..], r, a);
    }
  }

  // ---------------------------------------------------------------- third addresses

  /** No message of any sender touches a third address while a job is live. */
  lemma ThirdAddressKeptWhileLive(w: World, r: nat, m: Email)
    requires Inv(w) && IsLive(w, r)
    requires w.user.Some? && w.user.value.email != Marker && w.user.value.email != w.jobs[r].email
    ensures AuthUpdate(w, m) == w
    ensures forall l: Lease :: l.requestId == r ==> Arm(w, l) == w && Finish(w, l, true) == w
  {
    if AuthUpdate(w, m) != w {
      ChangeWhileLive(w, m, r);
    }
  }

  /**
   The exact condition: a real address is replaced by another real address, for instance by a
   delayed update of an earlier attempt, if and only if no job is live at that moment.
   */
  lemma RealAddressReplacedIff(w: World, m: Email)
    requires Inv(w) && w.user.Some? && w.user.value.email.Real? && m.Real? && m != w.user.value.email
    ensures AuthUpdate(w, m).user.value.email == m <==> !HasLiveJob(w)
  {
    if HasLiveJob(w) {
      var r :| r in w.jobs && Live(w.jobs[r].status);
      if AuthUpdate(w, m) != w {
        ChangeWhileLive(w, m, r);
      }
    }
  }

  lemma RunOfThree(w: World, a: Event, b: Event, c: Event)
    ensures Run(w, [a, b, c]) == Step(Step(Step(w, a), b), c)
  {
    assert [a, b, c][1..] == [b, c] && [b, c][1..] == [c] && [c][1..] == [];
    assert Run(w, [a, b, c]) == Run(Step(w, a), [b, c]);
    assert Run(Step(w, a), [b, c]) == Run(Step(Step(w, a), b), [c]);
  }

  const Receipt := Real("receipt")
  const FirstLease := Lease(7, 1, Receipt, 5, 1, 0, 1, 1, Activate, None)
  const SecondLease := Lease(7, 1, Receipt, 5, 1, 1, 2, 2, Activate, None)

  // The first worker claims, arms, reads marker and fence, and sends the receipt address.
  const FirstAttempt := [BeginJob(7, 1), ClaimJob(7), ArmJob(FirstLease)]
  // Its lease expires; a second worker claims and arms.
  const SecondAttempt := [Tick(LEASE_SECONDS), ClaimJob(7), ArmJob(SecondLease)]
  // The second worker completes the job, and the member chooses another address.
  const Aftermath := [UpdateEmail(Receipt), FinishJob(SecondLease, true), UpdateEmail(Real("third"))]

  function JobSeven(status: Status, attempts: nat): Job {
    Job(1, Receipt, 5, 1, status, attempts, attempts, false, 0)
  }

  function WorldOf(now: nat, user: User, deletedAt: Option<nat>, member: Email, jobs: map<nat, Job>, next: nat): World {
    World(now, Some(user), deletedAt, 1, Some(member), Some(Receipt), false, false, jobs, map[], next)
  }

  const DelayedStart := WorldOf(0, User(Marker, None), Some(5), Marker, map[], 0)
  const AfterSend :=
    WorldOf(0, User(Marker, Some(FenceFor(FirstLease))), Some(5), Marker,
            map[7 := JobSeven(Leased(0, LEASE_SECONDS), 1)], 1)
  const AfterSecondArm :=
    WorldOf(LEASE_SECONDS, User(Marker, Some(FenceFor(SecondLease))), Some(5), Marker,
            map[7 := JobSeven(Leased(1, 2 * LEASE_SECONDS), 2)], 2)
  const AfterThird :=
    WorldOf(LEASE_SECONDS, User(Real("third"), None), None, Receipt, map[7 := JobSeven(Completed, 2)], 2)

  lemma FirstAttemptRun()
    ensures Run(DelayedStart, FirstAttempt) == AfterSend
  {
    RunOfThree(DelayedStart, BeginJob(7, 1), ClaimJob(7), ArmJob(FirstLease));
    var w1 := DelayedStart.(jobs := map[7 := JobSeven(Pending, 0)]);
    assert Begin(DelayedStart, 7, 1) == w1;
    var w2 := AfterSend.(user := DelayedStart.user);
    assert Preflight(w1, w1.jobs[7]).None?;
    assert Claim(w1, 7).0.jobs == w2.jobs;
    assert Claim(w1, 7) == (w2, Some(FirstLease));
    assert ArmAllowed(w2, FirstLease);
  }

  lemma SecondAttemptRun()
    ensures Run(AfterSend, SecondAttempt) == AfterSecondArm
  {
    RunOfThree(AfterSend, Tick(LEASE_SECONDS), ClaimJob(7), ArmJob(SecondLease));
    var w1 := AfterSend.(now := LEASE_SECONDS);
    var w2 := AfterSecondArm.(user := AfterSend.user);
    assert Preflight(w1, w1.jobs[7]).None?;
    assert Claim(w1, 7).0.jobs == w2.jobs;
    assert Claim(w1, 7) == (w2, Some(SecondLease));
    assert ArmAllowed(w2, SecondLease);
  }

  lemma AftermathRun()
    ensures Run(AfterSecondArm, Aftermath) == AfterThird
  {
    RunOfThree(AfterSecondArm, UpdateEmail(Receipt), FinishJob(SecondLease, true), UpdateEmail(Real("third")));
    assert 7 in AfterSecondArm.jobs;
    var w1 := AfterSecondArm.(user := Some(User(Receipt, Some(FenceFor(SecondLease)))));
    assert AuthUpdate(AfterSecondArm, Receipt) == w1;
    var w2 := AfterThird.(user := Some(User(Receipt, None)));
    assert CompleteAllowed(w1, SecondLease);
    assert Finish(w1, SecondLease, true) == w2;
    assert !HasLiveJob(w2);
  }

  /**
   A run in which a third address is lost although every sender kept the discipline: the first
   worker sent the receipt address right after it saw the marker under its own exact fence,
   and that message arrives only after the job was completed by somebody else.
   */
  lemma DelayedUpdateOverwritesThirdAddress()
    ensures Initial(DelayedStart)
    ensures Run(DelayedStart, FirstAttempt).user == Some(User(Marker, Some(FenceFor(FirstLease))))
    ensures LiveLease(Run(DelayedStart, FirstAttempt), FirstLease)
    ensures var es := FirstAttempt + SecondAttempt + Aftermath;
            && Run(DelayedStart, es).user == Some(User(Real("third"), None))
            && Run(DelayedStart, es + [UpdateEmail(Receipt)]).user == Some(User(Receipt, None))
  {
    FirstAttemptRun();
    SecondAttemptRun();
    AftermathRun();
    SplitRun(DelayedStart, FirstAttempt, SecondAttempt);
    SplitRun(DelayedStart, FirstAttempt + SecondAttempt, Aftermath);
    SplitRun(DelayedStart, FirstAttempt + SecondAttempt + Aftermath, [UpdateEmail(Receipt)]);
    assert [UpdateEmail(Receipt)][1..] == [];
    assert Run(AfterThird, [UpdateEmail(Receipt)]) == AuthUpdate(AfterThird, Receipt);
  }

  // ---------------------------------------------------------------- a live job stays serviceable

  /** The conditions under which an attempt at job r can succeed. */
  predicate OnTrack(w: World, r: nat) {
    IsLive(w, r) ==>
      && w.user.Some? && (w.user.value.email == Marker || w.user.value.email == w.jobs[r].email)
      && w.member.Some? && w.identity == Some(w.jobs[r].email) && !w.cleanupPending
  }

  /** Events by which the surroundings drift away from what the receipt recorded. */
  predicate Drift(e: Event) {
    e.ChangeMember? || e.ChangeIdentity? || e.ChangeCleanup? || e.RemoveUser?
  }

  lemma StepKeepsOnTrack(w: World, e: Event, r: nat)
    requires Inv(w) && r in w.jobs && OnTrack(w, r) && !Drift(e)
    ensures OnTrack(Step(w, e), r)
  {
    StepKeepsRows(w, e, r);
    if IsLive(w, r) && IsLive(Step(w, e), r) {
      assert HasLiveJob(w) && w.deletedAt.Some?;
      SurroundingsWhileLive(w, e, r);
      if !e.UpdateEmail? {
        OnlyUpdatesMoveEmail(w, e);
      } else if Step(w, e) != w {
        ChangeWhileLive(w, e.email, r);
      }
    }
  }

  lemma SurroundingsWhileLive(w: World, e: Event, r: nat)
    requires JobsOk(w) && HasLiveJob(w) && w.deletedAt.Some? && IsLive(w, r) && IsLive(Step(w, e), r) && !Drift(e)
    ensures var w' := Step(w, e);
            w'.member == w.member && w'.identity == w.identity && w'.cleanupPending == w.cleanupPending
  {
    match e
    case FinishJob(l, success) => FinishKeepsSurroundings(w, l, success, r);
    case ClaimLegacy(id) => RepairsKeepSurroundings(w, e);
    case FinishLegacy(l, success) => RepairsKeepSurroundings(w, e);
    case ActivateLegacy(id, email) =>
    case _ => PlainKeepsSurroundings(w, e);
  }

  lemma FinishKeepsSurroundings(w: World, l: Lease, success: bool, r: nat)
    requires JobsOk(w) && IsLive(w, r) && IsLive(Finish(w, l, success), r)
    ensures var w' := Finish(w, l, success);
            w'.member == w.member && w'.identity == w.identity && w'.cleanupPending == w.cleanupPending
  {
  }

  lemma RepairsKeepSurroundings(w: World, e: Event)
    requires e.ClaimLegacy? || e.FinishLegacy?
    ensures var w' := Step(w, e);
            w'.member == w.member && w'.identity == w.identity && w'.cleanupPending == w.cleanupPending
  {
  }

  lemma PlainKeepsSurroundings(w: World, e: Event)
    requires !e.FinishJob? && !e.ClaimLegacy? && !e.FinishLegacy? && !e.ActivateLegacy? && !Drift(e) && w.deletedAt.Some?
    ensures var w' := Step(w, e);
            w'.member == w.member && w'.identity == w.identity && w'.cleanupPending == w.cleanupPending
  {
  }

  /** Crashes, lost answers, expired leases and late updates never take a live job off track. */
  lemma {:induction false} LiveJobStaysOnTrack(w: World, es: seq<Event>, r: nat)
    requires Inv(w) && r in w.jobs && OnTrack(w, r)
    requires forall i :: 0 <= i < |es| ==> !Drift(es[i])
    ensures OnTrack(Run(w, es), r)
    decreases |es|
  {
    if es != [] {
      StepKeepsInv(w, es[0]);
      StepKeepsRows(w, es[0], r);
      StepKeepsOnTrack(w, es[0], r);
      LiveJobStaysOnTrack(Step(w, es[0]), es[1..], r);
    }
  }
}
