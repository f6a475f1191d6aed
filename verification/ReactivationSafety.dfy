/**
 What every run of the reactivation world keeps, whoever sends which message when.
 The runs range over all interleavings of workers, crashes (a worker that simply stops
 sending), lease expiry, cancel requests, withdrawals, legacy activations, and Auth updates
 that arrive at any later moment.
 */
module ReactivationSafety {
  import opened Wrappers
  import opened ReactivationWorld

  // ---------------------------------------------------------------- the invariant

  /** A live job owns the current deletion cycle, carries a real address, and is alone. */
  ghost predicate JobsOk(w: World) {
    && (forall r :: r in w.jobs ==> w.jobs[r].email.Real? && !w.jobs[r].status.Superseded?)
    && (forall r :: r in w.jobs && Live(w.jobs[r].status) ==> ExpectedLifecycle(w, w.jobs[r]))
    && (forall r, q :: r in w.jobs && q in w.jobs && Live(w.jobs[r].status) && Live(w.jobs[q].status) ==> r == q)
    && (forall r :: r in w.jobs && w.jobs[r].status.Completed? ==> !w.jobs[r].cancelRequested)
    && (forall r :: r in w.jobs && w.jobs[r].status.Cancelled? ==> w.jobs[r].cancelRequested)
  }

  /** Lease tokens are never repeated. */
  ghost predicate TokensOk(w: World) {
    && (forall r :: r in w.jobs && w.jobs[r].status.Leased? ==> w.jobs[r].status.token < w.nextToken)
    && (forall id :: id in w.repairs && w.repairs[id].status.Leased? ==> w.repairs[id].status.token < w.nextToken)
    && (w.user.Some? && w.user.value.fence.Some? ==> w.user.value.fence.value.token < w.nextToken)
  }

  /**
   A job fence names a known job; a cancel fence a live cancelled-on-request job; and the
   fence of the lease that is live now records the action of that lease.
   */
  ghost predicate FenceOk(w: World) {
    w.user.Some? && w.user.value.fence.Some? && w.user.value.fence.value.JobFence? ==>
      var f := w.user.value.fence.value;
      && f.requestId in w.jobs
      && var j := w.jobs[f.requestId];
      && (f.action == Cancel ==> j.cancelRequested && Live(j.status))
      && (j.status.Leased? && j.status.token == f.token ==>
            f.action == ActionOf(j) && f.version == j.version && f.adminId == j.adminId
            && f.deletedAt == j.deletedAt && f.generation == j.generation)
  }

  ghost predicate Inv(w: World) {
    JobsOk(w) && TokensOk(w) && FenceOk(w)
  }

  lemma InitialInv(w: World)
    requires Initial(w)
    ensures Inv(w)
  {
  }

  /** Rewriting one live job keeps JobsOk as long as its immutable columns stay. */
  lemma OneJobKeepsJobsOk(w: World, w': World, r: nat)
    requires JobsOk(w) && r in w.jobs && Live(w.jobs[r].status)
    requires r in w'.jobs && w'.jobs == w.jobs[r := w'.jobs[r]]
    requires w'.deletedAt == w.deletedAt && w'.generation == w.generation
    requires Live(w'.jobs[r].status)
    requires w'.jobs[r].email == w.jobs[r].email && w'.jobs[r].deletedAt == w.jobs[r].deletedAt
             && w'.jobs[r].generation == w.jobs[r].generation
    ensures JobsOk(w')
  {
  }

  /** Ending the live job leaves no live job behind, so the life cycle may move on. */
  lemma TerminalKeepsJobsOk(w: World, w': World, r: nat)
    requires JobsOk(w) && r in w.jobs && Live(w.jobs[r].status)
    requires r in w'.jobs && w'.jobs == w.jobs[r := w'.jobs[r]]
    requires w'.jobs[r].email == w.jobs[r].email && w'.jobs[r].cancelRequested == w.jobs[r].cancelRequested
    requires w'.jobs[r].status == if w.jobs[r].cancelRequested then Cancelled else Completed
    ensures JobsOk(w') && !HasLiveJob(w')
  {
    forall q | q in w'.jobs
      ensures Terminal(w'.jobs[q].status)
    {
      if q != r {
        assert w'.jobs[q] == w.jobs[q];
      }
    }
  }

  lemma BeginKeepsInv(w: World, r: nat, adminId: nat)
    requires Inv(w)
    ensures Inv(Begin(w, r, adminId))
  {
  }

  lemma CancelRequestKeepsInv(w: World, r: nat)
    requires Inv(w)
    ensures Inv(RequestCancel(w, r))
  {
  }

  lemma ClaimKeepsInv(w: World, r: nat)
    requires Inv(w)
    ensures Inv(Claim(w, r).0)
  {
    if Due(w, r) {
      var j, w' := w.jobs[r], Claim(w, r).0;
      assert Live(j.status);
      if j.version >= MAX_INT4 || j.attempts >= MAX_INT4 {
        assert w'.jobs == w.jobs[r := j.(status := Pending, nextAttempt := QUARANTINE_AT)];
        OneJobKeepsJobsOk(w, w', r);
      } else {
        assert w'.jobs[r].status == Leased(w.nextToken, w.now + LEASE_SECONDS);
        OneJobKeepsJobsOk(w, w', r);
      }
    }
  }

  lemma ArmKeepsInv(w: World, l: Lease)
    requires Inv(w)
    ensures Inv(Arm(w, l))
  {
  }

  lemma FinishKeepsInv(w: World, l: Lease, success: bool)
    requires Inv(w)
    ensures Inv(Finish(w, l, success))
  {
    if FinishAllowed(w, l, success) {
      var r, w' := l.requestId, Finish(w, l, success);
      if !success {
        OneJobKeepsJobsOk(w, w', r);
      } else {
        TerminalKeepsJobsOk(w, w', r);
      }
    }
  }

  lemma ActivateLegacyKeepsInv(w: World, id: nat, email: Email)
    requires Inv(w)
    ensures Inv(LegacyActivate(w, id, email))
  {
    assert LegacyActivate(w, id, email).jobs == w.jobs;
  }

  /** A transaction that only rewrites one repair row and perhaps clears the fence. */
  lemma RepairRowKeepsInv(w: World, w': World, id: nat)
    requires Inv(w)
    requires w'.jobs == w.jobs && w'.deletedAt == w.deletedAt && w'.generation == w.generation
    requires w'.user == w.user || w' == w.(user := ClearFence(w).user, repairs := w'.repairs)
    requires w.nextToken <= w'.nextToken
    requires w'.repairs == w.repairs
             || (id in w'.repairs && w'.repairs == w.repairs[id := w'.repairs[id]]
                 && (w'.repairs[id].status.Leased? ==> w'.repairs[id].status.token < w'.nextToken))
    ensures Inv(w')
  {
  }

  lemma ClaimLegacyKeepsInv(w: World, id: nat)
    requires Inv(w)
    ensures Inv(ClaimRepair(w, id).0)
  {
    RepairRowKeepsInv(w, ClaimRepair(w, id).0, id);
  }

  lemma ArmLegacyKeepsInv(w: World, l: RepairLease)
    requires Inv(w)
    ensures Inv(ArmRepair(w, l))
  {
  }

  lemma FinishLegacyKeepsInv(w: World, l: RepairLease, success: bool)
    requires Inv(w)
    ensures Inv(FinishRepair(w, l, success))
  {
    RepairRowKeepsInv(w, FinishRepair(w, l, success), l.repairId);
  }

  lemma LifecycleKeepsInv(w: World, e: Event)
    requires Inv(w)
    requires e.Tick? || e.UpdateEmail? || e.WithdrawAccount? || e.ChangeMember? || e.ChangeIdentity?
             || e.ChangeCleanup? || e.RemoveUser?
    ensures Inv(Step(w, e))
  {
    assert Step(w, e).jobs == w.jobs;
  }

  /** Every event of every sender keeps the invariant. */
  lemma StepKeepsInv(w: World, e: Event)
    requires Inv(w)
    ensures Inv(Step(w, e))
  {
    match e
    case BeginJob(r, a) => BeginKeepsInv(w, r, a);
    case CancelRequest(r) => CancelRequestKeepsInv(w, r);
    case ClaimJob(r) => ClaimKeepsInv(w, r);
    case ArmJob(l) => ArmKeepsInv(w, l);
    case FinishJob(l, s) => FinishKeepsInv(w, l, s);
    case ActivateLegacy(id, m) => ActivateLegacyKeepsInv(w, id, m);
    case ClaimLegacy(id) => ClaimLegacyKeepsInv(w, id);
    case ArmLegacy(l) => ArmLegacyKeepsInv(w, l);
    case FinishLegacy(l, s) => FinishLegacyKeepsInv(w, l, s);
    case _ => LifecycleKeepsInv(w, e);
  }

  lemma {:induction false} RunKeepsInv(w: World, es: seq<Event>)
    requires Inv(w)
    ensures Inv(Run(w, es))
    decreases |es|
  {
    if es != [] {
      StepKeepsInv(w, es[0]);
      RunKeepsInv(Step(w, es[0]), es[1..]);
    }
  }
}
