/**
 What can become of a completed reactivation: exactly which events take the account away from
 its receipt, which of them a worker may have sent, and when left-over traffic is harmless.
 */
module ReactivationAftermath {
  import opened Wrappers
  import opened ReactivationWorld
  import opened ReactivationSafety
  import opened ReactivationTheorems

  // ---------------------------------------------------------------- exactly which events

  /** An update to another real address is accepted on every active account. */
  lemma ActiveAcceptsReal(w: World, m: Email)
    requires Inv(w) && w.deletedAt.None? && w.user.Some? && w.user.value.email.Real? && m.Real?
    ensures AuthUpdate(w, m).user.value.email == m
  {
    NoLiveJobWhileActive(w);
  }

  /**
   One step ends the truth of a completed job exactly if it is a withdrawal, the removal of the
   user, or an update to a real address that is not the receipt.
   */
  lemma CompletionEndsIff(w: World, e: Event, r: nat)
    requires Inv(w) && IsCompleted(w, r) && CompletedHolds(w, r)
    ensures CompletedHolds(Step(w, e), r) <==> !MovesAway(e, w.jobs[r].email)
    ensures IsCompleted(Step(w, e), r) && Step(w, e).jobs[r] == w.jobs[r]
  {
    StepKeepsRows(w, e, r);
    NoLiveJobWhileActive(w);
    if !MovesAway(e, w.jobs[r].email) {
      StepKeepsCompletedHolds(w, e, r);
    } else if e.UpdateEmail? {
      ActiveAcceptsReal(w, e.email);
    }
  }

  /** Before the completion no event matters, after it exactly those that move away. */
  lemma StepHoldsIff(w: World, e: Event, r: nat)
    requires Inv(w) && CompletedHolds(w, r)
    ensures CompletedHolds(Step(w, e), r) <==> (IsCompleted(w, r) ==> !MovesAway(e, w.jobs[r].email))
  {
    if IsCompleted(w, r) {
      CompletionEndsIff(w, e, r);
    } else {
      StepKeepsCompletedHolds(w, e, r);
    }
  }

  ghost predicate HoldsThroughout(w: World, es: seq<Event>, r: nat) {
    forall k :: 0 <= k <= |es| ==> CompletedHolds(Run(w, es[..k]), r)
  }

  lemma ThroughoutStep(w: World, es: seq<Event>, r: nat)
    requires es != []
    ensures HoldsThroughout(w, es, r) <==> CompletedHolds(w, r) && HoldsThroughout(Step(w, es[0]), es[1..], r)
  {
    assert Run(w, es[..0]) == w;
    forall k | 1 <= k <= |es|
      ensures Run(w, es[..k]) == Run(Step(w, es[0]), es[1..][..k - 1])
    {
      assert es[..k][1..] == es[1..][..k - 1];
    }
    if HoldsThroughout(w, es, r) {
      forall k | 0 <= k <= |es[1..]|
        ensures CompletedHolds(Run(Step(w, es[0]), es[1..][..k]), r)
      {
        assert CompletedHolds(Run(w, es[..k + 1]), r);
      }
    }
  }

  /** A run keeps the truth of a completed job at every moment exactly if nothing in it moves away. */
  lemma {:induction false} HoldsThroughoutIff(w: World, es: seq<Event>, r: nat)
    requires Inv(w) && CompletedHolds(w, r)
    ensures HoldsThroughout(w, es, r) <==> NothingMovesAway(w, es, r)
    decreases |es|
  {
    if es == [] {
      assert es[..0] == [];
    } else {
      StepHoldsIff(w, es[0], r);
      ThroughoutStep(w, es, r);
      StepKeepsInv(w, es[0]);
      if CompletedHolds(Step(w, es[0]), r) {
        HoldsThroughoutIff(Step(w, es[0]), es[1..], r);
      } else {
        assert !CompletedHolds(Run(Step(w, es[0]), es[1..][..0]), r);
      }
    }
  }

  // ---------------------------------------------------------------- who sends them

  /** An address that some job or repair of the account carries: what a worker may send, besides the marker. */
  predicate IsReceipt(w: World, m: Email) {
    || (exists q :: q in w.jobs && w.jobs[q].email == m)
    || (exists id :: id in w.repairs && w.repairs[id].email == m)
  }

  lemma RepairStepKeepsEmail(w: World, e: Event, id: nat)
    requires id in w.repairs
    ensures id in Step(w, e).repairs && Step(w, e).repairs[id].email == w.repairs[id].email
  {
    match e
    case ClaimLegacy(k) => RepairClaimKeepsEmail(w, k, id);
    case FinishLegacy(l, success) => RepairFinishKeepsEmail(w, l, success, id);
    case _ =>
  }

  lemma RepairClaimKeepsEmail(w: World, k: nat, id: nat)
    requires id in w.repairs
    ensures id in ClaimRepair(w, k).0.repairs && ClaimRepair(w, k).0.repairs[id].email == w.repairs[id].email
  {
  }

  lemma RepairFinishKeepsEmail(w: World, l: RepairLease, success: bool, id: nat)
    requires id in w.repairs
    ensures id in FinishRepair(w, l, success).repairs && FinishRepair(w, l, success).repairs[id].email == w.repairs[id].email
  {
  }

  /** Receipts are never forgotten. */
  lemma {:induction false} ReceiptsStay(w: World, es: seq<Event>, m: Email)
    requires IsReceipt(w, m)
    ensures IsReceipt(Run(w, es), m)
    decreases |es|
  {
    if es != [] {
      if q :| q in w.jobs && w.jobs[q].email == m {
        StepKeepsRows(w, es[0], q);
        assert Step(w, es[0]).jobs[q].email == m;
      } else {
        var id :| id in w.repairs && w.repairs[id].email == m;
        RepairStepKeepsEmail(w, es[0], id);
      }
      ReceiptsStay(Step(w, es[0]), es[1..], m);
    }
  }

  /** Whatever a leased worker sends, at whatever later moment it arrives, is the marker or a receipt. */
  lemma LeasesSendReceipts(w: World, q: nat, l: Lease, es: seq<Event>)
    requires Claim(w, q).1 == Some(l)
    ensures IsReceipt(Run(Claim(w, q).0, es), l.email)
  {
    var w' := Claim(w, q).0;
    assert w'.jobs[q].email == l.email;
    ReceiptsStay(w', es, l.email);
  }

  lemma RepairLeasesSendReceipts(w: World, id: nat, l: RepairLease, es: seq<Event>)
    requires ClaimRepair(w, id).1 == RepairLeased(l)
    ensures IsReceipt(Run(ClaimRepair(w, id).0, es), l.email)
  {
    var w' := ClaimRepair(w, id).0;
    assert w'.repairs[id].email == l.email;
    ReceiptsStay(w', es, l.email);
  }

  /** The member's own doing: leaving, or an address that no receipt carries. */
  predicate MemberActs(w: World, e: Event) {
    e.WithdrawAccount? || e.RemoveUser? || (e.UpdateEmail? && e.email.Real? && !IsReceipt(w, e.email))
  }

  /** A worker's update for another receipt of the same account. */
  predicate OtherReceiptArrives(w: World, e: Event, r: nat)
    requires r in w.jobs
  {
    e.UpdateEmail? && e.email.Real? && IsReceipt(w, e.email) && e.email != w.jobs[r].email
  }

  /** A completed job loses its address to the member, or to a late update for another receipt. */
  lemma WhoEndsCompletion(w: World, e: Event, r: nat)
    requires Inv(w) && IsCompleted(w, r) && CompletedHolds(w, r)
    ensures !CompletedHolds(Step(w, e), r) <==> MemberActs(w, e) || OtherReceiptArrives(w, e, r)
  {
    CompletionEndsIff(w, e, r);
    assert IsReceipt(w, w.jobs[r].email);
  }

  // ---------------------------------------------------------------- when left-over traffic is harmless

  /** All receipts of the account carry the address of job r. */
  predicate OneReceipt(w: World, r: nat)
    requires r in w.jobs
  {
    && (forall q :: q in w.jobs ==> w.jobs[q].email == w.jobs[r].email)
    && (forall id :: id in w.repairs ==> w.repairs[id].email == w.jobs[r].email || w.repairs[id].email.Marker?)
  }

  /**
   No worker's update, however late, can take a completed job's address away if and only if all
   receipts of the account carry the same address.
   */
  lemma LeftOverIsHarmlessIff(w: World, r: nat)
    requires Inv(w) && IsCompleted(w, r) && CompletedHolds(w, r)
    ensures (forall m: Email :: m.Marker? || IsReceipt(w, m) ==> CompletedHolds(AuthUpdate(w, m), r)) <==> OneReceipt(w, r)
  {
    forall m: Email
      ensures CompletedHolds(AuthUpdate(w, m), r) <==> m.Marker? || m == w.jobs[r].email
    {
      CompletionEndsIff(w, UpdateEmail(m), r);
    }
    if forall m: Email :: m.Marker? || IsReceipt(w, m) ==> CompletedHolds(AuthUpdate(w, m), r) {
      forall q | q in w.jobs
        ensures w.jobs[q].email == w.jobs[r].email
      {
        assert IsReceipt(w, w.jobs[q].email);
      }
      forall id | id in w.repairs
        ensures w.repairs[id].email == w.jobs[r].email || w.repairs[id].email.Marker?
      {
        assert IsReceipt(w, w.repairs[id].email);
      }
    }
  }

  ghost predicate MemberStaysPut(w: World, es: seq<Event>)
    decreases |es|
  {
    es != [] ==> !MemberActs(w, es[0]) && MemberStaysPut(Step(w, es[0]), es[1..])
  }

  lemma NoNewRowsWhileActive(w: World, e: Event, r: nat)
    requires r in w.jobs && OneReceipt(w, r) && w.deletedAt.None? && !HasLiveJob(w)
    ensures r in Step(w, e).jobs && OneReceipt(Step(w, e), r)
  {
    ActiveKeepsJobs(w, e);
    ActiveKeepsRepairs(w, e);
    forall id | id in w.repairs
      ensures Step(w, e).repairs[id].email == w.repairs[id].email
    {
      RepairStepKeepsEmail(w, e, id);
    }
  }

  lemma ActiveKeepsJobs(w: World, e: Event)
    requires w.deletedAt.None? && !HasLiveJob(w)
    ensures Step(w, e).jobs == w.jobs
  {
  }

  lemma ActiveKeepsRepairs(w: World, e: Event)
    requires w.deletedAt.None? && !HasLiveJob(w)
    ensures Step(w, e).repairs.Keys == w.repairs.Keys
  {
  }

  /** With one receipt, left-over traffic of any length and order never moves the address. */
  lemma {:induction false} OneReceiptIsSafe(w: World, es: seq<Event>, r: nat)
    requires Inv(w) && IsCompleted(w, r) && CompletedHolds(w, r) && OneReceipt(w, r) && MemberStaysPut(w, es)
    ensures IsCompleted(Run(w, es), r) && CompletedHolds(Run(w, es), r)
    decreases |es|
  {
    if es != [] {
      var w' := Step(w, es[0]);
      WhoEndsCompletion(w, es[0], r);
      CompletionEndsIff(w, es[0], r);
      StepKeepsInv(w, es[0]);
      NoLiveJobWhileActive(w);
      NoNewRowsWhileActive(w, es[0], r);
      OneReceiptIsSafe(w', es[1..], r);
    }
  }

  // ---------------------------------------------------------------- a completed job that lost its address

  const Other := Real("other")
  const CancelLease := Lease(7, 1, Receipt, 5, 1, 1, 2, 2, Cancel, None)
  const OtherLease := Lease(8, 1, Other, 5, 1, 2, 1, 1, Activate, None)

  // Job 7 is cancelled while the update of its first worker is under way.
  const Cancellation := [CancelRequest(7), ClaimJob(7), FinishJob(CancelLease, true)]
  // The proved identity changes; job 8 is begun with it and completed.
  const SecondJob := [ChangeIdentity(Some(Other)), BeginJob(8, 1), ClaimJob(8)]
  const SecondEnd := [ArmJob(OtherLease), UpdateEmail(Other), FinishJob(OtherLease, true)]

  const CancelledJob := Job(1, Receipt, 5, 1, Cancelled, 2, 2, true, 0)

  function OtherJob(status: Status): Job {
    Job(1, Other, 5, 1, status, 1, 1, false, 0)
  }

  const AfterCancellation := WorldOf(0, User(Marker, None), Some(5), Marker, map[7 := CancelledJob], 2)
  const AfterSecondClaim :=
    WorldOf(0, User(Marker, None), Some(5), Marker, map[7 := CancelledJob, 8 := OtherJob(Leased(2, LEASE_SECONDS))], 3)
      .(identity := Some(Other))
  const AfterSecondEnd :=
    WorldOf(0, User(Other, None), None, Other, map[7 := CancelledJob, 8 := OtherJob(Completed)], 3).(identity := Some(Other))

  lemma CancellationRun()
    ensures Run(AfterSend, Cancellation) == AfterCancellation
  {
    RunOfThree(AfterSend, CancelRequest(7), ClaimJob(7), FinishJob(CancelLease, true));
    var w1 := RequestCancel(AfterSend, 7);
    assert w1.jobs == map[7 := Job(1, Receipt, 5, 1, Pending, 1, 1, true, 0)];
    var w2 := Claim(w1, 7).0;
    assert Preflight(w1, w1.jobs[7]).None?;
    assert w2.jobs == map[7 := Job(1, Receipt, 5, 1, Leased(1, LEASE_SECONDS), 2, 2, true, 0)];
    assert Claim(w1, 7).1 == Some(CancelLease);
    assert CancelAllowed(w2, CancelLease);
    assert Finish(w2, CancelLease, true).jobs == AfterCancellation.jobs;
  }

  lemma SecondJobRun()
    ensures Run(AfterCancellation, SecondJob) == AfterSecondClaim
  {
    RunOfThree(AfterCancellation, ChangeIdentity(Some(Other)), BeginJob(8, 1), ClaimJob(8));
    var w1 := AfterCancellation.(identity := Some(Other));
    assert !HasLiveJob(w1);
    var w2 := Begin(w1, 8, 1);
    assert w2.jobs == map[7 := CancelledJob, 8 := Job(1, Other, 5, 1, Pending, 0, 0, false, 0)];
    assert Preflight(w2, w2.jobs[8]).None?;
    assert Claim(w2, 8).0.jobs == AfterSecondClaim.jobs;
  }

  lemma SecondEndRun()
    ensures Run(AfterSecondClaim, SecondEnd) == AfterSecondEnd
  {
    RunOfThree(AfterSecondClaim, ArmJob(OtherLease), UpdateEmail(Other), FinishJob(OtherLease, true));
    assert 8 in AfterSecondClaim.jobs;
    assert ArmAllowed(AfterSecondClaim, OtherLease);
    var w1 := Arm(AfterSecondClaim, OtherLease);
    assert HasLiveJob(w1);
    var w2 := AuthUpdate(w1, Other);
    assert w2 == w1.(user := Some(User(Other, Some(FenceFor(OtherLease)))));
    assert CompleteAllowed(w2, OtherLease);
    assert Finish(w2, OtherLease, true).jobs == AfterSecondEnd.jobs;
  }

  /**
   A run of the saga's own messages alone that ends with a completed job whose account has
   another address: the update of a cancelled job's first worker arrives after a second job,
   for another address, was completed.
   */
  lemma LateUpdateOfCancelledJob()
    ensures Initial(DelayedStart)
    ensures Run(DelayedStart, FirstAttempt).user == Some(User(Marker, Some(FenceFor(FirstLease))))
            && LiveLease(Run(DelayedStart, FirstAttempt), FirstLease)
    ensures var es := FirstAttempt + Cancellation + SecondJob + SecondEnd;
            var w := Run(DelayedStart, es);
            && IsCompleted(w, 8) && w.jobs[8].email == Other && CompletedHolds(w, 8) && IsCancelled(w, 7)
            && IsReceipt(w, Receipt)
    ensures var w := Run(DelayedStart, FirstAttempt + Cancellation + SecondJob + SecondEnd + [UpdateEmail(Receipt)]);
            IsCompleted(w, 8) && w.deletedAt.None? && w.user == Some(User(Receipt, None)) && !CompletedHolds(w, 8)
  {
    FirstAttemptRun();
    CancellationRun();
    SecondJobRun();
    SecondEndRun();
    SplitRun(DelayedStart, FirstAttempt, Cancellation);
    SplitRun(DelayedStart, FirstAttempt + Cancellation, SecondJob);
    SplitRun(DelayedStart, FirstAttempt + Cancellation + SecondJob, SecondEnd);
    SplitRun(DelayedStart, FirstAttempt + Cancellation + SecondJob + SecondEnd, [UpdateEmail(Receipt)]);
    assert AfterSecondEnd.jobs[7].email == Receipt;
    assert [UpdateEmail(Receipt)][1..] == [];
    assert Run(AfterSecondEnd, [UpdateEmail(Receipt)]) == AuthUpdate(AfterSecondEnd, Receipt);
    assert !HasLiveJob(AfterSecondEnd);
  }
}
