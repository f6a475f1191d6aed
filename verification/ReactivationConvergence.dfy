/** The saga converges: whatever has happened to a job, one attempt that is left alone ends it. */
module ReactivationConvergence {
  import opened Wrappers
  import opened ReactivationWorld
  import opened ReactivationSafety
  import opened ReactivationTheorems
  import opened ReactivationCloud
  import opened ReactivationWorker

  /** How long until the job may be claimed. */
  function DueIn(w: World, q: nat): nat
    requires q in w.jobs
  {
    match w.jobs[q].status
    case Pending => if w.jobs[q].nextAttempt <= w.now then 0 else w.jobs[q].nextAttempt - w.now
    case Leased(_, until) => if until <= w.now then 0 else until - w.now
    case _ => 0
  }

  /** The terminal state that the job's own action leads to. */
  function EndOf(j: Job): Status {
    if j.cancelRequested then Cancelled else Completed
  }

  predicate CountersLeft(j: Job) {
    j.version < MAX_INT4 && j.attempts < MAX_INT4
  }

  /** While the job is live, the account has no address but the marker and the receipt's. */
  predicate OwnAddress(w: World, q: nat) {
    IsLive(w, q) && w.user.Some? ==> w.user.value.email == Marker || w.user.value.email == w.jobs[q].email
  }

  lemma StepKeepsOwnAddress(w: World, e: Event, q: nat)
    requires Inv(w) && q in w.jobs && OwnAddress(w, q)
    ensures OwnAddress(Step(w, e), q)
  {
    StepKeepsRows(w, e, q);
    if IsLive(Step(w, e), q) {
      if !e.UpdateEmail? {
        OnlyUpdatesMoveEmail(w, e);
      } else if Step(w, e) != w {
        ChangeWhileLive(w, e.email, q);
      }
    }
  }

  /** No event at all, not even a drift of the surroundings, puts another address on a live job. */
  lemma {:induction false} RunKeepsOwnAddress(w: World, es: seq<Event>, q: nat)
    requires Inv(w) && q in w.jobs && OwnAddress(w, q)
    ensures OwnAddress(Run(w, es), q)
    decreases |es|
  {
    if es != [] {
      StepKeepsInv(w, es[0]);
      StepKeepsRows(w, es[0], q);
      StepKeepsOwnAddress(w, es[0], q);
      RunKeepsOwnAddress(Step(w, es[0]), es[1..], q);
    }
  }

  /** A job that is being cancelled needs nothing of its surroundings; an activation needs those that it recorded. */
  predicate Favourable(w: World, es: seq<Event>, q: nat)
    requires q in w.jobs
  {
    var v := Run(w, es);
    q in v.jobs && IsLive(v, q) && !v.jobs[q].cancelRequested ==>
      OnTrack(w, q) && forall i :: 0 <= i < |es| ==> !Drift(es[i])
  }

  lemma LiveAtTheEndIsServiceable(w: World, es: seq<Event>, q: nat)
    requires Inv(w) && q in w.jobs && OwnAddress(w, q) && Favourable(w, es, q) && IsLive(Run(w, es), q)
    ensures Inv(Run(w, es)) && Serviceable(Run(w, es), q)
  {
    RunKeepsInv(w, es);
    RunKeepsOwnAddress(w, es, q);
    if !Run(w, es).jobs[q].cancelRequested {
      LiveJobStaysOnTrack(w, es, q);
    }
  }

  predicate Serviceable(w: World, q: nat) {
    IsLive(w, q) && if w.jobs[q].cancelRequested then OwnAddress(w, q) else OnTrack(w, q)
  }

  lemma WaitedJobIsReady(w: World, q: nat)
    requires Inv(w) && Serviceable(w, q) && CountersLeft(w.jobs[q])
    ensures var w' := Step(w, Tick(DueIn(w, q)));
            Inv(w') && Claimable(w', q) && Able(w', q) && w'.jobs == w.jobs
  {
    StepKeepsInv(w, Tick(DueIn(w, q)));
  }

  lemma EndedAsItShould(w: World, q: nat)
    requires Inv(w) && q in w.jobs && Terminal(w.jobs[q].status)
    ensures w.jobs[q].status == EndOf(w.jobs[q])
  {
  }

  /**
   After any run (crashes, lost answers, expired leases, late and repeated messages, cancel
   requests), once the job is due again a single undisturbed attempt leaves it in the terminal
   state of its action.  For a job that is then being cancelled the run may do whatever it likes,
   the removal of the user included; an activation needs a run without drift.  The counters are
   those that the claim checks.
   */
  method EndsAfterAnyRun(w: World, es: seq<Event>, q: nat) returns (wait: nat, end: World, ghost attempt: seq<Event>)
    requires Inv(w) && q in w.jobs && OwnAddress(w, q) && Favourable(w, es, q)
    requires IsLive(Run(w, es), q) ==> CountersLeft(Run(w, es).jobs[q])
    ensures end == Run(Step(Run(w, es), Tick(wait)), attempt)
    ensures q in Run(w, es).jobs && q in end.jobs && end.jobs[q].status == EndOf(Run(w, es).jobs[q])
  {
    var v := Run(w, es);
    RunKeepsInv(w, es);
    TerminalIsFinal(w, es, q);
    if !IsLive(v, q) {
      EndedAsItShould(v, q);
      wait, attempt := 0, [];
      end := Step(v, Tick(0));
      return;
    }
    LiveAtTheEndIsServiceable(w, es, q);
    wait := DueIn(v, q);
    WaitedJobIsReady(v, q);
    var cloud := new Cloud(Step(v, Tick(wait)), []);
    ghost var start := cloud.world;
    var r := ProcessAccountReactivationJob(cloud, Some(q));
    end, attempt := cloud.world, cloud.trace;
  }
}
