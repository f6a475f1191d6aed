/** The background drain: repairs first, then reactivation jobs, with an account of every lease. */
module ReactivationDrain {
  import opened Wrappers
  import opened ReactivationWorld
  import opened ReactivationTheorems
  import opened ReactivationCloud
  import opened ReactivationWorker
  import opened ReactivationRepair

  datatype Failure = Failure(id: nat, failure: string, retryRecorded: bool)

  /** `settled` and `repaired` name the jobs and repairs that were reported as ended. */
  datatype DrainResult = DrainResult(claimed: nat, completed: nat, pending: nat, claimErrors: nat,
                                     failures: seq<Failure>, claimFailures: seq<string>,
                                     settled: seq<nat>, repaired: seq<nat>)

  const DefaultLimit: int := 10
  const MaxLimit: int := 50

  function Bounded(limit: int): int {
    if limit > MaxLimit then MaxLimit else if limit < 1 then 1 else limit
  }

  /** The limit, ten where none is given and fifty at most, allows a round after `done` rounds; the first is always allowed. */
  predicate MoreRounds(limit: Option<int>, done: nat) {
    done < 1 || (done < 50 && done < if limit.None? then 10 else limit.value)
  }

  /** The accounting identity, and the durable truth behind every success that was counted. */
  ghost predicate Accounted(r: DrainResult, w: World) {
    && r.claimed == r.completed + r.pending
    && |r.failures| == r.pending
    && |r.claimFailures| == r.claimErrors <= 1
    && r.completed == |r.settled| + |r.repaired|
    && (forall i :: 0 <= i < |r.settled| ==> r.settled[i] in w.jobs && Terminal(w.jobs[r.settled[i]].status))
    && (forall i :: 0 <= i < |r.repaired| ==> r.repaired[i] in w.repairs && Terminal(w.repairs[r.repaired[i]].status))
  }

  lemma {:induction false} AccountSurvives(r: DrainResult, w: World, es: seq<Event>)
    requires Accounted(r, w)
    ensures Accounted(r, Run(w, es))
  {
    forall i | 0 <= i < |r.settled|
      ensures r.settled[i] in Run(w, es).jobs && Terminal(Run(w, es).jobs[r.settled[i]].status)
    {
      TerminalIsFinal(w, es, r.settled[i]);
    }
    forall i | 0 <= i < |r.repaired|
      ensures r.repaired[i] in Run(w, es).repairs && Terminal(Run(w, es).repairs[r.repaired[i]].status)
    {
      RepairStatusIsFinal(w, es, r.repaired[i]);
    }
  }

  /** Processing only adds events, so what was accounted before stays true after it. */
  lemma AccountSurvivesCalls(r: DrainResult, start: World, before: seq<Event>, after: seq<Event>)
    requires before <= after && Accounted(r, Run(start, before))
    ensures Accounted(r, Run(start, after))
  {
    var es := after[|before|..];
    assert before + es == after;
    SplitRun(start, before, es);
    AccountSurvives(r, Run(start, before), es);
  }

  // ---------------------------------------------------------------- what the rounds have done

  /** What one round has come to. */
  datatype Worked = OnJob(job: Outcome) | OnRepair(repair: RepairOutcome) | ClaimFailed(error: string) | NothingDue

  predicate NoRepairDue(w: World) {
    w.now < QUARANTINE_AT ==> forall id :: id in w.repairs && RepairDue(w, id) ==> ExhaustedRepair(w, id)
  }

  predicate NoJobDue(w: World) {
    forall q :: q in w.jobs && Due(w, q) ==> !Claimable(w, q)
  }

  /** At some moment from `from` on no repair was due, and at a later one no job. */
  ghost predicate NothingFound(start: World, trace: seq<Event>, from: nat) {
    exists i, k :: from <= i <= k <= |trace| && NoRepairDue(Run(start, trace[..i])) && NoJobDue(Run(start, trace[..k]))
  }

  ghost predicate JobRetry(start: World, trace: seq<Event>, from: nat, id: nat) {
    exists l: Lease :: l.requestId == id && RetryRecorded(start, trace, from, l)
  }

  ghost predicate RetriedRepair(start: World, trace: seq<Event>, from: nat, id: nat) {
    exists l: RepairLease :: l.repairId == id && RepairRetryRecorded(start, trace, from, l)
  }

  /** What a round says is borne out by the events since `from`. */
  ghost predicate Truthful(d: Worked, start: World, trace: seq<Event>, from: nat) {
    match d
    case OnJob(o) => !o.Idle? && (RetryClaimed(o) ==> JobRetry(start, trace, from, o.requestId))
    case OnRepair(o) => !o.RepairIdle? && (RepairRetryClaimed(o) ==> RetriedRepair(start, trace, from, o.repairId))
    case ClaimFailed(_) => true
    case NothingDue => NothingFound(start, trace, from)
  }

  lemma TruthStays(d: Worked, start: World, trace: seq<Event>, trace': seq<Event>, from: nat)
    requires trace <= trace' && Truthful(d, start, trace, from)
    ensures Truthful(d, start, trace', from)
  {
    match d
    case OnJob(o) =>
      if RetryClaimed(o) {
        var l: Lease :| l.requestId == o.requestId && RetryRecorded(start, trace, from, l);
        RetryStaysRecorded(start, trace, trace', from, from, l);
      }
    case OnRepair(o) =>
      if RepairRetryClaimed(o) {
        var l: RepairLease :| l.repairId == o.repairId && RepairRetryRecorded(start, trace, from, l);
        RepairRetryStaysRecorded(start, trace, trace', from, from, l);
      }
    case ClaimFailed(_) =>
    case NothingDue =>
      var i, k :| from <= i <= k <= |trace| && NoRepairDue(Run(start, trace[..i])) && NoJobDue(Run(start, trace[..k]));
      assert trace'[..i] == trace[..i] && trace'[..k] == trace[..k];
  }

  /** The result after one more round. */
  predicate EndsDrain(d: Worked) {
    d.ClaimFailed? || d.NothingDue?
  }

  function Counted(r: DrainResult, d: Worked): DrainResult {
    match d
    case OnJob(Idle) => r
    case OnJob(PendingOutcome(id, _, failure, recorded)) => Failed(r, Failure(id, failure, recorded))
    case OnJob(CompletedOutcome(id, _)) => Ended(r).(settled := r.settled + [id])
    case OnJob(CancelledOutcome(id, _)) => Ended(r).(settled := r.settled + [id])
    case OnRepair(RepairIdle) => r
    case OnRepair(RepairPending(id, failure, recorded)) => Failed(r, Failure(id, failure, recorded))
    case OnRepair(RepairCompleted(id)) => Ended(r).(repaired := r.repaired + [id])
    case OnRepair(RepairWasSuperseded(id)) => Ended(r).(repaired := r.repaired + [id])
    case ClaimFailed(error) => r.(claimErrors := r.claimErrors + 1, claimFailures := r.claimFailures + [error])
    case NothingDue => r
  }

  function Failed(r: DrainResult, f: Failure): DrainResult {
    r.(claimed := r.claimed + 1, pending := r.pending + 1, failures := r.failures + [f])
  }

  function Ended(r: DrainResult): DrainResult {
    r.(claimed := r.claimed + 1, completed := r.completed + 1)
  }

  /** The result of exactly these rounds, in order. */
  function Tally(rounds: seq<Worked>): DrainResult {
    if rounds == [] then EMPTY else Counted(Tally(rounds[..|rounds| - 1]), rounds[|rounds| - 1])
  }

  const EMPTY := DrainResult(0, 0, 0, 0, [], [], [], [])

  ghost predicate AllTruthful(done: seq<Worked>, start: World, trace: seq<Event>, from: nat) {
    forall i :: 0 <= i < |done| ==> Truthful(done[i], start, trace, from)
  }

  lemma OneMoreRound(done: seq<Worked>, d: Worked, r: DrainResult, r': DrainResult, start: World, trace: seq<Event>,
                     trace': seq<Event>, from: nat, later: nat)
    requires r == Tally(done) && r' == Counted(r, d) && AllTruthful(done, start, trace, from)
    requires trace <= trace' && from <= later && Truthful(d, start, trace', later)
    ensures r' == Tally(done + [d]) && AllTruthful(done + [d], start, trace', from)
  {
    assert (done + [d])[..|done|] == done;
    forall i | 0 <= i < |done + [d]|
      ensures Truthful((done + [d])[i], start, trace', from)
    {
      if i < |done| {
        TruthStays(done[i], start, trace, trace', from);
      } else {
        TruthSince(d, start, trace', from, later);
      }
    }
  }

  lemma TruthSince(d: Worked, start: World, trace: seq<Event>, from: nat, later: nat)
    requires from <= later && Truthful(d, start, trace, later)
    ensures Truthful(d, start, trace, from)
  {
    match d
    case OnJob(o) =>
      if RetryClaimed(o) {
        var l: Lease :| l.requestId == o.requestId && RetryRecorded(start, trace, later, l);
        RetryStaysRecorded(start, trace, trace, from, later, l);
      }
    case OnRepair(o) =>
      if RepairRetryClaimed(o) {
        var l: RepairLease :| l.repairId == o.repairId && RepairRetryRecorded(start, trace, later, l);
        RepairRetryStaysRecorded(start, trace, trace, from, later, l);
      }
    case ClaimFailed(_) =>
    case NothingDue =>
      var i, k :| later <= i <= k <= |trace| && NoRepairDue(Run(start, trace[..i])) && NoJobDue(Run(start, trace[..k]));
  }

  // ---------------------------------------------------------------- the rounds

  /** One repair, with what the events say about it. */
  method RepairOnce(cloud: Cloud) returns (o: Result<RepairOutcome, string>, ghost idleAt: nat)
    requires cloud.Valid()
    modifies cloud
    ensures cloud.Valid() && old(cloud.trace) <= cloud.trace
    ensures o.Ok? ==> RepairEnded(cloud.world, o.value)
    ensures o.Ok? && !o.value.RepairIdle? ==> Truthful(OnRepair(o.value), cloud.start, cloud.trace, |old(cloud.trace)|)
    ensures o == Ok(RepairIdle) ==> |old(cloud.trace)| <= idleAt <= |cloud.trace| && NoRepairDue(Run(cloud.start, cloud.trace[..idleAt]))
  {
    ghost var early := cloud.trace + Head(cloud.script).before;
    SplitRun(cloud.start, cloud.trace, Head(cloud.script).before);
    o := ProcessLegacyAccountReactivationRepair(cloud);
    idleAt := |early|;
    assert cloud.trace[..idleAt] == early;
    NoneToQuarantine(Run(cloud.start, early));
  }

  /** The repair half of a round; `done` unless no repair is due. */
  method RepairRound(cloud: Cloud, sofar: DrainResult) returns (r: DrainResult, ghost d: Worked, done: bool, ghost idleAt: nat)
    requires cloud.Valid() && Accounted(sofar, cloud.world) && sofar.claimErrors == 0
    modifies cloud
    ensures cloud.Valid() && old(cloud.trace) <= cloud.trace && Accounted(r, cloud.world)
    ensures r == Counted(sofar, d) && !d.OnJob? && done == !d.NothingDue?
    ensures !d.NothingDue? ==> Truthful(d, cloud.start, cloud.trace, |old(cloud.trace)|)
    ensures d.NothingDue? ==> |old(cloud.trace)| <= idleAt <= |cloud.trace| && NoRepairDue(Run(cloud.start, cloud.trace[..idleAt]))
  {
    r, d, done := sofar, NothingDue, true;
    ghost var before := cloud.trace;
    var legacy: Result<RepairOutcome, string>;
    legacy, idleAt := RepairOnce(cloud);
    AccountSurvivesCalls(r, cloud.start, before, cloud.trace);
    if legacy.Err? {
      d := ClaimFailed(legacy.error);
      return r.(claimErrors := 1, claimFailures := r.claimFailures + [legacy.error]), d, true, idleAt;
    }
    d := if legacy.value.RepairIdle? then NothingDue else OnRepair(legacy.value);
    match legacy.value
    case RepairPending(id, failure, recorded) =>
      r := Failed(r, Failure(id, failure, recorded));
    case RepairCompleted(id) =>
      r := Ended(r).(repaired := r.repaired + [id]);
    case RepairWasSuperseded(id) =>
      r := Ended(r).(repaired := r.repaired + [id]);
    case RepairIdle =>
      done := false;
  }

  lemma NoneToQuarantine(w: World)
    ensures (QuarantineRepairs(w).now < QUARANTINE_AT ==> forall id :: !RepairDue(QuarantineRepairs(w), id)) ==> NoRepairDue(w)
  {
    var q := QuarantineRepairs(w);
    forall id | RepairDue(w, id) && !ExhaustedRepair(w, id)
      ensures RepairDue(q, id)
    {
      assert q.repairs[id] == w.repairs[id];
    }
  }

  /** One job, with what the events say about it. */
  method JobOnce(cloud: Cloud) returns (o: Result<Outcome, string>, ghost idleAt: nat)
    requires cloud.Valid()
    modifies cloud
    ensures cloud.Valid() && old(cloud.trace) <= cloud.trace
    ensures o.Ok? && o.value.CompletedOutcome? ==> IsCompleted(cloud.world, o.value.requestId)
    ensures o.Ok? && o.value.CancelledOutcome? ==> IsCancelled(cloud.world, o.value.requestId)
    ensures o.Ok? && !o.value.Idle? ==> Truthful(OnJob(o.value), cloud.start, cloud.trace, |old(cloud.trace)|)
    ensures o == Ok(Idle) ==> |old(cloud.trace)| <= idleAt <= |cloud.trace| && NoJobDue(Run(cloud.start, cloud.trace[..idleAt]))
  {
    ghost var early := cloud.trace + Head(cloud.script).before;
    SplitRun(cloud.start, cloud.trace, Head(cloud.script).before);
    o := ProcessAccountReactivationJob(cloud, None);
    idleAt := |early|;
    assert cloud.trace[..idleAt] == early;
  }

  /** The job half of a round; `stop` when no job is due or the claim fails. */
  method JobRound(cloud: Cloud, sofar: DrainResult) returns (r: DrainResult, ghost d: Worked, stop: bool, ghost idleAt: nat)
    requires cloud.Valid() && Accounted(sofar, cloud.world) && sofar.claimErrors == 0
    modifies cloud
    ensures cloud.Valid() && old(cloud.trace) <= cloud.trace && Accounted(r, cloud.world)
    ensures r == Counted(sofar, d) && !d.OnRepair? && stop == EndsDrain(d)
    ensures !d.NothingDue? ==> Truthful(d, cloud.start, cloud.trace, |old(cloud.trace)|)
    ensures d.NothingDue? ==> |old(cloud.trace)| <= idleAt <= |cloud.trace| && NoJobDue(Run(cloud.start, cloud.trace[..idleAt]))
  {
    r, d, stop := sofar, NothingDue, false;
    ghost var before := cloud.trace;
    var outcome: Result<Outcome, string>;
    outcome, idleAt := JobOnce(cloud);
    AccountSurvivesCalls(r, cloud.start, before, cloud.trace);
    if outcome.Err? {
      d := ClaimFailed(outcome.error);
      return r.(claimErrors := 1, claimFailures := r.claimFailures + [outcome.error]), d, true, idleAt;
    }
    d := if outcome.value.Idle? then NothingDue else OnJob(outcome.value);
    match outcome.value
    case Idle =>
      stop := true;
    case PendingOutcome(id, _, failure, recorded) =>
      r := Failed(r, Failure(id, failure, recorded));
    case CompletedOutcome(id, _) =>
      r := Ended(r).(settled := r.settled + [id]);
    case CancelledOutcome(id, _) =>
      r := Ended(r).(settled := r.settled + [id]);
  }

  /** One round: a repair if one is due, otherwise a job; `stop` when nothing more can be claimed in this invocation. */
  method DrainRound(cloud: Cloud, sofar: DrainResult) returns (r: DrainResult, ghost d: Worked, stop: bool)
    requires cloud.Valid() && Accounted(sofar, cloud.world) && sofar.claimErrors == 0
    modifies cloud
    ensures cloud.Valid() && old(cloud.trace) <= cloud.trace
    ensures Accounted(r, cloud.world) && r == Counted(sofar, d)
    ensures Truthful(d, cloud.start, cloud.trace, |old(cloud.trace)|)
    ensures stop == EndsDrain(d)
  {
    ghost var repairIdle: nat, jobIdle: nat;
    var done: bool;
    r, d, done, repairIdle := RepairRound(cloud, sofar);
    if done {
      stop := r.claimErrors > 0;
      return;
    }
    ghost var between := cloud.trace;
    r, d, stop, jobIdle := JobRound(cloud, sofar);
    if d.NothingDue? {
      assert cloud.trace[..repairIdle] == between[..repairIdle];
      assert NothingFound(cloud.start, cloud.trace, |old(cloud.trace)|);
    } else {
      TruthSince(d, cloud.start, cloud.trace, |old(cloud.trace)|, |between|);
    }
  }

  method BeginDrain(cloud: Cloud) returns (r: DrainResult, ghost rounds: seq<Worked>)
    requires cloud.Valid()
    ensures rounds == [] && r.claimErrors == 0 && Drained(r, rounds, cloud.start, cloud.trace, |cloud.trace|)
  {
    r, rounds := DrainResult(0, 0, 0, 0, [], [], [], []), [];
  }

  /** No round but the last has ended the drain, and `stop` tells whether the last has. */
  predicate Went(rounds: seq<Worked>, expired: int -> bool, stop: bool) {
    && (forall i :: 0 <= i < |rounds| - 1 ==> !EndsDrain(rounds[i]) && !expired(i))
    && (stop <==> rounds != [] && (EndsDrain(rounds[|rounds| - 1]) || expired(|rounds| - 1)))
  }

  /** The result so far counts the rounds so far, each borne out by the events since `from`. */
  ghost predicate Drained(r: DrainResult, rounds: seq<Worked>, start: World, trace: seq<Event>, from: nat) {
    && Accounted(r, Run(start, trace)) && r == Tally(rounds) && AllTruthful(rounds, start, trace, from)
    && r.claimed + r.claimErrors <= |rounds|
  }

  /** One more round on top of those that were done since the trace was `from` events long. */
  method NextRound(cloud: Cloud, sofar: DrainResult, ghost rounds: seq<Worked>, ghost from: nat)
    returns (r: DrainResult, ghost d: Worked, stop: bool)
    requires cloud.Valid() && Drained(sofar, rounds, cloud.start, cloud.trace, from) && sofar.claimErrors == 0 && from <= |cloud.trace|
    modifies cloud
    ensures cloud.Valid() && old(cloud.trace) <= cloud.trace && Drained(r, rounds + [d], cloud.start, cloud.trace, from)
    ensures stop == EndsDrain(d) && (!stop ==> r.claimErrors == 0)
  {
    ghost var before := cloud.trace;
    r, d, stop := DrainRound(cloud, sofar);
    OneMoreRound(rounds, d, sofar, r, cloud.start, before, cloud.trace, from, |before|);
  }

  /** As many rounds as the bound allows, or until one ends the drain. */
  method DrainRounds(cloud: Cloud, bounded: nat, expired: int -> bool) returns (r: DrainResult, ghost rounds: seq<Worked>, ghost stop: bool)
    requires cloud.Valid()
    modifies cloud
    ensures cloud.Valid() && old(cloud.trace) <= cloud.trace && Drained(r, rounds, cloud.start, cloud.trace, |old(cloud.trace)|)
    ensures Went(rounds, expired, stop) && |rounds| <= bounded && (|rounds| < bounded ==> stop)
  {
    r, rounds := BeginDrain(cloud);
    var index, done := 0, false;
    while index < bounded && !done
      invariant 0 <= index == |rounds| <= bounded
      invariant cloud.Valid() && old(cloud.trace) <= cloud.trace && (!done ==> r.claimErrors == 0)
      invariant Drained(r, rounds, cloud.start, cloud.trace, |old(cloud.trace)|)
      invariant Went(rounds, expired, done)
    {
      ghost var d: Worked;
      r, d, done := NextRound(cloud, r, rounds, |old(cloud.trace)|);
      rounds := rounds + [d];
      done := done || expired(index);
      index := index + 1;
    }
    stop := done;
  }

  /**
   `expired(i)` tells whether the deadline has passed after the i-th round.  The result counts
   exactly the rounds that were done, each borne out by the events; the drain ends early only
   when a claim fails, when nothing is due, or at the deadline.
   */
  method DrainAccountReactivationJobs(cloud: Cloud, limit: Option<int>, expired: int -> bool) returns (r: DrainResult, ghost rounds: seq<Worked>)
    requires cloud.Valid()
    modifies cloud
    ensures cloud.Valid() && old(cloud.trace) <= cloud.trace
    ensures Accounted(r, cloud.world)
    ensures r == Tally(rounds) && AllTruthful(rounds, cloud.start, cloud.trace, |old(cloud.trace)|)
    ensures 1 <= |rounds| && MoreRounds(limit, |rounds| - 1)
    ensures MoreRounds(limit, |rounds|) ==> EndsDrain(rounds[|rounds| - 1]) || expired(|rounds| - 1)
    ensures forall i :: 0 <= i < |rounds| - 1 ==> !EndsDrain(rounds[i]) && !expired(i)
    ensures r.claimed + r.claimErrors <= |rounds|
  {
    ghost var stop: bool;
    r, rounds, stop := DrainRounds(cloud, Bounded(if limit.Some? then limit.value else DefaultLimit), expired);
  }
}
