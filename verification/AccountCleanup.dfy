/**
 One lease of an account deletion cleanup, from the claim to the finish, and the drain that works
 through the due jobs.  Every external call is logged; its answer comes from a script, so that
 any failure may happen at any point.
 */
module AccountCleanup {
  import opened Wrappers
  import opened CleanupTargets

  // ---------------------------------------------------------------- answers of the services

  /** The rows a Storage removal acknowledges; None for an error or a rejected call. */
  type RemoveAnswer = Option<seq<string>>

  datatype ExistsAnswer = Thrown | Malformed | Present | Absent(error: Option<nat>)

  datatype Fence = Fence(jobId: string, userId: string, token: string, version: int, action: string)

  datatype AuthUser = AuthUser(id: string, email: Option<string>, metadata: Option<seq<string>>, fence: Option<Fence>)

  /** None when the call throws; otherwise whether an error is reported, and the user if any. */
  datatype AuthAnswer = AuthAnswer(error: bool, user: Option<AuthUser>)

  /** `owners` is None when the query fails or a row is malformed. */
  type OwnersAnswer = Option<seq<(string, string)>>

  datatype ArmAnswer = ArmAnswer(ok: bool, row: Fence)

  datatype FinishAnswer = FinishAnswer(ok: bool, jobId: string, userId: string, token: string, version: int, status: string)

  datatype Lease = Lease(jobId: string, userId: string, targets: seq<Target>, token: string, version: int,
                         attemptCount: int, scrubAuth: bool)

  /** What a claim returns for a due row; None stands for a field of another type. */
  datatype DueJob = DueJob(jobId: string, userId: string, token: string, version: int, attemptCount: int,
                           scrubAuth: Option<bool>, targets: Option<seq<RawTarget>>, generationIds: Option<seq<string>>)

  const MAX_SAFE: int := 9007199254740991

  function ParseLease(job: DueJob): Result<Lease, string> {
    if !IsUuid(job.jobId) || !IsUuid(job.userId) || !IsUuid(job.token) || !(1 <= job.version <= MAX_SAFE)
       || !(1 <= job.attemptCount <= MAX_SAFE) || job.scrubAuth.None? then
      Err("invalid account deletion cleanup lease")
    else
      var targets := ParseCleanupTargets(job.targets, job.userId);
      if targets.Err? then Err(targets.error)
      else if job.generationIds.None? || |job.generationIds.value| > 100
              || exists id :: id in job.generationIds.value && !IsUuid(id) then
        Err("invalid account cleanup generation targets")
      else if !Distinct(job.generationIds.value) then Err("duplicate account cleanup generation target")
      else Ok(Lease(job.jobId, job.userId, targets.value, job.token, job.version, job.attemptCount, job.scrubAuth.value))
  }

  /** A claimed row that cannot be parsed. */
  predicate Poison(job: DueJob) {
    ParseLease(job).Err?
  }

  lemma ParsedLeaseIsValid(job: DueJob)
    requires !Poison(job)
    ensures ValidLease(ParseLease(job).value) && ParseLease(job).value.jobId == job.jobId
  {
    ParsedTargetsAreOwn(job.targets, job.userId);
  }

  /** The whole numbers that a double holds exactly, from one on. */
  predicate Counts(n: int) {
    1 <= n <= 9007199254740991
  }

  /** Exactly these rows are taken as leases: well-formed ids and counters, acceptable targets, and different generation ids. */
  lemma LeaseParsedIff(job: DueJob, l: Lease)
    ensures ParseLease(job) == Ok(l) <==>
              && IsUuid(job.jobId) && IsUuid(job.userId) && IsUuid(job.token) && Counts(job.version) && Counts(job.attemptCount)
              && job == DueJob(l.jobId, l.userId, l.token, l.version, l.attemptCount, Some(l.scrubAuth), job.targets, job.generationIds)
              && job.targets.Some? && |l.targets| == |job.targets.value| <= 100 && Distinct(l.targets)
              && (forall i :: 0 <= i < |l.targets| ==>
                    && job.targets.value[i] == RawTarget(Some(l.targets[i].bucket), Some(l.targets[i].path))
                    && Acceptable(l.targets[i], l.userId))
              && job.generationIds.Some? && |job.generationIds.value| <= 100 && Distinct(job.generationIds.value)
              && (forall id :: id in job.generationIds.value ==> IsUuid(id))
  {
    if job.targets.Some? && IsUuid(job.userId) {
      TargetsParsedIff(job.targets.value, job.userId, l.targets);
    }
  }

  /**
   What becomes of a finish is up to the server and the network.  `Lost`: the call never arrives,
   or its transaction raises, and the row stays leased.  `Recorded`: it commits, and may arm the
   job again at once, behind all due ones; `again` holds what the next claim of the job returns.
   Its answer may still be lost.
   */
  datatype FinishFate = Lost | Recorded(again: Option<DueJob>, answer: Option<FinishAnswer>)

  datatype Call =
    | Claim
    | ReadOwners(ids: seq<string>, rows: OwnersAnswer)
    | Remove(bucket: string, paths: seq<string>)
    | Exists(bucket: string, path: string, absent: bool)
    | ArmFence(lease: Lease)
    | ReadAuth(userId: string)
    | UpdateAuth(userId: string, email: string, cleared: seq<string>)
    | Finish(jobId: string, success: bool, error: string)

  const FINISH_STATUSES: set<string> := {
    "completed", "pending", "pending_batch", "pending_target_remains", "pending_final_sweep",
    "pending_intent_drain", "pending_generation_reconciliation", "pending_auth_scrub" }

  function DeletedEmailMarker(userId: string): string {
    "deleted+" + userId + "@deleted.invalid"
  }

  /** The code recorded as failed: an operation, or several of them for collected failures. */
  type Failure = string

  datatype Outcome =
    | Idle
    | Completed(jobId: string, attemptCount: int)
    | Pending(jobId: string, attemptCount: int, failure: Failure, retryRecorded: bool)

  const STORAGE_REMOVE := "account.cleanup.storage_remove"
  const VERIFY_ABSENT := "account.cleanup.storage_remove.verify_absent"
  const TARGET_OWNERS := "account.cleanup.target_owners"
  const ARM_FENCE := "account.cleanup.auth.arm_fence"
  const READ_FENCE := "account.cleanup.auth.read_fence"
  const FINISH := "account.cleanup.finish"

  /** The failure that a caller is told for each status of an unfinished job. */
  function FailureOf(status: string): Failure {
    if status == "pending_batch" then "account_cleanup_more_targets"
    else if status == "pending_target_remains" then "storage_object_still_present"
    else if status == "pending_final_sweep" then "signed_upload_final_sweep_wait"
    else if status == "pending_intent_drain" then "storage_upload_intent_drain_wait"
    else if status == "pending_generation_reconciliation" then "generation_cost_reconciliation_wait"
    else if status == "pending_auth_scrub" then "auth_scrub_required"
    else "account_cleanup_retry"
  }

  // ---------------------------------------------------------------- what the log proves

  /** The batches that were passed to Storage, in order. */
  function Removals(calls: seq<Call>): seq<(string, seq<string>)> {
    if calls == [] then []
    else
      var last, before := calls[|calls| - 1], Removals(calls[..|calls| - 1]);
      if last.Remove? then before + [(last.bucket, last.paths)] else before
  }

  /** The server was told of this finish and of no other, as the last call. */
  predicate OnlyFinish(told: seq<Call>, told': seq<Call>, calls: seq<Call>, f: Call) {
    told' == told + [f] && calls != [] && calls[|calls| - 1] == f
  }

  // ---------------------------------------------------------------- good answers

  predicate SaysAbsent(a: ExistsAnswer) {
    a.Absent? && (a.error.None? || a.error.value in {400, 404})
  }

  predicate AllAbsent(answers: seq<ExistsAnswer>, n: nat) {
    n <= |answers| && forall i :: 0 <= i < n ==> SaysAbsent(answers[i])
  }

  function Skip<T>(s: seq<T>, n: nat): seq<T> {
    if n <= |s| then s[n..] else []
  }

  predicate Acknowledged(answer: RemoveAnswer, paths: seq<string>) {
    answer.Some? && AcknowledgesOnly(answer.value, paths)
  }

  /** Storage acknowledges each of these batches and then says of each path that it is gone. */
  predicate GoodStorage(plan: seq<(string, seq<string>)>, removes: seq<RemoveAnswer>, answers: seq<ExistsAnswer>)
    decreases |plan|
  {
    plan != [] ==>
      && Acknowledged(First(removes), plan[0].1) && AllAbsent(answers, |plan[0].1|)
      && GoodStorage(plan[1..], Rest(removes), Skip(answers, |plan[0].1|))
  }

  /** The answer gives exactly the asked scores to the user. */
  ghost predicate GoodOwners(answer: OwnersAnswer, lease: Lease) {
    ScoreIds(lease.targets) == []
    || (answer.Some? && forall id :: id in OwnIds(answer.value, lease.userId) <==> id in ScoreIds(lease.targets))
  }

  predicate GoodArm(answer: Option<ArmAnswer>, lease: Lease) {
    answer.Some? && answer.value.ok && answer.value.row == FenceOf(lease)
  }

  /** The fence is armed and seen; the metadata keys are read; the update and the last read show a scrubbed user. */
  predicate GoodAuth(arms: seq<Option<ArmAnswer>>, auths: seq<Option<AuthAnswer>>, lease: Lease) {
    && GoodArm(First(arms), lease) && FenceObserved(First(auths), lease) && GoodScrub(Rest(auths), lease.userId)
  }

  predicate GoodScrub(auths: seq<Option<AuthAnswer>>, userId: string) {
    && KeysRead(First(auths), userId).Some?
    && ShowsScrubbed(First(Rest(auths)), userId) && ShowsScrubbed(First(Rest(Rest(auths))), userId)
  }

  /** Every answer that the clean-up of this lease needs is good. */
  ghost predicate GoodAnswers(lease: Lease, owners: seq<OwnersAnswer>, removes: seq<RemoveAnswer>, answers: seq<ExistsAnswer>,
                        arms: seq<Option<ArmAnswer>>, auths: seq<Option<AuthAnswer>>)
  {
    && GoodOwners(First(owners), lease)
    && GoodStorage(Plan(GroupsOf(lease.targets)), removes, answers)
    && (lease.scrubAuth ==> GoodAuth(arms, auths, lease))
  }

  lemma RemovalsAppend(calls: seq<Call>, c: Call)
    ensures Removals(calls + [c]) == if c.Remove? then Removals(calls) + [(c.bucket, c.paths)] else Removals(calls)
  {
    assert (calls + [c])[..|calls|] == calls;
  }

  predicate Removes(c: Call, bucket: string, path: string) {
    c.Remove? && c.bucket == bucket && path in c.paths
  }

  /** From call `base` on, the path was passed to Storage, and after that it was seen to be gone. */
  predicate SeenAbsent(calls: seq<Call>, base: nat, bucket: string, path: string) {
    exists i, k :: base <= i < k < |calls| && Removes(calls[i], bucket, path) && calls[k] == Exists(bucket, path, true)
  }

  lemma StillAbsent(before: seq<Call>, after: seq<Call>, base: nat, later: nat, bucket: string, path: string)
    requires before <= after && base <= later && SeenAbsent(before, later, bucket, path)
    ensures SeenAbsent(after, base, bucket, path)
  {
    var i, k :| later <= i < k < |before| && Removes(before[i], bucket, path) && before[k] == Exists(bucket, path, true);
    assert Removes(after[i], bucket, path) && after[k] == Exists(bucket, path, true);
  }

  /** The answer of this query gives the score to the user. */
  predicate GivesOwner(c: Call, id: string, userId: string) {
    c.ReadOwners? && c.rows.Some? && OwnedIn(c.rows.value, id, userId)
  }

  predicate OwnerSeen(calls: seq<Call>, from: nat, to: nat, id: string, userId: string) {
    exists n :: from <= n < to && n < |calls| && GivesOwner(calls[n], id, userId)
  }

  /** The lease may remove t at call i: its own target, and for a score id, verified by then. */
  predicate Entitled(calls: seq<Call>, base: nat, i: nat, lease: Lease, t: Target) {
    && t in lease.targets && InOwnDirectory(t, lease.userId)
    && (t.bucket == "highlights" ==> OwnerSeen(calls, base, i, Split(t.path)[0], lease.userId))
  }

  predicate LawfulAt(calls: seq<Call>, base: nat, i: nat, lease: Lease)
    requires i < |calls|
  {
    calls[i].Remove? ==> forall p :: p in calls[i].paths ==> Entitled(calls, base, i, lease, Target(calls[i].bucket, p))
  }

  /** Every removal from call `base` on was one this lease was entitled to. */
  predicate Lawful(calls: seq<Call>, base: nat, lease: Lease) {
    forall i :: base <= i < |calls| ==> LawfulAt(calls, base, i, lease)
  }

  /** Every removal from call `base` on was one that some lease among these jobs was entitled to. */
  ghost predicate AllLawful(calls: seq<Call>, base: nat, jobs: seq<DueJob>) {
    forall i :: base <= i < |calls| && calls[i].Remove? ==>
      exists j :: 0 <= j < |jobs| && LawfulFor(calls, base, i, jobs[j])
  }

  predicate LawfulFor(calls: seq<Call>, base: nat, i: nat, job: DueJob)
    requires i < |calls|
  {
    !Poison(job) && LawfulAt(calls, base, i, ParseLease(job).value)
  }

  lemma OwnerStillSeen(before: seq<Call>, after: seq<Call>, base: nat, later: nat, i: nat, id: string, userId: string)
    requires before <= after && base <= later && i <= |before| && OwnerSeen(before, later, i, id, userId)
    ensures OwnerSeen(after, base, i, id, userId)
  {
    var n :| later <= n < i && n < |before| && GivesOwner(before[n], id, userId);
    assert GivesOwner(after[n], id, userId);
  }

  lemma LawfulStays(before: seq<Call>, after: seq<Call>, base: nat, later: nat, i: nat, lease: Lease)
    requires before <= after && base <= later && i < |before| && LawfulAt(before, later, i, lease)
    ensures LawfulAt(after, base, i, lease)
  {
    assert after[i] == before[i];
    if after[i].Remove? {
      forall p | p in after[i].paths
        ensures Entitled(after, base, i, lease, Target(after[i].bucket, p))
      {
        var t := Target(before[i].bucket, p);
        assert Entitled(before, later, i, lease, t);
        if t.bucket == "highlights" {
          OwnerStillSeen(before, after, base, later, i, Split(t.path)[0], lease.userId);
        }
      }
    }
  }

  lemma {:induction false} RemovalsSplit(calls: seq<Call>, base: nat)
    requires base <= |calls|
    ensures Removals(calls) == Removals(calls[..base]) + Removals(calls[base..])
    decreases |calls|
  {
    if base < |calls| {
      var n := |calls| - 1;
      RemovalsSplit(calls[..n], base);
      assert calls[..n][..base] == calls[..base];
      assert calls[base..][..n - base] == calls[..n][base..];
    } else {
      assert calls[..base] == calls;
    }
  }

  lemma {:induction false} RemovalLogged(calls: seq<Call>, i: nat)
    requires i < |calls| && calls[i].Remove?
    ensures (calls[i].bucket, calls[i].paths) in Removals(calls)
    decreases |calls|
  {
    if i < |calls| - 1 {
      RemovalLogged(calls[..|calls| - 1], i);
    }
  }

  /** What a stretch of the log passes to Storage is what its removals say. */
  lemma RemovalsBetween(before: seq<Call>, after: seq<Call>, plan: seq<(string, seq<string>)>, i: nat)
    requires before <= after && Removals(after) == Removals(before) + plan
    requires |before| <= i < |after| && after[i].Remove?
    ensures (after[i].bucket, after[i].paths) in plan
  {
    var base := |before|;
    RemovalsSplit(after, base);
    assert after[..base] == before;
    var a, b := Removals(before), Removals(after[base..]);
    assert b == (a + b)[|a|..] && plan == (a + plan)[|a|..];
    RemovalLogged(after[base..], i - base);
  }

  /** A stretch of the log without removals changes nothing about the lawfulness of the others. */
  lemma LawfulWithoutRemovals(before: seq<Call>, after: seq<Call>, base: nat, lease: Lease)
    requires before <= after && base <= |before| && Removals(after) == Removals(before) && Lawful(before, base, lease)
    ensures Lawful(after, base, lease)
  {
    assert Removals(before) + [] == Removals(before);
    forall i | base <= i < |after|
      ensures LawfulAt(after, base, i, lease)
    {
      if i < |before| {
        assert LawfulAt(before, base, i, lease);
        LawfulStays(before, after, base, base, i, lease);
      } else if after[i].Remove? {
        RemovalsBetween(before, after, [], i);
      }
    }
  }

  lemma {:induction false} FlatMember(plan: seq<(string, seq<string>)>, bucket: string, paths: seq<string>, p: string)
    requires (bucket, paths) in plan && p in paths
    ensures Target(bucket, p) in Flat(plan)
    decreases |plan|
  {
    NamedMember(plan[0].0, plan[0].1, Target(bucket, p));
    if plan[0] != (bucket, paths) {
      assert plan == [plan[0]] + plan[1..];
      FlatMember(plan[1..], bucket, paths, p);
    }
  }

  /** A stretch of the log that adds no removal holds none. */
  lemma NoRemovalIn(before: seq<Call>, after: seq<Call>, i: nat)
    requires before <= after && Removals(after) == Removals(before) && |before| <= i < |after|
    ensures !after[i].Remove?
  {
    assert Removals(before) + [] == Removals(before);
    if after[i].Remove? {
      RemovalsBetween(before, after, [], i);
    }
  }

  /** Removing the planned batches after the owners were verified is lawful. */
  lemma PlannedIsLawful(start: seq<Call>, verified: seq<Call>, after: seq<Call>, lease: Lease)
    requires start <= verified <= after && ValidLease(lease)
    requires Removals(verified) == Removals(start) && Removals(after) == Removals(verified) + Plan(GroupsOf(lease.targets))
    requires OwnersVerified(verified, |start|, lease)
    ensures Lawful(after, |start|, lease)
  {
    var plan := Plan(GroupsOf(lease.targets));
    PlanCoversOnce(lease.targets);
    forall i | |start| <= i < |after| && after[i].Remove?
      ensures LawfulAt(after, |start|, i, lease)
    {
      if i < |verified| {
        assert verified[i] == after[i];
        NoRemovalIn(start, verified, i);
      } else {
        RemovalsBetween(verified, after, plan, i);
        PlannedCallIsLawful(verified, after, |start|, i, lease);
      }
    }
  }

  lemma PlannedCallIsLawful(verified: seq<Call>, after: seq<Call>, base: nat, i: nat, lease: Lease)
    requires verified <= after && |verified| <= i < |after| && after[i].Remove? && ValidLease(lease)
    requires OwnersVerified(verified, base, lease) && (after[i].bucket, after[i].paths) in Plan(GroupsOf(lease.targets))
    requires forall t :: t in Flat(Plan(GroupsOf(lease.targets))) ==> t in lease.targets
    ensures LawfulAt(after, base, i, lease)
  {
    forall p | p in after[i].paths
      ensures Entitled(after, base, i, lease, Target(after[i].bucket, p))
    {
      FlatMember(Plan(GroupsOf(lease.targets)), after[i].bucket, after[i].paths, p);
      PlannedIsEntitled(verified, after, base, i, lease, Target(after[i].bucket, p));
    }
  }

  lemma PlannedIsEntitled(verified: seq<Call>, after: seq<Call>, base: nat, i: nat, lease: Lease, t: Target)
    requires verified <= after && |verified| <= i < |after| && ValidLease(lease) && t in lease.targets
    requires OwnersVerified(verified, base, lease)
    ensures Entitled(after, base, i, lease, t)
  {
    var k :| 0 <= k < |lease.targets| && lease.targets[k] == t;
    if t.bucket == "highlights" {
      assert OwnerSeen(verified, base, |verified|, Split(t.path)[0], lease.userId);
      var n :| base <= n < |verified| && GivesOwner(verified[n], Split(t.path)[0], lease.userId);
      assert GivesOwner(after[n], Split(t.path)[0], lease.userId);
    }
  }

  /** For every highlight target the log, from call `base` on, has an answer that gives its score to the user. */
  predicate OwnersVerified(calls: seq<Call>, base: nat, lease: Lease) {
    forall k :: 0 <= k < |lease.targets| && lease.targets[k].bucket == "highlights" ==>
      OwnerSeen(calls, base, |calls|, Split(lease.targets[k].path)[0], lease.userId)
  }

  lemma DrainStaysLawful(before: seq<Call>, after: seq<Call>, base: nat, jobs: seq<DueJob>, job: DueJob)
    requires before <= after && base <= |before| && AllLawful(before, base, jobs)
    requires if Poison(job) then Removals(after) == Removals(before) else Lawful(after, |before|, ParseLease(job).value)
    ensures AllLawful(after, base, jobs + [job])
  {
    assert Removals(before) + [] == Removals(before);
    forall i | base <= i < |after| && after[i].Remove?
      ensures exists j :: 0 <= j < |jobs + [job]| && LawfulFor(after, base, i, (jobs + [job])[j])
    {
      if i < |before| {
        assert before[i] == after[i];
        var j :| 0 <= j < |jobs| && LawfulFor(before, base, i, jobs[j]);
        LawfulStays(before, after, base, base, i, ParseLease(jobs[j]).value);
        assert LawfulFor(after, base, i, (jobs + [job])[j]);
      } else {
        if Poison(job) {
          RemovalsBetween(before, after, [], i);
        } else {
          LawfulStays(after, after, base, |before|, i, ParseLease(job).value);
          assert LawfulFor(after, base, i, (jobs + [job])[|jobs|]);
        }
      }
    }
  }

  function FenceOf(lease: Lease): Fence {
    Fence(lease.jobId, lease.userId, lease.token, lease.version, "scrub")
  }

  function ScoreIds(targets: seq<Target>): seq<string> {
    if targets == [] then []
    else
      var before := ScoreIds(targets[..|targets| - 1]);
      var last := targets[|targets| - 1];
      if last.bucket != "highlights" then before
      else if Split(last.path)[0] in before then before
      else before + [Split(last.path)[0]]
  }

  lemma {:induction false} ScoreIdsOfTargets(targets: seq<Target>, i: nat)
    requires i < |targets| && targets[i].bucket == "highlights"
    ensures Split(targets[i].path)[0] in ScoreIds(targets)
    decreases |targets|
  {
    if i < |targets| - 1 {
      ScoreIdsOfTargets(targets[..|targets| - 1], i);
    }
  }

  /** Rows of this owner only. */
  predicate OwnedIn(rows: seq<(string, string)>, id: string, userId: string) {
    (id, userId) in rows
  }

  class Worker {
    var calls: seq<Call>
    var due: seq<DueJob>     // claimable rows, in the order of their due times
    var leased: seq<DueJob>  // claimed rows without a recorded finish, in the same order
    ghost var attempted: seq<DueJob>
    ghost var told: seq<Call> // the finishes among the calls
    // scripted answers
    var claims: seq<bool>
    var owners: seq<OwnersAnswer>
    var removes: seq<RemoveAnswer>
    var existsAnswers: seq<ExistsAnswer>
    var arms: seq<Option<ArmAnswer>>
    var auths: seq<Option<AuthAnswer>>
    var finishes: seq<FinishFate>

    constructor (due: seq<DueJob>, claims: seq<bool>, owners: seq<OwnersAnswer>, removes: seq<RemoveAnswer>,
                 existsAnswers: seq<ExistsAnswer>, arms: seq<Option<ArmAnswer>>, auths: seq<Option<AuthAnswer>>, finishes: seq<FinishFate>)
      ensures calls == [] && attempted == [] && told == [] && leased == [] && this.due == due && this.claims == claims && this.finishes == finishes
    {
      calls, attempted, leased, told := [], [], [], [];
      this.due, this.claims, this.owners, this.removes := due, claims, owners, removes;
      this.existsAnswers, this.arms, this.auths, this.finishes := existsAnswers, arms, auths, finishes;
    }

    method Log(c: Call)
      modifies this`calls
      ensures calls == old(calls) + [c]
      ensures Removals(calls) == if c.Remove? then Removals(old(calls)) + [(c.bucket, c.paths)] else Removals(old(calls))
    {
      RemovalsAppend(calls, c);
      calls := calls + [c];
    }

    // -------------------------------------------------------------- storage

    /**
     Removes one batch and checks that each of its paths is gone.  A batch with a path that is
     not canonical fails before any call.
     */
    method RemoveStorageObjects(bucket: string, paths: seq<string>) returns (failure: Option<Failure>)
      modifies this`calls, this`removes, this`existsAnswers
      ensures old(calls) <= calls
      ensures var unique := Unique(NonEmpty(paths));
              Removals(calls) == if unique == [] || exists p :: p in unique && !IsCanonicalPath(p) then Removals(old(calls))
                                 else Removals(old(calls)) + [(bucket, unique)]
      ensures failure.None? ==> forall p :: p in paths && p != "" ==> IsCanonicalPath(p) && SeenAbsent(calls, |old(calls)|, bucket, p)
      ensures var unique := Unique(NonEmpty(paths));
              && (failure.Some? ==> failure.value == STORAGE_REMOVE || failure.value == VERIFY_ABSENT)
              && (failure == Some(STORAGE_REMOVE) <==>
                    unique != [] && ((exists p :: p in unique && !IsCanonicalPath(p)) || !Acknowledged(First(old(removes)), unique)))
      ensures var unique := Unique(NonEmpty(paths));
              unique != [] && (forall p :: p in unique ==> IsCanonicalPath(p))
              && Acknowledged(First(old(removes)), unique) && AllAbsent(old(existsAnswers), |unique|) ==>
                failure.None? && removes == Rest(old(removes)) && existsAnswers == Skip(old(existsAnswers), |unique|)
    {
      var unique := Unique(NonEmpty(paths));
      UniqueIsDistinct(NonEmpty(paths));
      NonEmptyMembers(paths);
      if unique == [] {
        return None;
      }
      var canonical := AllCanonical(unique);
      if !canonical {
        return Some(STORAGE_REMOVE);
      }
      Log(Remove(bucket, unique));
      var acknowledged := First(removes);
      removes := Rest(removes);
      if !Acknowledged(acknowledged, unique) {
        return Some(STORAGE_REMOVE);
      }
      ghost var removed := calls;
      var ok := VerifyAbsent(bucket, unique);
      if !ok {
        return Some(VERIFY_ABSENT);
      }
      AbsentAfterRemoval(old(calls), removed, calls, bucket, unique);
      failure := None;
    }

    method AllCanonical(paths: seq<string>) returns (ok: bool)
      ensures ok <==> forall p :: p in paths ==> IsCanonicalPath(p)
    {
      var k := 0;
      while k < |paths|
        invariant 0 <= k <= |paths| && forall i :: 0 <= i < k ==> IsCanonicalPath(paths[i])
      {
        if !IsCanonicalPath(paths[k]) {
          return false;
        }
        k := k + 1;
      }
      ok := true;
    }

    method VerifyAbsent(bucket: string, paths: seq<string>) returns (ok: bool)
      modifies this`calls, this`existsAnswers
      ensures old(calls) <= calls && Removals(calls) == Removals(old(calls))
      ensures ok ==> |calls| == |old(calls)| + |paths| && forall i :: 0 <= i < |paths| ==> calls[|old(calls)| + i] == Exists(bucket, paths[i], true)
      ensures ok <==> AllAbsent(old(existsAnswers), |paths|)
      ensures ok ==> existsAnswers == Skip(old(existsAnswers), |paths|)
    {
      var k := 0;
      while k < |paths|
        invariant 0 <= k <= |paths| && old(calls) <= calls && Removals(calls) == Removals(old(calls))
        invariant |calls| == |old(calls)| + k && forall i :: 0 <= i < k ==> calls[|old(calls)| + i] == Exists(bucket, paths[i], true)
        invariant AllAbsent(old(existsAnswers), k) && existsAnswers == old(existsAnswers)[k..]
      {
        var answer := if existsAnswers == [] then Thrown else existsAnswers[0];
        existsAnswers := if existsAnswers == [] then [] else existsAnswers[1..];
        var absent := answer.Absent? && (answer.error.None? || answer.error.value in {400, 404});
        Log(Exists(bucket, paths[k], absent));
        if !absent {
          return false;
        }
        k := k + 1;
      }
      ok := true;
    }

    method GroupTargets(targets: seq<Target>) returns (groups: Groups)
      ensures groups == GroupsOf(targets)
    {
      groups := [];
      var k := 0;
      while k < |targets|
        invariant 0 <= k <= |targets| && groups == GroupsOf(targets[..k])
      {
        assert targets[..k + 1][..k] == targets[..k];
        groups := AddPath(groups, targets[k]);
        k := k + 1;
      }
      assert targets[..k] == targets;
    }

    /**
     All batches are tried, whatever happens to the others, and success means that all of them
     succeeded.  On canonical paths exactly the planned batches reach Storage.
     */
    method RemoveAccountDeletionCleanupTargets(targets: seq<Target>) returns (failures: seq<Failure>)
      requires forall i :: 0 <= i < |targets| ==> IsCanonicalPath(targets[i].path)
      modifies this`calls, this`removes, this`existsAnswers
      ensures old(calls) <= calls
      ensures Removals(calls) == Removals(old(calls)) + Plan(GroupsOf(targets))
      ensures failures == [] ==> forall i :: 0 <= i < |targets| ==> SeenAbsent(calls, |old(calls)|, targets[i].bucket, targets[i].path)
      ensures StorageCodes(failures)
      ensures GoodStorage(Plan(GroupsOf(targets)), old(removes), old(existsAnswers)) ==> failures == []
    {
      var groups := GroupTargets(targets);
      failures := [];
      var g := 0;
      GroupsAreCanonical(targets);
      ghost var whole := GoodStorage(Plan(groups), removes, existsAnswers);
      assert groups[0..] == groups;
      while g < |groups|
        invariant 0 <= g <= |groups| && old(calls) <= calls
        invariant Removals(calls) + Plan(groups[g..]) == Removals(old(calls)) + Plan(groups)
        invariant failures == [] ==> forall i :: 0 <= i < g ==> GroupSeenAbsent(calls, |old(calls)|, groups[i])
        invariant StorageCodes(failures)
        invariant StillGood(whole, Plan(groups[g..]), failures, removes, existsAnswers)
      {
        ghost var before := calls;
        PlanStep(groups, g, Removals(calls));
        PlanHead(groups, g);
        assert CanonicalGroup(groups[g]);
        var failed := RemoveGroup(groups[g], Plan(groups[g + 1..]));
        failures := failures + failed;
        GroupsStillSeen(before, calls, |old(calls)|, groups[..g]);
        if failed == [] {
          SeenSinceEarlier(calls, |old(calls)|, |before|, groups[g]);
        }
        g := g + 1;
      }
      if failures == [] {
        GroupsSeen(targets, calls, |old(calls)|);
      }
    }

    method RemoveBatch(bucket: string, batch: seq<string>) returns (failure: Option<Failure>)
      requires batch != [] && Unique(NonEmpty(batch)) == batch && CanonicalGroup((bucket, batch))
      modifies this`calls, this`removes, this`existsAnswers
      ensures old(calls) <= calls && Removals(calls) == Removals(old(calls)) + [(bucket, batch)]
      ensures failure.None? ==> GroupSeenAbsent(calls, |old(calls)|, (bucket, batch))
      ensures failure.Some? ==> failure.value == STORAGE_REMOVE || failure.value == VERIFY_ABSENT
      ensures Acknowledged(First(old(removes)), batch) && AllAbsent(old(existsAnswers), |batch|) ==>
                failure.None? && removes == Rest(old(removes)) && existsAnswers == Skip(old(existsAnswers), |batch|)
    {
      failure := RemoveStorageObjects(bucket, batch);
    }

    /** `rest` stands for the batches that are planned after those of this group. */
    method RemoveGroup(group: (string, seq<string>), ghost rest: seq<(string, seq<string>)>) returns (failures: seq<Failure>)
      requires CanonicalGroup(group)
      modifies this`calls, this`removes, this`existsAnswers
      ensures old(calls) <= calls && Removals(calls) == Removals(old(calls)) + BatchesOf(group)
      ensures failures == [] ==> GroupSeenAbsent(calls, |old(calls)|, group)
      ensures StorageCodes(failures)
      ensures GoodStorage(BatchesOf(group) + rest, old(removes), old(existsAnswers)) ==>
                failures == [] && GoodStorage(rest, removes, existsAnswers)
    {
      var (bucket, paths) := group;
      var batches := StoragePathBatches(paths);
      failures := [];
      var b := 0;
      ghost var plan, whole := BatchesOf(group), GoodStorage(BatchesOf(group) + rest, removes, existsAnswers);
      assert plan[0..] == plan;
      while b < |batches|
        invariant 0 <= b <= |batches| && old(calls) <= calls
        invariant Removals(calls) == Removals(old(calls)) + plan[..b]
        invariant failures == [] ==> BatchesSeen(calls, |old(calls)|, bucket, batches[..b])
        invariant StorageCodes(failures)
        invariant StillGood(whole, plan[b..] + rest, failures, removes, existsAnswers)
      {
        BatchIsItself(paths, b);
        ghost var before, removesBefore, answersBefore := calls, removes, existsAnswers;
        var failed := RemoveBatch(bucket, batches[b]);
        StillGoodStep(whole, plan, b, rest, failures, removesBefore, answersBefore, failed, removes, existsAnswers);
        if failed.None? {
          if failures == [] {
            OneMoreBatch(before, calls, |old(calls)|, bucket, batches, b);
          }
        } else {
          failures := failures + [failed.value];
        }
        PlanPrefix(Removals(old(calls)), plan, b);
        b := b + 1;
      }
      assert plan[..b] == plan && batches[..b] == batches && plan[b..] + rest == rest;
      if failures == [] {
        AllBatchesSeen(calls, |old(calls)|, bucket, paths);
      }
    }

    // -------------------------------------------------------------- ownership

    /**
     Asks who owns the score ids of the highlight targets.  It succeeds exactly if the answer gives
     every one of them, and no other score, to the leased user.
     */
    method VerifyTargets(lease: Lease) returns (failure: Option<Failure>)
      modifies this`calls, this`owners
      ensures old(calls) <= calls && Removals(calls) == Removals(old(calls))
      ensures failure.None? ==> ScoresOwned(old(owners), lease) && OwnersVerified(calls, |old(calls)|, lease)
      ensures failure.None? <==> GoodOwners(First(old(owners)), lease)
      ensures failure.Some? ==> failure.value == if First(old(owners)).None? then TARGET_OWNERS else "Error"
    {
      var scoreIds := ScoreIds(lease.targets);
      if scoreIds == [] {
        NoScores(lease);
        return None;
      }
      var rows := First(owners);
      owners := Rest(owners);
      Log(ReadOwners(scoreIds, rows));
      if rows.None? {
        return Some(TARGET_OWNERS);
      }
      var returned := OwnIds(rows.value, lease.userId);
      ExactlyTheScores(lease.targets, returned);
      if |returned| != |scoreIds| || exists k :: 0 <= k < |scoreIds| && scoreIds[k] !in returned {
        return Some("Error");
      }
      OwnIdsAreOwned(rows.value, lease, returned);
      AnswerVerifies(old(calls), calls, rows.value, lease);
      failure := None;
    }

    // -------------------------------------------------------------- Auth

    method ReadAuthUser(userId: string) returns (answer: Option<AuthAnswer>)
      modifies this`calls, this`auths
      ensures old(calls) <= calls && Removals(calls) == Removals(old(calls))
      ensures calls == old(calls) + [ReadAuth(userId)]
      ensures answer == First(old(auths)) && auths == Rest(old(auths))
    {
      Log(ReadAuth(userId));
      answer := First(auths);
      auths := Rest(auths);
    }

    /** The fence counts only once a fresh read shows it under this very lease. */
    method ArmAuthFence(lease: Lease) returns (failure: Option<Failure>)
      modifies this`calls, this`arms, this`auths
      ensures old(calls) <= calls && Removals(calls) == Removals(old(calls))
      ensures failure.None? ==> auths == Rest(old(auths))
      ensures failure.None? <==> GoodArm(First(old(arms)), lease) && FenceObserved(First(old(auths)), lease)
      ensures failure == Some(ARM_FENCE) <==> First(old(arms)).None?
      ensures failure == Some(READ_FENCE) <==> GoodArm(First(old(arms)), lease) && ReadFailed(First(old(auths)))
      ensures failure.Some? ==> failure.value == ARM_FENCE || failure.value == READ_FENCE || failure.value == "Error"
    {
      Log(ArmFence(lease));
      var armed := First(arms);
      arms := Rest(arms);
      if armed.None? {
        return Some(ARM_FENCE);
      }
      if !armed.value.ok || armed.value.row != FenceOf(lease) {
        return Some("Error");
      }
      var observed := ReadAuthUser(lease.userId);
      if observed.None? || observed.value.error {
        return Some(READ_FENCE);
      }
      failure := if FenceObserved(observed, lease) then None else Some("Error");
    }

    /** The metadata keys of the user as read before the scrub. */
    method PrepareScrub(userId: string) returns (keys: Option<seq<string>>)
      modifies this`calls, this`auths
      ensures calls == old(calls) + [ReadAuth(userId)]
      ensures Removals(calls) == Removals(old(calls)) && auths == Rest(old(auths))
      ensures keys == KeysRead(First(old(auths)), userId)
    {
      var before := ReadAuthUser(userId);
      keys := KeysRead(before, userId);
    }

    /** Clears the address and exactly the given metadata keys. */
    method UpdateScrub(userId: string, keys: seq<string>) returns (ok: bool)
      modifies this`calls, this`auths
      ensures calls == old(calls) + [UpdateAuth(userId, DeletedEmailMarker(userId), keys)]
      ensures Removals(calls) == Removals(old(calls)) && auths == Rest(old(auths))
      ensures ok == ShowsScrubbed(First(old(auths)), userId)
    {
      Log(UpdateAuth(userId, DeletedEmailMarker(userId), keys));
      var updated := First(auths);
      auths := Rest(auths);
      ok := ShowsScrubbed(updated, userId);
    }

    /** The first read, and the update if it has shown the keys. */
    method PrepareAndUpdate(userId: string) returns (failures: seq<Failure>)
      modifies this`calls, this`auths
      ensures Removals(calls) == Removals(old(calls))
      ensures var keys := KeysRead(First(old(auths)), userId);
              if keys.None? then
                && calls == old(calls) + [ReadAuth(userId)] && auths == Rest(old(auths))
                && failures == ["auth.user_scrub_prepare"]
              else
                && calls == old(calls) + [ReadAuth(userId)] + [UpdateAuth(userId, DeletedEmailMarker(userId), keys.value)]
                && auths == Rest(Rest(old(auths)))
                && failures == if ShowsScrubbed(First(Rest(old(auths))), userId) then [] else ["auth.user_scrub"]
    {
      failures := [];
      var keys := PrepareScrub(userId);
      if keys.None? {
        failures := failures + ["auth.user_scrub_prepare"];
      } else {
        var updated := UpdateScrub(userId, keys.value);
        if !updated {
          failures := failures + ["auth.user_scrub"];
        }
      }
    }

    /**
     Reads the metadata keys, clears exactly those together with the address, and reads again.
     The last read is made in any case; it succeeds exactly if the keys were read and both the
     update's answer and that last read show a scrubbed user.
     */
    method ScrubAuth(userId: string) returns (failures: seq<Failure>)
      modifies this`calls, this`auths
      ensures old(calls) <= calls && Removals(calls) == Removals(old(calls))
      ensures calls != [] && calls[|calls| - 1] == ReadAuth(userId)
      ensures var keys := KeysRead(First(old(auths)), userId);
              if keys.None? then |calls| == |old(calls)| + 2
              else |calls| == |old(calls)| + 3 && calls[|old(calls)| + 1] == UpdateAuth(userId, DeletedEmailMarker(userId), keys.value)
      ensures failures == [] <==> GoodScrub(old(auths), userId)
      ensures var keys := KeysRead(First(old(auths)), userId);
              var last := First(Rest(if keys.Some? then Rest(old(auths)) else old(auths)));
              && ("auth.user_scrub_prepare" in failures <==> keys.None?)
              && ("auth.user_scrub" in failures <==> keys.Some? && !ShowsScrubbed(First(Rest(old(auths))), userId))
              && ("auth.user_scrub_verify" in failures <==> !ShowsScrubbed(last, userId))
              && |failures| <= 2
    {
      failures := PrepareAndUpdate(userId);
      var after := ReadAuthUser(userId);
      if !ShowsScrubbed(after, userId) {
        failures := failures + ["auth.user_scrub_verify"];
      }
    }

    // -------------------------------------------------------------- one job

    /**
     None when the call fails or its row is not the answer of this very lease.  The row stays
     leased exactly if the finish was not recorded.
     */
    method FinishCleanupJob(job: DueJob, lease: Lease, success: bool, error: string) returns (status: Option<string>)
      requires leased != [] && leased[|leased| - 1] == job
      modifies this`calls, this`told, this`finishes, this`due, this`leased
      ensures Removals(calls) == Removals(old(calls))
      ensures calls == old(calls) + [Finish(lease.jobId, success, error)] && told == old(told) + [Finish(lease.jobId, success, error)]
      ensures finishes == Rest(old(finishes)) && ArmedBehind(old(due), due, job.jobId)
      ensures if NextRecorded(old(finishes)) then leased == old(leased)[..|old(leased)| - 1] else leased == old(leased) && due == old(due)
      ensures status.Some? ==> Answered(old(finishes), lease, status.value)
      ensures forall s :: status == Some(s) <==>
                Answered(old(finishes), lease, s) && s in FINISH_STATUSES && (success <==> s != "pending")
    {
      Log(Finish(lease.jobId, success, error));
      told := told + [Finish(lease.jobId, success, error)];
      var fate := if finishes == [] then Lost else finishes[0];
      finishes := Rest(finishes);
      if fate.Lost? {
        return None;
      }
      leased := leased[..|leased| - 1];
      if fate.again.Some? {
        due := due + [fate.again.value.(jobId := job.jobId)];
      }
      if fate.answer.None? || !AnswersLease(fate.answer.value, lease) || fate.answer.value.status !in FINISH_STATUSES {
        return None;
      }
      var answered := fate.answer.value.status;
      if (success && answered == "pending") || (!success && answered != "pending") {
        return None;
      }
      status := Some(answered);
    }

    /** The Auth half of a clean-up, where the lease asks for it. */
    method CleanAuth(lease: Lease) returns (failure: Option<Failure>)
      modifies this`calls, this`arms, this`auths
      ensures old(calls) <= calls && Removals(calls) == Removals(old(calls))
      ensures failure.None? <==> (lease.scrubAuth ==> GoodAuth(old(arms), old(auths), lease))
    {
      if !lease.scrubAuth {
        return None;
      }
      failure := ArmAuthFence(lease);
      if failure.None? {
        var scrub := ScrubAuth(lease.userId);
        failure := if scrub == [] then None else Some(Joined(Unique(scrub)));
      }
    }

    /** The Storage half of a clean-up: nothing is removed before the owners are verified. */
    method CleanStorage(lease: Lease) returns (failure: Option<Failure>)
      requires ValidLease(lease)
      modifies this`calls, this`owners, this`removes, this`existsAnswers
      ensures old(calls) <= calls && Lawful(calls, |old(calls)|, lease)
      ensures RemovesAllOrNothing(old(calls), calls, old(owners), lease)
      ensures failure.None? ==> ScoresOwned(old(owners), lease) && TargetsAbsent(calls, |old(calls)|, lease)
      ensures GoodOwners(First(old(owners)), lease) && GoodStorage(Plan(GroupsOf(lease.targets)), old(removes), old(existsAnswers)) ==>
                failure.None?
    {
      failure := VerifyTargets(lease);
      ghost var verified := calls;
      if failure.Some? {
        LawfulWithoutRemovals(old(calls), calls, |old(calls)|, lease);
        return;
      }
      var failures := RemoveAccountDeletionCleanupTargets(lease.targets);
      PlannedIsLawful(old(calls), verified, calls, lease);
      TargetsStillAbsent(calls, calls, |old(calls)|, |verified|, lease);
      failure := if failures == [] then None else Some(Joined(Unique(failures)));
    }

    /** Everything between claim and finish; None when all of it succeeded. */
    method CleanUp(lease: Lease) returns (failure: Option<Failure>)
      requires ValidLease(lease)
      modifies this`calls, this`owners, this`removes, this`existsAnswers, this`arms, this`auths
      ensures old(calls) <= calls && Lawful(calls, |old(calls)|, lease)
      ensures RemovesAllOrNothing(old(calls), calls, old(owners), lease)
      ensures failure.None? ==> CleanedUp(calls, |old(calls)|, old(owners), old(auths), lease)
      ensures GoodAnswers(lease, old(owners), old(removes), old(existsAnswers), old(arms), old(auths)) ==> failure.None?
    {
      failure := CleanStorage(lease);
      if failure.Some? {
        return;
      }
      ghost var removed := calls;
      failure := CleanAuth(lease);
      LawfulWithoutRemovals(removed, calls, |old(calls)|, lease);
      TargetsStillAbsent(removed, calls, |old(calls)|, |old(calls)|, lease);
    }

    /** Leases the first due row, so that the next claim sees the one behind it. */
    method ClaimDue() returns (r: Result<Option<DueJob>, string>)
      modifies this`calls, this`claims, this`due, this`leased, this`attempted
      ensures claims == Rest(old(claims)) && calls == old(calls) + [Claim] && Removals(calls) == Removals(old(calls))
      ensures if old(claims) != [] && !old(claims)[0] then
                r == Err("SupabaseOperationError") && due == old(due) && leased == old(leased) && attempted == old(attempted)
              else if old(due) == [] then r == Ok(None) && due == [] && leased == old(leased) && attempted == old(attempted)
              else
                && r == Ok(Some(old(due)[0])) && due == old(due)[1..]
                && leased == old(leased) + [old(due)[0]] && attempted == old(attempted) + [old(due)[0]]
    {
      Log(Claim);
      var delivered := claims == [] || claims[0];
      claims := Rest(claims);
      if !delivered {
        return Err("SupabaseOperationError");
      }
      if due == [] {
        return Ok(None);
      }
      r := Ok(Some(due[0]));
      attempted := attempted + [due[0]];
      leased, due := leased + [due[0]], due[1..];
    }

    /**
     All leases run out.  Claims have not moved the due times of the leased rows, so these are
     claimable again at their old places, which are ahead of the rows never claimed.  What later
     claims return for each row is new; rows that have become due since then come last.
     */
    method ExpireLeases(renewed: seq<DueJob>)
      requires Ids(leased + due) <= Ids(renewed)
      modifies this`due, this`leased
      ensures leased == [] && due == renewed
    {
      leased, due := [], renewed;
    }

    /**
     Carries one lease to a finish.  It is reported completed only if every target was seen
     absent, a required scrub was seen to hold, and the server answered this very lease so.
     */
    method ProcessLease(job: DueJob, lease: Lease) returns (outcome: Outcome)
      requires ValidLease(lease) && leased != [] && leased[|leased| - 1] == job
      modifies this`calls, this`owners, this`removes, this`existsAnswers, this`arms, this`auths, this`told, this`finishes, this`due, this`leased
      ensures old(calls) <= calls && Lawful(calls, |old(calls)|, lease)
      ensures RemovesAllOrNothing(old(calls), calls, old(owners), lease)
      ensures finishes == Rest(old(finishes)) && ArmedBehind(old(due), due, job.jobId)
      ensures if NextRecorded(old(finishes)) then leased == old(leased)[..|old(leased)| - 1] else leased == old(leased) && due == old(due)
      ensures !outcome.Idle? && outcome.jobId == lease.jobId && outcome.attemptCount == lease.attemptCount
      ensures outcome.Completed? || outcome.retryRecorded ==> NextRecorded(old(finishes))
      ensures outcome.Completed? ==> CleanedUp(calls, |old(calls)|, old(owners), old(auths), lease) && Answered(old(finishes), lease, "completed")
      ensures ReportsTruly(old(told), told, old(calls), calls, outcome, old(owners), old(auths), old(finishes), lease)
      ensures GoodAnswers(lease, old(owners), old(removes), old(existsAnswers), old(arms), old(auths)) ==>
                Succeeds(old(told), told, calls, outcome, old(finishes), lease)
    {
      var failure := CleanUp(lease);
      ghost var done := calls;
      outcome := ReportFinish(job, lease, failure);
      LawfulWithoutRemovals(done, calls, |old(calls)|, lease);
      assert calls[..|calls| - 1] == done;
      if failure.None? {
        StillCleanedUp(done, calls, |old(calls)|, |old(calls)|, old(owners), old(auths), lease);
      }
    }

    /** Tells the server how the clean-up has ended, and the caller what the server has made of it. */
    method ReportFinish(job: DueJob, lease: Lease, failure: Option<Failure>) returns (outcome: Outcome)
      requires leased != [] && leased[|leased| - 1] == job
      modifies this`calls, this`told, this`finishes, this`due, this`leased
      ensures var f := Finish(lease.jobId, failure.None?, if failure.Some? then failure.value else "");
              calls == old(calls) + [f] && told == old(told) + [f] && Removals(calls) == Removals(old(calls))
      ensures finishes == Rest(old(finishes)) && ArmedBehind(old(due), due, job.jobId)
      ensures if NextRecorded(old(finishes)) then leased == old(leased)[..|old(leased)| - 1] else leased == old(leased) && due == old(due)
      ensures !outcome.Idle? && outcome.jobId == lease.jobId && outcome.attemptCount == lease.attemptCount
      ensures outcome.Completed? || outcome.retryRecorded ==> NextRecorded(old(finishes))
      ensures failure.Some? ==> outcome.Pending? && outcome.failure == failure.value
      ensures outcome.Completed? <==> failure.None? && Answered(old(finishes), lease, "completed")
      ensures TellsStatus(calls, outcome, old(finishes), lease)
    {
      if failure.Some? {
        var status := FinishCleanupJob(job, lease, false, failure.value);
        return Pending(lease.jobId, lease.attemptCount, failure.value, status.Some?);
      }
      var status := FinishCleanupJob(job, lease, true, "");
      if status.None? {
        return Pending(lease.jobId, lease.attemptCount, FINISH, false);
      }
      if status.value != "completed" {
        return Pending(lease.jobId, lease.attemptCount, FailureOf(status.value), true);
      }
      outcome := Completed(lease.jobId, lease.attemptCount);
    }

    /** Claims one due job and carries it to a finish; a claim that cannot be parsed is an error. */
    method ProcessCleanupJob() returns (r: Result<Outcome, string>)
      modifies this
      ensures claims == Rest(old(claims)) && old(calls) <= calls
      ensures if old(claims) != [] && !old(claims)[0] then
                r == Err("SupabaseOperationError") && due == old(due) && attempted == old(attempted)
              else if old(due) == [] then r == Ok(Idle) && due == [] && attempted == old(attempted)
              else
                && attempted == old(attempted) + [old(due)[0]]
                && ArmedBehind(old(due)[1..], due, old(due)[0].jobId)
                && (if Poison(old(due)[0]) then r == Err("Error")
                    else r.Ok? && !r.value.Idle? && r.value.jobId == old(due)[0].jobId && r.value.attemptCount == old(due)[0].attemptCount)
      ensures attempted == old(attempted) || Poison(old(due)[0]) ==>
                calls == old(calls) + [Claim] && Removals(calls) == Removals(old(calls)) && (r.Ok? ==> r.value.Idle?)
      ensures attempted != old(attempted) && !Poison(old(due)[0]) ==>
                var lease := ParseLease(old(due)[0]).value;
                && WorkedOn(old(told), told, old(calls), calls, r.value, old(owners), old(auths), old(finishes), lease)
                && (GoodAnswers(lease, old(owners), old(removes), old(existsAnswers), old(arms), old(auths)) ==>
                      Succeeds(old(told), told, calls, r.value, old(finishes), lease))
      ensures attempted == old(attempted) ==> leased == old(leased) && finishes == old(finishes)
      ensures attempted != old(attempted) ==>
                && leased == (if StaysLeased(old(due)[0], old(finishes)) then old(leased) + [old(due)[0]] else old(leased))
                && finishes == (if Poison(old(due)[0]) then old(finishes) else Rest(old(finishes)))
      ensures r.Ok? && (r.value.Completed? || (r.value.Pending? && r.value.retryRecorded)) ==> leased == old(leased)
    {
      var claimed := ClaimDue();
      if claimed.Err? {
        return Err(claimed.error);
      }
      if claimed.value.None? {
        return Ok(Idle);
      }
      ghost var claimedAt := calls;
      r := WorkOn(claimed.value.value);
      if r.Ok? {
        SinceClaim(old(told), told, old(calls), claimedAt, calls, r.value, old(owners), old(auths), old(finishes), ParseLease(old(due)[0]).value);
      }
    }

    /** What follows a claim that has found this job. */
    method WorkOn(job: DueJob) returns (r: Result<Outcome, string>)
      requires leased != [] && leased[|leased| - 1] == job
      modifies this`calls, this`owners, this`removes, this`existsAnswers, this`arms, this`auths, this`told, this`finishes, this`due, this`leased
      ensures r.Err? <==> Poison(job)
      ensures r.Err? ==> r.error == "Error" && calls == old(calls) && finishes == old(finishes) && due == old(due) && leased == old(leased)
      ensures r.Ok? ==>
                && !r.value.Idle? && r.value.jobId == job.jobId && r.value.attemptCount == job.attemptCount
                && finishes == Rest(old(finishes)) && ArmedBehind(old(due), due, job.jobId)
                && (if NextRecorded(old(finishes)) then leased == old(leased)[..|old(leased)| - 1] else leased == old(leased) && due == old(due))
                && (r.value.Completed? || r.value.retryRecorded ==> NextRecorded(old(finishes)))
      ensures r.Ok? ==> WorkedOn(old(told), told, old(calls), calls, r.value, old(owners), old(auths), old(finishes), ParseLease(job).value)
      ensures r.Ok? && GoodAnswers(ParseLease(job).value, old(owners), old(removes), old(existsAnswers), old(arms), old(auths)) ==>
                Succeeds(old(told), told, calls, r.value, old(finishes), ParseLease(job).value)
    {
      var parsed := ParseLease(job);
      if parsed.Err? {
        return Err("Error");
      }
      ParsedLeaseIsValid(job);
      var outcome := ProcessLease(job, parsed.value);
      r := Ok(outcome);
    }

    // -------------------------------------------------------------- the drain

    ghost function Now(): Stage
      reads this
    {
      Stage(calls, due, leased, finishes)
    }

    /** The same, as far as a drain counts on it. */
    method AttemptRow() returns (r: Result<Outcome, string>)
      modifies this
      ensures claims == Rest(old(claims)) && old(calls) <= calls
      ensures if old(claims) != [] && !old(claims)[0] then r == Err("SupabaseOperationError") && attempted == old(attempted)
              else if old(due) == [] then r == Ok(Idle) && due == [] && attempted == old(attempted)
              else attempted == old(attempted) + [old(due)[0]]
      ensures attempted == old(attempted) ==> StageKept(old(Now()), Now())
      ensures attempted != old(attempted) ==> StageMoved(old(Now()), Now()) && RowReported(old(due)[0], r, old(finishes))
    {
      r := ProcessCleanupJob();
    }

    /** One more attempt of a drain that has come from `start` to here by these attempts and outcomes. */
    method AttemptNext(ghost start: Stage, ghost tried: seq<DueJob>, ghost outcomes: seq<Outcome>)
      returns (outcome: Result<Outcome, string>, ghost tried': seq<DueJob>, ghost outcomes': seq<Outcome>)
      requires DrainedSo(start, tried, Now(), outcomes)
      modifies this
      ensures DrainedSo(start, tried', Now(), outcomes')
      ensures claims == Rest(old(claims))
      ensures if old(claims) != [] && !old(claims)[0] then outcome == Err("SupabaseOperationError") && tried' == tried
              else if old(due) == [] then outcome == Ok(Idle) && due == [] && tried' == tried
              else
                && |tried'| == |tried| + 1
                && (if outcome.Err? then outcome == Err("Error") else !outcome.value.Idle?)
      ensures if tried' == tried then attempted == old(attempted) && outcomes' == outcomes
              else
                && attempted == old(attempted) + [tried'[|tried|]] && tried' == tried + [tried'[|tried|]]
                && Healthies(tried') == Healthies(tried) + (if outcome.Ok? then 1 else 0)
                && outcomes' == if outcome.Ok? then outcomes + [outcome.value] else outcomes
    {
      ghost var before, stage := attempted, Now();
      outcome := AttemptRow();
      if attempted == before {
        NothingDrained(start, tried, stage, Now());
        tried', outcomes' := tried, outcomes;
      } else {
        DrainedStep(start, tried, stage, Now());
        tried' := tried + [stage.due[0]];
        outcomes' := if outcome.Ok? then outcomes + [outcome.value] else outcomes;
        OutcomesStep(tried, start.finishes, outcomes, stage.due[0], stage.finishes, outcome);
      }
    }

    /**
     Works through due jobs.  Claimed jobs are exactly those completed and those pending; as long
     as claims reach the server, the first `limit` due jobs are all attempted, however many of
     them cannot even be parsed, and no other job that was due before.  `outcomes` are those of the
     jobs that could be parsed, in order, and each is what the server and the log say.
     */
    method DrainCleanupJobs(limit: int) returns (r: DrainResult, ghost outcomes: seq<Outcome>)
      modifies this
      ensures r.claimed == r.completed + r.pending
      ensures old(attempted) <= attempted && |attempted| <= |old(attempted)| + BoundedLimit(limit)
      ensures r.claimed == |outcomes| && r.completed == CompletedIn(outcomes)
      ensures OutcomesTrue(attempted[|old(attempted)|..], old(finishes), outcomes)
      ensures r.claimed == Healthies(attempted[|old(attempted)|..])
      ensures old(due) <= attempted[|old(attempted)|..] + due
      ensures LeasesKept(Poison, old(leased), old(finishes), attempted[|old(attempted)|..], leased, finishes)
      ensures old(calls) <= calls && AllLawful(calls, |old(calls)|, attempted[|old(attempted)|..])
      ensures AllDelivered(old(claims)) ==>
                && AllDelivered(claims)
                && |attempted| - |old(attempted)| >= (if BoundedLimit(limit) < |old(due)| then BoundedLimit(limit) else |old(due)|)
                && r.claimErrors == |attempted| - |old(attempted)| - r.claimed
    {
      ghost var start, tried := Now(), attempted[..0];
      r, tried, outcomes := BeginDrain(start);
      var bounded := BoundedLimit(limit);
      var index, stop := 0, false;
      while index < bounded && !stop
        invariant 0 <= index <= bounded && attempted == old(attempted) + tried && |tried| <= index
        invariant DrainedSo(start, tried, Now(), outcomes) && Summary(r, outcomes) && r.claimed == Healthies(tried)
        invariant AllDelivered(old(claims)) ==>
                    AllDelivered(claims) && r.claimErrors == |tried| - r.claimed && if stop then due == [] else |tried| == index
      {
        var before := r;
        ghost var sofar, reported := tried, outcomes;
        r, stop, tried, outcomes := DrainOneMore(start, before, sofar, reported);
        Associative(old(attempted), sofar, tried[|sofar|..]);
        index := index + 1;
      }
      assert attempted[|old(attempted)|..] == tried;
    }

    /** One turn of the drain; `stop` when nothing is due or a claim did not get through. */
    method DrainOneMore(ghost start: Stage, sofar: DrainResult, ghost tried: seq<DueJob>, ghost outcomes: seq<Outcome>)
      returns (r: DrainResult, stop: bool, ghost tried': seq<DueJob>, ghost outcomes': seq<Outcome>)
      requires DrainedSo(start, tried, Now(), outcomes) && Summary(sofar, outcomes) && sofar.claimed == Healthies(tried)
      modifies this
      ensures DrainedSo(start, tried', Now(), outcomes') && Summary(r, outcomes') && r.claimed == Healthies(tried')
      ensures tried <= tried' && attempted == old(attempted) + tried'[|tried|..] && |tried'| == |tried| + if stop then 0 else 1
      ensures AllDelivered(old(claims)) ==>
                && AllDelivered(claims) && (stop ==> due == [])
                && r.claimErrors - sofar.claimErrors == (|tried'| - |tried|) - (r.claimed - sofar.claimed)
    {
      r := sofar;
      var outcome: Result<Outcome, string>;
      outcome, tried', outcomes' := AttemptNext(start, tried, outcomes);
      if outcome.Err? {
        r := r.(claimErrors := r.claimErrors + 1);
        stop := outcome.error == "SupabaseOperationError";
      } else if outcome.value.Idle? {
        stop := true;
      } else {
        stop := false;
        SummaryStep(r, outcomes, outcome.value);
        r := r.(claimed := r.claimed + 1);
        if outcome.value.Completed? {
          r := r.(completed := r.completed + 1);
        } else {
          r := r.(pending := r.pending + 1);
        }
      }
    }
  }

  /**
   The server is told of exactly one finish, at the end.  It is a success only if everything was
   cleaned up before it; a failure is the one that the outcome reports.
   */
  predicate EndsWithItsFinish(told: seq<Call>, told': seq<Call>, before: seq<Call>, after: seq<Call>, o: Outcome, owners: seq<OwnersAnswer>,
                              auths: seq<Option<AuthAnswer>>, lease: Lease)
  {
    || (&& OnlyFinish(told, told', after, Finish(lease.jobId, true, ""))
        && CleanedUp(after[..|after| - 1], |before|, owners, auths, lease))
    || (o.Pending? && OnlyFinish(told, told', after, Finish(lease.jobId, false, o.failure)))
  }

  /** The server's answer to the finish, as the outcome reports it. */
  predicate TellsStatus(after: seq<Call>, o: Outcome, fates: seq<FinishFate>, lease: Lease) {
    if after != [] && after[|after| - 1] == Finish(lease.jobId, true, "") then
      (match o
       case Completed(_, _) => Answered(fates, lease, "completed")
       case Pending(_, _, failure, recorded) =>
         if recorded then exists s :: s in FINISH_STATUSES - {"completed", "pending"} && Answered(fates, lease, s) && failure == FailureOf(s)
         else failure == FINISH && forall s :: s in FINISH_STATUSES - {"pending"} ==> !Answered(fates, lease, s)
       case Idle => false)
    else o.Pending? && (o.retryRecorded <==> Answered(fates, lease, "pending"))
  }

  predicate ReportsTruly(told: seq<Call>, told': seq<Call>, before: seq<Call>, after: seq<Call>, o: Outcome, owners: seq<OwnersAnswer>,
                         auths: seq<Option<AuthAnswer>>, fates: seq<FinishFate>, lease: Lease)
  {
    EndsWithItsFinish(told, told', before, after, o, owners, auths, lease) && TellsStatus(after, o, fates, lease)
  }

  /**
   What is true of the log and the outcome of a whole lease: removals are lawful and all or nothing,
   a completion rests on a clean-up and on the server's word, and finish and outcome agree.
   */
  predicate WorkedOn(told: seq<Call>, told': seq<Call>, before: seq<Call>, after: seq<Call>, o: Outcome, owners: seq<OwnersAnswer>,
                     auths: seq<Option<AuthAnswer>>, fates: seq<FinishFate>, lease: Lease)
  {
    && before <= after && Lawful(after, |before|, lease) && RemovesAllOrNothing(before, after, owners, lease)
    && (o.Completed? ==> CleanedUp(after, |before|, owners, auths, lease) && Answered(fates, lease, "completed"))
    && ReportsTruly(told, told', before, after, o, owners, auths, fates, lease)
  }

  /** The finish is a success, and the job is completed if the server says so. */
  predicate Succeeds(told: seq<Call>, told': seq<Call>, after: seq<Call>, o: Outcome, fates: seq<FinishFate>, lease: Lease) {
    OnlyFinish(told, told', after, Finish(lease.jobId, true, "")) && (Answered(fates, lease, "completed") ==> o.Completed?)
  }

  datatype DrainResult = DrainResult(claimed: nat, completed: nat, pending: nat, claimErrors: nat)

  function BoundedLimit(limit: int): (r: nat)
    ensures 1 <= r <= 50 && (r < limit ==> r == 50) && (r > limit ==> r == 1)
  {
    if limit < 1 then 1 else if limit > 50 then 50 else limit
  }

  function Healthies(jobs: seq<DueJob>): nat {
    if jobs == [] then 0 else Healthies(jobs[..|jobs| - 1]) + if Poison(jobs[|jobs| - 1]) then 0 else 1
  }

  lemma HealthiesAppend(jobs: seq<DueJob>, j: DueJob)
    ensures Healthies(jobs + [j]) == Healthies(jobs) + if Poison(j) then 0 else 1
  {
    assert (jobs + [j])[..|jobs|] == jobs;
  }

  function Ids(jobs: seq<DueJob>): (ids: seq<string>)
    ensures |ids| == |jobs|
  {
    seq(|jobs|, i requires 0 <= i < |jobs| => jobs[i].jobId)
  }

  predicate NextRecorded(fates: seq<FinishFate>) {
    fates != [] && fates[0].Recorded?
  }

  /** At most this job is added to the claimable rows, as their last. */
  predicate ArmedBehind(due: seq<DueJob>, due': seq<DueJob>, jobId: string) {
    due' == due || (|due'| == |due| + 1 && due <= due' && due'[|due|].jobId == jobId)
  }

  /** Every claim reaches the server, and its answer comes back. */
  predicate AllDelivered(claims: seq<bool>) {
    forall k :: 0 <= k < |claims| ==> claims[k]
  }

  /** The row cannot be parsed, or its finish is not recorded. */
  predicate StaysLeased(job: DueJob, fates: seq<FinishFate>) {
    Poison(job) || !NextRecorded(fates)
  }

  /**
   The attempted rows that stay as they were claimed: the bad ones, which are never finished, and
   those whose finish is not recorded.
   */
  function Unrecorded(bad: DueJob -> bool, jobs: seq<DueJob>, fates: seq<FinishFate>): seq<DueJob> {
    if jobs == [] then []
    else if bad(jobs[0]) then [jobs[0]] + Unrecorded(bad, jobs[1..], fates)
    else if NextRecorded(fates) then Unrecorded(bad, jobs[1..], Rest(fates))
    else [jobs[0]] + Unrecorded(bad, jobs[1..], Rest(fates))
  }

  /** The fates left for later finishes. */
  function FatesAfter(bad: DueJob -> bool, jobs: seq<DueJob>, fates: seq<FinishFate>): seq<FinishFate> {
    if jobs == [] then fates else FatesAfter(bad, jobs[1..], if bad(jobs[0]) then fates else Rest(fates))
  }

  lemma {:induction false} UnrecordedAppend(bad: DueJob -> bool, a: seq<DueJob>, b: seq<DueJob>, fates: seq<FinishFate>)
    ensures Unrecorded(bad, a + b, fates) == Unrecorded(bad, a, fates) + Unrecorded(bad, b, FatesAfter(bad, a, fates))
    ensures FatesAfter(bad, a + b, fates) == FatesAfter(bad, b, FatesAfter(bad, a, fates))
    decreases |a|
  {
    if a == [] {
      assert a + b == b;
    } else {
      assert (a + b)[0] == a[0] && (a + b)[1..] == a[1..] + b;
      UnrecordedAppend(bad, a[1..], b, if bad(a[0]) then fates else Rest(fates));
    }
  }

  /** What these attempts leave leased, and the fates they use up. */
  predicate LeasesKept(bad: DueJob -> bool, leased: seq<DueJob>, fates: seq<FinishFate>, tried: seq<DueJob>,
                       leased': seq<DueJob>, fates': seq<FinishFate>) {
    leased' == leased + Unrecorded(bad, tried, fates) && fates' == FatesAfter(bad, tried, fates)
  }

  lemma LeasesStep(leased: seq<DueJob>, fates: seq<FinishFate>, tried: seq<DueJob>, leased': seq<DueJob>, fates': seq<FinishFate>,
                   job: DueJob, leased'': seq<DueJob>, fates'': seq<FinishFate>)
    requires LeasesKept(Poison, leased, fates, tried, leased', fates')
    requires leased'' == (if StaysLeased(job, fates') then leased' + [job] else leased')
    requires fates'' == (if Poison(job) then fates' else Rest(fates'))
    ensures LeasesKept(Poison, leased, fates, tried + [job], leased'', fates'')
  {
    OneAttempt(Poison, leased', fates', job);
    LeasesJoin(Poison, leased, fates, tried, leased', fates', [job], leased'', fates'');
  }

  lemma LeasesJoin(bad: DueJob -> bool, leased: seq<DueJob>, fates: seq<FinishFate>, tried: seq<DueJob>, leased': seq<DueJob>,
                   fates': seq<FinishFate>, more: seq<DueJob>, leased'': seq<DueJob>, fates'': seq<FinishFate>)
    requires LeasesKept(bad, leased, fates, tried, leased', fates') && LeasesKept(bad, leased', fates', more, leased'', fates'')
    ensures LeasesKept(bad, leased, fates, tried + more, leased'', fates'')
  {
    UnrecordedAppend(bad, tried, more, fates);
    Associative(leased, Unrecorded(bad, tried, fates), Unrecorded(bad, more, fates'));
  }

  lemma Associative<T>(a: seq<T>, b: seq<T>, c: seq<T>)
    ensures (a + b) + c == a + (b + c)
  {
  }

  /** One attempt keeps its row leased unless it gets to a recorded finish. */
  lemma OneAttempt(bad: DueJob -> bool, leased: seq<DueJob>, fates: seq<FinishFate>, job: DueJob)
    ensures bad(job) || !NextRecorded(fates) ==>
              LeasesKept(bad, leased, fates, [job], leased + [job], if bad(job) then fates else Rest(fates))
    ensures !bad(job) && NextRecorded(fates) ==> LeasesKept(bad, leased, fates, [job], leased, Rest(fates))
  {
    assert [job][1..] == [];
    assert Unrecorded(bad, [job], fates) == if bad(job) || !NextRecorded(fates) then [job] else [];
  }

  /** What a drain works on. */
  datatype Stage = Stage(calls: seq<Call>, due: seq<DueJob>, leased: seq<DueJob>, finishes: seq<FinishFate>)

  /** From one stage to the other these rows were attempted, in the order of the queue, lawfully. */
  ghost predicate Drained(s: Stage, tried: seq<DueJob>, s': Stage) {
    && s.due <= tried + s'.due
    && LeasesKept(Poison, s.leased, s.finishes, tried, s'.leased, s'.finishes)
    && s.calls <= s'.calls && AllLawful(s'.calls, |s.calls|, tried)
  }

  ghost predicate DrainedSo(s: Stage, tried: seq<DueJob>, s': Stage, outcomes: seq<Outcome>) {
    Drained(s, tried, s') && OutcomesTrue(tried, s.finishes, outcomes)
  }

  /** Nothing was claimed. */
  predicate StageKept(s: Stage, s': Stage) {
    s.calls <= s'.calls && Removals(s'.calls) == Removals(s.calls) && s'.due == s.due && s'.leased == s.leased && s'.finishes == s.finishes
  }

  /** The head of the queue was attempted. */
  predicate StageMoved(s: Stage, s': Stage) {
    && s.due != [] && s.calls <= s'.calls && s.due[1..] <= s'.due
    && s'.leased == (if StaysLeased(s.due[0], s.finishes) then s.leased + [s.due[0]] else s.leased)
    && s'.finishes == (if Poison(s.due[0]) then s.finishes else Rest(s.finishes))
    && (if Poison(s.due[0]) then Removals(s'.calls) == Removals(s.calls) else Lawful(s'.calls, |s.calls|, ParseLease(s.due[0]).value))
  }

  /** Completed exactly on the server's word for this job's lease; an unreadable row is an error. */
  predicate RowReported(job: DueJob, r: Result<Outcome, string>, fates: seq<FinishFate>) {
    if Poison(job) then r == Err("Error") else r.Ok? && OutcomeTrue(job, r.value, fates)
  }

  predicate OutcomeTrue(job: DueJob, o: Outcome, fates: seq<FinishFate>) {
    && !Poison(job) && !o.Idle? && o.jobId == job.jobId && o.attemptCount == job.attemptCount
    && (o.Completed? ==> Answered(fates, ParseLease(job).value, "completed"))
    && (o.Completed? || o.retryRecorded ==> NextRecorded(fates))
  }

  /** One outcome for each row that can be parsed, in order, each by its own fate. */
  predicate OutcomesTrue(tried: seq<DueJob>, fates: seq<FinishFate>, outcomes: seq<Outcome>)
    decreases |tried|
  {
    if tried == [] then outcomes == []
    else
      var n := |tried| - 1;
      if Poison(tried[n]) then OutcomesTrue(tried[..n], fates, outcomes)
      else
        && outcomes != [] && OutcomesTrue(tried[..n], fates, outcomes[..|outcomes| - 1])
        && OutcomeTrue(tried[n], outcomes[|outcomes| - 1], FatesAfter(Poison, tried[..n], fates))
  }

  lemma OutcomesStep(tried: seq<DueJob>, fates: seq<FinishFate>, outcomes: seq<Outcome>, job: DueJob, left: seq<FinishFate>,
                     r: Result<Outcome, string>)
    requires OutcomesTrue(tried, fates, outcomes) && left == FatesAfter(Poison, tried, fates) && RowReported(job, r, left)
    ensures OutcomesTrue(tried + [job], fates, if r.Ok? then outcomes + [r.value] else outcomes)
  {
    assert (tried + [job])[..|tried|] == tried;
    if r.Ok? {
      assert (outcomes + [r.value])[..|outcomes|] == outcomes;
    }
  }

  /** The counters of a drain that has come to these outcomes. */
  predicate Summary(r: DrainResult, outcomes: seq<Outcome>) {
    r.claimed == r.completed + r.pending && r.claimed == |outcomes| && r.completed == CompletedIn(outcomes)
  }

  lemma SummaryStep(r: DrainResult, outcomes: seq<Outcome>, o: Outcome)
    requires Summary(r, outcomes)
    ensures var r' := r.(claimed := r.claimed + 1);
            Summary(if o.Completed? then r'.(completed := r.completed + 1) else r'.(pending := r.pending + 1), outcomes + [o])
  {
    assert (outcomes + [o])[..|outcomes|] == outcomes;
  }

  function CompletedIn(outcomes: seq<Outcome>): nat {
    if outcomes == [] then 0 else CompletedIn(outcomes[..|outcomes| - 1]) + if outcomes[|outcomes| - 1].Completed? then 1 else 0
  }

  method BeginDrain(ghost s: Stage) returns (r: DrainResult, ghost tried: seq<DueJob>, ghost outcomes: seq<Outcome>)
    ensures r.claimErrors == 0 && |tried| == 0 && r.claimed == Healthies(tried) && Summary(r, outcomes)
    ensures DrainedSo(s, tried, s, outcomes)
  {
    r, tried, outcomes := DrainResult(0, 0, 0, 0), [], [];
    assert [] + s.due == s.due && s.leased + [] == s.leased;
  }

  lemma NothingDrained(start: Stage, tried: seq<DueJob>, s: Stage, s': Stage)
    requires Drained(start, tried, s) && StageKept(s, s')
    ensures Drained(start, tried, s')
  {
    QuietStaysLawful(s.calls, s'.calls, |start.calls|, tried);
  }

  lemma DrainedStep(start: Stage, tried: seq<DueJob>, s: Stage, s': Stage)
    requires Drained(start, tried, s) && StageMoved(s, s')
    ensures Drained(start, tried + [s.due[0]], s')
    ensures Healthies(tried + [s.due[0]]) == Healthies(tried) + if Poison(s.due[0]) then 0 else 1
  {
    QueueStep(start.due, tried, s.due, s'.due);
    LeasesStep(start.leased, start.finishes, tried, s.leased, s.finishes, s.due[0], s'.leased, s'.finishes);
    DrainStaysLawful(s.calls, s'.calls, |start.calls|, tried, s.due[0]);
  }

  /** A claim moves the head of the queue to the attempted jobs; a finish adds only behind it. */
  lemma QueueStep(start: seq<DueJob>, attempted: seq<DueJob>, queue: seq<DueJob>, queue': seq<DueJob>)
    requires queue != [] && start <= attempted + queue && queue[1..] <= queue'
    ensures start <= attempted + [queue[0]] + queue'
    ensures Healthies(attempted + [queue[0]]) == Healthies(attempted) + if Poison(queue[0]) then 0 else 1
  {
    HealthiesAppend(attempted, queue[0]);
    assert attempted + [queue[0]] + queue[1..] == attempted + queue;
  }

  /** The finish was answered for this very lease, with this status. */
  predicate Answered(finishes: seq<FinishFate>, lease: Lease, status: string) {
    && NextRecorded(finishes) && finishes[0].answer.Some? && AnswersLease(finishes[0].answer.value, lease)
    && finishes[0].answer.value.status == status
  }

  /** What the claim's parser guarantees. */
  predicate ValidLease(lease: Lease) {
    && IsUuid(lease.userId) && OwnTargets(lease.targets, lease.userId) && Distinct(lease.targets) && |lease.targets| <= 100
  }

  function Joined(codes: seq<string>): string
    requires codes != []
  {
    if |codes| == 1 then codes[0] else codes[0] + "," + Joined(codes[1..])
  }

  predicate AnswersLease(a: FinishAnswer, lease: Lease) {
    a.ok && a.jobId == lease.jobId && a.userId == lease.userId && a.token == lease.token && a.version == lease.version
  }

  /** The next scripted answer; a call without one throws. */
  function First<T>(answers: seq<Option<T>>): Option<T> {
    if answers == [] then None else answers[0]
  }

  function Rest<T>(answers: seq<T>): seq<T> {
    if answers == [] then [] else answers[1..]
  }

  function UserIn(answer: Option<AuthAnswer>, userId: string): Option<AuthUser> {
    if answer.Some? && !answer.value.error && answer.value.user.Some? && answer.value.user.value.id == userId
    then answer.value.user else None
  }

  predicate FenceObserved(answer: Option<AuthAnswer>, lease: Lease) {
    UserIn(answer, lease.userId).Some? && UserIn(answer, lease.userId).value.fence == Some(FenceOf(lease))
  }

  /** The answer carries this user with the deletion marker and no metadata at all. */
  predicate ShowsScrubbed(answer: Option<AuthAnswer>, userId: string) {
    var user := UserIn(answer, userId);
    user.Some? && user.value.email == Some(DeletedEmailMarker(userId)) && user.value.metadata == Some([])
  }

  function KeysRead(answer: Option<AuthAnswer>, userId: string): Option<seq<string>> {
    if UserIn(answer, userId).Some? then UserIn(answer, userId).value.metadata else None
  }

  /** Each highlight target lies under a score that the answer gives to the leased user. */
  predicate ScoresOwned(owners: seq<OwnersAnswer>, lease: Lease) {
    forall i :: 0 <= i < |lease.targets| && lease.targets[i].bucket == "highlights" ==>
      owners != [] && owners[0].Some? && OwnedIn(owners[0].value, Split(lease.targets[i].path)[0], lease.userId)
  }

  function OwnIds(rows: seq<(string, string)>, userId: string): set<string> {
    set k | 0 <= k < |rows| && rows[k].1 == userId :: rows[k].0
  }

  predicate ReadFailed(answer: Option<AuthAnswer>) {
    answer.None? || answer.value.error
  }

  /** The rows of the user are exactly the asked scores if they are as many and include all of them. */
  lemma ExactlyTheScores(targets: seq<Target>, returned: set<string>)
    ensures (|returned| == |ScoreIds(targets)| && forall k :: 0 <= k < |ScoreIds(targets)| ==> ScoreIds(targets)[k] in returned)
        <==> forall id :: id in returned <==> id in ScoreIds(targets)
  {
    var ids := ScoreIds(targets);
    ScoreIdsDistinct(targets);
    DistinctSize(ids);
    var asked := set id | id in ids;
    if |returned| == |ids| && forall k :: 0 <= k < |ids| ==> ids[k] in returned {
      assert asked <= returned;
      SubsetOfSize(asked, returned);
    }
    if forall id :: id in returned <==> id in ids {
      assert returned == asked;
    }
  }

  lemma SubsetOfSize<T>(a: set<T>, b: set<T>)
    requires a <= b && |a| == |b|
    ensures a == b
  {
    if a != b {
      var x :| x in b && x !in a;
      assert |a + {x}| <= |b| by {
        SubsetSize(a + {x}, b);
      }
    }
  }

  lemma {:induction false} SubsetSize<T>(a: set<T>, b: set<T>)
    requires a <= b
    ensures |a| <= |b|
    decreases |a|
  {
    if a != {} {
      var x :| x in a;
      SubsetSize(a - {x}, b - {x});
    }
  }

  lemma {:induction false} ScoreIdsDistinct(targets: seq<Target>)
    ensures Distinct(ScoreIds(targets))
    decreases |targets|
  {
    if targets != [] {
      ScoreIdsDistinct(targets[..|targets| - 1]);
    }
  }

  lemma {:induction false} DistinctSize(ids: seq<string>)
    requires Distinct(ids)
    ensures |set id | id in ids| == |ids|
    decreases |ids|
  {
    if ids != [] {
      var n := |ids| - 1;
      DistinctSize(ids[..n]);
      assert ids == ids[..n] + [ids[n]];
      assert (set id | id in ids) == (set id | id in ids[..n]) + {ids[n]};
    }
  }

  lemma NoScores(lease: Lease)
    requires ScoreIds(lease.targets) == []
    ensures forall i :: 0 <= i < |lease.targets| ==> lease.targets[i].bucket != "highlights"
  {
    forall i | 0 <= i < |lease.targets|
      ensures lease.targets[i].bucket != "highlights"
    {
      if lease.targets[i].bucket == "highlights" {
        ScoreIdsOfTargets(lease.targets, i);
      }
    }
  }

  lemma OwnIdsAreOwned(rows: seq<(string, string)>, lease: Lease, returned: set<string>)
    requires returned == OwnIds(rows, lease.userId)
    requires var ids := ScoreIds(lease.targets); forall k :: 0 <= k < |ids| ==> ids[k] in returned
    ensures ScoresOwned([Some(rows)], lease)
  {
    forall i | 0 <= i < |lease.targets| && lease.targets[i].bucket == "highlights"
      ensures OwnedIn(rows, Split(lease.targets[i].path)[0], lease.userId)
    {
      ScoreIdsOfTargets(lease.targets, i);
      var id := Split(lease.targets[i].path)[0];
      assert id in returned;
      var k :| 0 <= k < |rows| && rows[k].1 == lease.userId && rows[k].0 == id;
      assert rows[k] == (id, lease.userId);
    }
  }

  /** Every target was seen absent, and a required scrub was seen to hold under the lease's fence. */
  predicate CleanedUp(calls: seq<Call>, base: nat, owners: seq<OwnersAnswer>, auths: seq<Option<AuthAnswer>>, lease: Lease) {
    && ScoresOwned(owners, lease)
    && TargetsAbsent(calls, base, lease)
    && (lease.scrubAuth ==>
          && FenceObserved(First(auths), lease)
          && ShowsScrubbed(First(Rest(Rest(auths))), lease.userId)
          && ShowsScrubbed(First(Rest(Rest(Rest(auths)))), lease.userId))
  }

  /** Every target was passed to Storage and then seen absent, from call `base` on. */
  predicate TargetsAbsent(calls: seq<Call>, base: nat, lease: Lease) {
    forall i :: 0 <= i < |lease.targets| ==> SeenAbsent(calls, base, lease.targets[i].bucket, lease.targets[i].path)
  }

  lemma TargetsStillAbsent(before: seq<Call>, after: seq<Call>, base: nat, later: nat, lease: Lease)
    requires before <= after && base <= later
    ensures TargetsAbsent(before, later, lease) ==> TargetsAbsent(after, base, lease)
  {
    if TargetsAbsent(before, later, lease) {
      forall i | 0 <= i < |lease.targets|
        ensures SeenAbsent(after, base, lease.targets[i].bucket, lease.targets[i].path)
      {
        StillAbsent(before, after, base, later, lease.targets[i].bucket, lease.targets[i].path);
      }
    }
  }

  lemma StillCleanedUp(before: seq<Call>, after: seq<Call>, base: nat, later: nat, owners: seq<OwnersAnswer>,
                       auths: seq<Option<AuthAnswer>>, lease: Lease)
    requires before <= after && base <= later && CleanedUp(before, later, owners, auths, lease)
    ensures CleanedUp(after, base, owners, auths, lease)
  {
    TargetsStillAbsent(before, after, base, later, lease);
  }

  /** Storage is given nothing, or all planned batches once, after the owners were verified. */
  predicate RemovesAllOrNothing(before: seq<Call>, after: seq<Call>, owners: seq<OwnersAnswer>, lease: Lease) {
    || Removals(after) == Removals(before)
    || (Removals(after) == Removals(before) + Plan(GroupsOf(lease.targets)) && ScoresOwned(owners, lease))
  }

  lemma ClaimedIsLawful(before: seq<Call>, claimed: seq<Call>, after: seq<Call>, lease: Lease)
    requires claimed == before + [Claim] && claimed <= after && Lawful(after, |claimed|, lease)
    ensures Lawful(after, |before|, lease)
  {
    forall i | |before| <= i < |after|
      ensures LawfulAt(after, |before|, i, lease)
    {
      if i == |before| {
        assert after[i] == claimed[i] == Claim;
      } else {
        LawfulStays(after, after, |before|, |claimed|, i, lease);
      }
    }
  }

  lemma SinceClaim(told: seq<Call>, told': seq<Call>, before: seq<Call>, claimed: seq<Call>, after: seq<Call>, o: Outcome, owners: seq<OwnersAnswer>,
                   auths: seq<Option<AuthAnswer>>, fates: seq<FinishFate>, lease: Lease)
    requires claimed == before + [Claim] && WorkedOn(told, told', claimed, after, o, owners, auths, fates, lease)
    requires Removals(claimed) == Removals(before)
    ensures WorkedOn(told, told', before, after, o, owners, auths, fates, lease)
  {
    ClaimedIsLawful(before, claimed, after, lease);
    FinishSinceClaim(told, told', before, claimed, after, o, owners, auths, fates, lease);
    if o.Completed? {
      StillCleanedUp(after, after, |before|, |claimed|, owners, auths, lease);
    }
  }

  lemma FinishSinceClaim(told: seq<Call>, told': seq<Call>, before: seq<Call>, claimed: seq<Call>, after: seq<Call>, o: Outcome, owners: seq<OwnersAnswer>,
                         auths: seq<Option<AuthAnswer>>, fates: seq<FinishFate>, lease: Lease)
    requires claimed == before + [Claim] && claimed <= after && ReportsTruly(told, told', claimed, after, o, owners, auths, fates, lease)
    ensures ReportsTruly(told, told', before, after, o, owners, auths, fates, lease)
  {
    var log := after[..|after| - 1];
    assert log[|before|] == claimed[|before|] == Claim;
    if CleanedUp(log, |claimed|, owners, auths, lease) {
      StillCleanedUp(log, log, |before|, |claimed|, owners, auths, lease);
    }
  }

  lemma QuietStaysLawful(before: seq<Call>, after: seq<Call>, base: nat, jobs: seq<DueJob>)
    requires before <= after && base <= |before| && AllLawful(before, base, jobs) && Removals(after) == Removals(before)
    ensures AllLawful(after, base, jobs)
  {
    assert Removals(before) + [] == Removals(before);
    forall i | base <= i < |after| && after[i].Remove?
      ensures exists j :: 0 <= j < |jobs| && LawfulFor(after, base, i, jobs[j])
    {
      if i >= |before| {
        RemovalsBetween(before, after, [], i);
      }
      var j :| 0 <= j < |jobs| && LawfulFor(before, base, i, jobs[j]);
      LawfulStays(before, after, base, base, i, ParseLease(jobs[j]).value);
      assert LawfulFor(after, base, i, jobs[j]);
    }
  }

  lemma AnswerVerifies(before: seq<Call>, after: seq<Call>, rows: seq<(string, string)>, lease: Lease)
    requires after == before + [ReadOwners(ScoreIds(lease.targets), Some(rows))] && ScoresOwned([Some(rows)], lease)
    ensures OwnersVerified(after, |before|, lease)
  {
    assert after[|before|] == ReadOwners(ScoreIds(lease.targets), Some(rows));
    forall k | 0 <= k < |lease.targets| && lease.targets[k].bucket == "highlights"
      ensures OwnerSeen(after, |before|, |after|, Split(lease.targets[k].path)[0], lease.userId)
    {
      assert GivesOwner(after[|before|], Split(lease.targets[k].path)[0], lease.userId);
    }
  }

  lemma AbsentAfterRemoval(start: seq<Call>, removed: seq<Call>, after: seq<Call>, bucket: string, paths: seq<string>)
    requires removed == start + [Remove(bucket, paths)] && removed <= after && |after| == |removed| + |paths|
    requires forall i :: 0 <= i < |paths| ==> after[|removed| + i] == Exists(bucket, paths[i], true)
    ensures forall p :: p in paths ==> SeenAbsent(after, |start|, bucket, p)
  {
    forall p | p in paths
      ensures SeenAbsent(after, |start|, bucket, p)
    {
      var i :| 0 <= i < |paths| && paths[i] == p;
      assert after[|removed| + i] == Exists(bucket, p, true);
      assert after[|start|] == removed[|start|] && Removes(after[|start|], bucket, p);
    }
  }

  lemma {:induction false} NonEmptyMembers(paths: seq<string>)
    ensures forall p :: p in NonEmpty(paths) <==> p in paths && p != ""
    decreases |paths|
  {
    if paths != [] {
      NonEmptyMembers(paths[1..]);
      assert paths == [paths[0]] + paths[1..];
    }
  }

  predicate BatchesSeen(calls: seq<Call>, base: nat, bucket: string, batches: seq<seq<string>>) {
    forall i :: 0 <= i < |batches| ==> GroupSeenAbsent(calls, base, (bucket, batches[i]))
  }

  lemma OneMoreBatch(before: seq<Call>, after: seq<Call>, base: nat, bucket: string, batches: seq<seq<string>>, b: nat)
    requires before <= after && base <= |before| && b < |batches| && BatchesSeen(before, base, bucket, batches[..b])
    requires GroupSeenAbsent(after, |before|, (bucket, batches[b]))
    ensures BatchesSeen(after, base, bucket, batches[..b + 1])
  {
    forall i | 0 <= i < b + 1
      ensures GroupSeenAbsent(after, base, (bucket, batches[i]))
    {
      if i == b {
        SeenSinceEarlier(after, base, |before|, (bucket, batches[b]));
      } else {
        assert batches[..b][i] == batches[i];
        GroupStillSeen(before, after, base, base, (bucket, batches[i]));
      }
    }
  }

  lemma GroupStillSeen(before: seq<Call>, after: seq<Call>, base: nat, later: nat, group: (string, seq<string>))
    requires before <= after && base <= later && GroupSeenAbsent(before, later, group)
    ensures GroupSeenAbsent(after, base, group)
  {
    forall p | p in group.1
      ensures SeenAbsent(after, base, group.0, p)
    {
      StillAbsent(before, after, base, later, group.0, p);
    }
  }

  lemma SeenSinceEarlier(calls: seq<Call>, base: nat, later: nat, group: (string, seq<string>))
    requires base <= later && GroupSeenAbsent(calls, later, group)
    ensures GroupSeenAbsent(calls, base, group)
  {
    GroupStillSeen(calls, calls, base, later, group);
  }

  lemma AllBatchesSeen(calls: seq<Call>, base: nat, bucket: string, paths: seq<string>)
    requires forall q :: q in paths ==> IsCanonicalPath(q)
    requires var batches := Chunks(Unique(NonEmpty(paths)));
             forall i :: 0 <= i < |batches| ==> GroupSeenAbsent(calls, base, (bucket, batches[i]))
    ensures GroupSeenAbsent(calls, base, (bucket, paths))
  {
    var batches := Chunks(Unique(NonEmpty(paths)));
    forall p | p in paths
      ensures SeenAbsent(calls, base, bucket, p)
    {
      BatchMembers(paths, p);
      var i :| 0 <= i < |batches| && p in batches[i];
      assert GroupSeenAbsent(calls, base, (bucket, batches[i]));
    }
  }

  lemma GroupsStillSeen(before: seq<Call>, after: seq<Call>, base: nat, groups: Groups)
    requires before <= after
    ensures forall i :: 0 <= i < |groups| && GroupSeenAbsent(before, base, groups[i]) ==> GroupSeenAbsent(after, base, groups[i])
  {
    forall i | 0 <= i < |groups| && GroupSeenAbsent(before, base, groups[i])
      ensures GroupSeenAbsent(after, base, groups[i])
    {
      GroupStillSeen(before, after, base, base, groups[i]);
    }
  }

  predicate GroupSeenAbsent(calls: seq<Call>, base: nat, group: (string, seq<string>)) {
    forall p :: p in group.1 ==> SeenAbsent(calls, base, group.0, p)
  }

  /** Every acknowledged name was asked for, and none comes twice. */
  predicate AcknowledgesOnly(names: seq<string>, requested: seq<string>) {
    Distinct(names) && forall i :: 0 <= i < |names| ==> names[i] in requested
  }

  predicate InSome(parts: seq<seq<string>>, p: string) {
    exists i :: 0 <= i < |parts| && p in parts[i]
  }

  /** The batches hold exactly the given paths. */
  lemma BatchMembers(paths: seq<string>, p: string)
    requires forall q :: q in paths ==> IsCanonicalPath(q)
    ensures InSome(Chunks(Unique(NonEmpty(paths))), p) <==> p in paths
  {
    var unique := Unique(NonEmpty(paths));
    UniqueIsDistinct(NonEmpty(paths));
    NonEmptyMembers(paths);
    ChunksPartition(unique);
    ConcatMembers(Chunks(unique), p);
  }

  lemma {:induction false} ConcatMembers(parts: seq<seq<string>>, p: string)
    ensures p in Concat(parts) <==> InSome(parts, p)
    decreases |parts|
  {
    if parts != [] {
      ConcatMembers(parts[1..], p);
      InSomeSplit(parts, p);
    }
  }

  lemma InSomeSplit(parts: seq<seq<string>>, p: string)
    requires parts != []
    ensures InSome(parts, p) <==> p in parts[0] || InSome(parts[1..], p)
  {
    if InSome(parts, p) && p !in parts[0] {
      var i :| 0 <= i < |parts| && p in parts[i];
      assert p in parts[1..][i - 1];
    }
    if InSome(parts[1..], p) {
      var i :| 0 <= i < |parts[1..]| && p in parts[1..][i];
      assert p in parts[i + 1];
    }
  }

  /** A batch of distinct paths is not changed by removing duplicates once more. */
  lemma BatchIsItself(paths: seq<string>, b: nat)
    requires b < |Chunks(Unique(NonEmpty(paths)))|
    requires forall p :: p in paths ==> IsCanonicalPath(p)
    ensures var batch := Chunks(Unique(NonEmpty(paths)))[b];
            batch != [] && Unique(NonEmpty(batch)) == batch && CanonicalGroup(("", batch))
  {
    var unique := Unique(NonEmpty(paths));
    var batch := Chunks(unique)[b];
    UniqueIsDistinct(NonEmpty(paths));
    ChunksPartition(unique);
    assert batch in Chunks(unique);
    ChunkIsDistinct(unique, b);
    forall p | p in batch
      ensures IsCanonicalPath(p)
    {
      assert InSome(Chunks(unique), p);
      BatchMembers(paths, p);
    }
    assert "" !in batch;
    NonEmptyKeeps(batch);
    DistinctIsUnique(batch);
  }

  lemma {:induction false} ChunkIsDistinct(s: seq<string>, b: nat)
    requires Distinct(s) && b < |Chunks(s)|
    ensures Distinct(Chunks(s)[b])
    decreases |s|
  {
    if |s| > BATCH_SIZE && b > 0 {
      ChunkIsDistinct(s[BATCH_SIZE..], b - 1);
    }
  }

  lemma {:induction false} GroupMember(gs: Groups, x: Target)
    requires x in TargetsOf(gs)
    ensures exists i :: 0 <= i < |gs| && gs[i].0 == x.bucket && x.path in gs[i].1
    decreases |gs|
  {
    NamedMember(gs[0].0, gs[0].1, x);
    if x in Named(gs[0].0, gs[0].1) {
      assert gs[0].0 == x.bucket && x.path in gs[0].1;
    } else {
      GroupMember(gs[1..], x);
      var i :| 0 <= i < |gs[1..]| && gs[1..][i].0 == x.bucket && x.path in gs[1..][i].1;
      assert gs[i + 1].0 == x.bucket && x.path in gs[i + 1].1;
    }
  }

  lemma {:induction false} MemberOfGroup(gs: Groups, i: nat, path: string)
    requires i < |gs| && path in gs[i].1
    ensures Target(gs[i].0, path) in TargetsOf(gs)
    decreases |gs|
  {
    if i == 0 {
      NamedMember(gs[0].0, gs[0].1, Target(gs[0].0, path));
    } else {
      MemberOfGroup(gs[1..], i - 1, path);
    }
  }

  lemma GroupsAreCanonical(targets: seq<Target>)
    requires forall i :: 0 <= i < |targets| ==> IsCanonicalPath(targets[i].path)
    ensures forall i :: 0 <= i < |GroupsOf(targets)| ==> CanonicalGroup(GroupsOf(targets)[i])
  {
    GroupsHoldTargets(targets);
    var gs := GroupsOf(targets);
    forall i, p | 0 <= i < |gs| && p in gs[i].1
      ensures IsCanonicalPath(p)
    {
      MemberOfGroup(gs, i, p);
      assert Target(gs[i].0, p) in targets;
    }
  }

  predicate CanonicalGroup(group: (string, seq<string>)) {
    forall p :: p in group.1 ==> IsCanonicalPath(p)
  }

  /** If all answers were good at the start, nothing has failed, and those left are good for what is left to do. */
  predicate StillGood(whole: bool, left: seq<(string, seq<string>)>, failures: seq<Failure>,
                      removes: seq<RemoveAnswer>, answers: seq<ExistsAnswer>)
  {
    whole ==> failures == [] && GoodStorage(left, removes, answers)
  }

  lemma StillGoodStep(whole: bool, plan: seq<(string, seq<string>)>, b: nat, rest: seq<(string, seq<string>)>, failures: seq<Failure>,
                      removes: seq<RemoveAnswer>, answers: seq<ExistsAnswer>, failed: Option<Failure>,
                      removes': seq<RemoveAnswer>, answers': seq<ExistsAnswer>)
    requires b < |plan| && StillGood(whole, plan[b..] + rest, failures, removes, answers)
    requires Acknowledged(First(removes), plan[b].1) && AllAbsent(answers, |plan[b].1|) ==>
               failed.None? && removes' == Rest(removes) && answers' == Skip(answers, |plan[b].1|)
    ensures StillGood(whole, plan[b + 1..] + rest, if failed.None? then failures else failures + [failed.value], removes', answers')
  {
    var left := plan[b..] + rest;
    assert left[0] == plan[b] && left[1..] == plan[b + 1..] + rest;
  }

  lemma PlanPrefix(done: seq<(string, seq<string>)>, plan: seq<(string, seq<string>)>, b: nat)
    requires b < |plan|
    ensures (done + plan[..b]) + [plan[b]] == done + plan[..b + 1]
  {
    assert plan[..b + 1] == plan[..b] + [plan[b]];
  }

  lemma PlanHead(gs: Groups, g: nat)
    requires g < |gs|
    ensures Plan(gs[g..]) == BatchesOf(gs[g]) + Plan(gs[g + 1..])
  {
    assert gs[g..][0] == gs[g] && gs[g..][1..] == gs[g + 1..];
  }

  /** What a failed removal is recorded as. */
  predicate StorageCodes(failures: seq<Failure>) {
    forall i :: 0 <= i < |failures| ==> failures[i] == STORAGE_REMOVE || failures[i] == VERIFY_ABSENT
  }

  lemma PlanStep(gs: Groups, g: nat, done: seq<(string, seq<string>)>)
    requires g < |gs|
    ensures done + Plan(gs[g..]) == (done + BatchesOf(gs[g])) + Plan(gs[g + 1..])
  {
    assert gs[g..][0] == gs[g] && gs[g..][1..] == gs[g + 1..];
  }

  lemma GroupsSeen(targets: seq<Target>, calls: seq<Call>, base: nat)
    requires forall i :: 0 <= i < |targets| ==> IsCanonicalPath(targets[i].path)
    requires forall i :: 0 <= i < |GroupsOf(targets)| ==> GroupSeenAbsent(calls, base, GroupsOf(targets)[i])
    ensures forall i :: 0 <= i < |targets| ==> SeenAbsent(calls, base, targets[i].bucket, targets[i].path)
  {
    GroupsHoldTargets(targets);
    forall i | 0 <= i < |targets|
      ensures SeenAbsent(calls, base, targets[i].bucket, targets[i].path)
    {
      assert targets[i] in TargetsOf(GroupsOf(targets));
      GroupMember(GroupsOf(targets), targets[i]);
    }
  }
}
