/**
 The queue of due clean-up jobs over many drains.  A claim does not move a row's due time; only a
 finish that is recorded does.  So a row that cannot be parsed, or whose finish is not recorded, is
 at its old place again once its lease has expired, while every other attempted row leaves or is
 armed again behind everything that is due now.
 */
module CleanupQueue {
  import opened Wrappers
  import opened CleanupTargets
  import opened AccountCleanup

  // ---------------------------------------------------------------- the rows ahead of a job, by their ids

  /** Those of the rows, in order, that stay in a drain. */
  function Staying(stay: set<string>, rows: seq<string>): seq<string> {
    if rows == [] then []
    else if rows[0] in stay then [rows[0]] + Staying(stay, rows[1..])
    else Staying(stay, rows[1..])
  }

  /** The rows ahead of a job after a drain that did not come as far as the job. */
  function AheadAfterDrain(stay: set<string>, ahead: seq<string>, limit: nat): seq<string>
    requires limit <= |ahead|
  {
    Staying(stay, ahead[..limit]) + ahead[limit..]
  }

  /** The rows ahead of the job after n drains, or when a drain first reaches it; `stays` may differ from drain to drain. */
  function AheadAfter(stays: nat -> set<string>, ahead: seq<string>, limit: nat, n: nat): seq<string> {
    if n == 0 then ahead
    else
      var before := AheadAfter(stays, ahead, limit, n - 1);
      if |before| < limit then before else AheadAfterDrain(stays(n - 1), before, limit)
  }

  /** The drain after n others attempts the job, if none of those has. */
  predicate ReachedIn(stays: nat -> set<string>, ahead: seq<string>, limit: nat, n: nat) {
    |AheadAfter(stays, ahead, limit, n)| < limit
  }

  /** From the n-th drain on, the same first rows stay in every drain. */
  ghost predicate BlockedFrom(stays: nat -> set<string>, ahead: seq<string>, limit: nat, n: nat) {
    var rows := AheadAfter(stays, ahead, limit, n);
    |rows| >= limit && forall m :: m >= n ==> AllStay(stays(m), rows[..limit])
  }

  predicate AllStay(stay: set<string>, rows: seq<string>) {
    forall i :: 0 <= i < |rows| ==> rows[i] in stay
  }

  lemma {:induction false} StayingAppend(stay: set<string>, a: seq<string>, b: seq<string>)
    ensures Staying(stay, a + b) == Staying(stay, a) + Staying(stay, b)
    decreases |a|
  {
    if a == [] {
      assert a + b == b;
    } else {
      assert (a + b)[0] == a[0] && (a + b)[1..] == a[1..] + b;
      StayingAppend(stay, a[1..], b);
    }
  }

  lemma {:induction false} StayingFacts(stay: set<string>, rows: seq<string>)
    ensures |Staying(stay, rows)| <= |rows|
    ensures AllStay(stay, rows) <==> |Staying(stay, rows)| == |rows|
    ensures AllStay(stay, rows) ==> Staying(stay, rows) == rows
    decreases |rows|
  {
    if rows != [] {
      StayingFacts(stay, rows[1..]);
      if AllStay(stay, rows[1..]) && rows[0] in stay {
        assert rows == [rows[0]] + rows[1..];
      }
      if AllStay(stay, rows) {
        assert forall i :: 0 <= i < |rows[1..]| ==> rows[1..][i] == rows[i + 1];
      }
    }
  }

  /** Rows that may only stay where others stay too are not lost among those that do. */
  lemma {:induction false} StayingWithin(less: set<string>, more: set<string>, rows: seq<string>)
    requires forall i :: 0 <= i < |rows| && rows[i] in less ==> rows[i] in more
    ensures Staying(less, Staying(more, rows)) == Staying(less, rows)
    decreases |rows|
  {
    if rows != [] {
      StayingWithin(less, more, rows[1..]);
      if rows[0] in more {
        assert Staying(more, rows)[1..] == Staying(more, rows[1..]);
      }
    }
  }

  lemma {:induction false} StayingMembers(stay: set<string>, rows: seq<string>, i: nat)
    requires i < |Staying(stay, rows)|
    ensures Staying(stay, rows)[i] in rows && Staying(stay, rows)[i] in stay
    decreases |rows|
  {
    if rows[0] in stay && i == 0 {
    } else {
      StayingMembers(stay, rows[1..], if rows[0] in stay then i - 1 else i);
    }
  }

  /** A drain that does not reach the job shortens the queue ahead of it unless all attempted rows stay. */
  lemma DrainShortens(stay: set<string>, ahead: seq<string>, limit: nat)
    requires limit <= |ahead|
    ensures |AheadAfterDrain(stay, ahead, limit)| <= |ahead|
    ensures AllStay(stay, ahead[..limit]) ==> AheadAfterDrain(stay, ahead, limit) == ahead
    ensures !AllStay(stay, ahead[..limit]) ==> |AheadAfterDrain(stay, ahead, limit)| < |ahead|
  {
    StayingFacts(stay, ahead[..limit]);
    assert ahead == ahead[..limit] + ahead[limit..];
  }

  lemma {:induction false} ReachedStays(stays: nat -> set<string>, ahead: seq<string>, limit: nat, n: nat, m: nat)
    requires ReachedIn(stays, ahead, limit, n) && n <= m
    ensures AheadAfter(stays, ahead, limit, m) == AheadAfter(stays, ahead, limit, n)
    decreases m
  {
    if n < m {
      ReachedStays(stays, ahead, limit, n, m - 1);
    }
  }

  lemma {:induction false} BlockedStays(stays: nat -> set<string>, ahead: seq<string>, limit: nat, n: nat, m: nat)
    requires BlockedFrom(stays, ahead, limit, n) && n <= m
    ensures AheadAfter(stays, ahead, limit, m) == AheadAfter(stays, ahead, limit, n)
    decreases m
  {
    if n < m {
      BlockedStays(stays, ahead, limit, n, m - 1);
      var rows := AheadAfter(stays, ahead, limit, n);
      assert AllStay(stays(m - 1), rows[..limit]);
      DrainShortens(stays(m - 1), rows, limit);
    }
  }

  lemma {:induction false} NeverLonger(stays: nat -> set<string>, ahead: seq<string>, limit: nat, n: nat, m: nat)
    requires n <= m
    ensures |AheadAfter(stays, ahead, limit, m)| <= |AheadAfter(stays, ahead, limit, n)|
    ensures AheadAfter(stays, ahead, limit, m) == AheadAfter(stays, ahead, limit, n)
            || |AheadAfter(stays, ahead, limit, m)| < |AheadAfter(stays, ahead, limit, n)|
    decreases m
  {
    if n < m {
      NeverLonger(stays, ahead, limit, n, m - 1);
      var before := AheadAfter(stays, ahead, limit, m - 1);
      if |before| >= limit {
        DrainShortens(stays(m - 1), before, limit);
      }
    }
  }

  /** A job that no drain reaches is blocked from some drain on. */
  lemma {:induction false} SomeDrainBlocks(stays: nat -> set<string>, ahead: seq<string>, limit: nat, n: nat)
    requires forall m :: !ReachedIn(stays, ahead, limit, m)
    ensures exists k :: BlockedFrom(stays, ahead, limit, k)
    decreases |AheadAfter(stays, ahead, limit, n)|
  {
    if !BlockedFrom(stays, ahead, limit, n) {
      var rows := AheadAfter(stays, ahead, limit, n);
      assert !ReachedIn(stays, ahead, limit, n);
      var m :| m >= n && !AllStay(stays(m), rows[..limit]);
      NeverLonger(stays, ahead, limit, n, m);
      assert !ReachedIn(stays, ahead, limit, m);
      DrainShortens(stays(m), AheadAfter(stays, ahead, limit, m), limit);
      SomeDrainBlocks(stays, ahead, limit, m + 1);
    }
  }

  /**
   Exactly when a clean-up job is attempted: some drain reaches it if and only if there is no
   drain from which on `limit` rows ahead of it stay every time.
   */
  lemma JobReachedIff(stays: nat -> set<string>, ahead: seq<string>, limit: nat)
    ensures (exists n :: ReachedIn(stays, ahead, limit, n)) <==> !exists n :: BlockedFrom(stays, ahead, limit, n)
  {
    if n, m :| ReachedIn(stays, ahead, limit, n) && BlockedFrom(stays, ahead, limit, m) {
      if n <= m {
        ReachedStays(stays, ahead, limit, n, m);
      } else {
        BlockedStays(stays, ahead, limit, m, n);
      }
    }
    if forall n :: !ReachedIn(stays, ahead, limit, n) {
      SomeDrainBlocks(stays, ahead, limit, 0);
    }
  }

  /** The row is among those that the drain after n others attempts, and the job is not. */
  predicate Retried(stays: nat -> set<string>, ahead: seq<string>, limit: nat, row: string, n: nat) {
    var rows := AheadAfter(stays, ahead, limit, n);
    |rows| >= limit && row in rows[..limit]
  }

  /** The row stays whenever it is attempted. */
  ghost predicate NeverFinished(stays: nat -> set<string>, ahead: seq<string>, limit: nat, row: string) {
    forall n :: Retried(stays, ahead, limit, row, n) ==> row in stays(n)
  }

  /** These are the rows ahead that stay whenever they are attempted. */
  ghost predicate AreStuck(stays: nat -> set<string>, ahead: seq<string>, limit: nat, stuck: set<string>) {
    forall row :: row in ahead ==> (row in stuck <==> NeverFinished(stays, ahead, limit, row))
  }

  /**
   Only rows that are never finished block a job, however often the others fail: the job is reached
   if and only if fewer rows than the limit that stay at each attempt are ahead of it.
   */
  lemma ReachedIff(stays: nat -> set<string>, ahead: seq<string>, limit: nat, stuck: set<string>)
    requires Distinct(ahead) && AreStuck(stays, ahead, limit, stuck)
    ensures (exists n :: ReachedIn(stays, ahead, limit, n)) <==> |Staying(stuck, ahead)| < limit
  {
    JobReachedIff(stays, ahead, limit);
    if n :| ReachedIn(stays, ahead, limit, n) {
      StuckStay(stays, ahead, limit, stuck, n);
      StayingFacts(stuck, AheadAfter(stays, ahead, limit, n));
    }
    if n :| BlockedFrom(stays, ahead, limit, n) {
      StuckStay(stays, ahead, limit, stuck, n);
      BlockersNeverFinish(stays, ahead, limit, stuck, n);
    }
  }

  lemma BlockersNeverFinish(stays: nat -> set<string>, ahead: seq<string>, limit: nat, stuck: set<string>, n: nat)
    requires Distinct(ahead) && AreStuck(stays, ahead, limit, stuck) && BlockedFrom(stays, ahead, limit, n)
    requires AllIn(AheadAfter(stays, ahead, limit, n), ahead)
    ensures limit <= |Staying(stuck, AheadAfter(stays, ahead, limit, n))|
  {
    var rows := AheadAfter(stays, ahead, limit, n);
    forall i | 0 <= i < limit
      ensures rows[..limit][i] in stuck
    {
      assert rows[..limit][i] == rows[i];
      BlockerIsNeverFinished(stays, ahead, limit, n, rows[i]);
    }
    FirstStay(stuck, rows, limit);
  }

  lemma FirstStay(stuck: set<string>, rows: seq<string>, limit: nat)
    requires limit <= |rows| && AllStay(stuck, rows[..limit])
    ensures limit <= |Staying(stuck, rows)|
  {
    StayingFacts(stuck, rows[..limit]);
    assert rows == rows[..limit] + rows[limit..];
    StayingAppend(stuck, rows[..limit], rows[limit..]);
  }

  lemma BlockerIsNeverFinished(stays: nat -> set<string>, ahead: seq<string>, limit: nat, n: nat, row: string)
    requires Distinct(ahead) && BlockedFrom(stays, ahead, limit, n) && Retried(stays, ahead, limit, row, n)
    ensures NeverFinished(stays, ahead, limit, row)
  {
    forall m: nat | Retried(stays, ahead, limit, row, m)
      ensures row in stays(m)
    {
      if m >= n {
        BlockedStays(stays, ahead, limit, n, m);
        var rows := AheadAfter(stays, ahead, limit, n);
        assert AllStay(stays(m), rows[..limit]);
      } else if row !in stays(m) {
        FinishedLeaves(stays, ahead, limit, m, row);
        GoneForGood(stays, ahead, limit, m + 1, n, row);
      }
    }
  }

  lemma {:induction false} DistinctAhead(stays: nat -> set<string>, ahead: seq<string>, limit: nat, n: nat)
    requires Distinct(ahead)
    ensures Distinct(AheadAfter(stays, ahead, limit, n))
    decreases n
  {
    if n > 0 {
      DistinctAhead(stays, ahead, limit, n - 1);
      var before := AheadAfter(stays, ahead, limit, n - 1);
      if |before| >= limit {
        assert before == before[..limit] + before[limit..];
        DistinctKept(stays(n - 1), before[..limit], before[limit..]);
      }
    }
  }

  /** An attempted row that does not stay is not ahead of the job any more. */
  lemma FinishedLeaves(stays: nat -> set<string>, ahead: seq<string>, limit: nat, n: nat, row: string)
    requires Distinct(ahead) && Retried(stays, ahead, limit, row, n) && row !in stays(n)
    ensures row !in AheadAfter(stays, ahead, limit, n + 1)
  {
    DistinctAhead(stays, ahead, limit, n);
    var rows := AheadAfter(stays, ahead, limit, n);
    var kept := Staying(stays(n), rows[..limit]);
    assert row !in rows[limit..];
    if row in kept {
      var i :| 0 <= i < |kept| && kept[i] == row;
      StayingMembers(stays(n), rows[..limit], i);
    }
  }

  lemma {:induction false} GoneForGood(stays: nat -> set<string>, ahead: seq<string>, limit: nat, n: nat, m: nat, row: string)
    requires n <= m && row !in AheadAfter(stays, ahead, limit, n)
    ensures row !in AheadAfter(stays, ahead, limit, m)
    decreases m
  {
    if n < m {
      GoneForGood(stays, ahead, limit, n, m - 1, row);
      var before := AheadAfter(stays, ahead, limit, m - 1);
      if |before| >= limit {
        DrainKeepsRows(stays(m - 1), before, limit);
      }
    }
  }

  /** Each row ahead either stays whenever it is attempted, and is then in `stuck`, or again and again does not stay. */
  ghost predicate StuckOrRecurring(stays: nat -> set<string>, ahead: seq<string>, limit: nat, stuck: set<string>) {
    && (forall row :: row in ahead && row in stuck ==> NeverFinished(stays, ahead, limit, row))
    && (forall row, n :: row in ahead && row !in stuck ==> RecordedAfter(stays, row, n))
  }

  /** In some drain from the n-th on the row does not stay. */
  ghost predicate RecordedAfter(stays: nat -> set<string>, row: string, n: nat) {
    exists m :: m >= n && row !in stays(m)
  }

  /**
   The same with a condition on the rows alone: hopeless rows block a job, and a row that would again
   and again get its finish recorded only delays it.
   */
  lemma HopelessRowsBlock(stays: nat -> set<string>, ahead: seq<string>, limit: nat, stuck: set<string>)
    requires StuckOrRecurring(stays, ahead, limit, stuck)
    ensures (exists n :: ReachedIn(stays, ahead, limit, n)) <==> |Staying(stuck, ahead)| < limit
  {
    JobReachedIff(stays, ahead, limit);
    if n :| ReachedIn(stays, ahead, limit, n) {
      StuckStay(stays, ahead, limit, stuck, n);
      StayingFacts(stuck, AheadAfter(stays, ahead, limit, n));
    }
    if n :| BlockedFrom(stays, ahead, limit, n) {
      StuckStay(stays, ahead, limit, stuck, n);
      BlockersAreStuck(stays, ahead, limit, stuck, n);
    }
  }

  /** The stuck rows ahead of the job are ahead of it after any number of drains. */
  lemma {:induction false} StuckStay(stays: nat -> set<string>, ahead: seq<string>, limit: nat, stuck: set<string>, n: nat)
    requires forall row :: row in ahead && row in stuck ==> NeverFinished(stays, ahead, limit, row)
    ensures Staying(stuck, AheadAfter(stays, ahead, limit, n)) == Staying(stuck, ahead)
    ensures AllIn(AheadAfter(stays, ahead, limit, n), ahead)
    decreases n
  {
    if n > 0 {
      StuckStay(stays, ahead, limit, stuck, n - 1);
      var before := AheadAfter(stays, ahead, limit, n - 1);
      if |before| >= limit {
        assert forall row :: row in before[..limit] && row in stuck ==> Retried(stays, ahead, limit, row, n - 1);
        DrainKeepsStuck(stays(n - 1), before, limit, stuck);
        DrainKeepsRows(stays(n - 1), before, limit);
      }
    }
  }

  predicate AllIn(rows: seq<string>, others: seq<string>) {
    forall i :: 0 <= i < |rows| ==> rows[i] in others
  }

  lemma DrainKeepsRows(stay: set<string>, ahead: seq<string>, limit: nat)
    requires limit <= |ahead|
    ensures AllIn(AheadAfterDrain(stay, ahead, limit), ahead)
  {
    var kept := Staying(stay, ahead[..limit]);
    forall i | 0 <= i < |kept + ahead[limit..]|
      ensures (kept + ahead[limit..])[i] in ahead
    {
      if i < |kept| {
        StayingMembers(stay, ahead[..limit], i);
      }
    }
  }

  lemma DrainKeepsStuck(stay: set<string>, ahead: seq<string>, limit: nat, stuck: set<string>)
    requires limit <= |ahead| && forall row :: row in ahead[..limit] && row in stuck ==> row in stay
    ensures Staying(stuck, AheadAfterDrain(stay, ahead, limit)) == Staying(stuck, ahead)
  {
    assert ahead == ahead[..limit] + ahead[limit..];
    StayingAppend(stuck, ahead[..limit], ahead[limit..]);
    StayingAppend(stuck, Staying(stay, ahead[..limit]), ahead[limit..]);
    StayingWithin(stuck, stay, ahead[..limit]);
  }

  lemma BlockersAreStuck(stays: nat -> set<string>, ahead: seq<string>, limit: nat, stuck: set<string>, n: nat)
    requires StuckOrRecurring(stays, ahead, limit, stuck) && BlockedFrom(stays, ahead, limit, n)
    requires AllIn(AheadAfter(stays, ahead, limit, n), ahead)
    ensures limit <= |Staying(stuck, AheadAfter(stays, ahead, limit, n))|
  {
    var rows := AheadAfter(stays, ahead, limit, n);
    forall i | 0 <= i < limit
      ensures rows[..limit][i] in stuck
    {
      var k :| 0 <= k < |ahead| && ahead[k] == rows[i];
      assert !RecordedAfter(stays, ahead[k], n) by {
        assert forall m :: m >= n ==> AllStay(stays(m), rows[..limit]);
        assert rows[..limit][i] == ahead[k];
      }
    }
    FirstStay(stuck, rows, limit);
  }

  // ---------------------------------------------------------------- the drains of the worker

  /** The rows that a drain attempts, and what becomes of the finishes from its start on. */
  datatype Round = Round(tried: seq<DueJob>, fates: seq<FinishFate>)

  function IdSet(jobs: seq<DueJob>): set<string> {
    set id | id in Ids(jobs)
  }

  /** The attempted rows that cannot be parsed or whose finish is not recorded. */
  function KeptIn(round: Round): set<string> {
    IdSet(Unrecorded(Poison, round.tried, round.fates))
  }

  /** The same, drain by drain. */
  function Kept(rounds: seq<Round>): nat -> set<string> {
    (n: nat) => if n < |rounds| then KeptIn(rounds[n]) else {}
  }

  lemma IdsOfCons(job: DueJob, jobs: seq<DueJob>)
    ensures Ids([job] + jobs) == [job.jobId] + Ids(jobs)
    ensures IdSet([job] + jobs) == {job.jobId} + IdSet(jobs)
  {
    assert forall id :: id in [job.jobId] + Ids(jobs) <==> id == job.jobId || id in Ids(jobs);
  }

  lemma {:induction false} UnrecordedIds(bad: DueJob -> bool, jobs: seq<DueJob>, fates: seq<FinishFate>)
    requires Distinct(Ids(jobs))
    ensures Ids(Unrecorded(bad, jobs, fates)) == Staying(IdSet(Unrecorded(bad, jobs, fates)), Ids(jobs))
    ensures IdSet(Unrecorded(bad, jobs, fates)) <= IdSet(jobs)
    decreases |jobs|
  {
    if jobs != [] {
      var job, others := jobs[0], jobs[1..];
      assert jobs == [job] + others;
      IdsOfCons(job, others);
      TailIsDistinct(Ids(jobs));
      assert Ids(jobs)[1..] == Ids(others);
      var kept := Unrecorded(bad, others, if bad(job) then fates else Rest(fates));
      UnrecordedIds(bad, others, if bad(job) then fates else Rest(fates));
      AttemptedIds(job, Ids(others), kept);
      IdsOfCons(job, kept);
    }
  }

  /** The first row is added to the kept ones, or not. */
  lemma AttemptedIds(job: DueJob, others: seq<string>, kept: seq<DueJob>)
    requires job.jobId !in others && Ids(kept) == Staying(IdSet(kept), others) && forall id :: id in IdSet(kept) ==> id in others
    ensures Ids(kept) == Staying(IdSet(kept), [job.jobId] + others)
    ensures Ids([job] + kept) == Staying(IdSet([job] + kept), [job.jobId] + others)
  {
    assert ([job.jobId] + others)[1..] == others;
    IdsOfCons(job, kept);
    SameStaying(IdSet(kept), IdSet([job] + kept), others);
  }

  lemma TailIsDistinct(ids: seq<string>)
    requires Distinct(ids) && ids != []
    ensures Distinct(ids[1..]) && ids[0] !in ids[1..]
  {
  }

  lemma {:induction false} SameStaying(a: set<string>, b: set<string>, rows: seq<string>)
    requires forall i :: 0 <= i < |rows| ==> (rows[i] in a <==> rows[i] in b)
    ensures Staying(a, rows) == Staying(b, rows)
    decreases |rows|
  {
    if rows != [] {
      SameStaying(a, b, rows[1..]);
    }
  }

  lemma IdsOfPrefix(a: seq<DueJob>, b: seq<DueJob>)
    ensures Ids(a + b) == Ids(a) + Ids(b)
    ensures a <= b ==> Ids(a) <= Ids(b)
  {
    if a <= b {
      assert b == a + b[|a|..];
      assert Ids(b) == Ids(a) + Ids(b[|a|..]);
    }
  }

  /** A drain takes the first rows of the queue. */
  lemma FirstRows(rows: seq<string>, queue: seq<string>, tried: seq<string>, left: seq<string>)
    requires rows <= queue && queue <= tried + left
    ensures |tried| <= |rows| ==> tried == rows[..|tried|] && rows[|tried|..] <= left
    ensures |tried| > |rows| ==> tried[..|rows|] == rows
  {
    var all := tried + left;
    assert forall k :: 0 <= k < |rows| ==> rows[k] == all[k];
    if |tried| <= |rows| {
      assert forall k :: 0 <= k < |tried| ==> tried[k] == all[k];
      assert forall k :: 0 <= k < |rows| - |tried| ==> left[k] == all[|tried| + k] == rows[|tried| + k];
    } else {
      assert forall k :: 0 <= k < |rows| ==> tried[k] == all[k];
    }
  }

  /** What a drain that stops before the job leaves ahead of it once the leases have expired. */
  lemma LeftAhead(ahead: seq<string>, id: string, tried: seq<DueJob>, fates: seq<FinishFate>, left: seq<DueJob>)
    requires Distinct(ahead + [id]) && |tried| <= |ahead| && Ids(tried) == ahead[..|tried|]
    requires ahead[|tried|..] + [id] <= Ids(left)
    ensures var kept := Unrecorded(Poison, tried, fates);
            AheadAfterDrain(IdSet(kept), ahead, |tried|) + [id] <= Ids(kept + left)
    ensures id !in Ids(tried)
  {
    var kept := Unrecorded(Poison, tried, fates);
    assert forall k :: 0 <= k < |ahead| ==> (ahead + [id])[k] == ahead[k];
    assert (ahead + [id])[|ahead|] == id;
    UnrecordedIds(Poison, tried, fates);
    IdsOfPrefix(kept, left);
    assert Ids(kept) + (ahead[|tried|..] + [id]) == AheadAfterDrain(IdSet(kept), ahead, |tried|) + [id];
  }

  /** The rows ahead of the job and the job itself stay different rows. */
  lemma StaysDistinct(stay: set<string>, ahead: seq<string>, limit: nat, id: string)
    requires limit <= |ahead| && Distinct(ahead + [id])
    ensures Distinct(AheadAfterDrain(stay, ahead, limit) + [id])
  {
    assert ahead + [id] == ahead[..limit] + (ahead[limit..] + [id]);
    DistinctKept(stay, ahead[..limit], ahead[limit..] + [id]);
    assert AheadAfterDrain(stay, ahead, limit) + [id] == Staying(stay, ahead[..limit]) + (ahead[limit..] + [id]);
  }

  lemma {:induction false} DistinctKept(stay: set<string>, rows: seq<string>, rest: seq<string>)
    requires Distinct(rows + rest)
    ensures Distinct(Staying(stay, rows) + rest)
    ensures AllIn(Staying(stay, rows) + rest, rows + rest)
    decreases |rows|
  {
    if rows != [] {
      var all := rows + rest;
      assert all[1..] == rows[1..] + rest;
      TailIsDistinct(all);
      DistinctKept(stay, rows[1..], rest);
      var kept := Staying(stay, rows[1..]) + rest;
      assert forall k :: 0 <= k < |kept| ==> kept[k] in all[1..] && kept[k] in all;
      if rows[0] in stay {
        assert Staying(stay, rows) + rest == [rows[0]] + kept;
      } else {
        assert Staying(stay, rows) + rest == kept;
      }
    }
  }

  /**
   What one drain does to a given due job: it is attempted exactly if fewer rows than the limit
   are ahead of it.  Otherwise exactly the first rows are attempted, and once the leases have
   expired those of them that cannot be parsed or whose finish was not recorded are ahead again.
   */
  method DrainOnce(worker: Worker, limit: int, ghost ahead: seq<string>, ghost id: string) returns (ghost round: Round)
    requires worker.leased == [] && AllDelivered(worker.claims)
    modifies worker
    ensures AllDelivered(worker.claims)
    ensures worker.attempted == old(worker.attempted) + round.tried && round.fates == old(worker.finishes)
    ensures worker.finishes == FatesAfter(Poison, round.tried, round.fates)
    ensures worker.leased == Unrecorded(Poison, round.tried, round.fates)
    ensures old(InQueue(ahead, id, worker.due)) ==> MovesUp(round, ahead, id, BoundedLimit(limit), worker.leased + worker.due)
  {
    ghost var queue := worker.due;
    ghost var outcomes: seq<Outcome>;
    var r: DrainResult;
    r, outcomes := worker.DrainCleanupJobs(limit);
    round := Round(worker.attempted[|old(worker.attempted)|..], old(worker.finishes));
    if InQueue(ahead, id, queue) {
      DrainMovesUp(queue, round.tried, round.fates, worker.due, BoundedLimit(limit), ahead, id);
    }
  }

  /** These rows, each different, come first in the queue, and then the row `id`. */
  predicate InQueue(ahead: seq<string>, id: string, queue: seq<DueJob>) {
    ahead + [id] <= Ids(queue) && Distinct(ahead + [id])
  }

  /**
   The drain attempts all rows ahead and then the job, or exactly the first rows ahead; then those of
   them that stay are ahead of the job again, in the queue `left` that is there without any lease.
   */
  predicate MovesUp(round: Round, ahead: seq<string>, id: string, limit: nat, left: seq<DueJob>) {
    if |ahead| < limit then ahead + [id] <= Ids(round.tried)
    else
      && Ids(round.tried) == ahead[..limit] && id !in Ids(round.tried)
      && InQueue(AheadAfterDrain(KeptIn(round), ahead, limit), id, left)
  }

  lemma DrainMovesUp(queue: seq<DueJob>, tried: seq<DueJob>, fates: seq<FinishFate>, left: seq<DueJob>, limit: nat,
                     ahead: seq<string>, id: string)
    requires InQueue(ahead, id, queue) && queue <= tried + left
    requires |tried| <= limit && |tried| >= if limit < |queue| then limit else |queue|
    ensures MovesUp(Round(tried, fates), ahead, id, limit, Unrecorded(Poison, tried, fates) + left)
  {
    IdsOfPrefix(tried, left);
    IdsOfPrefix(queue, tried + left);
    FirstRows(ahead + [id], Ids(queue), Ids(tried), Ids(left));
    if |ahead| >= limit {
      assert (ahead + [id])[..limit] == ahead[..limit];
      assert (ahead + [id])[limit..] == ahead[limit..] + [id];
      LeftAhead(ahead, id, tried, fates, left);
      StaysDistinct(IdSet(Unrecorded(Poison, tried, fates)), ahead, limit, id);
    }
  }

  /** The rows attempted by these drains, in order. */
  function Tried(rounds: seq<Round>): seq<DueJob> {
    if rounds == [] then [] else Tried(rounds[..|rounds| - 1]) + rounds[|rounds| - 1].tried
  }

  /** The fates of finishes that these drains leave. */
  function LeftFates(rounds: seq<Round>, fates: seq<FinishFate>): seq<FinishFate> {
    if rounds == [] then fates
    else
      var last := rounds[|rounds| - 1];
      FatesAfter(Poison, last.tried, last.fates)
  }

  /** Each drain takes up the fates that the drains before it have left. */
  predicate Successive(rounds: seq<Round>, fates: seq<FinishFate>) {
    forall d :: 0 <= d < |rounds| ==> rounds[d].fates == LeftFates(rounds[..d], fates)
  }

  /**
   Drain d attempts exactly the first of the rows that are left ahead of the job; the first drain
   with fewer rows ahead than the limit attempts all of them, and then the job.
   */
  predicate AsPredicted(rounds: seq<Round>, ahead: seq<string>, id: string, limit: nat, d: nat)
    requires d < |rounds|
  {
    var rows := AheadAfter(Kept(rounds), ahead, limit, d);
    if |rows| >= limit then Ids(rounds[d].tried) == rows[..limit] && id !in Ids(rounds[d].tried)
    else NotYet(rounds, ahead, limit, d) ==> rows + [id] <= Ids(rounds[d].tried)
  }

  /** None of the drains before drain d comes as far as the job. */
  predicate NotYet(rounds: seq<Round>, ahead: seq<string>, limit: nat, d: nat) {
    d > 0 ==> |AheadAfter(Kept(rounds), ahead, limit, d - 1)| >= limit
  }

  lemma {:induction false} SameBefore(stays: nat -> set<string>, stays': nat -> set<string>, ahead: seq<string>, limit: nat, n: nat)
    requires forall m :: 0 <= m < n ==> stays(m) == stays'(m)
    ensures AheadAfter(stays, ahead, limit, n) == AheadAfter(stays', ahead, limit, n)
    decreases n
  {
    if n > 0 {
      SameBefore(stays, stays', ahead, limit, n - 1);
    }
  }

  lemma OneMoreRound(rounds: seq<Round>, round: Round, ahead: seq<string>, id: string, limit: nat, d: nat)
    requires d <= |rounds|
    ensures AheadAfter(Kept(rounds + [round]), ahead, limit, d) == AheadAfter(Kept(rounds), ahead, limit, d)
    ensures NotYet(rounds + [round], ahead, limit, d) <==> NotYet(rounds, ahead, limit, d)
    ensures d < |rounds| ==> (AsPredicted(rounds + [round], ahead, id, limit, d) <==> AsPredicted(rounds, ahead, id, limit, d))
  {
    SameBefore(Kept(rounds + [round]), Kept(rounds), ahead, limit, d);
    if d > 0 {
      SameBefore(Kept(rounds + [round]), Kept(rounds), ahead, limit, d - 1);
    }
  }

  predicate Attempts(round: Round, id: string) {
    id in Ids(round.tried)
  }

  /** The job is attempted by one of these drains exactly if fewer rows than the limit are left ahead of it in time. */
  lemma AttemptedIff(rounds: seq<Round>, ahead: seq<string>, id: string, limit: nat)
    requires forall d :: 0 <= d < |rounds| ==> AsPredicted(rounds, ahead, id, limit, d)
    ensures (exists d :: 0 <= d < |rounds| && Attempts(rounds[d], id))
        <==> (exists n :: 0 <= n < |rounds| && ReachedIn(Kept(rounds), ahead, limit, n))
  {
    if d :| 0 <= d < |rounds| && Attempts(rounds[d], id) {
      assert AsPredicted(rounds, ahead, id, limit, d);
      assert ReachedIn(Kept(rounds), ahead, limit, d);
    }
    if n :| 0 <= n < |rounds| && ReachedIn(Kept(rounds), ahead, limit, n) {
      FirstReached(rounds, ahead, id, limit, n);
    }
  }

  lemma {:induction false} FirstReached(rounds: seq<Round>, ahead: seq<string>, id: string, limit: nat, n: nat)
    requires forall d :: 0 <= d < |rounds| ==> AsPredicted(rounds, ahead, id, limit, d)
    requires n < |rounds| && ReachedIn(Kept(rounds), ahead, limit, n)
    ensures exists d :: 0 <= d < |rounds| && Attempts(rounds[d], id)
    decreases n
  {
    if NotYet(rounds, ahead, limit, n) {
      assert AsPredicted(rounds, ahead, id, limit, n);
      var rows := AheadAfter(Kept(rounds), ahead, limit, n);
      assert (rows + [id])[|rows|] == id;
      assert Attempts(rounds[n], id);
    } else {
      FirstReached(rounds, ahead, id, limit, n - 1);
    }
  }

  /**
   Drain after drain, with all leases expired in between: the rows ahead of a given due job go by
   the recursion, where in each drain those rows stay that cannot be parsed or whose finish is
   not recorded.  `server` is what the claims of the next drain return for the rows left over,
   in the same order, and for rows that have become due behind them.
   */
  method DrainRepeatedly(worker: Worker, limit: int, drains: nat, server: (nat, seq<DueJob>) -> seq<DueJob>,
                         ghost ahead: seq<string>, ghost id: string) returns (ghost rounds: seq<Round>)
    requires worker.leased == [] && AllDelivered(worker.claims) && InQueue(ahead, id, worker.due)
    requires Renews(server)
    modifies worker
    ensures |rounds| == drains && worker.attempted == old(worker.attempted) + Tried(rounds)
    ensures Successive(rounds, old(worker.finishes))
    ensures AllPredicted(rounds, ahead, id, BoundedLimit(limit))
    ensures (exists d :: 0 <= d < drains && Attempts(rounds[d], id))
        <==> (exists n :: 0 <= n < drains && ReachedIn(Kept(rounds), ahead, BoundedLimit(limit), n))
  {
    rounds := [];
    var d := 0;
    while d < drains
      invariant 0 <= d <= drains && |rounds| == d && worker.leased == [] && AllDelivered(worker.claims)
      invariant worker.attempted == old(worker.attempted) + Tried(rounds)
      invariant Course(rounds, old(worker.finishes), ahead, id, BoundedLimit(limit), worker.due, worker.finishes)
    {
      ghost var tried := Tried(rounds);
      ghost var round := DrainOnce(worker, limit, AheadAfter(Kept(rounds), ahead, BoundedLimit(limit), d), id);
      var left := worker.leased + worker.due;
      worker.ExpireLeases(server(d, left));
      CourseStep(rounds, round, old(worker.finishes), ahead, id, BoundedLimit(limit), left, worker.due);
      Associative(old(worker.attempted), tried, round.tried);
      rounds := rounds + [round];
      d := d + 1;
    }
    AttemptedIff(rounds, ahead, id, BoundedLimit(limit));
  }

  /** The claims of later drains return the same rows first. */
  ghost predicate Renews(server: (nat, seq<DueJob>) -> seq<DueJob>) {
    forall d: nat, rows :: Ids(rows) <= Ids(server(d, rows))
  }

  predicate AllPredicted(rounds: seq<Round>, ahead: seq<string>, id: string, limit: nat) {
    forall d :: 0 <= d < |rounds| ==> AsPredicted(rounds, ahead, id, limit, d)
  }

  /** As long as the job was not reached, it waits behind the rows that the recursion tells. */
  predicate Waits(rounds: seq<Round>, ahead: seq<string>, id: string, limit: nat, due: seq<DueJob>) {
    NotYet(rounds, ahead, limit, |rounds|) ==> InQueue(AheadAfter(Kept(rounds), ahead, limit, |rounds|), id, due)
  }

  lemma RoundAdded(rounds: seq<Round>, round: Round, fates: seq<FinishFate>)
    requires Successive(rounds, fates) && round.fates == LeftFates(rounds, fates)
    ensures Successive(rounds + [round], fates) && Tried(rounds + [round]) == Tried(rounds) + round.tried
    ensures LeftFates(rounds + [round], fates) == FatesAfter(Poison, round.tried, round.fates)
  {
    var all := rounds + [round];
    assert all[..|rounds|] == rounds;
    forall d | 0 <= d < |all|
      ensures all[d].fates == LeftFates(all[..d], fates)
    {
      if d < |rounds| {
        assert all[..d] == rounds[..d];
      }
    }
  }

  /** The drains so far, and what they have left. */
  predicate Course(rounds: seq<Round>, fates: seq<FinishFate>, ahead: seq<string>, id: string, limit: nat,
                   due: seq<DueJob>, left: seq<FinishFate>)
  {
    && Successive(rounds, fates) && left == LeftFates(rounds, fates)
    && AllPredicted(rounds, ahead, id, limit) && Waits(rounds, ahead, id, limit, due)
  }

  lemma CourseStep(rounds: seq<Round>, round: Round, fates: seq<FinishFate>, ahead: seq<string>, id: string, limit: nat,
                   left: seq<DueJob>, due: seq<DueJob>)
    requires Successive(rounds, fates) && AllPredicted(rounds, ahead, id, limit) && round.fates == LeftFates(rounds, fates)
    requires NotYet(rounds, ahead, limit, |rounds|) ==>
               MovesUp(round, AheadAfter(Kept(rounds), ahead, limit, |rounds|), id, limit, left)
    requires Ids(left) <= Ids(due)
    ensures Course(rounds + [round], fates, ahead, id, limit, due, FatesAfter(Poison, round.tried, round.fates))
    ensures Tried(rounds + [round]) == Tried(rounds) + round.tried
  {
    RoundAdded(rounds, round, fates);
    RoundStep(rounds, round, ahead, id, limit, left, due);
  }

  lemma RoundStep(rounds: seq<Round>, round: Round, ahead: seq<string>, id: string, limit: nat, left: seq<DueJob>, due: seq<DueJob>)
    requires AllPredicted(rounds, ahead, id, limit) && Ids(left) <= Ids(due)
    requires NotYet(rounds, ahead, limit, |rounds|) ==>
               MovesUp(round, AheadAfter(Kept(rounds), ahead, limit, |rounds|), id, limit, left)
    ensures AllPredicted(rounds + [round], ahead, id, limit) && Waits(rounds + [round], ahead, id, limit, due)
  {
    forall e | 0 <= e <= |rounds|
      ensures AsPredicted(rounds + [round], ahead, id, limit, e)
    {
      if e < |rounds| {
        OneMoreRound(rounds, round, ahead, id, limit, e);
        assert AsPredicted(rounds, ahead, id, limit, e);
      } else {
        LastRound(rounds, round, ahead, id, limit, left);
      }
    }
    NextWaits(rounds, round, ahead, id, limit, left, due);
  }

  lemma LastRound(rounds: seq<Round>, round: Round, ahead: seq<string>, id: string, limit: nat, left: seq<DueJob>)
    requires NotYet(rounds, ahead, limit, |rounds|) ==>
               MovesUp(round, AheadAfter(Kept(rounds), ahead, limit, |rounds|), id, limit, left)
    ensures AsPredicted(rounds + [round], ahead, id, limit, |rounds|)
  {
    OneMoreRound(rounds, round, ahead, id, limit, |rounds|);
    assert (rounds + [round])[|rounds|] == round;
  }

  lemma NextWaits(rounds: seq<Round>, round: Round, ahead: seq<string>, id: string, limit: nat, left: seq<DueJob>, due: seq<DueJob>)
    requires Ids(left) <= Ids(due)
    requires NotYet(rounds, ahead, limit, |rounds|) ==>
               MovesUp(round, AheadAfter(Kept(rounds), ahead, limit, |rounds|), id, limit, left)
    ensures Waits(rounds + [round], ahead, id, limit, due)
  {
    OneMoreRound(rounds, round, ahead, id, limit, |rounds|);
    var all, rows := rounds + [round], AheadAfter(Kept(rounds), ahead, limit, |rounds|);
    if NotYet(all, ahead, limit, |all|) {
      NotYetBefore(rounds, ahead, limit);
      LastAhead(rounds, round, ahead, limit);
      StillInQueue(AheadAfterDrain(KeptIn(round), rows, limit), id, left, due);
    }
  }

  lemma NotYetBefore(rounds: seq<Round>, ahead: seq<string>, limit: nat)
    requires |AheadAfter(Kept(rounds), ahead, limit, |rounds|)| >= limit
    ensures NotYet(rounds, ahead, limit, |rounds|)
  {
  }

  lemma LastAhead(rounds: seq<Round>, round: Round, ahead: seq<string>, limit: nat)
    requires |AheadAfter(Kept(rounds), ahead, limit, |rounds|)| >= limit
    ensures AheadAfter(Kept(rounds + [round]), ahead, limit, |rounds| + 1)
         == AheadAfterDrain(KeptIn(round), AheadAfter(Kept(rounds), ahead, limit, |rounds|), limit)
  {
    SameBefore(Kept(rounds + [round]), Kept(rounds), ahead, limit, |rounds|);
    KeptLast(rounds, round);
    AheadNext(Kept(rounds + [round]), ahead, limit, |rounds|);
  }

  lemma KeptLast(rounds: seq<Round>, round: Round)
    ensures Kept(rounds + [round])(|rounds|) == KeptIn(round)
  {
  }

  lemma AheadNext(stays: nat -> set<string>, ahead: seq<string>, limit: nat, n: nat)
    requires |AheadAfter(stays, ahead, limit, n)| >= limit
    ensures AheadAfter(stays, ahead, limit, n + 1) == AheadAfterDrain(stays(n), AheadAfter(stays, ahead, limit, n), limit)
  {
  }

  lemma StillInQueue(ahead: seq<string>, id: string, queue: seq<DueJob>, queue': seq<DueJob>)
    requires InQueue(ahead, id, queue) && Ids(queue) <= Ids(queue')
    ensures InQueue(ahead, id, queue')
  {
  }

  /** Every attempt of a parsable row without a recorded finish keeps it; with one attempt per drain the job behind is never reached. */
  lemma UnrecordedRowBlocks(row: DueJob, n: nat)
    requires !Poison(row)
    ensures KeptIn(Round([row], [Lost])) == {row.jobId}
    ensures !ReachedIn(_ => KeptIn(Round([row], [Lost])), [row.jobId], 1, n)
  {
    OneAttempt(Poison, [], [Lost], row);
    assert [] + Unrecorded(Poison, [row], [Lost]) == [row];
    IdsOfCons(row, []);
    assert [row] + [] == [row];
    AlwaysBlocked(row.jobId, _ => KeptIn(Round([row], [Lost])), n);
  }

  lemma AlwaysBlocked(row: string, stays: nat -> set<string>, n: nat)
    requires forall m: nat :: stays(m) == {row}
    ensures !ReachedIn(stays, [row], 1, n)
  {
    assert Staying({row}, [row]) == [row];
    forall id, m | id in {row} && Retried(stays, [row], 1, id, m)
      ensures id in stays(m)
    {
    }
    HopelessRowsBlock(stays, [row], 1, {row});
  }

  /**
   With one attempt per drain, a parsable row none of whose finishes reaches the server is
   attempted in every drain, and the job behind it in none.
   */
  method LostFinishBlocks(first: DueJob, second: DueJob, drains: nat) returns (worker: Worker)
    requires !Poison(first) && first.jobId != second.jobId
    ensures fresh(worker) && [first, second] <= worker.due
    ensures |worker.attempted| == drains && forall d :: 0 <= d < drains ==> worker.attempted[d] == first
  {
    worker := new Worker([first, second], [], [], [], [], [], [], []);
    var d := 0;
    while d < drains
      invariant fresh(worker) && 0 <= d <= drains && |worker.attempted| == d && forall e :: 0 <= e < d ==> worker.attempted[e] == first
      invariant [first, second] <= worker.due && worker.leased == [] && worker.finishes == [] && AllDelivered(worker.claims)
    {
      ghost var queue, before := worker.due, worker.attempted;
      ghost var outcomes: seq<Outcome>;
      var r: DrainResult;
      r, outcomes := worker.DrainCleanupJobs(1);
      ghost var last := worker.attempted[d..];
      assert worker.attempted == before + last;
      OneLost(queue, last, worker.due, first, second);
      worker.ExpireLeases(worker.leased + worker.due);
      d := d + 1;
    }
  }

  lemma OneLost(queue: seq<DueJob>, tried: seq<DueJob>, left: seq<DueJob>, first: DueJob, second: DueJob)
    requires [first, second] <= queue && queue <= tried + left && |tried| == 1
    ensures tried == [first] && Unrecorded(Poison, tried, []) == [first] && FatesAfter(Poison, tried, []) == []
    ensures [first, second] <= [first] + left
  {
    var all := tried + left;
    assert all[0] == queue[0] == [first, second][0] && all[1] == queue[1] == [first, second][1];
    OneAttempt(Poison, [], [], first);
  }
}
