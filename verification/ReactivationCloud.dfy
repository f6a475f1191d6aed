/**
 The remote services as one worker sees them.  A script decides, for every call the worker
 makes, which events of everybody else happen before and after it and whether the request or
 its answer is lost.  The script is an arbitrary sequence, so a contract proved for a worker
 method holds for every interleaving; where the script is exhausted, nothing interferes.
 */
module ReactivationCloud {
  import opened Wrappers
  import opened ReactivationWorld
  import opened ReactivationSafety
  import opened ReactivationTheorems

  const DEADLINE := "reactivation_deadline_exceeded"
  const READ := "account.reactivation.auth.read"
  const MISSING := "auth_user_missing"

  /** A lost request was never executed; a lost answer was.  Either may end at the deadline. */
  datatype Transport = Delivered | RequestLost(timedOut: bool) | AnswerLost(timedOut: bool)

  datatype Fate = Fate(before: seq<Event>, transport: Transport, after: seq<Event>)

  function Head(script: seq<Fate>): Fate {
    if script == [] then Fate([], Delivered, []) else script[0]
  }

  function Rest(script: seq<Fate>): seq<Fate> {
    if script == [] then [] else script[1..]
  }

  function TransportError(t: Transport, operation: string): string
    requires !t.Delivered?
  {
    if t.timedOut then DEADLINE else operation
  }

  /** An address update the worker sent, with what its directly preceding call had read. */
  datatype Send = Send(email: Email, seen: Option<User>)

  /** A finish call of the worker: with the failure it reports, or with none for success. */
  datatype Finishing = OfJob(lease: Lease, failure: Option<string>) | OfRepair(repair: RepairLease, failure: Option<string>)

  class Cloud {
    var world: World
    var script: seq<Fate>
    ghost const start: World
    ghost var trace: seq<Event>
    ghost var lastRead: Option<User> // the user, if the latest call was a read that found one
    ghost var sends: seq<Send>
    ghost var finishes: seq<Finishing>

    /** The world is what the recorded events made of a world that satisfies the invariant. */
    ghost predicate Valid()
      reads this
    {
      Inv(start) && world == Run(start, trace)
    }

    constructor (w: World, script: seq<Fate>)
      requires Inv(w)
      ensures Valid() && world == w && this.script == script && trace == [] && sends == [] && finishes == []
    {
      world, start, trace, lastRead, sends, finishes := w, w, [], None, [], [];
      this.script := script;
    }

    lemma Reachable()
      requires Valid()
      ensures Inv(world)
    {
      RunKeepsInv(start, trace);
    }

    method Happen(es: seq<Event>)
      requires Valid()
      modifies this`world, this`trace
      ensures Valid() && world == Run(old(world), es) && trace == old(trace) + es
    {
      SplitRun(start, trace, es);
      ghost var goal := Run(world, es);
      ghost var whole := trace + es;
      var i := 0;
      while i < |es|
        invariant 0 <= i <= |es|
        invariant Run(world, es[i..]) == goal
      {
        assert es[i..][0] == es[i] && es[i..][1..] == es[i + 1..];
        world := Step(world, es[i]);
        i := i + 1;
      }
      trace := whole;
    }

    /** Everything that happens until the request arrives. */
    method Open() returns (t: Transport)
      requires Valid()
      modifies this`world, this`trace
      ensures Valid() && world == Run(old(world), Head(script).before) && t == Head(script).transport
      ensures trace == old(trace) + Head(script).before
    {
      Happen(Head(script).before);
      t := Head(script).transport;
    }

    /** Everything that happens until the worker continues. */
    method Close()
      requires Valid()
      modifies this`world, this`trace, this`script
      ensures Valid() && world == Run(old(world), Head(old(script)).after) && script == Rest(old(script))
      ensures trace == old(trace) + Head(old(script)).after
    {
      Happen(Head(script).after);
      script := Rest(script);
    }

    method GetUser() returns (r: Result<Option<User>, string>)
      requires Valid()
      modifies this
      ensures Valid() && script == Rest(old(script)) && sends == old(sends) && finishes == old(finishes) &&
              lastRead == (if r.Ok? then r.value else None) && old(trace) <= trace
      ensures var f, at := Head(old(script)), Run(old(world), Head(old(script)).before);
              && world == Run(at, f.after)
              && r == if f.transport.Delivered? then Ok(at.user)
                      else Err(TransportError(f.transport, "account.reactivation.auth.read"))
    {
      var t := Open();
      r := if t.Delivered? then Ok(world.user) else Err(TransportError(t, "account.reactivation.auth.read"));
      Close();
      lastRead := if r.Ok? then r.value else None;
    }

    /** The admin address update; the answer carries the updated user. */
    method UpdateUser(email: Email) returns (r: Result<Option<User>, string>)
      requires Valid()
      modifies this
      ensures Valid() && script == Rest(old(script)) && finishes == old(finishes) && sends == old(sends) + [Send(email, old(lastRead))] && old(trace) <= trace
      ensures var f, at := Head(old(script)), Run(old(world), Head(old(script)).before);
              && world == Run(if f.transport.RequestLost? then at else AuthUpdate(at, email), f.after)
              && (r.Ok? ==> f.transport.Delivered? && UpdateAllowed(at, email) && r.value == AuthUpdate(at, email).user)
              && (f.transport.Delivered? && UpdateAllowed(at, email) ==> r.Ok?)
    {
      var t := Open();
      var allowed := UpdateAllowed(world, email);
      if !t.RequestLost? {
        Happen([UpdateEmail(email)]);
        OneEvent(old(world), UpdateEmail(email));
      }
      r := if !t.Delivered? then Err(TransportError(t, "auth_update"))
           else if allowed then Ok(world.user)
           else Err("auth_update_rejected");
      Close();
      sends, lastRead := sends + [Send(email, lastRead)], None;
    }

    /** The arm transaction; the answer is the action that was written into the fence. */
    method ArmFence(l: Lease) returns (r: Result<Action, string>)
      requires Valid()
      modifies this
      ensures Valid() && script == Rest(old(script)) && sends == old(sends) && finishes == old(finishes) && lastRead == None && old(trace) <= trace
      ensures var f, at := Head(old(script)), Run(old(world), Head(old(script)).before);
              && world == Run(if f.transport.RequestLost? then at else Arm(at, l), f.after)
              && (f.transport.Delivered? && ArmAllowed(at, l) ==> r == Ok(ActionOf(at.jobs[l.requestId])))
              && (r.Ok? ==> f.transport.Delivered? && ArmAllowed(at, l))
    {
      var t := Open();
      var allowed := ArmAllowed(world, l);
      var action := if allowed then ActionOf(world.jobs[l.requestId]) else Activate;
      if !t.RequestLost? {
        Happen([ArmJob(l)]);
        OneEvent(old(world), ArmJob(l));
      }
      r := if !t.Delivered? then Err(TransportError(t, "account.reactivation.auth.arm_fence"))
           else if allowed then Ok(action)
           else Err("account.reactivation.auth.arm_fence");
      Close();
      lastRead := None;
    }

    method ClaimTransaction(want: Option<nat>) returns (answer: Option<Lease>)
      requires Valid()
      modifies this`world, this`trace
      ensures Valid() && old(trace) <= trace && Claims(old(world), want, world, answer)
    {
      answer := None;
      if q :| q in world.jobs && Due(world, q) && (Wanted(want, q) || !Claimable(world, q)) {
        answer := Claim(world, q).1;
        OneEvent(world, ClaimJob(q));
        Happen([ClaimJob(q)]);
      }
    }

    /**
     Quarantines an exhausted due job and leases a due job that is wanted.  An account has at most
     one live job, so the order in which jobs are due does not arise.
     */
    method ClaimReactivation(want: Option<nat>) returns (r: Result<Option<Lease>, string>)
      requires Valid()
      modifies this
      ensures Valid() && script == Rest(old(script)) && sends == old(sends) && finishes == old(finishes) && lastRead == None && old(trace) + Head(old(script)).before <= trace
      ensures var f, at := Head(old(script)), Run(old(world), Head(old(script)).before);
              if f.transport.RequestLost? then r.Err? && world == Run(at, f.after)
              else exists w: World, answer: Option<Lease> ::
                Claims(at, want, w, answer) && world == Run(w, f.after) && (if f.transport.Delivered? then r == Ok(answer) else r.Err?)
      ensures r.Ok? && r.value.Some? ==>
                var l, at := r.value.value, Run(old(world), Head(old(script)).before);
                && (want.Some? ==> l.requestId == want.value)
                && Claim(at, l.requestId).1 == Some(l)
                && world == Run(Claim(at, l.requestId).0, Head(old(script)).after)
      ensures old(script) == [] ==>
                forall q :: Claimable(old(world), q) && (want.Some? ==> q == want.value) ==>
                  r == Ok(Claim(old(world), q).1) && world == Claim(old(world), q).0
    {
      var t := Open();
      ghost var at := world;
      Reachable();
      var answer: Option<Lease> := None;
      if !t.RequestLost? {
        answer := ClaimTransaction(want);
        ClaimsFacts(at, want, world, answer);
      }
      r := if t.Delivered? then Ok(answer) else Err(TransportError(t, "account.reactivation.claim"));
      Close();
      lastRead := None;
    }

    /** The finish transaction; the answer is the status it reached. */
    method FinishReactivation(l: Lease, failure: Option<string>) returns (r: Result<Status, string>)
      requires Valid()
      modifies this
      ensures Valid() && script == Rest(old(script)) && sends == old(sends) && lastRead == None
      ensures finishes == old(finishes) + [OfJob(l, failure)]
      ensures var f := Head(old(script));
              trace == old(trace) + f.before + (if f.transport.RequestLost? then [] else [FinishJob(l, failure.None?)]) + f.after
      ensures var f, at := Head(old(script)), Run(old(world), Head(old(script)).before);
              && world == Run(if f.transport.RequestLost? then at else Finish(at, l, failure.None?), f.after)
              && (r.Ok? ==> f.transport.Delivered? && FinishAllowed(at, l, failure.None?)
                            && r.value == Finish(at, l, failure.None?).jobs[l.requestId].status)
              && (f.transport.Delivered? && FinishAllowed(at, l, failure.None?) ==> r.Ok?)
    {
      var t := Open();
      var allowed := FinishAllowed(world, l, failure.None?);
      if !t.RequestLost? {
        Happen([FinishJob(l, failure.None?)]);
        OneEvent(old(world), FinishJob(l, failure.None?));
      }
      r := if !t.Delivered? then Err(TransportError(t, "account.reactivation.finish"))
           else if allowed then Ok(world.jobs[l.requestId].status)
           else Err("account.reactivation.finish");
      Close();
      lastRead, finishes := None, finishes + [OfJob(l, failure)];
    }

    method ReadStatus(requestId: nat, adminId: nat) returns (r: Result<Status, string>)
      requires Valid()
      modifies this
      ensures Valid() && script == Rest(old(script)) && sends == old(sends) && finishes == old(finishes) && lastRead == None && old(trace) <= trace
      ensures var f, at := Head(old(script)), Run(old(world), Head(old(script)).before);
              && world == Run(at, f.after)
              && (r.Ok? ==> f.transport.Delivered? && requestId in at.jobs && at.jobs[requestId].adminId == adminId
                            && r.value == at.jobs[requestId].status)
              && (f.transport.Delivered? && requestId in at.jobs && at.jobs[requestId].adminId == adminId ==> r.Ok?)
    {
      var t := Open();
      r := if !t.Delivered? then Err(TransportError(t, "account.reactivation.status"))
           else if requestId in world.jobs && world.jobs[requestId].adminId == adminId then
             Ok(world.jobs[requestId].status)
           else Err("account.reactivation.status");
      Close();
      lastRead := None;
    }

    /** Quarantines every exhausted due repair, as the claim transaction does first. */
    method QuarantineExhausted()
      requires Valid()
      modifies this`world, this`trace
      ensures Valid() && world == QuarantineRepairs(old(world)) && old(trace) <= trace
    {
      ghost var w := world;
      QuarantineNone(w);
      var left := set id | id in world.repairs && ExhaustedRepair(world, id);
      while left != {}
        invariant Valid() && old(trace) <= trace && left <= w.repairs.Keys && script == old(script)
        invariant forall id :: id in left ==> ExhaustedRepair(w, id)
        invariant world == QuarantinedBut(w, left)
        decreases |left|
      {
        var id :| id in left;
        QuarantineOne(w, left, id);
        OneEvent(world, ClaimLegacy(id));
        Happen([ClaimLegacy(id)]);
        left := left - {id};
      }
    }

    method FirstDueRepair() returns (first: Option<nat>)
      ensures first.None? ==> forall id :: !RepairDue(world, id)
      ensures first.Some? ==> FirstRepair(world, first.value)
    {
      first := None;
      var left := world.repairs.Keys;
      while left != {}
        invariant left <= world.repairs.Keys
        invariant first.None? ==> forall id :: id in world.repairs && id !in left ==> !RepairDue(world, id)
        invariant first.Some? ==> RepairDue(world, first.value)
        invariant first.Some? ==> forall id :: id in world.repairs && id !in left && RepairDue(world, id) ==>
                                      world.repairs[first.value].nextAttempt <= world.repairs[id].nextAttempt
        decreases |left|
      {
        var id :| id in left;
        if RepairDue(world, id) && (first.None? || world.repairs[id].nextAttempt < world.repairs[first.value].nextAttempt) {
          first := Some(id);
        }
        left := left - {id};
      }
    }

    /** Claims the repair that has been due longest; rows that are due since the same second in any order. */
    method ClaimLegacyRepair() returns (r: Result<RepairClaim, string>)
      requires Valid()
      modifies this
      ensures Valid() && script == Rest(old(script)) && sends == old(sends) && finishes == old(finishes) && lastRead == None && old(trace) + Head(old(script)).before <= trace
      ensures var f, at := Head(old(script)), Run(old(world), Head(old(script)).before);
              if f.transport.RequestLost? then r.Err? && world == Run(at, f.after)
              else exists w: World, answer: RepairClaim ::
                ClaimsRepair(at, w, answer) && world == Run(w, f.after) && (if f.transport.Delivered? then r == Ok(answer) else r.Err?)
    {
      var t := Open();
      ghost var at := world;
      var answer := NoRepair;
      if !t.RequestLost? {
        QuarantineExhausted();
        var first := FirstDueRepair();
        if first.Some? {
          answer := ClaimRepair(world, first.value).1;
          OneEvent(world, ClaimLegacy(first.value));
          Happen([ClaimLegacy(first.value)]);
        }
        assert ClaimsRepair(at, world, answer);
      }
      r := if t.Delivered? then Ok(answer) else Err(TransportError(t, "account.reactivation.legacy_repair.claim"));
      Close();
      lastRead := None;
    }

    method ArmRepairFence(l: RepairLease) returns (ok: bool)
      requires Valid()
      modifies this
      ensures Valid() && script == Rest(old(script)) && sends == old(sends) && finishes == old(finishes) && lastRead == None && old(trace) <= trace
      ensures var f, at := Head(old(script)), Run(old(world), Head(old(script)).before);
              && world == Run(if f.transport.RequestLost? then at else ArmRepair(at, l), f.after)
              && ok == (f.transport.Delivered? && ArmRepairAllowed(at, l))
    {
      var t := Open();
      ok := t.Delivered? && ArmRepairAllowed(world, l);
      if !t.RequestLost? {
        OneEvent(world, ArmLegacy(l));
        Happen([ArmLegacy(l)]);
      }
      Close();
      lastRead := None;
    }

    method FinishLegacyRepair(l: RepairLease, failure: Option<string>) returns (r: Result<RepairFinish, string>)
      requires Valid()
      modifies this
      ensures Valid() && script == Rest(old(script)) && sends == old(sends) && lastRead == None
      ensures finishes == old(finishes) + [OfRepair(l, failure)]
      ensures var f := Head(old(script));
              trace == old(trace) + f.before + (if f.transport.RequestLost? then [] else [FinishLegacy(l, failure.None?)]) + f.after
      ensures var f, at := Head(old(script)), Run(old(world), Head(old(script)).before);
              && world == Run(if f.transport.RequestLost? then at else FinishRepair(at, l, failure.None?), f.after)
              && (r.Ok? ==> f.transport.Delivered? && r.value == FinishRepairResult(at, l, failure.None?) && !r.value.RepairRejected?)
              && (f.transport.Delivered? ==>
                    if FinishRepairResult(at, l, failure.None?).RepairRejected?
                    then r == Err("account.reactivation.legacy_repair.finish") else r.Ok?)
    {
      var t := Open();
      var outcome := FinishRepairResult(world, l, failure.None?);
      if !t.RequestLost? {
        OneEvent(world, FinishLegacy(l, failure.None?));
        Happen([FinishLegacy(l, failure.None?)]);
      }
      r := if !t.Delivered? then Err(TransportError(t, "account.reactivation.legacy_repair.finish"))
           else if outcome.RepairRejected? then Err("account.reactivation.legacy_repair.finish")
           else Ok(outcome);
      Close();
      lastRead, finishes := None, finishes + [OfRepair(l, failure)];
    }

    method ReadRepairStatus(id: nat) returns (r: Result<Status, string>)
      requires Valid()
      modifies this
      ensures Valid() && script == Rest(old(script)) && sends == old(sends) && finishes == old(finishes) && lastRead == None && old(trace) <= trace
      ensures var f, at := Head(old(script)), Run(old(world), Head(old(script)).before);
              && world == Run(at, f.after)
              && (r.Ok? ==> f.transport.Delivered? && id in at.repairs && r.value == at.repairs[id].status)
    {
      var t := Open();
      r := if !t.Delivered? then Err(TransportError(t, "account.reactivation.legacy_repair.status"))
           else if id in world.repairs then Ok(world.repairs[id].status)
           else Err("account.reactivation.legacy_repair.status");
      Close();
      lastRead := None;
    }
  }

  predicate Wanted(want: Option<nat>, q: nat) {
    want.None? || want == Some(q)
  }

  /** The whole effect and answer of one claim transaction. */
  ghost predicate Claims(w: World, want: Option<nat>, w': World, answer: Option<Lease>) {
    || (exists q :: Due(w, q) && (Wanted(want, q) || !Claimable(w, q)) && Claim(w, q) == (w', answer))
    || ((forall q :: Due(w, q) ==> !Wanted(want, q) && Claimable(w, q)) && w' == w && answer == None)
  }

  /** An account never has two due jobs, so a claim has one possible effect and answer. */
  lemma ClaimsIsDetermined(w: World, want: Option<nat>, w1: World, a1: Option<Lease>, w2: World, a2: Option<Lease>)
    requires Inv(w) && Claims(w, want, w1, a1) && Claims(w, want, w2, a2)
    ensures w1 == w2 && a1 == a2
  {
  }

  lemma ClaimsFacts(w: World, want: Option<nat>, w': World, answer: Option<Lease>)
    requires Inv(w) && Claims(w, want, w', answer)
    ensures answer.Some? ==> Wanted(want, answer.value.requestId) && Claim(w, answer.value.requestId) == (w', answer)
    ensures forall q :: Claimable(w, q) && Wanted(want, q) ==> Claim(w, q) == (w', answer)
  {
  }

  predicate ExhaustedRepair(w: World, id: nat) {
    RepairDue(w, id) && (w.repairs[id].version >= MAX_INT4 || w.repairs[id].attempts >= MAX_INT4)
  }

  function QuarantinedBut(w: World, left: set<nat>): World {
    w.(repairs := map id | id in w.repairs ::
         if ExhaustedRepair(w, id) && id !in left
         then w.repairs[id].(status := Pending, nextAttempt := QUARANTINE_AT) else w.repairs[id])
  }

  function QuarantineRepairs(w: World): World {
    QuarantinedBut(w, {})
  }

  lemma QuarantineNone(w: World)
    ensures QuarantinedBut(w, set id | id in w.repairs && ExhaustedRepair(w, id)) == w
  {
    assert QuarantinedBut(w, set id | id in w.repairs && ExhaustedRepair(w, id)).repairs == w.repairs;
  }

  lemma QuarantineOne(w: World, left: set<nat>, id: nat)
    requires id in left && ExhaustedRepair(w, id)
    ensures Step(QuarantinedBut(w, left), ClaimLegacy(id)) == QuarantinedBut(w, left - {id})
  {
    var w1 := QuarantinedBut(w, left);
    assert w1.repairs[id] == w.repairs[id] && w1.now == w.now;
    assert Step(w1, ClaimLegacy(id)).repairs == QuarantinedBut(w, left - {id}).repairs;
  }

  ghost predicate FirstRepair(w: World, id: nat) {
    RepairDue(w, id) && forall k :: RepairDue(w, k) ==> w.repairs[id].nextAttempt <= w.repairs[k].nextAttempt
  }

  /** The whole effect and answer of one claim of a legacy repair. */
  ghost predicate ClaimsRepair(w: World, w': World, answer: RepairClaim) {
    var q := QuarantineRepairs(w);
    || (exists id :: FirstRepair(q, id) && ClaimRepair(q, id) == (w', answer))
    || ((forall id :: !RepairDue(q, id)) && w' == q && answer == NoRepair)
  }

  lemma OneEvent(w: World, e: Event)
    ensures Run(w, [e]) == Step(w, e)
  {
    assert [e][1..] == [];
  }
}
