/**
 The browser side of a credit adjustment: the durable pending record per target, the
 non-queued cross-tab lock, and the two operations that use them.  One browser has any number
 of tabs; a tab's own steps run under the lock of the target, everything else is a script of
 foreign events: other tabs, and whatever happens at the server, where any request may be delivered,
 also one of this tab's earlier ones.
 */
module CreditIntent {
  import opened Wrappers
  import opened CreditServer

  /** What storage holds under a target's key: a valid record, or text that is not one. */
  datatype Stored = Record(id: nat) | Garbage

  /** `sent` collects the ids this browser ever put into a POST, with their targets. */
  datatype World = World(server: Server, storage: map<nat, Stored>, locks: map<nat, nat>,
                         sent: set<(nat, nat)>, nextId: nat)

  datatype TabAction =
    | Acquire(target: nat)
    | Release(target: nat)
    | Persist(target: nat)
    | Post(target: nat)
    | Clear(target: nat)
    | Discard(target: nat)

  datatype Event = AtServer(event: CreditServer.Event) | TabStep(tab: nat, action: TabAction)

  predicate Holds(w: World, tab: nat, target: nat) {
    target in w.locks && w.locks[target] == tab
  }

  predicate HasRecord(w: World, target: nat) {
    target in w.storage && w.storage[target].Record?
  }

  /** A tab's step has an effect only under the lock, and a record goes only once it is settled. */
  function TabEffect(w: World, tab: nat, a: TabAction): World {
    match a
    case Acquire(t) => if t in w.locks then w else w.(locks := w.locks[t := tab])
    case Release(t) => if Holds(w, tab, t) then w.(locks := w.locks - {t}) else w
    case Persist(t) =>
      if Holds(w, tab, t) && t !in w.storage then
        w.(storage := w.storage[t := Record(w.nextId)], nextId := w.nextId + 1)
      else w
    case Post(t) =>
      if Holds(w, tab, t) && HasRecord(w, t) then w.(sent := w.sent + {(t, w.storage[t].id)}) else w
    case Clear(t) =>
      if Holds(w, tab, t) && HasRecord(w, t) && Settled(w.server, w.storage[t].id) then
        w.(storage := w.storage - {t})
      else w
    case Discard(t) =>
      if Holds(w, tab, t) && t in w.storage && w.storage[t].Garbage? then w.(storage := w.storage - {t}) else w
  }

  function Step(w: World, e: Event): World {
    match e
    case AtServer(e) => w.(server := Serve(w.server, e))
    case TabStep(tab, a) => TabEffect(w, tab, a)
  }

  function Run(w: World, es: seq<Event>): World
    decreases |es|
  {
    if es == [] then w else Run(Step(w, es[0]), es[1..])
  }

  // ---------------------------------------------------------------- the invariant

  /** Every id that was ever posted for a target is settled, or is the stored one. */
  ghost predicate Tracked(w: World) {
    forall p :: p in w.sent ==> Settled(w.server, p.1) || (p.0 in w.storage && w.storage[p.0] == Record(p.1))
  }

  ghost predicate Inv(init: Server, w: World) {
    ServerInv(init, w.server) && Tracked(w)
  }

  lemma StepKeepsInv(init: Server, w: World, e: Event)
    requires Inv(init, w)
    ensures Inv(init, Step(w, e))
  {
    if e.AtServer? {
      ServeKeepsInv(init, w.server, e.event);
      forall p | p in w.sent && Settled(w.server, p.1)
        ensures Settled(Step(w, e).server, p.1)
      {
        ServeKeepsSettled(w.server, e.event, p.1);
      }
    }
  }

  lemma {:induction false} RunKeepsInv(init: Server, w: World, es: seq<Event>)
    requires Inv(init, w)
    ensures Inv(init, Run(w, es))
    decreases |es|
  {
    if es != [] {
      StepKeepsInv(init, w, es[0]);
      RunKeepsInv(init, Step(w, es[0]), es[1..]);
    }
  }

  /** All unresolved POSTs for one target share one id, in every reachable world. */
  lemma UnresolvedPostsShareOneId(init: Server, w: World, es: seq<Event>, target: nat, a: nat, b: nat)
    requires Inv(init, w)
    requires (target, a) in Run(w, es).sent && !Settled(Run(w, es).server, a)
    requires (target, b) in Run(w, es).sent && !Settled(Run(w, es).server, b)
    ensures a == b
  {
    RunKeepsInv(init, w, es);
  }

  /**
   Once a record that was posted is gone, its receipt is terminal: whatever copy of that
   request is still on its way finds the receipt and changes nothing.
   */
  lemma {:induction false} ClearedIdIsHarmless(init: Server, w: World, es: seq<Event>, target: nat, id: nat, late: Delivery)
    requires Inv(init, w) && (target, id) in w.sent
    requires target !in w.storage || w.storage[target] != Record(id)
    requires late.request.id == id
    ensures Deliver(Run(w, es).server, late) == Run(w, es).server
    decreases |es|
  {
    if es == [] {
      SettledIsFrozen(w.server, late, id);
    } else {
      SettledStep(w, es[0], id);
      StepKeepsInv(init, w, es[0]);
      SentStep(w, es[0]);
      SettledRun(Step(w, es[0]), es[1..], id);
      SettledIsFrozen(Run(Step(w, es[0]), es[1..]).server, late, id);
    }
  }

  lemma SettledStep(w: World, e: Event, id: nat)
    requires Settled(w.server, id)
    ensures Settled(Step(w, e).server, id) && Step(w, e).server.receipts[id] == w.server.receipts[id]
  {
    if e.AtServer? {
      ServeKeepsSettled(w.server, e.event, id);
    }
  }

  lemma SettledRun(w: World, es: seq<Event>, id: nat)
    requires Settled(w.server, id)
    ensures Settled(Run(w, es).server, id) && Run(w, es).server.receipts[id] == w.server.receipts[id]
    decreases |es|
  {
    if es != [] {
      SettledStep(w, es[0], id);
      SettledRun(Step(w, es[0]), es[1..], id);
    }
  }

  lemma SentStep(w: World, e: Event)
    ensures w.sent <= Step(w, e).sent
  {
  }

  lemma {:induction false} SplitRun(w: World, a: seq<Event>, b: seq<Event>)
    ensures Run(w, a + b) == Run(Run(w, a), b)
    decreases |a|
  {
    if a == [] {
      assert a + b == b;
    } else {
      assert (a + b)[0] == a[0] && (a + b)[1..] == a[1..] + b;
      SplitRun(Step(w, a[0]), a[1..], b);
    }
  }

  /** Events of other tabs and of the network. */
  predicate Foreign(me: nat, es: seq<Event>) {
    forall i :: 0 <= i < |es| && es[i].TabStep? ==> es[i].tab != me
  }

  /** While I hold the lock of a target, nobody else touches its record. */
  lemma {:induction false} ForeignRunKeepsMine(me: nat, w: World, es: seq<Event>, t: nat)
    requires Foreign(me, es) && Holds(w, me, t)
    ensures Holds(Run(w, es), me, t)
    ensures t in Run(w, es).storage <==> t in w.storage
    ensures t in w.storage ==> Run(w, es).storage[t] == w.storage[t]
    ensures w.sent <= Run(w, es).sent
    decreases |es|
  {
    if es != [] {
      assert Foreign(me, es[1..]);
      ForeignRunKeepsMine(me, Step(w, es[0]), es[1..], t);
    }
  }

  // ---------------------------------------------------------------- the tab

  /** A POST: what happens before it arrives, whether it arrives, what the answer becomes. */
  datatype Transport = Delivered | RequestLost(aborted: bool) | AnswerLost(aborted: bool) | Garbled(ok: bool)

  datatype Fate = Fate(before: seq<Event>, transport: Transport, lotsOk: bool, after: seq<Event>)

  function Head(script: seq<Fate>): Fate {
    if script == [] then Fate([], Delivered, true, []) else script[0]
  }

  /** Nothing happens around the call, and its answer comes back. */
  predicate Calm(script: seq<Fate>) {
    Head(script).before == [] && Head(script).after == [] && Head(script).transport.Delivered?
  }

  predicate NoFaults(faults: seq<bool>) {
    forall i :: 0 <= i < |faults| ==> !faults[i]
  }

  /** The k-th storage access from now on throws. */
  predicate ThrowsAt(faults: seq<bool>, k: nat) {
    k < |faults| && faults[k]
  }

  /** How the name of an operation enters its error codes. */
  function Prefix(q: Request): string {
    if q.Apply? then "adjustment" else "recovery"
  }

  /** An exchange from the moment the request has left the tab. */
  predicate Exchanged(sent: World, q: Request, f: Fate, r: Result<Option<Reply>, string>, w': World) {
    var w, d := Run(sent, f.before), Delivery(q, f.lotsOk);
    && r == Received(q, f.transport, Handle(w.server, d).1)
    && w' == Run(if f.transport.RequestLost? then w else w.(server := Deliver(w.server, d)), f.after)
  }

  predicate DirectlyAnswered(s: Server, d: Delivery, r: Result<Option<Reply>, string>, s': Server) {
    s' == Deliver(s, d) && r == Ok(Some(Handle(s, d).1))
  }

  const STORAGE_UNAVAILABLE := "credit_adjustment_storage_unavailable"

  /** What the tab makes of the way a request and its answer went. */
  function Received(q: Request, t: Transport, reply: Reply): Result<Option<Reply>, string> {
    match t
    case Delivered => Ok(Some(reply))
    case Garbled(ok) => if ok then Ok(None) else Err(Prefix(q) + "_failed")
    case RequestLost(aborted) => Err(Prefix(q) + if aborted then "_aborted" else "_response_unconfirmed")
    case AnswerLost(aborted) => Err(Prefix(q) + if aborted then "_aborted" else "_response_unconfirmed")
  }

  /** `faults` tells for each storage access in turn whether it throws. */
  class Tab {
    const me: nat
    const admin: nat
    const lockManager: bool
    var world: World
    var script: seq<Fate>
    var faults: seq<bool>
    ghost const init: Server
    ghost const start: World
    ghost var trace: seq<Event>

    ghost predicate Valid()
      reads this
    {
      && Inv(init, start) && world == Run(start, trace)
      && forall i :: 0 <= i < |script| ==> Foreign(me, script[i].before) && Foreign(me, script[i].after)
    }

    constructor (me: nat, admin: nat, lockManager: bool, ghost init: Server, w: World, script: seq<Fate>, faults: seq<bool>)
      requires Inv(init, w)
      requires forall i :: 0 <= i < |script| ==> Foreign(me, script[i].before) && Foreign(me, script[i].after)
      ensures Valid() && world == w && this.me == me && this.admin == admin && trace == []
    {
      this.me, this.admin, this.lockManager := me, admin, lockManager;
      this.init, start, trace, world := init, w, [], w;
      this.script, this.faults := script, faults;
    }

    lemma Reachable()
      requires Valid()
      ensures Inv(init, world)
    {
      RunKeepsInv(init, start, trace);
    }

    method Happen(es: seq<Event>)
      requires Valid()
      modifies this`world, this`trace
      ensures Valid() && world == Run(old(world), es) && trace == old(trace) + es
    {
      SplitRun(start, trace, es);
      ghost var goal, whole := Run(world, es), trace + es;
      var i := 0;
      while i < |es|
        invariant 0 <= i <= |es| && Run(world, es[i..]) == goal
        invariant script == old(script)
      {
        assert es[i..][0] == es[i] && es[i..][1..] == es[i + 1..];
        world := Step(world, es[i]);
        i := i + 1;
      }
      trace := whole;
    }

    method Do(a: TabAction)
      requires Valid()
      modifies this`world, this`trace
      ensures Valid() && world == TabEffect(old(world), me, a) && old(trace) <= trace
    {
      assert [TabStep(me, a)][1..] == [];
      assert Run(world, [TabStep(me, a)]) == TabEffect(world, me, a);
      Happen([TabStep(me, a)]);
    }

    method StorageThrows() returns (throws: bool)
      modifies this`faults
      ensures throws == ThrowsAt(old(faults), 0)
      ensures faults == if old(faults) == [] then [] else old(faults)[1..]
      ensures NoFaults(old(faults)) ==> NoFaults(faults)
    {
      throws := faults != [] && faults[0];
      faults := if faults == [] then [] else faults[1..];
    }

    /** Reads the record of a target; text that is no record is removed first. */
    method ReadPending(t: nat) returns (r: Result<Option<nat>, string>)
      requires Valid() && Holds(world, me, t)
      modifies this
      ensures Valid() && old(trace) <= trace && Holds(world, me, t) && world.server == old(world).server
      ensures world.sent == old(world).sent
      ensures HasRecord(old(world), t) ==> world == old(world) && (r == Ok(Some(old(world).storage[t].id)) || r.Err?)
      ensures !HasRecord(old(world), t) ==> (r == Ok(None) && t !in world.storage) || r.Err?
      ensures world.locks == old(world).locks && world.nextId == old(world).nextId && script == old(script)
      ensures r.Err? ==> r.error == STORAGE_UNAVAILABLE && !NoFaults(old(faults))
      ensures r.Err? <==> ThrowsAt(old(faults), 0) || (t in old(world).storage && old(world).storage[t].Garbage? && ThrowsAt(old(faults), 1))
      ensures NoFaults(old(faults)) ==> NoFaults(faults)
    {
      var throws := StorageThrows();
      if throws {
        return Err(STORAGE_UNAVAILABLE);
      }
      if t !in world.storage {
        return Ok(None);
      }
      if world.storage[t].Record? {
        return Ok(Some(world.storage[t].id));
      }
      throws := StorageThrows();
      if throws {
        return Err(STORAGE_UNAVAILABLE);
      }
      Do(Discard(t));
      return Ok(None);
    }

    method PersistPending(t: nat) returns (r: Result<nat, string>)
      requires Valid() && Holds(world, me, t) && t !in world.storage
      modifies this
      ensures Valid() && old(trace) <= trace && Holds(world, me, t)
      ensures world.sent == old(world).sent && world.server == old(world).server
      ensures r.Ok? ==> t in world.storage && world.storage[t] == Record(r.value) && world == TabEffect(old(world), me, Persist(t))
      ensures r.Ok? ==> r.value == old(world).nextId
      ensures r.Err? ==> world == old(world)
      ensures script == old(script) && (r.Err? ==> r.error == STORAGE_UNAVAILABLE && !NoFaults(old(faults)))
      ensures NoFaults(old(faults)) ==> NoFaults(faults)
    {
      var throws := StorageThrows();
      if throws {
        return Err(STORAGE_UNAVAILABLE);
      }
      r := Ok(world.nextId);
      Do(Persist(t));
    }

    /** Removing is only ever asked for when the receipt is known to be terminal. */
    method ClearPending(t: nat) returns (ok: bool)
      requires Valid() && Holds(world, me, t) && HasRecord(world, t) && Settled(world.server, world.storage[t].id)
      modifies this
      ensures Valid() && old(trace) <= trace && Holds(world, me, t)
      ensures world == if ok then old(world).(storage := old(world).storage - {t}) else old(world)
      ensures NoFaults(old(faults)) ==> ok
    {
      var throws := StorageThrows();
      if throws {
        return false;
      }
      Do(Clear(t));
      ok := true;
    }

    /** What others do while the tab waits with its lock. */
    method Wait(t: nat, es: seq<Event>)
      requires Valid() && Holds(world, me, t) && t in world.storage && Foreign(me, es)
      modifies this`world, this`trace
      ensures Valid() && old(trace) <= trace && world == Run(old(world), es) && Holds(world, me, t)
      ensures t in world.storage && world.storage[t] == old(world).storage[t] && old(world).sent <= world.sent
      ensures forall id :: Settled(old(world).server, id) ==> Settled(world.server, id) && world.server.receipts[id] == old(world).server.receipts[id]
    {
      ForeignRunKeepsMine(me, world, es, t);
      ServerRun(world, es);
      Happen(es);
    }

    /** The request arrives at the server. */
    method Arrive(d: Delivery)
      requires Valid()
      modifies this`world, this`trace
      ensures Valid() && old(trace) <= trace && world == old(world).(server := Deliver(old(world).server, d))
    {
      assert [AtServer(Arrives(d))][1..] == [];
      assert Run(world, [AtServer(Arrives(d))]) == Step(world, AtServer(Arrives(d)));
      Happen([AtServer(Arrives(d))]);
    }

    /** The way of a request to the server and back; `reply` is what the server says, if it hears it. */
    method Carry(t: nat, request: Request, fate: Fate) returns (reply: Reply)
      requires Valid() && Holds(world, me, t) && HasRecord(world, t) && request.id == world.storage[t].id
      requires Foreign(me, fate.before) && Foreign(me, fate.after)
      modifies this`world, this`trace
      ensures Valid() && old(trace) <= trace && Holds(world, me, t)
      ensures (t, request.id) in world.sent && t in world.storage && world.storage[t] == Record(request.id)
      ensures Exchanged(TabEffect(old(world), me, Post(t)), request, fate, Received(request, fate.transport, reply), world)
      ensures reply == Handle(Run(TabEffect(old(world), me, Post(t)), fate.before).server, Delivery(request, fate.lotsOk)).1
      ensures fate.transport.Delivered? ==> BorneOut(world.server, request, reply)
    {
      Do(Post(t));
      Wait(t, fate.before);
      ghost var at := world.server;
      var d := Delivery(request, fate.lotsOk);
      reply := Handle(world.server, d).1;
      if !fate.transport.RequestLost? {
        Arrive(d);
      }
      Wait(t, fate.after);
      if fate.transport.Delivered? {
        AnswersAreTerminal(at, d, reply, world.server);
      }
    }

    /** Sends one request for the stored id and awaits the answer; never replays by itself. */
    method Exchange(t: nat, request: Request) returns (r: Result<Option<Reply>, string>)
      requires Valid() && Holds(world, me, t) && HasRecord(world, t) && request.id == world.storage[t].id
      modifies this
      ensures Valid() && old(trace) <= trace && Holds(world, me, t)
      ensures (t, request.id) in world.sent && t in world.storage && world.storage[t] == Record(request.id)
      ensures faults == old(faults) && script == if old(script) == [] then [] else old(script)[1..]
      ensures Exchanged(TabEffect(old(world), me, Post(t)), request, Head(old(script)), r, world)
      ensures Calm(old(script)) ==> DirectlyAnswered(old(world).server, Delivery(request, Head(old(script)).lotsOk), r, world.server)
      ensures r.Ok? && r.value.Some? ==> BorneOut(world.server, request, r.value.value)
    {
      var fate := Head(script);
      var reply := Carry(t, request, fate);
      script := if script == [] then [] else script[1..];
      match fate.transport
      case Delivered =>
        return Ok(Some(reply));
      case Garbled(ok) =>
        return if ok then Ok(None) else Err(Prefix(request) + "_failed");
      case RequestLost(aborted) =>
        return Err(Prefix(request) + if aborted then "_aborted" else "_response_unconfirmed");
      case AnswerLost(aborted) =>
        return Err(Prefix(request) + if aborted then "_aborted" else "_response_unconfirmed");
    }

    /** The target's lock is tried, never waited for, and given back on every path. */
    method WithLock(t: nat) returns (granted: bool)
      requires Valid()
      modifies this
      ensures Valid() && old(trace) <= trace
      ensures granted ==> t !in old(world).locks && Holds(world, me, t)
      ensures granted <==> lockManager && t !in old(world).locks
      ensures world == if granted then TabEffect(old(world), me, Acquire(t)) else old(world)
      ensures script == old(script) && faults == old(faults)
    {
      if !lockManager || t in world.locks {
        return false;
      }
      Do(Acquire(t));
      granted := true;
    }

    /**
     Submits an adjustment.  A success means that the posted id, the stored one if there was one,
     has a receipt of exactly this administrator, target, delta and reason; `request_aborted`
     means that its receipt is an aborted one; a failure keeps the record unless the id is settled.
     Undisturbed, the server's answer decides alone.
     */
    method SubmitCreditAdjustment(t: nat, delta: int, reason: string) returns (r: Result<Adjustment, string>)
      requires Valid()
      modifies this
      ensures Valid() && old(trace) <= trace
      ensures Holds(old(world), me, t) || !Holds(world, me, t)
      ensures !lockManager ==> r == Err("credit_adjustment_cross_tab_lock_unavailable") && world == old(world)
      ensures lockManager && t in old(world).locks ==> r == Err("credit_adjustment_already_in_progress") && world == old(world)
      ensures Calm(old(script)) && NoFaults(old(faults)) && lockManager && t !in old(world).locks ==>
                Submitted(old(world), world, t, Apply(admin, IdFor(old(world), t), t, delta, reason), Head(old(script)).lotsOk, r)
      ensures r.Ok? ==> t !in world.storage && exists id: nat ::
                RecordedFor(world.server, id, Apply(admin, id, t, delta, reason), r.value)
                && (t, id) in world.sent && (HasRecord(old(world), t) ==> id == old(world).storage[t].id)
      ensures r == Err("request_aborted") ==> t !in world.storage && exists id: nat ::
                AbortedIn(world.server, id) && (t, id) in world.sent && (HasRecord(old(world), t) ==> id == old(world).storage[t].id)
      ensures HasRecord(old(world), t) ==> KeptOrSettled(world, t, old(world).storage[t].id)
    {
      var granted := WithLock(t);
      if !granted {
        return Err(Refusal());
      }
      r := SubmitUnderLock(t, delta, reason);
      Do(Release(t));
    }

    function Refusal(): string
      reads this
    {
      if lockManager then "credit_adjustment_already_in_progress" else "credit_adjustment_cross_tab_lock_unavailable"
    }

    method SubmitUnderLock(t: nat, delta: int, reason: string) returns (r: Result<Adjustment, string>)
      requires Valid() && Holds(world, me, t)
      modifies this
      ensures Valid() && old(trace) <= trace && Holds(world, me, t)
      ensures Calm(old(script)) && NoFaults(old(faults)) ==>
                Submitted(old(world), world, t, Apply(admin, IdFor(old(world), t), t, delta, reason), Head(old(script)).lotsOk, r)
      ensures r.Ok? ==> t !in world.storage && exists id: nat ::
                RecordedFor(world.server, id, Apply(admin, id, t, delta, reason), r.value)
                && (t, id) in world.sent && (HasRecord(old(world), t) ==> id == old(world).storage[t].id)
      ensures r == Err("request_aborted") ==> t !in world.storage && exists id: nat ::
                AbortedIn(world.server, id) && (t, id) in world.sent && (HasRecord(old(world), t) ==> id == old(world).storage[t].id)
      ensures HasRecord(old(world), t) ==> KeptOrSettled(world, t, old(world).storage[t].id)
    {
      var posted := IdToPost(t);
      if posted.Err? {
        return Err(posted.error);
      }
      r := SendSubmission(t, Apply(admin, posted.value, t, delta, reason));
    }

    /** Sends a submission of the stored id and deals with its answer. */
    method SendSubmission(t: nat, request: Request) returns (r: Result<Adjustment, string>)
      requires Valid() && Holds(world, me, t) && request.Apply? && request.target == t
      requires t in world.storage && world.storage[t] == Record(request.id)
      modifies this
      ensures Valid() && old(trace) <= trace && Holds(world, me, t) && (t, request.id) in world.sent
      ensures Calm(old(script)) && NoFaults(old(faults)) ==> Submitted(old(world), world, t, request, Head(old(script)).lotsOk, r)
      ensures r.Ok? ==> t !in world.storage && RecordedFor(world.server, request.id, request, r.value)
      ensures r == Err("request_aborted") ==> t !in world.storage && AbortedIn(world.server, request.id)
      ensures KeptOrSettled(world, t, request.id)
    {
      var delivery := Exchange(t, request);
      if delivery.Err? {
        return Err(delivery.error);
      }
      if delivery.value.None? {
        return Err("invalid_credit_adjustment_ack");
      }
      r := FinishSubmission(t, request, delivery.value.value);
    }

    /** The stored id, or a new one that is stored first. */
    method IdToPost(t: nat) returns (r: Result<nat, string>)
      requires Valid() && Holds(world, me, t)
      modifies this
      ensures Valid() && old(trace) <= trace && Holds(world, me, t)
      ensures world.server == old(world).server && world.sent == old(world).sent && script == old(script)
      ensures r.Ok? ==> r.value == IdFor(old(world), t) && t in world.storage && world.storage[t] == Record(r.value)
      ensures r.Err? ==> r.error == STORAGE_UNAVAILABLE && (HasRecord(old(world), t) ==> world.storage == old(world).storage)
      ensures NoFaults(old(faults)) ==> r.Ok? && NoFaults(faults)
    {
      var existing := ReadPending(t);
      if existing.Err? {
        return Err(existing.error);
      }
      if existing.value.Some? {
        return Ok(existing.value.value);
      }
      r := PersistPending(t);
    }

    /** What the tab does with the server's answer to a submission. */
    method FinishSubmission(t: nat, request: Request, reply: Reply) returns (r: Result<Adjustment, string>)
      requires Valid() && Holds(world, me, t) && request.Apply? && request.target == t
      requires t in world.storage && world.storage[t] == Record(request.id)
      requires BorneOut(world.server, request, reply)
      modifies this
      ensures Valid() && old(trace) <= trace && Holds(world, me, t) && world.server == old(world).server && world.sent == old(world).sent
      ensures t !in world.storage || world.storage[t] == Record(request.id)
      ensures r.Ok? <==> reply.Adjusted? && t !in world.storage
      ensures r.Ok? ==> reply == Adjusted(r.value)
      ensures r == Err("request_aborted") <==> reply == Failure("request_aborted") && t !in world.storage
      ensures reply.Failure? && reply.code != "request_aborted" ==> r == Err(reply.code)
      ensures t !in world.storage ==> reply.Adjusted? || reply == Failure("request_aborted")
      ensures NoFaults(old(faults)) ==> Concluded(t, request.id, reply, r, world)
    {
      match reply
      case Failure(code) =>
        if code == "request_aborted" {
          var cleared := ClearPending(t);
          if !cleared {
            return Err(STORAGE_UNAVAILABLE);
          }
        }
        return Err(code);
      case Adjusted(result) =>
        if !ValidAdjustment(result) || result.requested != request.delta {
          return Err("invalid_credit_adjustment_ack");
        }
        var cleared := ClearPending(t);
        if !cleared {
          return Err(STORAGE_UNAVAILABLE);
        }
        return Ok(result);
      case _ =>
        return Err("invalid_credit_adjustment_ack");
    }

    /**
     Asks what became of the stored id.  Each success settles that very id: completed with the
     receipt's own result, or aborted, so that a late submission can never move the balance.
     */
    method RecoverCreditAdjustment(t: nat) returns (r: Result<Recovery, string>)
      requires Valid()
      modifies this
      ensures Valid() && old(trace) <= trace
      ensures Holds(old(world), me, t) || !Holds(world, me, t)
      ensures !lockManager ==> r == Err("credit_adjustment_cross_tab_lock_unavailable") && world == old(world)
      ensures lockManager && t in old(world).locks ==> r == Err("credit_adjustment_already_in_progress") && world == old(world)
      ensures Calm(old(script)) && NoFaults(old(faults)) && lockManager && t !in old(world).locks ==>
                Recovered(old(world), world, t, admin, Head(old(script)).lotsOk, r)
      ensures r == Ok(NothingPending) ==> !HasRecord(old(world), t) && world.sent == old(world).sent
      ensures r.Ok? && !r.value.NothingPending? ==>
                HasRecord(old(world), t) && t !in world.storage && Explains(world.server, old(world).storage[t].id, t, r.value)
      ensures HasRecord(old(world), t) ==> KeptOrSettled(world, t, old(world).storage[t].id)
    {
      var granted := WithLock(t);
      if !granted {
        return Err(Refusal());
      }
      r := RecoverUnderLock(t);
      Do(Release(t));
    }

    method RecoverUnderLock(t: nat) returns (r: Result<Recovery, string>)
      requires Valid() && Holds(world, me, t)
      modifies this
      ensures Valid() && old(trace) <= trace && Holds(world, me, t)
      ensures Calm(old(script)) && NoFaults(old(faults)) ==> Recovered(old(world), world, t, admin, Head(old(script)).lotsOk, r)
      ensures r == Ok(NothingPending) ==> !HasRecord(old(world), t) && world.sent == old(world).sent
      ensures r.Ok? && !r.value.NothingPending? ==>
                HasRecord(old(world), t) && t !in world.storage && Explains(world.server, old(world).storage[t].id, t, r.value)
      ensures HasRecord(old(world), t) ==> KeptOrSettled(world, t, old(world).storage[t].id)
    {
      var pending := ReadPending(t);
      if pending.Err? {
        return Err(pending.error);
      }
      if pending.value.None? {
        return Ok(NothingPending);
      }
      var id := pending.value.value;
      var delivery := Exchange(t, Recover(admin, id, t));
      if delivery.Err? {
        return Err(delivery.error);
      }
      if delivery.value.None? {
        return Err("invalid_credit_adjustment_recovery");
      }
      match delivery.value.value
      case Failure(code) =>
        return Err(code);
      case Found(result) =>
        if !ValidAdjustment(result) {
          return Err("invalid_credit_adjustment_recovery");
        }
        var cleared := ClearPending(t);
        return if cleared then Ok(Completed(result)) else Err(STORAGE_UNAVAILABLE);
      case NotFoundAborted =>
        var cleared := ClearPending(t);
        return if cleared then Ok(Aborted) else Err(STORAGE_UNAVAILABLE);
      case _ =>
        return Err("invalid_credit_adjustment_recovery");
    }
  }

  /** The id that a submission posts. */
  function IdFor(w: World, t: nat): nat {
    if HasRecord(w, t) then w.storage[t].id else w.nextId
  }

  predicate AbortedIn(s: Server, id: nat) {
    id in s.receipts && s.receipts[id].AbortedReceipt?
  }

  /** The receipt of id is this very request's, and stands behind the result. */
  predicate RecordedFor(s: Server, id: nat, q: Request, result: Adjustment)
    requires q.Apply?
  {
    && RecordedAs(s, id, q.target, result)
    && s.receipts[id].admin == q.admin && s.receipts[id].delta == q.delta && s.receipts[id].reason == q.reason
  }

  /** What the receipts of a server say if it has given this answer. */
  predicate BorneOut(now: Server, q: Request, r: Reply) {
    && (r == Failure("request_aborted") || r.NotFoundAborted? ==> Settled(now, q.id) && now.receipts[q.id].AbortedReceipt?)
    && (r.Adjusted? || r.Found? ==> RecordedAs(now, q.id, q.target, r.result) && ValidAdjustment(r.result))
    && (r.Adjusted? && q.Apply? ==> RecordedFor(now, q.id, q, r.result) && r.result.requested == q.delta)
    && (q.Apply? ==> r.Adjusted? || r.Failure?)
    && (q.Recover? ==> !r.Adjusted?)
  }

  /** An undisturbed submission: one delivery, whose answer is returned; the record goes if that settles the id. */
  predicate Submitted(w: World, w': World, t: nat, q: Request, lotsOk: bool, r: Result<Adjustment, string>)
    requires q.Apply?
  {
    var (server, reply) := Handle(w.server, Delivery(q, lotsOk));
    w'.server == server && Concluded(t, q.id, reply, r, w')
  }

  /** The answer is returned, and the record goes exactly if the answer settles its id. */
  predicate Concluded(t: nat, id: nat, reply: Reply, r: Result<Adjustment, string>, w: World) {
    match reply
    case Adjusted(result) => r == Ok(result) && t !in w.storage
    case Failure(code) =>
      r == Err(code) && if code == "request_aborted" then t !in w.storage else t in w.storage && w.storage[t] == Record(id)
    case _ => false
  }

  /** An undisturbed recovery: nothing to do without a record; otherwise what the server says of the stored id. */
  predicate Recovered(w: World, w': World, t: nat, admin: nat, lotsOk: bool, r: Result<Recovery, string>) {
    if !HasRecord(w, t) then r == Ok(NothingPending) && w'.server == w.server && t !in w'.storage
    else
      var (server, reply) := Handle(w.server, Delivery(Recover(admin, w.storage[t].id, t), lotsOk));
      && w'.server == server
      && match reply
         case Found(result) => r == Ok(Completed(result)) && t !in w'.storage
         case NotFoundAborted => r == Ok(Aborted) && t !in w'.storage
         case Failure(code) => r == Err(code) && t in w'.storage && w'.storage[t] == w.storage[t]
         case _ => false
  }

  /** What a recovery reports about id is what the receipt of id says. */
  predicate Explains(s: Server, id: nat, t: nat, r: Recovery) {
    match r
    case NothingPending => false
    case Completed(result) => RecordedAs(s, id, t, result)
    case Aborted => id in s.receipts && s.receipts[id].AbortedReceipt?
  }

  ghost predicate KeptOrSettled(w: World, t: nat, id: nat) {
    (t in w.storage && w.storage[t] == Record(id)) || Settled(w.server, id)
  }

  /** The answer r was computed by a server s that has since become `now`. */
  ghost predicate AnswerIn(s: Server, d: Delivery, r: Reply, now: Server) {
    && r == Handle(s, d).1
    && forall id :: Settled(Deliver(s, d), id) ==> Settled(now, id) && now.receipts[id] == Deliver(s, d).receipts[id]
  }

  lemma ServerRun(w: World, es: seq<Event>)
    ensures forall id :: Settled(w.server, id) ==>
              Settled(Run(w, es).server, id) && Run(w, es).server.receipts[id] == w.server.receipts[id]
  {
    forall id | Settled(w.server, id)
      ensures Settled(Run(w, es).server, id) && Run(w, es).server.receipts[id] == w.server.receipts[id]
    {
      SettledRun(w, es, id);
    }
  }

  /** The completed receipt of id stands behind the result. */
  predicate RecordedAs(s: Server, id: nat, t: nat, result: Adjustment) {
    && id in s.receipts && s.receipts[id].CompletedReceipt?
    && s.receipts[id].target == t
    && s.receipts[id].result.(idempotent := result.idempotent) == result
  }

  datatype Recovery = NothingPending | Completed(result: Adjustment) | Aborted

  /** Every answer on which a tab drops its record proves that the id is settled. */
  lemma AnswersAreTerminal(s: Server, d: Delivery, r: Reply, now: Server)
    requires AnswerIn(s, d, r, now)
    ensures BorneOut(now, d.request, r)
  {
    var s' := Deliver(s, d);
    assert r == Failure("request_aborted") || r.Adjusted? || r.Found? || r.NotFoundAborted? ==> Settled(s', d.request.id);
  }
}
