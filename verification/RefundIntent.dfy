/**
 The durable intent of an administrator's refund, in one browser with any number of tabs.  The
 record is written before the first request, keeps its request id until that very request is
 acknowledged, and is cleared only by the attempt id of its acknowledgement.
 */
module RefundIntent {
  import opened Wrappers

  const MAX_SAFE: int := 9007199254740991

  datatype Input = Input(order: nat, user: nat, qty: int, requestedAt: string, reason: string)

  datatype Pending = Pending(input: Input, requestId: nat, attemptId: Option<nat>)

  /** What storage holds under an order's key: a valid record, or text that is not one. */
  datatype Stored = Record(pending: Pending) | Garbage

  /** `attemptId` is None when it is missing or not a UUID. */
  datatype RawAck = RawAck(ok: bool, outcome: string, requestId: nat, attemptId: Option<nat>, qty: int, amount: int,
                           rateBps: int, idempotent: bool)

  predicate ValidInput(i: Input) {
    0 < i.qty <= MAX_SAFE && 5 <= |i.reason| <= 500
  }

  predicate ValidAck(a: RawAck, requestId: nat, qty: int) {
    && a.ok && a.outcome in {"prepared", "no_op"} && a.requestId == requestId && a.attemptId.Some? && a.qty == qty
    && 0 < a.amount <= MAX_SAFE && a.rateBps in {9000, 10000} && (a.outcome == "no_op" ==> a.idempotent)
  }

  // ---------------------------------------------------------------- the browser

  datatype Post = Post(requestId: nat, input: Input)

  /** `sent` are all requests ever posted; `acknowledged` the ids whose acknowledgement was stored. */
  datatype World = World(storage: map<nat, Stored>, locks: map<nat, nat>, sent: set<Post>, acknowledged: set<nat>, nextId: nat)

  datatype Action =
    | Acquire(order: nat)
    | Release(order: nat)
    | Begin(input: Input)
    | Send(order: nat)
    | Advance(order: nat, ack: RawAck)
    | Clear(order: nat, attemptId: nat)
    | Discard(order: nat)

  datatype Event = Event(tab: nat, action: Action)

  predicate Holds(w: World, tab: nat, order: nat) {
    order in w.locks && w.locks[order] == tab
  }

  predicate Has(w: World, order: nat, p: Pending) {
    order in w.storage && w.storage[order] == Record(p)
  }

  predicate Unacknowledged(w: World, order: nat) {
    order in w.storage && w.storage[order].Record? && w.storage[order].pending.attemptId.None?
  }

  /**
   One storage access, lock step or request of a tab.  Clearing and discarding need no lock, but
   each reads the record it removes in the same synchronous step.
   */
  function Effect(w: World, tab: nat, a: Action): World {
    match a
    case Acquire(o) => if o in w.locks then w else w.(locks := w.locks[o := tab])
    case Release(o) => if Holds(w, tab, o) then w.(locks := w.locks - {o}) else w
    case Begin(i) =>
      if Holds(w, tab, i.order) && i.order !in w.storage && ValidInput(i) then
        w.(storage := w.storage[i.order := Record(Pending(i, w.nextId, None))], nextId := w.nextId + 1)
      else w
    case Send(o) =>
      if Holds(w, tab, o) && Unacknowledged(w, o) then
        var p := w.storage[o].pending;
        w.(sent := w.sent + {Post(p.requestId, p.input)})
      else w
    case Advance(o, ack) =>
      if Holds(w, tab, o) && Unacknowledged(w, o) && ValidAck(ack, w.storage[o].pending.requestId, w.storage[o].pending.input.qty) then
        var p := w.storage[o].pending;
        w.(storage := w.storage[o := Record(p.(attemptId := ack.attemptId))], acknowledged := w.acknowledged + {p.requestId})
      else w
    case Clear(o, attemptId) =>
      if o in w.storage && w.storage[o].Record? && w.storage[o].pending.attemptId == Some(attemptId) then
        w.(storage := w.storage - {o})
      else w
    case Discard(o) =>
      if o in w.storage && w.storage[o].Garbage? then w.(storage := w.storage - {o}) else w
  }

  function Step(w: World, e: Event): World {
    Effect(w, e.tab, e.action)
  }

  function Run(w: World, es: seq<Event>): World
    decreases |es|
  {
    if es == [] then w else Run(Step(w, es[0]), es[1..])
  }

  // ---------------------------------------------------------------- invariant

  /** A record is filed under its own order, with an id of its own that was minted before. */
  ghost predicate RecordsOk(w: World) {
    && (forall o :: o in w.storage && w.storage[o].Record? ==>
          w.storage[o].pending.input.order == o && w.storage[o].pending.requestId < w.nextId
          && (w.storage[o].pending.attemptId.None? ==> w.storage[o].pending.requestId !in w.acknowledged))
    && forall o, u :: o in w.storage && u in w.storage && w.storage[o].Record? && w.storage[u].Record? && o != u ==>
         w.storage[o].pending.requestId != w.storage[u].pending.requestId
  }

  predicate Accounted(w: World, p: Post) {
    p.requestId in w.acknowledged || Has(w, p.input.order, Pending(p.input, p.requestId, None))
  }

  /** Every posted request is acknowledged, or still stored with the very payload that was posted. */
  ghost predicate PostsOk(w: World) {
    && (forall p :: p in w.sent ==> p.requestId < w.nextId && Accounted(w, p))
    && (forall id :: id in w.acknowledged ==> id < w.nextId)
    && (forall p, q :: p in w.sent && q in w.sent && p.requestId == q.requestId ==> p == q)
  }

  ghost predicate Inv(w: World) {
    RecordsOk(w) && PostsOk(w)
  }

  lemma StepKeepsRecords(w: World, e: Event)
    requires Inv(w)
    ensures RecordsOk(Step(w, e))
  {
  }

  lemma StepKeepsPosts(w: World, e: Event)
    requires Inv(w)
    ensures PostsOk(Step(w, e))
  {
    var w' := Step(w, e);
    forall p | p in w'.sent
      ensures p.requestId < w'.nextId && Accounted(w', p)
    {
      assert p in w.sent ==> Accounted(w, p);
    }
    if e.action.Send? && w' != w {
      var s := w.storage[e.action.order].pending;
      forall p | p in w.sent && p.requestId == s.requestId
        ensures p == Post(s.requestId, s.input)
      {
        assert Accounted(w, p);
      }
    }
  }

  lemma {:induction false} RunKeepsInv(w: World, es: seq<Event>)
    requires Inv(w)
    ensures Inv(Run(w, es))
    decreases |es|
  {
    if es != [] {
      StepKeepsRecords(w, es[0]);
      StepKeepsPosts(w, es[0]);
      RunKeepsInv(Step(w, es[0]), es[1..]);
    }
  }

  // ---------------------------------------------------------------- over every run

  /** However often a request is sent, by whichever tab, its id stands for one payload. */
  lemma OneIdOnePayload(w: World, es: seq<Event>, p: Post, q: Post)
    requires Inv(w) && p in Run(w, es).sent && q in Run(w, es).sent && p.requestId == q.requestId
    ensures p == q
  {
    RunKeepsInv(w, es);
  }

  /** All requests of an order that are not acknowledged yet share one id and one payload. */
  lemma OpenPostsShareOneIntent(w: World, es: seq<Event>, p: Post, q: Post)
    requires Inv(w) && p in Run(w, es).sent && q in Run(w, es).sent && p.input.order == q.input.order
    requires p.requestId !in Run(w, es).acknowledged && q.requestId !in Run(w, es).acknowledged
    ensures p == q
  {
    RunKeepsInv(w, es);
  }

  /** An intent stays in storage, payload and id unchanged, until its own acknowledgement is stored. */
  lemma {:induction false} IntentStaysUntilAcknowledged(w: World, es: seq<Event>, order: nat, p: Pending)
    requires Has(w, order, p) && p.attemptId.None?
    ensures Has(Run(w, es), order, p) || p.requestId in Run(w, es).acknowledged
    decreases |es|
  {
    if es != [] {
      if p.requestId in Step(w, es[0]).acknowledged {
        AcknowledgedForever(Step(w, es[0]), es[1..], p.requestId);
      } else {
        IntentStaysUntilAcknowledged(Step(w, es[0]), es[1..], order, p);
      }
    }
  }

  lemma {:induction false} AcknowledgedForever(w: World, es: seq<Event>, id: nat)
    requires id in w.acknowledged
    ensures id in Run(w, es).acknowledged
    decreases |es|
  {
    if es != [] {
      AcknowledgedForever(Step(w, es[0]), es[1..], id);
    }
  }

  /**
   A stored intent is never replaced by another one: as long as its id is in storage its payload
   is the same and a stored attempt id stays; and another id means that it was acknowledged.
   */
  lemma {:induction false} NeverReplaced(w: World, es: seq<Event>, order: nat, p: Pending, q: Pending)
    requires Inv(w) && Has(w, order, p) && Has(Run(w, es), order, q)
    ensures q.requestId == p.requestId ==> q.input == p.input && (p.attemptId.Some? ==> q.attemptId == p.attemptId)
    ensures q.requestId != p.requestId && p.attemptId.None? ==> p.requestId in Run(w, es).acknowledged
    decreases |es|
  {
    RunKeepsRecord(w, es, order, p);
    if p.attemptId.None? {
      IntentStaysUntilAcknowledged(w, es, order, p);
    }
  }

  /** What can be stored for an order after a run that starts with p. */
  ghost predicate Descends(w: World, order: nat, p: Pending) {
    order in w.storage && w.storage[order].Record? ==>
      var q := w.storage[order].pending;
      (q.input == p.input && q.requestId == p.requestId && (p.attemptId.Some? ==> q.attemptId == p.attemptId))
      || q.requestId != p.requestId
  }

  lemma {:induction false} RunKeepsRecord(w: World, es: seq<Event>, order: nat, p: Pending)
    requires Descends(w, order, p) && p.requestId < w.nextId
    ensures Descends(Run(w, es), order, p)
    decreases |es|
  {
    if es != [] {
      RunKeepsRecord(Step(w, es[0]), es[1..], order, p);
    }
  }

  /** The event that stored the attempt id: under the lock, with a valid acknowledgement of this very intent. */
  ghost predicate StoresAttempt(w: World, e: Event, order: nat, p: Pending, attemptId: nat) {
    && e.action.Advance? && e.action.order == order && Holds(w, e.tab, order) && Has(w, order, p)
    && ValidAck(e.action.ack, p.requestId, p.input.qty) && e.action.ack.attemptId == Some(attemptId)
  }

  ghost predicate StoredInRun(w: World, es: seq<Event>, order: nat, p: Pending, attemptId: nat)
    decreases |es|
  {
    es != [] && (StoresAttempt(w, es[0], order, p, attemptId) || StoredInRun(Step(w, es[0]), es[1..], order, p, attemptId))
  }

  /**
   Whatever the tabs do, an attempt id that is stored for a waiting intent at the end of a run
   came from an acknowledgement of its own request id and quantity, stored under the lock.
   */
  lemma {:induction false} AttemptIdsComeFromAcks(w: World, es: seq<Event>, order: nat, p: Pending, attemptId: nat)
    requires Inv(w) && Has(w, order, p) && p.attemptId.None?
    requires Has(Run(w, es), order, p.(attemptId := Some(attemptId)))
    ensures StoredInRun(w, es, order, p, attemptId)
    decreases |es|
  {
    var w' := Step(w, es[0]);
    StepKeepsRecords(w, es[0]);
    StepKeepsPosts(w, es[0]);
    if Has(w', order, p) {
      AttemptIdsComeFromAcks(w', es[1..], order, p, attemptId);
    } else {
      var q := w'.storage[order].pending;
      RunKeepsRecord(w', es[1..], order, q);
    }
  }

  /** What another tab does when it takes a waiting intent to its end. */
  function OtherFinishes(other: nat, order: nat, ack: RawAck): seq<Event>
    requires ack.attemptId.Some?
  {
    [Event(other, Acquire(order)), Event(other, Send(order)), Event(other, Advance(order, ack)),
     Event(other, Release(order)), Event(other, Clear(order, ack.attemptId.value))]
  }

  /** Another tab can take an intent to its end between the reading of the record and the lock. */
  lemma OtherFinishesAll(w: World, other: nat, order: nat, p: Pending, ack: RawAck)
    requires Has(w, order, p) && p.attemptId.None? && order !in w.locks && ValidAck(ack, p.requestId, p.input.qty)
    ensures var w' := Run(w, OtherFinishes(other, order, ack));
            && order !in w'.storage && order !in w'.locks && w'.nextId == w.nextId
            && Post(p.requestId, p.input) in w'.sent && p.requestId in w'.acknowledged
  {
    var es := OtherFinishes(other, order, ack);
    var w1 := Step(w, es[0]);
    var w2 := Step(w1, es[1]);
    var w3 := Step(w2, es[2]);
    var w4 := Step(w3, es[3]);
    assert es[1..][1..] == es[2..] && es[2..][1..] == es[3..] && es[3..][1..] == es[4..] && es[4..][1..] == [];
    assert Run(w, es) == Run(w1, es[1..]);
    assert Run(w1, es[1..]) == Run(w2, es[2..]);
    assert Run(w2, es[2..]) == Run(w3, es[3..]);
    assert Run(w3, es[3..]) == Run(w4, es[4..]);
    assert Run(w4, es[4..]) == Step(w4, es[4]);
  }

  // ---------------------------------------------------------------- a tab

  predicate Foreign(me: nat, es: seq<Event>) {
    forall i :: 0 <= i < |es| ==> es[i].tab != me
  }

  /** While I hold the lock, an intent that waits for its acknowledgement is only mine to change. */
  lemma {:induction false} ForeignRunKeepsMine(me: nat, w: World, es: seq<Event>, order: nat, p: Pending)
    requires Foreign(me, es) && Holds(w, me, order) && Has(w, order, p) && p.attemptId.None?
    ensures Holds(Run(w, es), me, order) && Has(Run(w, es), order, p) && w.sent <= Run(w, es).sent
    decreases |es|
  {
    if es != [] {
      assert Foreign(me, es[1..]);
      ForeignRunKeepsMine(me, Step(w, es[0]), es[1..], order, p);
    }
  }

  datatype Answer = Unconfirmed | HttpError(code: string) | Body(ack: Option<RawAck>)

  /** What others do before the lock is granted and while the request is under way. */
  datatype Fate = Fate(beforeLock: seq<Event>, meanwhile: seq<Event>, answer: Answer)

  datatype Begun = Begun(pending: Pending, ack: Option<RawAck>)

  /** The stored id where one is stored, with the same payload; a fresh id otherwise. */
  predicate Resumes(w: World, input: Input, requestId: nat) {
    if input.order in w.storage && w.storage[input.order].Record? then
      w.storage[input.order].pending.input == input && w.storage[input.order].pending.requestId == requestId
    else requestId == w.nextId
  }

  /** The request was sent, and the acknowledgement of exactly this request is stored. */
  predicate Confirmed(w: World, b: Begun)
    requires b.ack.Some?
  {
    && ValidAck(b.ack.value, b.pending.requestId, b.pending.input.qty) && b.pending.attemptId == b.ack.value.attemptId
    && Post(b.pending.requestId, b.pending.input) in w.sent && b.pending.requestId in w.acknowledged
  }

  lemma {:induction false} IdsGrow(w: World, es: seq<Event>)
    ensures w.nextId <= Run(w, es).nextId
    decreases |es|
  {
    if es != [] {
      IdsGrow(Step(w, es[0]), es[1..]);
    }
  }

  predicate NoFaults(faults: seq<bool>) {
    forall i :: 0 <= i < |faults| ==> !faults[i]
  }

  /** The k-th storage access from now on throws. */
  predicate ThrowsAt(faults: seq<bool>, k: nat) {
    k < |faults| && faults[k]
  }

  const STORAGE_UNAVAILABLE := "refund_receipt_storage_unavailable"

  /** Another payload of this order is stored. */
  predicate Conflicts(w: World, input: Input) {
    input.order in w.storage && w.storage[input.order].Record? && w.storage[input.order].pending.input != input
  }

  /** The stored intent, or a new one with the next fresh id. */
  function IntentFor(w: World, input: Input): Pending {
    if input.order in w.storage && w.storage[input.order].Record? then w.storage[input.order].pending
    else Pending(input, w.nextId, None)
  }

  /** Whether a clearing by this attempt id finds nothing left, or its own record. */
  predicate Cleared(w: World, order: nat, attemptId: nat) {
    order in w.storage && w.storage[order].Record? ==> w.storage[order].pending.attemptId == Some(attemptId)
  }

  /** What comes of a request for this intent: stored and confirmed by a valid acknowledgement, otherwise kept as it was. */
  predicate Answered(p: Pending, answer: Answer, r: Result<Begun, string>, w: World) {
    match answer
    case Unconfirmed => r == Err("refund_begin_transport_failed") && Has(w, p.input.order, p)
    case HttpError(code) => r == Err(code) && Has(w, p.input.order, p)
    case Body(raw) =>
      if raw.Some? && ValidAck(raw.value, p.requestId, p.input.qty) then
        r == Ok(Begun(p.(attemptId := raw.value.attemptId), raw)) && Has(w, p.input.order, p.(attemptId := raw.value.attemptId))
      else r == Err("invalid_refund_begin_ack") && Has(w, p.input.order, p)
  }

  /** With storage that works, under the lock: what was stored at that moment and the answer decide everything. */
  predicate BeginsUnderLock(at: World, input: Input, answer: Answer, r: Result<Begun, string>, posted: Option<Post>, w: World) {
    if Conflicts(at, input) then r == Err("refund_intent_conflict") && posted == None && input.order in w.storage && w.storage[input.order] == at.storage[input.order]
    else
      var p := IntentFor(at, input);
      if p.attemptId.Some? then r == Ok(Begun(p, None)) && posted == None && Has(w, input.order, p)
      else posted == Some(Post(p.requestId, input)) && Answered(p, answer, r, w)
  }

  predicate Begins(at: World, me: nat, lockManager: bool, input: Input, answer: Answer, r: Result<Begun, string>,
                   posted: Option<Post>, w: World)
  {
    if !ValidInput(input) then r == Err("invalid_refund_intent") && posted == None
    else if !lockManager || input.order in at.locks then
      r == Err(if lockManager then "refund_already_in_progress" else "refund_cross_tab_lock_unavailable") && posted == None && w == at
    else BeginsUnderLock(at, input, answer, r, posted, w)
  }

  class Tab {
    const me: nat
    const lockManager: bool
    var world: World
    var fate: Fate
    var faults: seq<bool>
    var posted: Option<Post> // what this call has sent, if anything
    ghost const start: World
    ghost var trace: seq<Event>
    ghost var atLock: World

    ghost predicate Valid()
      reads this
    {
      && Inv(start) && world == Run(start, trace)
      && Foreign(me, fate.beforeLock) && Foreign(me, fate.meanwhile)
    }

    constructor (me: nat, lockManager: bool, w: World, fate: Fate, faults: seq<bool>)
      requires Inv(w) && Foreign(me, fate.beforeLock) && Foreign(me, fate.meanwhile)
      ensures Valid() && world == w && this.me == me && this.lockManager == lockManager && trace == []
      ensures this.fate == fate && this.faults == faults && start == w
    {
      this.me, this.lockManager, this.fate, this.faults := me, lockManager, fate, faults;
      start, trace, world, atLock, posted := w, [], w, w, None;
    }

    method Happen(es: seq<Event>)
      requires Valid()
      modifies this`world, this`trace
      ensures Valid() && world == Run(old(world), es) && trace == old(trace) + es
    {
      SplitRun(start, trace, es);
      ghost var goal, whole := Run(world, es), trace + es;
      var i := 0;
      while i < |es|
        invariant 0 <= i <= |es| && Run(world, es[i..]) == goal
        invariant fate == old(fate)
      {
        assert es[i..][0] == es[i] && es[i..][1..] == es[i + 1..];
        world := Step(world, es[i]);
        i := i + 1;
      }
      trace := whole;
    }

    method Do(a: Action)
      requires Valid()
      modifies this`world, this`trace
      ensures Valid() && world == Effect(old(world), me, a) && old(trace) <= trace
    {
      assert [Event(me, a)][1..] == [];
      assert Run(world, [Event(me, a)]) == Effect(world, me, a);
      Happen([Event(me, a)]);
    }

    method StorageThrows() returns (throws: bool)
      modifies this`faults
      ensures throws == ThrowsAt(old(faults), 0)
      ensures faults == if old(faults) == [] then [] else old(faults)[1..]
      ensures NoFaults(old(faults)) ==> NoFaults(faults)
    {
      throws := faults != [] && faults[0];
      faults := if faults == [] then [] else faults[1..];
    }

    /** Reads a record; text that is no record is removed first. */
    method ReadPending(order: nat) returns (r: Result<Option<Pending>, string>)
      requires Valid()
      modifies this`world, this`trace, this`faults
      ensures Valid() && old(trace) <= trace && world.locks == old(world).locks && world.sent == old(world).sent
      ensures r.Ok? && r.value.Some? ==> world == old(world) && Has(world, order, r.value.value)
      ensures r.Ok? && r.value.None? ==> order !in world.storage
      ensures world == old(world) || world == Effect(old(world), me, Discard(order))
      ensures NoFaults(old(faults)) ==> r.Ok? && NoFaults(faults)
      ensures r.Err? ==> r.error == STORAGE_UNAVAILABLE
      ensures r.Err? <==> ThrowsAt(old(faults), 0)
                          || (order in old(world).storage && old(world).storage[order].Garbage? && ThrowsAt(old(faults), 1))
      ensures order in old(world).storage && old(world).storage[order].Record? && r.Ok? ==>
                r.value == Some(old(world).storage[order].pending)
    {
      var throws := StorageThrows();
      if throws {
        return Err(STORAGE_UNAVAILABLE);
      }
      if order !in world.storage {
        return Ok(None);
      }
      if world.storage[order].Record? {
        return Ok(Some(world.storage[order].pending));
      }
      throws := StorageThrows();
      if throws {
        return Err(STORAGE_UNAVAILABLE);
      }
      Do(Discard(order));
      return Ok(None);
    }

    /** Runs without the lock; only the attempt id of the stored acknowledgement removes the record. */
    method ClearPending(order: nat, attemptId: nat) returns (r: Result<(), string>)
      requires Valid()
      modifies this
      ensures Valid() && old(trace) <= trace
      ensures Unacknowledged(old(world), order) ==> world == old(world) && r.Err?
      ensures r.Ok? ==> order !in world.storage
      ensures NoFaults(old(faults)) ==>
                match Cleared(old(world), order, attemptId)
                case true => r == Ok(()) && order !in world.storage
                case false => r == Err("refund_receipt_correlation_mismatch") && world == old(world)
    {
      var read := ReadPending(order);
      if read.Err? {
        return Err(read.error);
      }
      if read.value.None? {
        return Ok(());
      }
      if read.value.value.attemptId != Some(attemptId) {
        return Err("refund_receipt_correlation_mismatch");
      }
      var throws := StorageThrows();
      if throws {
        return Err(STORAGE_UNAVAILABLE);
      }
      Do(Clear(order, attemptId));
      r := Ok(());
    }

    /**
     Begins a refund or takes up the stored one.  Under the lock: a record of another payload is a
     conflict and stays; an acknowledged record is returned as it is; otherwise the stored id and
     payload are sent, again if need be, and a success means that the acknowledgement of exactly
     this request is stored.
     */
    method BeginOrRecover(input: Input) returns (r: Result<Begun, string>)
      requires Valid() && !Holds(world, me, input.order)
      modifies this
      ensures Valid() && old(trace) <= trace && !Holds(world, me, input.order)
      ensures r.Ok? ==> r.value.pending.input == input && Has(world, input.order, r.value.pending)
      ensures r.Ok? ==> Resumes(atLock, input, r.value.pending.requestId)
      ensures r.Ok? && r.value.ack.Some? ==> Confirmed(world, r.value)
      ensures r.Ok? && r.value.ack.None? ==> Has(atLock, input.order, r.value.pending) && r.value.pending.attemptId.Some?
      ensures posted.Some? ==> posted.value.input == input && Resumes(atLock, input, posted.value.requestId) && posted.value in world.sent
      ensures fate == old(fate)
      ensures NoFaults(old(faults)) ==>
                Begins(Run(old(world), fate.beforeLock), me, lockManager, input, fate.answer, r, posted, world)
      ensures r.Ok? || posted.Some? ==> atLock == Run(old(world), fate.beforeLock) && atLock.sent <= world.sent
      ensures var at := Run(old(world), fate.beforeLock);
              NoFaults(old(faults)) && lockManager && ValidInput(input) && input.order !in at.locks && input.order !in at.storage ==> posted.Some?
    {
      posted := None;
      if !ValidInput(input) {
        return Err("invalid_refund_intent");
      }
      Happen(fate.beforeLock);
      if !lockManager || input.order in world.locks {
        NotGranted(me, old(world), fate.beforeLock, input.order);
        return Err(if lockManager then "refund_already_in_progress" else "refund_cross_tab_lock_unavailable");
      }
      atLock := world;
      Do(Acquire(input.order));
      r := UnderLock(input);
      Do(Release(input.order));
    }

    method UnderLock(input: Input) returns (r: Result<Begun, string>)
      requires Valid() && Holds(world, me, input.order) && ValidInput(input)
      requires world == Effect(atLock, me, Acquire(input.order)) && input.order !in atLock.locks && posted == None
      modifies this`world, this`trace, this`faults, this`posted
      ensures Valid() && old(trace) <= trace
      ensures NoFaults(old(faults)) && input.order !in atLock.storage ==> posted.Some?
      ensures NoFaults(old(faults)) ==> BeginsUnderLock(atLock, input, fate.answer, r, posted, world)
      ensures atLock.sent <= world.sent
      ensures r.Ok? ==> r.value.pending.input == input && Has(world, input.order, r.value.pending)
      ensures r.Ok? ==> Resumes(atLock, input, r.value.pending.requestId)
      ensures r.Ok? && r.value.ack.Some? ==> Confirmed(world, r.value)
      ensures r.Ok? && r.value.ack.None? ==> Has(atLock, input.order, r.value.pending) && r.value.pending.attemptId.Some?
      ensures posted.Some? ==> posted.value.input == input && Resumes(atLock, input, posted.value.requestId) && posted.value in world.sent
    {
      var existing := StoredOrNew(input);
      if existing.Err? {
        return Err(existing.error);
      }
      var pending := existing.value;
      if pending.attemptId.Some? {
        return Ok(Begun(pending, None));
      }
      r := SendAndStore(pending);
    }

    /** The stored intent if it has this payload, or a new one that is stored before it is sent. */
    method StoredOrNew(input: Input) returns (r: Result<Pending, string>)
      requires Valid() && Holds(world, me, input.order) && ValidInput(input)
      modifies this`world, this`trace, this`faults
      ensures Valid() && old(trace) <= trace && Holds(world, me, input.order)
      ensures r.Ok? ==> r.value.input == input && Has(world, input.order, r.value)
      ensures r.Ok? ==> Resumes(old(world), input, r.value.requestId)
      ensures r.Ok? && r.value.attemptId.Some? ==> world == old(world)
      ensures NoFaults(old(faults)) && input.order !in old(world).storage ==> r.Ok? && r.value.attemptId.None?
      ensures NoFaults(old(faults)) ==>
                && NoFaults(faults)
                && if Conflicts(old(world), input) then r == Err("refund_intent_conflict") && world == old(world)
                   else r == Ok(IntentFor(old(world), input)) && Has(world, input.order, r.value)
      ensures world.sent == old(world).sent
    {
      var existing := ReadPending(input.order);
      if existing.Err? {
        return Err(existing.error);
      }
      if existing.value.Some? {
        return if existing.value.value.input != input then Err("refund_intent_conflict") else Ok(existing.value.value);
      }
      var throws := StorageThrows();
      if throws {
        return Err(STORAGE_UNAVAILABLE);
      }
      r := Ok(Pending(input, world.nextId, None));
      Do(Begin(input));
    }

    method SendAndStore(pending: Pending) returns (r: Result<Begun, string>)
      requires Valid() && Holds(world, me, pending.input.order) && Has(world, pending.input.order, pending) && pending.attemptId.None?
      modifies this`world, this`trace, this`faults, this`posted
      ensures Valid() && old(trace) <= trace
      ensures posted == Some(Post(pending.requestId, pending.input)) && posted.value in world.sent
      ensures old(world).sent <= world.sent
      ensures r.Ok? ==> r.value.ack.Some? && Confirmed(world, r.value)
      ensures r.Ok? ==> r.value.pending == pending.(attemptId := r.value.pending.attemptId) && Has(world, pending.input.order, r.value.pending)
      ensures NoFaults(old(faults)) ==> Answered(pending, fate.answer, r, world)
    {
      var o := pending.input.order;
      posted := Some(Post(pending.requestId, pending.input));
      Do(Send(o));
      ForeignRunKeepsMine(me, world, fate.meanwhile, o, pending);
      Happen(fate.meanwhile);
      match fate.answer
      case Unconfirmed => return Err("refund_begin_transport_failed");
      case HttpError(code) => return Err(code);
      case Body(raw) =>
        if raw.None? || !ValidAck(raw.value, pending.requestId, pending.input.qty) {
          return Err("invalid_refund_begin_ack");
        }
        var throws := StorageThrows();
        if throws {
          return Err(STORAGE_UNAVAILABLE);
        }
        Do(Advance(o, raw.value));
        return Ok(Begun(pending.(attemptId := raw.value.attemptId), raw));
    }

    /**
     Takes up a stored intent after a reload.  It resends the id it has read exactly when the
     record is still there once the lock is granted; if others have finished and cleared it in
     between, the same payload goes out under a new id.
     */
    method RecoverPending(order: nat) returns (r: Result<Option<Begun>, string>)
      requires Valid() && !Holds(world, me, order)
      modifies this
      ensures Valid() && old(trace) <= trace
      ensures r == Ok(None) ==> order !in old(world).storage || old(world).storage[order].Garbage?
      ensures r.Ok? && r.value.Some? ==>
                && order in old(world).storage && old(world).storage[order].Record?
                && var read := old(world).storage[order].pending;
                   && r.value.value.pending.input == read.input
                   && (order in atLock.storage && atLock.storage[order].Record?
                       && atLock.storage[order].pending.requestId == read.requestId
                       <==> r.value.value.pending.requestId == read.requestId)
      ensures NoFaults(old(faults)) && order in old(world).storage && old(world).storage[order].Record? ==>
                exists begun: Result<Begun, string> ::
                  && Begins(Run(old(world), old(fate).beforeLock), me, lockManager, old(world).storage[order].pending.input,
                            old(fate).answer, begun, posted, world)
                  && r == (if begun.Err? then Err(begun.error) else Ok(Some(begun.value)))
      ensures NoFaults(old(faults)) && !(order in old(world).storage && old(world).storage[order].Record?) ==> r == Ok(None) && posted == None
      // Whatever becomes of the answer, this is what went out.
      ensures posted.Some? ==>
                && order in old(world).storage && old(world).storage[order].Record? && posted.value in world.sent
                && var read := old(world).storage[order].pending;
                   && posted.value.input == read.input && Resumes(atLock, read.input, posted.value.requestId)
                   && (order in atLock.storage && atLock.storage[order].Record?
                       && atLock.storage[order].pending.requestId == read.requestId
                       <==> posted.value.requestId == read.requestId)
      ensures var at := Run(old(world), old(fate).beforeLock);
              NoFaults(old(faults)) && lockManager && order in old(world).storage && old(world).storage[order].Record?
              && ValidInput(old(world).storage[order].pending.input) && order !in at.locks && order !in at.storage ==>
                posted.Some? && atLock == at && at.sent <= world.sent
    {
      posted := None;
      var read := ReadPending(order);
      if read.Err? {
        return Err(read.error);
      }
      if read.value.None? {
        return Ok(None);
      }
      RunKeepsInv(start, trace);
      IdsGrow(world, fate.beforeLock);
      var begun := BeginOrRecover(read.value.value.input);
      if begun.Err? {
        return Err(begun.error);
      }
      r := Ok(Some(begun.value));
    }
  }

  /**
   A run of the code in which one refund is sent under two ids: a tab reads the record, another
   tab finishes and clears the intent, and the first tab sends the same payload again.
   */
  method StaleRecovery(w: World, mine: nat, other: nat, order: nat, p: Pending, ack: RawAck)
    returns (first: Post, second: Post, end: World)
    requires Inv(w) && Has(w, order, p) && p.attemptId.None? && ValidInput(p.input) && order !in w.locks
    requires mine != other && ValidAck(ack, p.requestId, p.input.qty)
    ensures first in end.sent && second in end.sent
    ensures first == Post(p.requestId, p.input) && second == Post(w.nextId, p.input) && first.requestId != second.requestId
  {
    var es := OtherFinishes(other, order, ack);
    OtherFinishesAll(w, other, order, p, ack);
    var tab := new Tab(mine, true, w, Fate(es, [], Unconfirmed), []);
    var r := tab.RecoverPending(order);
    first, second, end := Post(p.requestId, p.input), tab.posted.value, tab.world;
  }

  lemma {:induction false} NotGranted(me: nat, w: World, es: seq<Event>, order: nat)
    requires Foreign(me, es) && !Holds(w, me, order)
    ensures !Holds(Run(w, es), me, order)
    decreases |es|
  {
    if es != [] {
      assert Foreign(me, es[1..]);
      NotGranted(me, Step(w, es[0]), es[1..], order);
    }
  }

  lemma {:induction false} SplitRun(w: World, a: seq<Event>, b: seq<Event>)
    ensures Run(w, a + b) == Run(Run(w, a), b)
    decreases |a|
  {
    if a == [] {
      assert a + b == b;
    } else {
      assert (a + b)[0] == a[0] && (a + b)[1..] == a[1..] + b;
      SplitRun(Step(w, a[0]), a[1..], b);
    }
  }
}
