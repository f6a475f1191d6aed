/**
 The durable intent of an administrator's cancellation.  It carries no id of its own, so the
 record is the only evidence of a request whose answer was lost: it goes only with a valid
 outcome for the very same input, and a record that cannot be read is never touched.
 */
module CancelIntent {
  import opened Wrappers

  const MAX_SAFE: int := 9007199254740991

  datatype Input = Input(order: nat, reason: string, requestedAt: string)

  /** What storage holds under an order's key: a valid record, or text that is not one. */
  datatype Stored = Record(input: Input) | Garbage

  predicate ValidInput(i: Input) {
    5 <= |i.reason| <= 500
  }

  // ---------------------------------------------------------------- the outcome

  /** An answer's fields; None when missing, not a UUID, or not a safe integer. */
  datatype RawOutcome = RawOutcome(ok: bool, outcome: string, requestId: Option<nat>, attemptId: Option<nat>,
                                   qty: Option<int>, amount: Option<int>, batchId: Option<nat>)

  datatype Outcome =
    | Simple(outcome: string)
    | ResolvedFull(batchId: nat)
    | RefundPrepared(requestId: nat, attemptId: nat, qty: int, amount: int)

  const SIMPLE_OUTCOMES: set<string> := {"canceled", "already_canceled", "ineligible", "canceled_unpaid", "observed"}

  function ParseOutcome(raw: Option<RawOutcome>): (r: Option<Outcome>)
    ensures r.Some? ==> raw.Some? && raw.value.ok
    ensures r.Some? && r.value.RefundPrepared? ==> r.value.qty > 0 && r.value.amount > 0
  {
    if raw.None? || !raw.value.ok then None
    else
      var row := raw.value;
      if row.outcome in SIMPLE_OUTCOMES then Some(Simple(row.outcome))
      else if row.outcome == "resolved_full" then
        (if row.batchId.Some? then Some(ResolvedFull(row.batchId.value)) else None)
      else if row.outcome == "refund_prepared" && row.requestId.Some? && row.attemptId.Some?
              && row.qty.Some? && row.qty.value > 0 && row.amount.Some? && row.amount.value > 0 then
        Some(RefundPrepared(row.requestId.value, row.attemptId.value, row.qty.value, row.amount.value))
      else None
  }

  function Written(o: Outcome): RawOutcome {
    match o
    case Simple(outcome) => RawOutcome(true, outcome, None, None, None, None, None)
    case ResolvedFull(batchId) => RawOutcome(true, "resolved_full", None, None, None, None, Some(batchId))
    case RefundPrepared(requestId, attemptId, qty, amount) =>
      RawOutcome(true, "refund_prepared", Some(requestId), Some(attemptId), Some(qty), Some(amount), None)
  }

  /** The parser keeps what an outcome says and drops everything else. */
  lemma ParsedOutcomeRoundTrip(raw: RawOutcome)
    ensures var o := ParseOutcome(Some(raw)); o.Some? ==> ParseOutcome(Some(Written(o.value))) == o
    ensures var o := ParseOutcome(Some(raw)); o.Some? ==> Written(o.value).outcome == raw.outcome
  {
  }

  /** What an outcome has to carry to count. */
  predicate Meaningful(o: Outcome) {
    match o
    case Simple(outcome) => outcome in SIMPLE_OUTCOMES
    case ResolvedFull(_) => true
    case RefundPrepared(_, _, qty, amount) => qty > 0 && amount > 0
  }

  /** Exactly the written forms of meaningful outcomes count, whatever else the answer carries. */
  lemma ParsedIff(raw: RawOutcome, o: Outcome)
    ensures ParseOutcome(Some(raw)) == Some(o) <==> Meaningful(o) && Carries(raw, Written(o))
  {
  }

  /** The answer has each of these fields. */
  predicate Carries(raw: RawOutcome, w: RawOutcome) {
    && raw.ok == w.ok && raw.outcome == w.outcome
    && (w.requestId.Some? ==> raw.requestId == w.requestId) && (w.attemptId.Some? ==> raw.attemptId == w.attemptId)
    && (w.qty.Some? ==> raw.qty == w.qty) && (w.amount.Some? ==> raw.amount == w.amount)
    && (w.batchId.Some? ==> raw.batchId == w.batchId)
  }

  // ---------------------------------------------------------------- the browser

  /** `sent` are all inputs ever posted; `settled` those for which a valid outcome was received. */
  datatype World = World(storage: map<nat, Stored>, locks: map<nat, nat>, sent: set<Input>, settled: set<Input>)

  datatype Action =
    | Acquire(order: nat)
    | Release(order: nat)
    | Persist(input: Input)
    | Send(order: nat)
    | Clear(input: Input, outcome: Option<RawOutcome>)

  datatype Event = Event(tab: nat, action: Action)

  predicate Holds(w: World, tab: nat, order: nat) {
    order in w.locks && w.locks[order] == tab
  }

  predicate Has(w: World, i: Input) {
    i.order in w.storage && w.storage[i.order] == Record(i)
  }

  function Effect(w: World, tab: nat, a: Action): World {
    match a
    case Acquire(o) => if o in w.locks then w else w.(locks := w.locks[o := tab])
    case Release(o) => if Holds(w, tab, o) then w.(locks := w.locks - {o}) else w
    case Persist(i) =>
      if Holds(w, tab, i.order) && i.order !in w.storage && ValidInput(i) then
        w.(storage := w.storage[i.order := Record(i)], settled := w.settled - {i})
      else w
    case Send(o) =>
      if Holds(w, tab, o) && o in w.storage && w.storage[o].Record? then w.(sent := w.sent + {w.storage[o].input}) else w
    case Clear(i, outcome) =>
      if Holds(w, tab, i.order) && Has(w, i) && ParseOutcome(outcome).Some? then
        w.(storage := w.storage - {i.order}, settled := w.settled + {i})
      else w
  }

  function Step(w: World, e: Event): World {
    Effect(w, e.tab, e.action)
  }

  function Run(w: World, es: seq<Event>): World
    decreases |es|
  {
    if es == [] then w else Run(Step(w, es[0]), es[1..])
  }

  /** A posted input is settled or still stored; a record is filed under its own order. */
  ghost predicate Inv(w: World) {
    && (forall i :: i in w.sent ==> i in w.settled || Has(w, i))
    && forall o :: o in w.storage && w.storage[o].Record? ==> w.storage[o].input.order == o
  }

  lemma StepKeepsInv(w: World, e: Event)
    requires Inv(w)
    ensures Inv(Step(w, e))
  {
  }

  lemma {:induction false} RunKeepsInv(w: World, es: seq<Event>)
    requires Inv(w)
    ensures Inv(Run(w, es))
    decreases |es|
  {
    if es != [] {
      StepKeepsInv(w, es[0]);
      RunKeepsInv(Step(w, es[0]), es[1..]);
    }
  }

  /** All requests of an order without a valid outcome yet have the same payload, whatever the tab. */
  lemma OpenRequestsShareOnePayload(w: World, es: seq<Event>, i: Input, k: Input)
    requires Inv(w) && i in Run(w, es).sent && k in Run(w, es).sent && i.order == k.order
    requires i !in Run(w, es).settled && k !in Run(w, es).settled
    ensures i == k
  {
    RunKeepsInv(w, es);
  }

  /** The event that settles an input: a valid outcome for it, under the lock, with its record stored. */
  predicate Settles(w: World, e: Event, i: Input) {
    e.action.Clear? && e.action.input == i && Holds(w, e.tab, i.order) && Has(w, i) && ParseOutcome(e.action.outcome).Some?
  }

  ghost predicate SettledInRun(w: World, es: seq<Event>, i: Input)
    decreases |es|
  {
    es != [] && (Settles(w, es[0], i) || SettledInRun(Step(w, es[0]), es[1..], i))
  }

  /**
   Over every run a stored intent is still stored, unchanged, unless a valid outcome for this very
   input was received under the lock.
   */
  lemma {:induction false} RecordGoesOnlyWithOutcome(w: World, es: seq<Event>, i: Input)
    requires Has(w, i)
    ensures Has(Run(w, es), i) || SettledInRun(w, es, i)
    decreases |es|
  {
    if es != [] && Has(Step(w, es[0]), i) {
      RecordGoesOnlyWithOutcome(Step(w, es[0]), es[1..], i);
    }
  }

  /** Whatever happens, a record that cannot be read stays as it is, and its order is never posted again. */
  lemma {:induction false} UnreadableStays(w: World, es: seq<Event>, order: nat)
    requires order in w.storage && w.storage[order].Garbage? && Inv(w)
    ensures order in Run(w, es).storage && Run(w, es).storage[order].Garbage?
    ensures forall i :: i in Run(w, es).sent && i.order == order ==> i in w.sent
    decreases |es|
  {
    if es != [] {
      StepKeepsInv(w, es[0]);
      UnreadableStays(Step(w, es[0]), es[1..], order);
    }
  }

  // ---------------------------------------------------------------- a tab

  predicate Foreign(me: nat, es: seq<Event>) {
    forall i :: 0 <= i < |es| ==> es[i].tab != me
  }

  lemma {:induction false} ForeignRunKeepsMine(me: nat, w: World, es: seq<Event>, order: nat)
    requires Foreign(me, es) && Holds(w, me, order) && (forall o :: o in w.storage && w.storage[o].Record? ==> w.storage[o].input.order == o)
    ensures Holds(Run(w, es), me, order) && (order in Run(w, es).storage <==> order in w.storage)
    ensures order in w.storage ==> Run(w, es).storage[order] == w.storage[order]
    ensures w.sent <= Run(w, es).sent
    decreases |es|
  {
    if es != [] {
      assert Foreign(me, es[1..]);
      ForeignRunKeepsMine(me, Step(w, es[0]), es[1..], order);
    }
  }

  datatype Answer = Unconfirmed | HttpError(code: string) | Body(outcome: Option<RawOutcome>)

  predicate NoFaults(faults: seq<bool>) {
    forall i :: 0 <= i < |faults| ==> !faults[i]
  }

  /** The k-th storage access from now on throws. */
  predicate ThrowsAt(faults: seq<bool>, k: nat) {
    k < |faults| && faults[k]
  }

  /** What comes of the request: the record goes with a valid outcome, and stays otherwise. */
  predicate Answered(input: Input, answer: Answer, r: Result<Outcome, string>, w: World) {
    match answer
    case Unconfirmed => r == Err("cancel_transport_failed") && Has(w, input)
    case HttpError(code) => r == Err(code) && Has(w, input)
    case Body(raw) =>
      if ParseOutcome(raw).Some? then r == Ok(ParseOutcome(raw).value) && input.order !in w.storage
      else r == Err("invalid_cancel_ack") && Has(w, input)
  }

  /** With storage that works, under the lock: what is stored and the answer decide everything. */
  predicate SubmitsUnderLock(at: World, input: Input, answer: Answer, r: Result<Outcome, string>, posted: Option<Input>, w: World) {
    if input.order in at.storage && at.storage[input.order] != Record(input) then
      && r == Err(if at.storage[input.order].Garbage? then "invalid_cancel_intent" else "cancel_intent_conflict")
      && posted == None && input.order in w.storage && w.storage[input.order] == at.storage[input.order]
    else posted == Some(input) && input in w.sent && Answered(input, answer, r, w)
  }

  predicate Submits(at: World, lockManager: bool, input: Input, answer: Answer, r: Result<Outcome, string>,
                    posted: Option<Input>, w: World)
  {
    if !ValidInput(input) then r == Err("invalid_cancel_intent") && posted == None && w == at
    else if !lockManager || input.order in at.locks then
      r == Err(if lockManager then "cancel_already_in_progress" else "cancel_cross_tab_lock_unavailable") && posted == None && w == at
    else SubmitsUnderLock(at, input, answer, r, posted, w)
  }

  class Tab {
    const me: nat
    const lockManager: bool
    var world: World
    var meanwhile: seq<Event>
    var answer: Answer
    var faults: seq<bool>
    var posted: Option<Input> // what this call has sent, if anything
    ghost const start: World
    ghost var trace: seq<Event>

    ghost predicate Valid()
      reads this
    {
      Inv(start) && world == Run(start, trace) && Foreign(me, meanwhile)
    }

    constructor (me: nat, lockManager: bool, w: World, meanwhile: seq<Event>, answer: Answer, faults: seq<bool>)
      requires Inv(w) && Foreign(me, meanwhile)
      ensures Valid() && world == w && this.me == me && this.answer == answer
    {
      this.me, this.lockManager, this.meanwhile, this.answer, this.faults := me, lockManager, meanwhile, answer, faults;
      start, trace, world, posted := w, [], w, None;
    }

    method Happen(es: seq<Event>)
      requires Valid()
      modifies this`world, this`trace
      ensures Valid() && world == Run(old(world), es) && trace == old(trace) + es
    {
      SplitRun(start, trace, es);
      ghost var goal, whole := Run(world, es), trace + es;
      var i := 0;
      while i < |es|
        invariant 0 <= i <= |es| && Run(world, es[i..]) == goal
        invariant meanwhile == old(meanwhile)
      {
        assert es[i..][0] == es[i] && es[i..][1..] == es[i + 1..];
        world := Step(world, es[i]);
        i := i + 1;
      }
      trace := whole;
    }

    method Do(a: Action)
      requires Valid()
      modifies this`world, this`trace
      ensures Valid() && world == Effect(old(world), me, a) && old(trace) <= trace
    {
      assert [Event(me, a)][1..] == [];
      assert Run(world, [Event(me, a)]) == Effect(world, me, a);
      Happen([Event(me, a)]);
    }

    method StorageThrows() returns (throws: bool)
      modifies this`faults
      ensures throws == ThrowsAt(old(faults), 0)
      ensures faults == if old(faults) == [] then [] else old(faults)[1..]
      ensures NoFaults(old(faults)) ==> NoFaults(faults)
    {
      throws := faults != [] && faults[0];
      faults := if faults == [] then [] else faults[1..];
    }

    /** Nothing is changed by reading, not even a record that cannot be read. */
    method ReadPending(order: nat) returns (r: Result<Option<Input>, string>)
      modifies this`faults
      ensures r.Ok? ==> r.value == (if order !in world.storage then None else if world.storage[order].Record? then Some(world.storage[order].input) else None)
      ensures r.Ok? ==> (order in world.storage ==> world.storage[order].Record?)
      ensures r.Err? <==> ThrowsAt(old(faults), 0) || (order in world.storage && world.storage[order].Garbage?)
      ensures r.Err? ==> r.error == if ThrowsAt(old(faults), 0) then "cancel_receipt_storage_unavailable" else "invalid_cancel_intent"
      ensures NoFaults(old(faults)) ==> NoFaults(faults) && (r.Err? ==> r.error == "invalid_cancel_intent" && order in world.storage && world.storage[order].Garbage?)
    {
      var throws := StorageThrows();
      if throws {
        return Err("cancel_receipt_storage_unavailable");
      }
      if order !in world.storage {
        return Ok(None);
      }
      if world.storage[order].Record? {
        return Ok(Some(world.storage[order].input));
      }
      r := Err("invalid_cancel_intent");
    }

    method ClearPending(input: Input, outcome: Option<RawOutcome>) returns (r: Result<(), string>)
      requires Valid() && Holds(world, me, input.order) && Has(world, input) && ParseOutcome(outcome).Some?
      modifies this`world, this`trace, this`faults
      ensures NoFaults(old(faults)) ==> r.Ok?
      ensures Valid() && old(trace) <= trace && Holds(world, me, input.order)
      ensures world == if r.Ok? then Effect(old(world), me, Clear(input, outcome)) else old(world)
    {
      var read := ReadPending(input.order);
      if read.Err? {
        return Err(read.error);
      }
      if read.value.Some? && read.value.value != input {
        return Err("cancel_receipt_correlation_mismatch");
      }
      var throws := StorageThrows();
      if throws {
        return Err("cancel_receipt_storage_unavailable");
      }
      Do(Clear(input, outcome));
      r := Ok(());
    }

    /**
     Stores the intent before posting it, or posts the stored one again.  A success is a valid
     outcome for this input, with the record gone; any failure after the record was stored
     leaves it in place, and a record of another payload or without meaning is left alone.
     */
    method SubmitCancelIntent(input: Input) returns (r: Result<Outcome, string>)
      requires Valid() && !Holds(world, me, input.order)
      modifies this
      ensures NoFaults(old(faults)) ==> Submits(old(world), lockManager, input, old(answer), r, posted, world)
      ensures Valid() && old(trace) <= trace && !Holds(world, me, input.order)
      ensures r.Ok? ==>
                && old(answer).Body? && ParseOutcome(old(answer).outcome) == Some(r.value)
                && input in world.sent && input in world.settled && input.order !in world.storage
      ensures input.order in old(world).storage && old(world).storage[input.order] != Record(input) ==>
                r.Err? && input.order in world.storage && world.storage[input.order] == old(world).storage[input.order]
      ensures r.Err? && Has(old(world), input) ==> Has(world, input)
      ensures r.Err? && input in world.sent && input !in old(world).sent ==> Has(world, input)
    {
      posted := None;
      if !ValidInput(input) {
        return Err("invalid_cancel_intent");
      }
      if !lockManager || input.order in world.locks {
        return Err(if lockManager then "cancel_already_in_progress" else "cancel_cross_tab_lock_unavailable");
      }
      Do(Acquire(input.order));
      r := UnderLock(input);
      Do(Release(input.order));
    }

    method UnderLock(input: Input) returns (r: Result<Outcome, string>)
      requires Valid() && Holds(world, me, input.order) && ValidInput(input) && posted == None
      modifies this`world, this`trace, this`faults, this`posted
      ensures NoFaults(old(faults)) ==> SubmitsUnderLock(old(world), input, old(answer), r, posted, world)
      ensures Valid() && old(trace) <= trace && Holds(world, me, input.order)
      ensures r.Ok? ==>
                && old(answer).Body? && ParseOutcome(old(answer).outcome) == Some(r.value)
                && input in world.sent && input in world.settled && input.order !in world.storage
      ensures input.order in old(world).storage && old(world).storage[input.order] != Record(input) ==>
                r.Err? && input.order in world.storage && world.storage[input.order] == old(world).storage[input.order]
      ensures r.Err? && Has(old(world), input) ==> Has(world, input)
      ensures r.Err? && input in world.sent && input !in old(world).sent ==> Has(world, input)
    {
      RunKeepsInv(start, trace);
      var existing := ReadPending(input.order);
      if existing.Err? {
        return Err(existing.error);
      }
      if existing.value.Some? && existing.value.value != input {
        return Err("cancel_intent_conflict");
      }
      if existing.value.None? {
        var throws := StorageThrows();
        if throws {
          return Err("cancel_receipt_storage_unavailable");
        }
        Do(Persist(input));
      }
      r := PostStored(input);
    }

    /** Posts the stored intent once and deals with its answer. */
    method PostStored(input: Input) returns (r: Result<Outcome, string>)
      requires Valid() && Holds(world, me, input.order) && Has(world, input)
      modifies this`world, this`trace, this`faults, this`posted
      ensures Valid() && old(trace) <= trace && Holds(world, me, input.order)
      ensures posted == Some(input) && input in world.sent
      ensures NoFaults(old(faults)) ==> Answered(input, answer, r, world)
      ensures r.Ok? ==>
                && answer.Body? && ParseOutcome(answer.outcome) == Some(r.value)
                && input in world.settled && input.order !in world.storage
      ensures r.Err? ==> Has(world, input)
    {
      posted := Some(input);
      Do(Send(input.order));
      RunKeepsInv(start, trace);
      ForeignRunKeepsMine(me, world, meanwhile, input.order);
      Happen(meanwhile);
      match answer
      case Unconfirmed => return Err("cancel_transport_failed");
      case HttpError(code) => return Err(code);
      case Body(raw) =>
        var outcome := ParseOutcome(raw);
        if outcome.None? {
          return Err("invalid_cancel_ack");
        }
        var cleared := ClearPending(input, raw);
        return if cleared.Ok? then Ok(outcome.value) else Err(cleared.error);
    }
  }

  lemma {:induction false} SplitRun(w: World, a: seq<Event>, b: seq<Event>)
    ensures Run(w, a + b) == Run(Run(w, a), b)
    decreases |a|
  {
    if a == [] {
      assert a + b == b;
    } else {
      assert (a + b)[0] == a[0] && (a + b)[1..] == a[1..] + b;
      SplitRun(Step(w, a[0]), a[1..], b);
    }
  }
}
