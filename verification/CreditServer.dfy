/**
 The server side of a credit adjustment: one transaction per delivered request, a permanent
 receipt per request id, and an append-only ledger.  Requests may arrive lost, late, twice,
 or overtaken by a recovery that leaves an abort mark.
 */
module CreditServer {
  import opened Wrappers

  const MAX_SAFE: int := 9007199254740991

  datatype Adjustment = Adjustment(before: int, after: int, applied: int, requested: int, idempotent: bool)

  datatype Receipt =
    | CompletedReceipt(admin: nat, target: nat, delta: int, reason: string, result: Adjustment)
    | AbortedReceipt(admin: nat, target: nat)

  /** A profile; `credits` is None when the member row is missing. */
  datatype Account = Account(deleted: bool, credits: Option<nat>)

  /** What moves a balance: an adjustment, with its ledger entry, or anything else (a purchase, a use, a refund). */
  datatype Move =
    | Entry(id: nat, target: nat, delta: int, before: int, after: int)
    | Other(target: nat, amount: int)

  /** `moves` holds the ledger entries of all adjustments in order, and the other moves between them. */
  datatype Server = Server(admins: set<nat>, accounts: map<nat, Account>,
                           receipts: map<nat, Receipt>, moves: seq<Move>)

  datatype Request =
    | Apply(admin: nat, id: nat, target: nat, delta: int, reason: string)
    | Recover(admin: nat, id: nat, target: nat)

  datatype Reply =
    | Adjusted(result: Adjustment)
    | Found(result: Adjustment)
    | NotFoundAborted
    | Failure(code: string)

  /** `lotsOk` is false when the credit lots do not cover a deduction, which rolls it back. */
  datatype Delivery = Delivery(request: Request, lotsOk: bool)

  function Clamped(before: int, delta: int): int {
    if before + delta < 0 then 0 else before + delta
  }

  predicate SafeInteger(x: int) {
    -MAX_SAFE <= x <= MAX_SAFE
  }

  /** The check that both the route and the browser apply to a result. */
  predicate ValidAdjustment(r: Adjustment) {
    && SafeInteger(r.before) && SafeInteger(r.after) && SafeInteger(r.applied) && SafeInteger(r.requested)
    && r.before >= 0 && r.after >= 0
    && r.applied == r.after - r.before
    && -100 <= r.requested <= 100 && r.requested != 0
    && r.after == if r.requested > 0 then r.before + r.requested else Clamped(r.before, r.requested)
  }

  function HandleApply(s: Server, q: Request, lotsOk: bool): (Server, Reply)
    requires q.Apply?
  {
    if q.admin !in s.admins then (s, Failure("adjustment_unavailable"))
    else if q.delta < -100 || q.delta > 100 || q.delta == 0 || |q.reason| < 5 || |q.reason| > 500 then
      (s, Failure("invalid_fields"))
    else if q.id in s.receipts then
      var receipt := s.receipts[q.id];
      if receipt.admin != q.admin || receipt.target != q.target then (s, Failure("idempotency_conflict"))
      else if receipt.AbortedReceipt? then (s, Failure("request_aborted"))
      else if receipt.delta != q.delta || receipt.reason != q.reason then (s, Failure("idempotency_conflict"))
      else (s, Checked(receipt.result.(idempotent := true), q.delta))
    else if q.target !in s.accounts then (s, Failure("account_not_found"))
    else if s.accounts[q.target].deleted then (s, Failure("account_deleted"))
    else if s.accounts[q.target].credits.None? then (s, Failure("member_not_found"))
    else if q.delta < 0 && !lotsOk then (s, Failure("adjustment_unavailable"))
    else
      var before := s.accounts[q.target].credits.value;
      var after: nat := if q.delta > 0 then before + q.delta else before - Min(-q.delta, before);
      var result := Adjustment(before, after, after - before, q.delta, false);
      (s.(accounts := s.accounts[q.target := s.accounts[q.target].(credits := Some(after))],
          moves := s.moves + [Entry(q.id, q.target, q.delta, before, after)],
          receipts := s.receipts[q.id := CompletedReceipt(q.admin, q.target, q.delta, q.reason, result)]),
       Checked(result, q.delta))
  }

  function Min(a: int, b: int): int {
    if a < b then a else b
  }

  function Checked(r: Adjustment, delta: int): Reply {
    if ValidAdjustment(r) && r.requested == delta then Adjusted(r) else Failure("adjustment_unavailable")
  }

  function HandleRecover(s: Server, q: Request): (Server, Reply)
    requires q.Recover?
  {
    if q.admin !in s.admins then (s, Failure("adjustment_unavailable"))
    else if q.target !in s.accounts then (s, Failure("account_not_found"))
    else if q.id in s.receipts then
      var receipt := s.receipts[q.id];
      if receipt.admin != q.admin || receipt.target != q.target then (s, Failure("idempotency_conflict"))
      else if receipt.AbortedReceipt? then (s, NotFoundAborted)
      else if ValidAdjustment(receipt.result) then (s, Found(receipt.result.(idempotent := true)))
      else (s, Failure("adjustment_unavailable"))
    else
      (s.(receipts := s.receipts[q.id := AbortedReceipt(q.admin, q.target)]), NotFoundAborted)
  }

  function Handle(s: Server, d: Delivery): (Server, Reply) {
    if d.request.Apply? then HandleApply(s, d.request, d.lotsOk) else HandleRecover(s, d.request)
  }

  function Deliver(s: Server, d: Delivery): Server {
    Handle(s, d).0
  }

  /** Around the adjustments balances move, accounts are deleted or restored, and rights change. */
  datatype Event =
    | Arrives(delivery: Delivery)
    | Elsewhere(target: nat, amount: int)
    | Deletion(target: nat, deleted: bool)
    | Rights(admins: set<nat>)

  /** A balance never becomes negative, whoever moves it. */
  function MovedElsewhere(s: Server, t: nat, amount: int): Server {
    if t !in s.accounts || s.accounts[t].credits.None? || s.accounts[t].credits.value + amount < 0 then s
    else
      s.(accounts := s.accounts[t := s.accounts[t].(credits := Some(s.accounts[t].credits.value + amount))],
         moves := s.moves + [Other(t, amount)])
  }

  function Serve(s: Server, e: Event): Server {
    match e
    case Arrives(d) => Deliver(s, d)
    case Elsewhere(t, amount) => MovedElsewhere(s, t, amount)
    case Deletion(t, deleted) => if t in s.accounts then s.(accounts := s.accounts[t := s.accounts[t].(deleted := deleted)]) else s
    case Rights(admins) => s.(admins := admins)
  }

  function RunServer(s: Server, es: seq<Event>): Server
    decreases |es|
  {
    if es == [] then s else RunServer(Serve(s, es[0]), es[1..])
  }

  predicate Settled(s: Server, id: nat) {
    id in s.receipts
  }

  // ---------------------------------------------------------------- what is accepted

  /** What the server asks of a request whose id it has not seen. */
  predicate Acceptable(s: Server, admin: nat, target: nat, delta: int, reason: string, lotsOk: bool) {
    && admin in s.admins && -100 <= delta <= 100 && delta != 0 && 5 <= |reason| <= 500
    && target in s.accounts && !s.accounts[target].deleted && s.accounts[target].credits.Some?
    && (delta < 0 ==> lotsOk)
  }

  /** A new request moves the balance exactly if it is acceptable; then by delta, but not below zero. */
  lemma NewRequestMovesIff(s: Server, d: Delivery)
    requires d.request.Apply? && !Settled(s, d.request.id)
    ensures var q, s' := d.request, Deliver(s, d);
            && (s'.moves != s.moves <==> Acceptable(s, q.admin, q.target, q.delta, q.reason, d.lotsOk))
            && (s'.moves == s.moves ==> s' == s && Handle(s, d).1.Failure?)
            && (s'.moves != s.moves ==>
                  var before := s.accounts[q.target].credits.value;
                  var after: nat := if before + q.delta < 0 then 0 else before + q.delta;
                  && s'.accounts == s.accounts[q.target := Account(false, Some(after))]
                  && s'.moves == s.moves + [Entry(q.id, q.target, q.delta, before, after)]
                  && (before <= MAX_SAFE && after <= MAX_SAFE ==> Handle(s, d).1 == Adjusted(Adjustment(before, after, after - before, q.delta, false))))
  {
    if Deliver(s, d).moves != s.moves {
      assert Deliver(s, d).moves[|s.moves|].Entry?;
    }
  }

  /** Why a new request is refused. */
  lemma RefusalNamesReason(s: Server, d: Delivery)
    requires d.request.Apply? && !Settled(s, d.request.id) && Deliver(s, d).moves == s.moves
    ensures var q, reply := d.request, Handle(s, d).1;
            && (reply == Failure("invalid_fields") <==>
                  q.admin in s.admins && (q.delta < -100 || q.delta > 100 || q.delta == 0 || |q.reason| < 5 || |q.reason| > 500))
            && (reply == Failure("account_not_found") ==> q.target !in s.accounts)
            && (reply == Failure("account_deleted") ==> q.target in s.accounts && s.accounts[q.target].deleted)
            && (reply == Failure("member_not_found") ==> q.target in s.accounts && s.accounts[q.target].credits.None?)
            && (reply == Failure("adjustment_unavailable") ==> q.admin !in s.admins || (q.delta < 0 && !d.lotsOk))
            && reply.Failure?
            && reply.code in {"invalid_fields", "account_not_found", "account_deleted", "member_not_found", "adjustment_unavailable"}
  {
  }

  /** A settled id is answered from its receipt: to its own administrator, target and payload only. */
  lemma SettledAnswers(s: Server, d: Delivery)
    requires d.request.Apply? && Settled(s, d.request.id) && d.request.admin in s.admins
    requires Acceptable(s, d.request.admin, d.request.target, d.request.delta, d.request.reason, true)
    ensures var q, receipt := d.request, s.receipts[d.request.id];
            Handle(s, d).1 ==
              if receipt.admin != q.admin || receipt.target != q.target then Failure("idempotency_conflict")
              else match receipt
                case AbortedReceipt(_, _) => Failure("request_aborted")
                case CompletedReceipt(_, _, delta, reason, result) =>
                  if delta != q.delta || reason != q.reason then Failure("idempotency_conflict")
                  else if ValidAdjustment(result) && result.requested == q.delta then Adjusted(result.(idempotent := true))
                  else Failure("adjustment_unavailable")
  {
  }

  /** What a recovery is told of a receipt. */
  function KnownTo(q: Request, receipt: Receipt): Reply {
    if receipt.admin != q.admin || receipt.target != q.target then Failure("idempotency_conflict")
    else match receipt
      case AbortedReceipt(_, _) => NotFoundAborted
      case CompletedReceipt(_, _, _, _, result) =>
        if ValidAdjustment(result) then Found(result.(idempotent := true)) else Failure("adjustment_unavailable")
  }

  /**
   A recovery settles its id: what was applied is found, and what was not is aborted for good, so
   that the answer stays true.  It moves no balance.
   */
  lemma RecoverySettles(s: Server, d: Delivery)
    requires d.request.Recover? && d.request.admin in s.admins && d.request.target in s.accounts
    ensures var q, s' := d.request, Deliver(s, d);
            && Settled(s', q.id) && s'.moves == s.moves && s'.accounts == s.accounts
            && (!Settled(s, q.id) ==> s'.receipts[q.id] == AbortedReceipt(q.admin, q.target) && Handle(s, d).1 == NotFoundAborted)
    ensures Settled(s, d.request.id) ==> Deliver(s, d) == s && Handle(s, d).1 == KnownTo(d.request, s.receipts[d.request.id])
  {
  }

  // ---------------------------------------------------------------- exactly once

  /** What one move makes of the balance of its target. */
  function Moved(before: int, m: Move): int {
    if m.Entry? then Clamped(before, m.delta) else before + m.amount
  }

  /** Each move of target t applied once, in order, to the starting balance. */
  function Balance(start: int, moves: seq<Move>, t: nat): int
    decreases |moves|
  {
    if moves == [] then start
    else
      var n := |moves| - 1;
      var before := Balance(start, moves[..n], t);
      if moves[n].target == t then Moved(before, moves[n]) else before
  }

  ghost predicate UniqueIds(moves: seq<Move>) {
    forall i, k :: 0 <= i < k < |moves| && moves[i].Entry? && moves[k].Entry? ==> moves[i].id != moves[k].id
  }

  predicate EntryMatches(receipts: map<nat, Receipt>, e: Move)
    requires e.Entry?
  {
    && e.id in receipts
    && var r := receipts[e.id];
    && r.CompletedReceipt? && e.target == r.target && e.delta == r.delta == r.result.requested
    && e.before == r.result.before && e.after == r.result.after
  }

  predicate InLedger(moves: seq<Move>, id: nat) {
    exists i :: 0 <= i < |moves| && moves[i].Entry? && moves[i].id == id
  }

  /** Ledger entries and completed receipts say the same. */
  ghost predicate ReceiptsMatchLedger(s: Server) {
    && (forall i :: 0 <= i < |s.moves| && s.moves[i].Entry? ==> EntryMatches(s.receipts, s.moves[i]))
    && (forall id :: id in s.receipts && s.receipts[id].CompletedReceipt? ==> InLedger(s.moves, id))
  }

  function StartOf(init: Server, t: nat): int {
    if t in init.accounts && init.accounts[t].credits.Some? then init.accounts[t].credits.value else 0
  }

  ghost predicate BalancesMatch(init: Server, s: Server) {
    && s.accounts.Keys == init.accounts.Keys
    && forall t :: t in s.accounts ==>
         && s.accounts[t].credits.Some? == init.accounts[t].credits.Some?
         && (s.accounts[t].credits.Some? ==> s.accounts[t].credits.value == Balance(StartOf(init, t), s.moves, t))
  }

  /** Each entry starts from the balance that the moves before it had left. */
  ghost predicate EntriesChain(init: Server, moves: seq<Move>) {
    forall i :: 0 <= i < |moves| && moves[i].Entry? ==>
      && moves[i].before == Balance(StartOf(init, moves[i].target), moves[..i], moves[i].target)
      && moves[i].after == Clamped(moves[i].before, moves[i].delta)
  }

  ghost predicate ServerInv(init: Server, s: Server) {
    UniqueIds(s.moves) && ReceiptsMatchLedger(s) && BalancesMatch(init, s) && EntriesChain(init, s.moves)
  }

  predicate Fresh(s: Server) {
    s.receipts == map[] && s.moves == []
  }

  lemma AppendBalance(start: int, moves: seq<Move>, m: Move, t: nat)
    ensures Balance(start, moves + [m], t) ==
            if m.target == t then Moved(Balance(start, moves, t), m) else Balance(start, moves, t)
  {
    assert (moves + [m])[..|moves|] == moves;
  }

  lemma AppendChain(init: Server, moves: seq<Move>, m: Move)
    requires EntriesChain(init, moves)
    requires m.Entry? ==> m.before == Balance(StartOf(init, m.target), moves, m.target) && m.after == Clamped(m.before, m.delta)
    ensures EntriesChain(init, moves + [m])
  {
    forall i | 0 <= i < |moves|
      ensures (moves + [m])[..i] == moves[..i]
    {
    }
    assert (moves + [m])[..|moves|] == moves;
  }

  /** A transaction that moves one balance, by one move. */
  ghost predicate Appends(s: Server, s': Server, m: Move) {
    && m.target in s.accounts && s.accounts[m.target].credits.Some?
    && Moved(s.accounts[m.target].credits.value, m) >= 0
    && s'.accounts == s.accounts[m.target := s.accounts[m.target].(credits := Some(Moved(s.accounts[m.target].credits.value, m)))]
    && s'.moves == s.moves + [m]
    && (if m.Entry? then AppendsEntry(s, s', m) else s'.receipts == s.receipts)
  }

  /** An adjustment comes with a new id and a new receipt. */
  predicate AppendsEntry(s: Server, s': Server, m: Move)
    requires m.Entry? && m.target in s.accounts && s.accounts[m.target].credits.Some?
  {
    && m.id !in s.receipts
    && m.before == s.accounts[m.target].credits.value && m.after == Clamped(m.before, m.delta)
    && m.id in s'.receipts && s'.receipts == s.receipts[m.id := s'.receipts[m.id]]
    && EntryMatches(s'.receipts, m)
  }

  lemma AppendKeepsReceipts(s: Server, s': Server, m: Move)
    requires ReceiptsMatchLedger(s) && UniqueIds(s.moves) && Appends(s, s', m)
    ensures ReceiptsMatchLedger(s') && UniqueIds(s'.moves)
  {
    forall i | 0 <= i < |s.moves| && s.moves[i].Entry?
      ensures EntryMatches(s'.receipts, s.moves[i]) && (m.Entry? ==> s.moves[i].id != m.id)
    {
      assert EntryMatches(s.receipts, s.moves[i]);
    }
    forall id | id in s'.receipts && s'.receipts[id].CompletedReceipt?
      ensures InLedger(s'.moves, id)
    {
      if m.Entry? && id == m.id {
        assert s'.moves[|s.moves|].id == id;
      } else {
        assert InLedger(s.moves, id);
        var i :| 0 <= i < |s.moves| && s.moves[i].Entry? && s.moves[i].id == id;
        assert s'.moves[i].id == id;
      }
    }
  }

  lemma AppendKeepsBalances(init: Server, s: Server, s': Server, m: Move)
    requires BalancesMatch(init, s) && Appends(s, s', m)
    ensures BalancesMatch(init, s')
  {
    forall t | t in s'.accounts
      ensures s'.accounts[t].credits.Some? == init.accounts[t].credits.Some?
      ensures s'.accounts[t].credits.Some? ==>
                s'.accounts[t].credits.value == Balance(StartOf(init, t), s'.moves, t)
    {
      AppendBalance(StartOf(init, t), s.moves, m, t);
    }
  }

  lemma DeliveryAppends(s: Server, d: Delivery)
    ensures var s' := Deliver(s, d);
            || (exists m :: Appends(s, s', m))
            || (s'.accounts == s.accounts && s'.moves == s.moves
                && (s' == s || (d.request.id !in s.receipts
                                && s'.receipts == s.receipts[d.request.id := AbortedReceipt(d.request.admin, d.request.target)])))
  {
    var s' := Deliver(s, d);
    if s'.moves != s.moves {
      assert Appends(s, s', s'.moves[|s.moves|]);
    }
  }

  lemma MoveKeepsInv(init: Server, s: Server, s': Server, m: Move)
    requires ServerInv(init, s) && Appends(s, s', m)
    ensures ServerInv(init, s')
  {
    AppendKeepsReceipts(s, s', m);
    AppendKeepsBalances(init, s, s', m);
    AppendChain(init, s.moves, m);
  }

  lemma DeliveryKeepsInv(init: Server, s: Server, d: Delivery)
    requires ServerInv(init, s)
    ensures ServerInv(init, Deliver(s, d))
  {
    var s' := Deliver(s, d);
    DeliveryAppends(s, d);
    if m :| Appends(s, s', m) {
      MoveKeepsInv(init, s, s', m);
    } else if s' != s {
      forall i | 0 <= i < |s.moves| && s.moves[i].Entry?
        ensures EntryMatches(s'.receipts, s.moves[i])
      {
        assert EntryMatches(s.receipts, s.moves[i]);
      }
    }
  }

  lemma ServeKeepsInv(init: Server, s: Server, e: Event)
    requires ServerInv(init, s)
    ensures ServerInv(init, Serve(s, e))
  {
    match e
    case Arrives(d) => DeliveryKeepsInv(init, s, d);
    case Elsewhere(t, amount) =>
      if Serve(s, e) != s {
        MoveKeepsInv(init, s, Serve(s, e), Other(t, amount));
      }
    case _ =>
  }

  /**
   Over every sequence of deliveries and of changes around them each request id changes a balance
   at most once, the completed receipts are exactly the ledger entries, and every balance is the
   starting balance with each completed id, and each other move, applied once and in order.
   */
  lemma {:induction false} ExactlyOnce(init: Server, s: Server, es: seq<Event>)
    requires ServerInv(init, s)
    ensures ServerInv(init, RunServer(s, es))
    decreases |es|
  {
    if es != [] {
      ServeKeepsInv(init, s, es[0]);
      ExactlyOnce(init, Serve(s, es[0]), es[1..]);
    }
  }

  lemma FreshInv(s: Server)
    requires Fresh(s)
    ensures ServerInv(s, s)
  {
  }

  /** A receipt is permanent, and once it exists no request with that id changes any balance. */
  lemma SettledIsFrozen(s: Server, d: Delivery, id: nat)
    requires Settled(s, id)
    ensures Settled(Deliver(s, d), id) && Deliver(s, d).receipts[id] == s.receipts[id]
    ensures d.request.id == id ==> Deliver(s, d) == s
  {
  }

  lemma ServeKeepsSettled(s: Server, e: Event, id: nat)
    requires Settled(s, id)
    ensures Settled(Serve(s, e), id) && Serve(s, e).receipts[id] == s.receipts[id]
  {
    if e.Arrives? {
      SettledIsFrozen(s, e.delivery, id);
    }
  }

  lemma {:induction false} SettledForever(s: Server, es: seq<Event>, id: nat)
    requires Settled(s, id)
    ensures Settled(RunServer(s, es), id) && RunServer(s, es).receipts[id] == s.receipts[id]
    decreases |es|
  {
    if es != [] {
      ServeKeepsSettled(s, es[0], id);
      SettledForever(Serve(s, es[0]), es[1..], id);
    }
  }

  predicate IsDeliveryOf(e: Event, id: nat) {
    e.Arrives? && e.delivery.request.id == id
  }

  /** The number of deliveries of id that moved the balance of its target. */
  ghost function Movements(s: Server, es: seq<Event>, id: nat): nat
    decreases |es|
  {
    if es == [] then 0
    else (if IsDeliveryOf(es[0], id) && Serve(s, es[0]).moves != s.moves then 1 else 0)
         + Movements(Serve(s, es[0]), es[1..], id)
  }

  lemma {:induction false} AtMostOneMovement(s: Server, es: seq<Event>, id: nat)
    ensures Movements(s, es, id) <= if Settled(s, id) then 0 else 1
    decreases |es|
  {
    if es != [] {
      if Settled(s, id) {
        ServeKeepsSettled(s, es[0], id);
        if IsDeliveryOf(es[0], id) {
          SettledIsFrozen(s, es[0].delivery, id);
        }
      }
      AtMostOneMovement(Serve(s, es[0]), es[1..], id);
    }
  }

  /** A request that is delivered again is answered from its receipt. */
  lemma ReplayAnswersTheSame(s: Server, d: Delivery, again: Delivery)
    requires d.request.Apply? && Handle(s, d).1.Adjusted? && again.request == d.request
    ensures Deliver(Deliver(s, d), again) == Deliver(s, d)
    ensures Handle(Deliver(s, d), again).1 == Adjusted(Handle(s, d).1.result.(idempotent := true))
  {
  }
}
