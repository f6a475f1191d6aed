/**
 The serializer itself, on a heap of arrays and objects that may share parts and may be cyclic.
 One set of ancestors is changed in place along the recursion.
 */
module CanonicalHeap {
  import opened Wrappers
  import opened CanonicalText
  import opened CanonicalJson
  import opened CanonicalValue

  datatype Value =
    | UndefinedValue
    | NullValue
    | BoolValue(b: bool)
    | NumberValue(number: Number)
    | StringValue(text: Text)
    | Ref(id: nat)
    | OtherValue

  /** An array with its missing indices, a plain object, or an object of another class. */
  datatype Node = ArrayNode(items: seq<Option<Value>>) | PlainNode(fields: seq<(Text, Value)>) | ExoticNode

  type Heap = map<nat, Node>

  function At(h: Heap, id: nat): Node {
    if id in h then h[id] else ExoticNode
  }

  // ---------------------------------------------------------------- the tree below a value

  /** The tree below v, cut wherever a reference goes back into path. */
  function Unfold(h: Heap, v: Value, path: set<nat>): Js
    decreases |h.Keys - path|, 1
  {
    match v
    case UndefinedValue => Undefined
    case NullValue => Null
    case BoolValue(b) => Bool(b)
    case NumberValue(number) => Num(number)
    case StringValue(text) => Str(text)
    case OtherValue => NonJson
    case Ref(id) =>
      var node := At(h, id);
      if node.ExoticNode? then NonPlain
      else if id in path then Cycle
      else
        StepDown(h, path, id);
        match node
        case ArrayNode(items) => Arr(UnfoldItems(h, items, path + {id}))
        case PlainNode(fields) => Obj(UnfoldFields(h, fields, path + {id}))
  }

  function UnfoldItems(h: Heap, items: seq<Option<Value>>, path: set<nat>): seq<Js>
    decreases |h.Keys - path|, 2
  {
    seq(|items|, i requires 0 <= i < |items| => if items[i].None? then Hole else Unfold(h, items[i].value, path))
  }

  function UnfoldFields(h: Heap, fields: seq<(Text, Value)>, path: set<nat>): seq<(Text, Js)>
    decreases |h.Keys - path|, 2
  {
    seq(|fields|, i requires 0 <= i < |fields| => (fields[i].0, Unfold(h, fields[i].1, path)))
  }

  lemma StepDown(h: Heap, path: set<nat>, id: nat)
    requires id in h && id !in path
    ensures |h.Keys - (path + {id})| < |h.Keys - path|
  {
    assert h.Keys - (path + {id}) == (h.Keys - path) - {id};
  }

  // ---------------------------------------------------------------- joined texts

  function Join(texts: seq<Text>): Text {
    if texts == [] then []
    else if |texts| == 1 then texts[0]
    else texts[0] + [COMMA] + Join(texts[1..])
  }

  lemma {:induction false} JoinPrintsItems(js: seq<Json>, texts: seq<Text>)
    requires |texts| == |js| && forall i :: 0 <= i < |js| ==> texts[i] == Print(js[i])
    ensures Join(texts) == PrintItems(js)
    decreases |js|
  {
    if |js| > 1 {
      JoinPrintsItems(js[1..], texts[1..]);
    }
  }

  lemma {:induction false} JoinPrintsMembers(ms: seq<(Text, Json)>, texts: seq<Text>)
    requires |texts| == |ms| && forall i :: 0 <= i < |ms| ==> texts[i] == PrintMember(ms[i])
    ensures Join(texts) == PrintMembers(ms)
    decreases |ms|
  {
    if |ms| > 1 {
      JoinPrintsMembers(ms[1..], texts[1..]);
    }
  }

  lemma {:induction false} FirstItemError(rs: seq<Outcome>, k: nat)
    requires k < |rs| && rs[k].Err? && forall i :: 0 <= i < k ==> rs[i].Ok?
    ensures Collect(rs) == Err(rs[k].error)
    decreases k
  {
    if k > 0 {
      FirstItemError(rs[1..], k - 1);
    }
  }

  lemma {:induction false} FirstMemberError(es: seq<(Text, Outcome)>, k: nat)
    requires k < |es| && es[k].1.Err? && forall i :: 0 <= i < k ==> es[i].1.Ok?
    ensures CollectMembers(es) == Err(es[k].1.error)
    decreases k
  {
    if k > 0 {
      FirstMemberError(es[1..], k - 1);
    }
  }

  // ---------------------------------------------------------------- sorted fields

  function DefinedFields(fields: seq<(Text, Value)>): seq<(Text, Value)> {
    if fields == [] then []
    else if fields[0].1.UndefinedValue? then DefinedFields(fields[1..])
    else [fields[0]] + DefinedFields(fields[1..])
  }

  function OutcomeBelow(h: Heap, path: set<nat>): Value -> Outcome {
    (v: Value) => Denotes(Unfold(h, v, path))
  }

  lemma {:induction false} OutcomesOfFields(h: Heap, fields: seq<(Text, Value)>, path: set<nat>)
    ensures Outcomes(UnfoldFields(h, fields, path)) == Mapped(OutcomeBelow(h, path), DefinedFields(fields))
    decreases |fields|
  {
    var js := UnfoldFields(h, fields, path);
    if fields != [] {
      OutcomesOfFields(h, fields[1..], path);
      assert js[1..] == UnfoldFields(h, fields[1..], path);
      assert FieldOutcomes(js)[1..] == FieldOutcomes(js[1..]);
      assert FieldOutcomes(js)[0] == (fields[0].0, FieldOutcome(js[0]));
    }
  }

  /** Sorting the defined fields first and serializing them then visits the outcomes in order. */
  lemma SortedOutcomes(h: Heap, fields: seq<(Text, Value)>, path: set<nat>)
    ensures SortByKey(Outcomes(UnfoldFields(h, fields, path)))
            == Mapped(OutcomeBelow(h, path), SortByKey(DefinedFields(fields)))
  {
    OutcomesOfFields(h, fields, path);
    SortMapped(OutcomeBelow(h, path), DefinedFields(fields));
  }

  // ---------------------------------------------------------------- the serializer

  class Serializer {
    const heap: Heap
    var ancestors: set<nat>

    constructor (heap: Heap)
      ensures this.heap == heap && ancestors == {}
    {
      this.heap := heap;
      ancestors := {};
    }

    /**
     The text of the tree below v, or its first error.  The ancestors are the same again
     afterwards, whether the call returns a text or an error.
     */
    method CanonicalJson(v: Value) returns (r: Result<Text, Error>)
      modifies this
      ensures ancestors == old(ancestors)
      ensures r == Canonical(Unfold(heap, v, ancestors))
      decreases |heap.Keys - ancestors|, 1
    {
      match v
      case NullValue => return Ok(NULL_TEXT);
      case StringValue(text) => return Ok(Quote(text));
      case BoolValue(b) => return Ok(if b then TRUE_TEXT else FALSE_TEXT);
      case NumberValue(number) =>
        match number {
          case NonFinite => return Err(NonFiniteInput);
          case NegativeZero => return Ok(ZERO);
          case Finite(token) => return Ok(token);
        }
      case Ref(id) =>
        match At(heap, id) {
          case ArrayNode(items) =>
            if id in ancestors {
              return Err(CircularInput);
            }
            r := SerializeArray(id, items);
          case PlainNode(fields) =>
            if id in ancestors {
              return Err(CircularInput);
            }
            r := SerializeObject(id, fields);
          case ExoticNode => return Err(NonPlainInput);
        }
      case _ => return Err(NonJsonInput);
    }

    method SerializeArray(id: nat, items: seq<Option<Value>>) returns (r: Result<Text, Error>)
      requires At(heap, id) == ArrayNode(items) && id !in ancestors
      modifies this
      ensures ancestors == old(ancestors)
      ensures r == Canonical(Unfold(heap, Ref(id), ancestors))
      decreases |heap.Keys - ancestors|, 0
    {
      StepDown(heap, ancestors, id);
      ancestors := ancestors + {id};
      ghost var path := ancestors;
      var texts: seq<Text>, index := [], 0;
      while index < |items|
        invariant 0 <= index == |texts| <= |items| && ancestors == path
        invariant forall i :: 0 <= i < index ==> IsItemText(heap, items[i], path, texts[i])
      {
        if items[index].None? {
          ArrayFails(heap, items, path, texts, SparseInput);
          ancestors := ancestors - {id};
          return Err(SparseInput);
        }
        var item := CanonicalJson(items[index].value);
        if item.Err? {
          ArrayFails(heap, items, path, texts, item.error);
          ancestors := ancestors - {id};
          return Err(item.error);
        }
        texts := texts + [item.value];
        index := index + 1;
      }
      ArrayPrints(heap, items, path, texts);
      ancestors := ancestors - {id};
      return Ok([LBRACKET] + Join(texts) + [RBRACKET]);
    }

    method SerializeObject(id: nat, fields: seq<(Text, Value)>) returns (r: Result<Text, Error>)
      requires At(heap, id) == PlainNode(fields) && id !in ancestors
      modifies this
      ensures ancestors == old(ancestors)
      ensures r == Canonical(Unfold(heap, Ref(id), ancestors))
      decreases |heap.Keys - ancestors|, 0
    {
      StepDown(heap, ancestors, id);
      ancestors := ancestors + {id};
      var sorted := SortByKey(DefinedFields(fields));
      ghost var path := ancestors;
      var pairs: seq<Text>, index := [], 0;
      while index < |sorted|
        invariant 0 <= index == |pairs| <= |sorted| && ancestors == path
        invariant forall i :: 0 <= i < index ==> IsMemberText(heap, sorted[i], path, pairs[i])
      {
        var value := CanonicalJson(sorted[index].1);
        if value.Err? {
          ObjectFails(heap, fields, path, pairs, value.error);
          ancestors := ancestors - {id};
          return Err(value.error);
        }
        pairs := pairs + [Quote(sorted[index].0) + ([COLON] + value.value)];
        index := index + 1;
      }
      ObjectPrints(heap, fields, path, pairs);
      ancestors := ancestors - {id};
      return Ok([LBRACE] + Join(pairs) + [RBRACE]);
    }
  }

  // ---------------------------------------------------------------- one array, one object

  function ItemOutcome(h: Heap, item: Option<Value>, path: set<nat>): Outcome {
    if item.None? then Err(SparseInput) else Denotes(Unfold(h, item.value, path))
  }

  predicate IsItemText(h: Heap, item: Option<Value>, path: set<nat>, text: Text) {
    var outcome := ItemOutcome(h, item, path);
    outcome.Ok? && text == Print(outcome.value)
  }

  function ItemOutcomes(h: Heap, items: seq<Option<Value>>, path: set<nat>): seq<Outcome> {
    seq(|items|, i requires 0 <= i < |items| => ItemOutcome(h, items[i], path))
  }

  lemma ArrayOutcomes(h: Heap, items: seq<Option<Value>>, path: set<nat>)
    ensures Denotes(Arr(UnfoldItems(h, items, path)))
            == match Collect(ItemOutcomes(h, items, path)) case Ok(js) => Ok(JArr(js)) case Err(e) => Err(e)
  {
    var js := UnfoldItems(h, items, path);
    assert seq(|js|, i requires 0 <= i < |js| => Denotes(js[i])) == ItemOutcomes(h, items, path);
  }

  lemma ArrayPrints(h: Heap, items: seq<Option<Value>>, path: set<nat>, texts: seq<Text>)
    requires |texts| == |items| && forall i :: 0 <= i < |items| ==> IsItemText(h, items[i], path, texts[i])
    ensures Canonical(Arr(UnfoldItems(h, items, path))) == Ok([LBRACKET] + Join(texts) + [RBRACKET])
  {
    ArrayOutcomes(h, items, path);
    var outcomes := ItemOutcomes(h, items, path);
    CollectIsPointwise(outcomes);
    JoinPrintsItems(Collect(outcomes).value, texts);
  }

  lemma ArrayFails(h: Heap, items: seq<Option<Value>>, path: set<nat>, texts: seq<Text>, error: Error)
    requires |texts| < |items| && forall i :: 0 <= i < |texts| ==> IsItemText(h, items[i], path, texts[i])
    requires ItemOutcome(h, items[|texts|], path) == Err(error)
    ensures Canonical(Arr(UnfoldItems(h, items, path))) == Err(error)
  {
    ArrayOutcomes(h, items, path);
    var outcomes := ItemOutcomes(h, items, path);
    forall i | 0 <= i < |texts|
      ensures outcomes[i].Ok?
    {
      assert IsItemText(h, items[i], path, texts[i]);
    }
    FirstItemError(outcomes, |texts|);
  }

  predicate IsMemberText(h: Heap, field: (Text, Value), path: set<nat>, text: Text) {
    var outcome := Denotes(Unfold(h, field.1, path));
    outcome.Ok? && text == PrintMember((field.0, outcome.value))
  }

  lemma ObjectPrints(h: Heap, fields: seq<(Text, Value)>, path: set<nat>, pairs: seq<Text>)
    requires var sorted := SortByKey(DefinedFields(fields));
             |pairs| == |sorted| && forall i :: 0 <= i < |sorted| ==> IsMemberText(h, sorted[i], path, pairs[i])
    ensures Canonical(Obj(UnfoldFields(h, fields, path))) == Ok([LBRACE] + Join(pairs) + [RBRACE])
  {
    SortedOutcomes(h, fields, path);
    var outcomes := Mapped(OutcomeBelow(h, path), SortByKey(DefinedFields(fields)));
    MembersArePointwise(outcomes);
    JoinPrintsMembers(CollectMembers(outcomes).value, pairs);
  }

  lemma ObjectFails(h: Heap, fields: seq<(Text, Value)>, path: set<nat>, pairs: seq<Text>, error: Error)
    requires var sorted := SortByKey(DefinedFields(fields));
             && |pairs| < |sorted| && (forall i :: 0 <= i < |pairs| ==> IsMemberText(h, sorted[i], path, pairs[i]))
             && Denotes(Unfold(h, sorted[|pairs|].1, path)) == Err(error)
    ensures Canonical(Obj(UnfoldFields(h, fields, path))) == Err(error)
  {
    SortedOutcomes(h, fields, path);
    var sorted := SortByKey(DefinedFields(fields));
    var outcomes := Mapped(OutcomeBelow(h, path), sorted);
    forall i | 0 <= i < |pairs|
      ensures outcomes[i].1.Ok?
    {
      assert IsMemberText(h, sorted[i], path, pairs[i]);
    }
    FirstMemberError(outcomes, |pairs|);
  }

  // ---------------------------------------------------------------- which error

  /** The error e lies somewhere in the tree, and a serializer would come across it. */
  predicate Faulty(v: Js, e: Error)
    decreases v
  {
    match v
    case Arr(items) => exists i :: 0 <= i < |items| && Faulty(items[i], e)
    case Obj(fields) => exists i :: 0 <= i < |fields| && !fields[i].1.Undefined? && FaultyField(fields[i], e)
    case _ => Denotes(v) == Err(e)
  }

  predicate FaultyField(field: (Text, Js), e: Error)
    decreases field
  {
    Faulty(field.1, e)
  }

  lemma {:induction false} ItemErrorIsOneOf(rs: seq<Outcome>)
    requires Collect(rs).Err?
    ensures exists i :: 0 <= i < |rs| && rs[i] == Err(Collect(rs).error)
    decreases |rs|
  {
    if rs[0].Ok? {
      ItemErrorIsOneOf(rs[1..]);
      var i :| 0 <= i < |rs[1..]| && rs[1..][i] == Err(Collect(rs).error);
      assert rs[i + 1] == Err(Collect(rs).error);
    } else {
      assert rs[0] == Err(Collect(rs).error);
    }
  }

  lemma {:induction false} MemberErrorIsOneOf(es: seq<(Text, Outcome)>)
    requires CollectMembers(es).Err?
    ensures exists i :: 0 <= i < |es| && es[i].1 == Err(CollectMembers(es).error)
    decreases |es|
  {
    if es[0].1.Ok? {
      MemberErrorIsOneOf(es[1..]);
      var i :| 0 <= i < |es[1..]| && es[1..][i].1 == Err(CollectMembers(es).error);
      assert es[i + 1].1 == Err(CollectMembers(es).error);
    } else {
      assert es[0].1 == Err(CollectMembers(es).error);
    }
  }

  lemma {:induction false} ErrorIsAFault(v: Js)
    requires Proper(v) && Denotes(v).Err?
    ensures Faulty(v, Denotes(v).error)
    decreases v, 1
  {
    match v
    case Arr(items) =>
      var rs := seq(|items|, i requires 0 <= i < |items| => Denotes(items[i]));
      ItemErrorIsOneOf(rs);
      var i :| 0 <= i < |rs| && rs[i] == Err(Collect(rs).error);
      ErrorIsAFault(items[i]);
    case Obj(fields) =>
      OutcomesDistinct(fields);
      SortMembers(Outcomes(fields));
      var es := SortByKey(Outcomes(fields));
      MemberErrorIsOneOf(es);
      var m :| 0 <= m < |es| && es[m].1 == Err(CollectMembers(es).error);
      assert es[m] in es;
      OutcomeMembers(fields, es[m]);
      var i :| 0 <= i < |fields| && fields[i].0 == es[m].0 && !fields[i].1.Undefined? && Denotes(fields[i].1) == es[m].1;
      FieldErrorIsAFault(fields[i]);
    case _ =>
  }

  lemma {:induction false} FieldErrorIsAFault(field: (Text, Js))
    requires ProperField(field) && Denotes(field.1).Err?
    ensures FaultyField(field, Denotes(field.1).error)
    decreases field
  {
    ErrorIsAFault(field.1);
  }

  lemma {:induction false} FaultIsAnError(v: Js, e: Error)
    requires Proper(v) && Faulty(v, e)
    ensures Denotes(v).Err?
    decreases v, 1
  {
    match v
    case Arr(items) =>
      var rs := seq(|items|, i requires 0 <= i < |items| => Denotes(items[i]));
      var i :| 0 <= i < |items| && Faulty(items[i], e);
      FaultIsAnError(items[i], e);
      CollectIsPointwise(rs);
      assert rs[i].Err?;
    case Obj(fields) =>
      var i :| 0 <= i < |fields| && !fields[i].1.Undefined? && FaultyField(fields[i], e);
      FieldFaultIsAnError(fields[i], e);
      if Denotes(v).Ok? {
        ObjectFieldsDenote(fields, i);
      }
    case _ =>
  }

  lemma {:induction false} FieldFaultIsAnError(field: (Text, Js), e: Error)
    requires ProperField(field) && FaultyField(field, e)
    ensures Denotes(field.1).Err?
    decreases field
  {
    FaultIsAnError(field.1, e);
  }

  // ---------------------------------------------------------------- circular exactly on a revisit

  predicate HoldsItem(items: seq<Option<Value>>, v: Value) {
    exists i :: 0 <= i < |items| && items[i] == Some(v)
  }

  predicate HoldsField(fields: seq<(Text, Value)>, v: Value) {
    exists i :: 0 <= i < |fields| && fields[i].1 == v
  }

  predicate Contains(node: Node, v: Value) {
    match node
    case ArrayNode(items) => HoldsItem(items, v)
    case PlainNode(fields) => HoldsField(fields, v)
    case ExoticNode => false
  }

  /** p names nested arrays and objects, starting at v. */
  ghost predicate Walk(h: Heap, v: Value, p: seq<nat>) {
    && p != [] && v == Ref(p[0])
    && forall i :: 0 <= i < |p| - 1 ==> Contains(At(h, p[i]), Ref(p[i + 1]))
  }

  ghost predicate Repeats(p: seq<nat>) {
    exists i, k :: 0 <= i < k < |p| && p[i] == p[k]
  }

  /** Some path from v comes back to one of its own ancestors. */
  ghost predicate Revisits(h: Heap, v: Value) {
    exists p :: Walk(h, v, p) && Repeats(p)
  }

  lemma WalkFurther(h: Heap, id: nat, child: Value, q: seq<nat>)
    requires Contains(At(h, id), child) && Walk(h, child, q)
    ensures Walk(h, Ref(id), [id] + q) && (Repeats(q) ==> Repeats([id] + q))
    ensures q[|q| - 1] == id ==> Repeats([id] + q)
  {
    var p := [id] + q;
    forall i | 0 <= i < |p| - 1
      ensures Contains(At(h, p[i]), Ref(p[i + 1]))
    {
      if i > 0 {
        assert p[i] == q[i - 1] && p[i + 1] == q[i];
      }
    }
    if Repeats(q) {
      var i, k :| 0 <= i < k < |q| && q[i] == q[k];
      assert p[i + 1] == p[k + 1];
    }
    if q[|q| - 1] == id {
      assert p[0] == p[|q|];
    }
  }

  lemma CycleBelow(h: Heap, id: nat, path: set<nat>) returns (child: Value)
    requires id !in path && Faulty(Unfold(h, Ref(id), path), CircularInput)
    ensures id in h && Contains(At(h, id), child)
    ensures Faulty(Unfold(h, child, path + {id}), CircularInput)
  {
    StepDown(h, path, id);
    if At(h, id).ArrayNode? {
      var items := At(h, id).items;
      var js := UnfoldItems(h, items, path + {id});
      var i :| 0 <= i < |js| && Faulty(js[i], CircularInput);
      child := items[i].value;
      assert items[i] == Some(child);
    } else {
      var fields := At(h, id).fields;
      var js := UnfoldFields(h, fields, path + {id});
      var i :| 0 <= i < |js| && !js[i].1.Undefined? && FaultyField(js[i], CircularInput);
      child := fields[i].1;
      assert js[i].1 == Unfold(h, child, path + {id});
    }
  }

  lemma CycleIsRef(h: Heap, v: Value, path: set<nat>)
    requires Faulty(Unfold(h, v, path), CircularInput)
    ensures v.Ref? && v.id in h && (v.id in path || Faulty(Unfold(h, Ref(v.id), path), CircularInput))
  {
  }

  lemma {:induction false} CycleHasWalk(h: Heap, v: Value, path: set<nat>) returns (p: seq<nat>)
    requires Faulty(Unfold(h, v, path), CircularInput)
    ensures Walk(h, v, p) && (p[|p| - 1] in path || Repeats(p))
    decreases |h.Keys - path|
  {
    CycleIsRef(h, v, path);
    var id := v.id;
    if id in path {
      p := [id];
    } else {
      var child := CycleBelow(h, id, path);
      StepDown(h, path, id);
      var q := CycleHasWalk(h, child, path + {id});
      WalkFurther(h, id, child, q);
      p := [id] + q;
      assert p[|p| - 1] == q[|q| - 1];
    }
  }

  lemma {:induction false} WalkHasCycle(h: Heap, v: Value, path: set<nat>, p: seq<nat>)
    requires Walk(h, v, p) && (p[|p| - 1] in path || Repeats(p))
    requires forall id :: id in path ==> !At(h, id).ExoticNode?
    ensures Faulty(Unfold(h, v, path), CircularInput)
    decreases |p|
  {
    var id := p[0];
    if id !in path {
      var q := p[1..];
      if k :| 0 < k < |p| && p[k] == id {
        q := p[1..k + 1];
      } else if Repeats(p) {
        var i, k :| 0 <= i < k < |p| && p[i] == p[k];
        assert q[i - 1] == q[k - 1];
      }
      assert Contains(At(h, p[0]), Ref(p[1]));
      forall i | 0 <= i < |q| - 1
        ensures Contains(At(h, q[i]), Ref(q[i + 1]))
      {
        assert q[i] == p[i + 1] && q[i + 1] == p[i + 2];
      }
      StepDown(h, path, id);
      WalkHasCycle(h, Ref(p[1]), path + {id}, q);
      match At(h, id)
      case ArrayNode(items) =>
        var i :| 0 <= i < |items| && items[i] == Some(Ref(p[1]));
        assert Faulty(UnfoldItems(h, items, path + {id})[i], CircularInput);
      case PlainNode(fields) =>
        var i :| 0 <= i < |fields| && fields[i].1 == Ref(p[1]);
        assert FaultyField(UnfoldFields(h, fields, path + {id})[i], CircularInput);
    }
  }

  ghost predicate ProperHeap(h: Heap) {
    forall id :: id in h ==>
      match h[id]
      case ArrayNode(items) => forall i :: 0 <= i < |items| && items[i].Some? ==> ProperValue(items[i].value)
      case PlainNode(fields) =>
        DistinctKeys(fields) && forall i :: 0 <= i < |fields| ==> Units(fields[i].0) && ProperValue(fields[i].1)
      case ExoticNode => true
  }

  predicate ProperValue(v: Value) {
    match v
    case NumberValue(Finite(token)) => IsToken(token)
    case StringValue(text) => Units(text)
    case _ => true
  }

  lemma {:induction false} UnfoldIsProper(h: Heap, v: Value, path: set<nat>)
    requires ProperHeap(h) && ProperValue(v)
    ensures Proper(Unfold(h, v, path))
    decreases |h.Keys - path|
  {
    if v.Ref? && !At(h, v.id).ExoticNode? && v.id !in path {
      StepDown(h, path, v.id);
      var below := path + {v.id};
      match At(h, v.id)
      case ArrayNode(items) =>
        forall i | 0 <= i < |items|
          ensures Proper(UnfoldItems(h, items, below)[i])
        {
          if items[i].Some? {
            UnfoldIsProper(h, items[i].value, below);
          }
        }
      case PlainNode(fields) =>
        forall i | 0 <= i < |fields|
          ensures ProperField(UnfoldFields(h, fields, below)[i])
        {
          UnfoldIsProper(h, fields[i].1, below);
        }
    }
  }

  /**
   A circular error means that some path from the root comes back to its own ancestor; such a
   path always ends in an error.  Sharing alone is never an error.
   */
  lemma CircularOnlyOnRevisit(h: Heap, v: Value)
    requires ProperHeap(h) && ProperValue(v)
    ensures Canonical(Unfold(h, v, {})) == Err(CircularInput) ==> Revisits(h, v)
    ensures Revisits(h, v) ==> Canonical(Unfold(h, v, {})).Err?
  {
    UnfoldIsProper(h, v, {});
    var js := Unfold(h, v, {});
    if Canonical(js) == Err(CircularInput) {
      ErrorIsAFault(js);
      var p := CycleHasWalk(h, v, {});
    }
    if Revisits(h, v) {
      var p :| Walk(h, v, p) && Repeats(p);
      WalkHasCycle(h, v, {}, p);
      FaultIsAnError(js, CircularInput);
    }
  }

  /** Nothing but a cycle can stop the serializer. */
  predicate PlainValue(v: Value) {
    !v.OtherValue? && !v.UndefinedValue? && (v.NumberValue? ==> !v.number.NonFinite?)
  }

  ghost predicate PlainHeap(h: Heap) {
    forall id :: id in h ==>
      match h[id]
      case ArrayNode(items) => forall i :: 0 <= i < |items| ==> items[i].Some? && PlainEdge(h, items[i].value)
      case PlainNode(fields) =>
        forall i :: 0 <= i < |fields| ==> fields[i].1.UndefinedValue? || PlainEdge(h, fields[i].1)
      case ExoticNode => false
  }

  predicate PlainEdge(h: Heap, v: Value) {
    PlainValue(v) && (v.Ref? ==> v.id in h)
  }

  lemma {:induction false} PlainFaultsAreCycles(h: Heap, v: Value, path: set<nat>, e: Error)
    requires PlainHeap(h) && PlainEdge(h, v) && Faulty(Unfold(h, v, path), e)
    ensures e == CircularInput
    decreases |h.Keys - path|
  {
    if v.Ref? && v.id !in path {
      StepDown(h, path, v.id);
      var below := path + {v.id};
      match At(h, v.id)
      case ArrayNode(items) =>
        var js := UnfoldItems(h, items, below);
        var i :| 0 <= i < |js| && Faulty(js[i], e);
        PlainFaultsAreCycles(h, items[i].value, below, e);
      case PlainNode(fields) =>
        var js := UnfoldFields(h, fields, below);
        var i :| 0 <= i < |js| && !js[i].1.Undefined? && FaultyField(js[i], e);
        assert js[i].1 == Unfold(h, fields[i].1, below);
        PlainFaultsAreCycles(h, fields[i].1, below, e);
    }
  }

  /** On otherwise serializable heaps: circular exactly on a revisit, a text exactly without one. */
  lemma CircularIffRevisit(h: Heap, v: Value)
    requires ProperHeap(h) && ProperValue(v) && PlainHeap(h) && PlainEdge(h, v)
    ensures Canonical(Unfold(h, v, {})) == Err(CircularInput) <==> Revisits(h, v)
    ensures Canonical(Unfold(h, v, {})).Ok? <==> !Revisits(h, v)
  {
    CircularOnlyOnRevisit(h, v);
    UnfoldIsProper(h, v, {});
    var js := Unfold(h, v, {});
    if Denotes(js).Err? {
      ErrorIsAFault(js);
      PlainFaultsAreCycles(h, v, {}, Denotes(js).error);
    }
  }
}
