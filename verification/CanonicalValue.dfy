/**
 The value that a canonical serialization denotes: which inputs have one, and why two inputs
 have the same one exactly when they are the same up to key order, undefined fields and the
 sign of zero.
 */
module CanonicalValue {
  import opened Wrappers
  import opened CanonicalText
  import opened CanonicalJson

  /** A number is known by the text JSON prints for it, except for the sign of zero. */
  datatype Number = NonFinite | NegativeZero | Finite(token: Text)

  /** A JavaScript value, unfolded into a tree. */
  datatype Js =
    | Undefined
    | Null
    | Bool(b: bool)
    | Num(number: Number)
    | Str(text: Text)
    | Arr(items: seq<Js>)
    | Obj(fields: seq<(Text, Js)>)
    | Hole       // a missing array index
    | NonPlain   // an object with another prototype
    | NonJson    // a function, symbol or bigint
    | Cycle      // a reference back to an enclosing array or object

  datatype Error = NonFiniteInput | CircularInput | SparseInput | NonPlainInput | NonJsonInput

  type Outcome = Result<Json, Error>

  // ---------------------------------------------------------------- the denoted value

  /** The outcomes in order, or the first error among them. */
  function Collect<T>(rs: seq<Result<T, Error>>): Result<seq<T>, Error> {
    if rs == [] then Ok([])
    else if rs[0].Err? then Err(rs[0].error)
    else
      var rest := Collect(rs[1..]);
      if rest.Err? then Err(rest.error) else Ok([rs[0].value] + rest.value)
  }

  function CollectMembers(es: seq<(Text, Outcome)>): Result<seq<(Text, Json)>, Error> {
    if es == [] then Ok([])
    else if es[0].1.Err? then Err(es[0].1.error)
    else
      var rest := CollectMembers(es[1..]);
      if rest.Err? then Err(rest.error) else Ok([(es[0].0, es[0].1.value)] + rest.value)
  }

  /** Fields whose value is not undefined. */
  function Defined(fields: seq<(Text, Option<Outcome>)>): seq<(Text, Outcome)> {
    if fields == [] then []
    else if fields[0].1.None? then Defined(fields[1..])
    else [(fields[0].0, fields[0].1.value)] + Defined(fields[1..])
  }

  function Denotes(v: Js): Outcome {
    match v
    case Null => Ok(JNull)
    case Bool(b) => Ok(JBool(b))
    case Num(NonFinite) => Err(NonFiniteInput)
    case Num(NegativeZero) => Ok(JNum(ZERO))
    case Num(Finite(token)) => Ok(JNum(token))
    case Str(text) => Ok(JStr(text))
    case Arr(items) =>
      (match Collect(seq(|items|, i requires 0 <= i < |items| => Denotes(items[i])))
       case Ok(js) => Ok(JArr(js))
       case Err(e) => Err(e))
    case Obj(fields) =>
      (match CollectMembers(SortByKey(Defined(FieldOutcomes(fields))))
       case Ok(ms) => Ok(JObj(ms))
       case Err(e) => Err(e))
    case Hole => Err(SparseInput)
    case NonPlain => Err(NonPlainInput)
    case Cycle => Err(CircularInput)
    case _ => Err(NonJsonInput)
  }

  function FieldOutcomes(fields: seq<(Text, Js)>): seq<(Text, Option<Outcome>)> {
    seq(|fields|, i requires 0 <= i < |fields| => (fields[i].0, FieldOutcome(fields[i])))
  }

  function FieldOutcome(field: (Text, Js)): Option<Outcome> {
    if field.1.Undefined? then None else Some(Denotes(field.1))
  }

  /** The canonical text, or the first error met. */
  function Canonical(v: Js): Result<Text, Error> {
    match Denotes(v)
    case Ok(j) => Ok(Print(j))
    case Err(e) => Err(e)
  }

  // ---------------------------------------------------------------- the same value

  predicate SameNumber(a: Number, b: Number) {
    a == b || ((a.NegativeZero? || a == Finite(ZERO)) && (b.NegativeZero? || b == Finite(ZERO)))
  }

  /** Equal after dropping undefined fields, ignoring key order and the sign of zero. */
  predicate Same(a: Js, b: Js)
    decreases a
  {
    match (a, b)
    case (Null, Null) => true
    case (Bool(x), Bool(y)) => x == y
    case (Num(x), Num(y)) => SameNumber(x, y)
    case (Str(x), Str(y)) => x == y
    case (Arr(x), Arr(y)) => |x| == |y| && forall i :: 0 <= i < |x| ==> Same(x[i], y[i])
    case (Obj(x), Obj(y)) =>
      && (forall i :: 0 <= i < |x| && !x[i].1.Undefined? ==>
            exists k :: 0 <= k < |y| && y[k].0 == x[i].0 && SameField(x[i], y[k]))
      && (forall k :: 0 <= k < |y| && !y[k].1.Undefined? ==>
            exists i :: 0 <= i < |x| && x[i].0 == y[k].0 && !x[i].1.Undefined?)
    case _ => false
  }

  predicate SameField(a: (Text, Js), b: (Text, Js))
    decreases a
  {
    Same(a.1, b.1)
  }

  /** An object's keys are distinct, strings are code units, numbers are printed numbers. */
  predicate Proper(v: Js) {
    match v
    case Num(Finite(token)) => IsToken(token)
    case Str(text) => Units(text)
    case Arr(items) => forall i :: 0 <= i < |items| ==> Proper(items[i])
    case Obj(fields) => DistinctKeys(fields) && forall i :: 0 <= i < |fields| ==> ProperField(fields[i])
    case _ => true
  }

  predicate ProperField(field: (Text, Js)) {
    Units(field.0) && Proper(field.1)
  }

  // ---------------------------------------------------------------- lists of outcomes

  lemma {:induction false} CollectIsPointwise<T>(rs: seq<Result<T, Error>>)
    ensures Collect(rs).Ok? <==> forall i :: 0 <= i < |rs| ==> rs[i].Ok?
    ensures Collect(rs).Ok? ==> |Collect(rs).value| == |rs|
    ensures Collect(rs).Ok? ==> forall i :: 0 <= i < |rs| ==> Collect(rs).value[i] == rs[i].value
    decreases |rs|
  {
    if rs != [] {
      CollectIsPointwise(rs[1..]);
      assert rs == [rs[0]] + rs[1..];
    }
  }

  lemma {:induction false} MembersArePointwise(es: seq<(Text, Outcome)>)
    ensures CollectMembers(es).Ok? <==> forall i :: 0 <= i < |es| ==> es[i].1.Ok?
    ensures CollectMembers(es).Ok? ==> |CollectMembers(es).value| == |es|
    ensures CollectMembers(es).Ok? ==>
              forall i :: 0 <= i < |es| ==> CollectMembers(es).value[i] == (es[i].0, es[i].1.value)
    decreases |es|
  {
    if es != [] {
      MembersArePointwise(es[1..]);
      assert es == [es[0]] + es[1..];
    }
  }

  lemma {:induction false} MembersInjective(xs: seq<(Text, Outcome)>, ys: seq<(Text, Outcome)>)
    requires CollectMembers(xs).Ok? && CollectMembers(ys) == CollectMembers(xs)
    ensures xs == ys
  {
    MembersArePointwise(xs);
    MembersArePointwise(ys);
    forall i | 0 <= i < |xs|
      ensures xs[i] == ys[i]
    {
      assert CollectMembers(xs).value[i] == CollectMembers(ys).value[i];
    }
  }

  lemma {:induction false} DefinedMembers(fs: seq<(Text, Option<Outcome>)>, e: (Text, Outcome))
    ensures e in Defined(fs) <==> (e.0, Some(e.1)) in fs
    decreases |fs|
  {
    if fs != [] {
      DefinedMembers(fs[1..], e);
      assert fs == [fs[0]] + fs[1..];
    }
  }

  lemma {:induction false} DefinedIsDistinct(fs: seq<(Text, Option<Outcome>)>)
    requires DistinctKeys(fs)
    ensures DistinctKeys(Defined(fs))
    decreases |fs|
  {
    if fs != [] && fs[0].1.Some? {
      DefinedIsDistinct(fs[1..]);
      var rest := Defined(fs[1..]);
      forall k | 0 <= k < |rest|
        ensures rest[k].0 != fs[0].0
      {
        DefinedMembers(fs[1..], rest[k]);
      }
    } else if fs != [] {
      DefinedIsDistinct(fs[1..]);
    }
  }

  /** The outcomes of an object's defined fields. */
  function Outcomes(fields: seq<(Text, Js)>): seq<(Text, Outcome)> {
    Defined(FieldOutcomes(fields))
  }

  ghost predicate HasOutcome(fields: seq<(Text, Js)>, e: (Text, Outcome)) {
    exists i :: 0 <= i < |fields| && fields[i].0 == e.0 && !fields[i].1.Undefined? && Denotes(fields[i].1) == e.1
  }

  lemma OutcomeMembers(fields: seq<(Text, Js)>, e: (Text, Outcome))
    ensures e in Outcomes(fields) <==> HasOutcome(fields, e)
  {
    DefinedMembers(FieldOutcomes(fields), e);
    if e in Outcomes(fields) {
      var i :| 0 <= i < |fields| && FieldOutcomes(fields)[i] == (e.0, Some(e.1));
      assert FieldOutcomes(fields)[i] == (fields[i].0, FieldOutcome(fields[i]));
      assert fields[i].0 == e.0 && !fields[i].1.Undefined? && Denotes(fields[i].1) == e.1;
    }
    if HasOutcome(fields, e) {
      var i :| 0 <= i < |fields| && fields[i].0 == e.0 && !fields[i].1.Undefined? && Denotes(fields[i].1) == e.1;
      assert FieldOutcomes(fields)[i] == (e.0, Some(e.1));
    }
  }

  lemma OutcomesDistinct(fields: seq<(Text, Js)>)
    requires DistinctKeys(fields)
    ensures DistinctKeys(Outcomes(fields))
  {
    DefinedIsDistinct(FieldOutcomes(fields));
  }

  // ---------------------------------------------------------------- same value, same denotation

  /** Every outcome of an object that denotes something denotes something. */
  lemma ObjectFieldsDenote(fields: seq<(Text, Js)>, i: nat)
    requires DistinctKeys(fields) && Denotes(Obj(fields)).Ok? && i < |fields| && !fields[i].1.Undefined?
    ensures Denotes(fields[i].1).Ok?
  {
    var e := (fields[i].0, Denotes(fields[i].1));
    assert HasOutcome(fields, e);
    OutcomeMembers(fields, e);
    OutcomesDistinct(fields);
    SortMembers(Outcomes(fields));
    MembersArePointwise(SortByKey(Outcomes(fields)));
    assert e in SortByKey(Outcomes(fields));
  }

  lemma {:induction false} SameDenotes(a: Js, b: Js)
    requires Proper(a) && Proper(b) && Denotes(a).Ok? && Same(a, b)
    ensures Denotes(b) == Denotes(a)
    decreases a, 2
  {
    match a
    case Arr(items) =>
      var xs := seq(|items|, i requires 0 <= i < |items| => Denotes(items[i]));
      var ys := seq(|b.items|, i requires 0 <= i < |b.items| => Denotes(b.items[i]));
      CollectIsPointwise(xs);
      forall i | 0 <= i < |items|
        ensures xs[i] == ys[i]
      {
        assert xs[i].Ok?;
        SameDenotes(items[i], b.items[i]);
      }
      assert xs == ys;
    case Obj(fields) =>
      OutcomesDistinct(fields);
      OutcomesDistinct(b.fields);
      forall e
        ensures e in Outcomes(fields) <==> e in Outcomes(b.fields)
      {
        SameObjectsShare(a, b, e);
      }
      SortCanonical(Outcomes(fields), Outcomes(b.fields));
    case _ =>
  }

  lemma {:induction false} SameFieldDenotes(a: (Text, Js), b: (Text, Js))
    requires ProperField(a) && ProperField(b) && Denotes(a.1).Ok? && SameField(a, b)
    ensures Denotes(b.1) == Denotes(a.1)
    decreases a
  {
    SameDenotes(a.1, b.1);
  }

  lemma {:induction false} SameObjectsShare(a: Js, b: Js, e: (Text, Outcome))
    requires a.Obj? && Proper(a) && Proper(b) && Denotes(a).Ok? && Same(a, b)
    ensures e in Outcomes(a.fields) <==> e in Outcomes(b.fields)
    decreases a, 1
  {
    OutcomeMembers(a.fields, e);
    OutcomeMembers(b.fields, e);
    if HasOutcome(a.fields, e) {
      ForthObject(a, b, e);
    }
    if HasOutcome(b.fields, e) {
      BackObject(a, b, e);
    }
  }

  lemma {:induction false} ForthObject(a: Js, b: Js, e: (Text, Outcome))
    requires a.Obj? && Proper(a) && Proper(b) && Denotes(a).Ok? && Same(a, b) && HasOutcome(a.fields, e)
    ensures HasOutcome(b.fields, e)
    decreases a, 0
  {
    var x, y := a.fields, b.fields;
    var i :| 0 <= i < |x| && x[i].0 == e.0 && !x[i].1.Undefined? && Denotes(x[i].1) == e.1;
    var k :| 0 <= k < |y| && y[k].0 == x[i].0 && SameField(x[i], y[k]);
    ObjectFieldsDenote(x, i);
    SameFieldDenotes(x[i], y[k]);
    assert y[k].0 == e.0;
  }

  lemma {:induction false} BackObject(a: Js, b: Js, e: (Text, Outcome))
    requires a.Obj? && Proper(a) && Proper(b) && Denotes(a).Ok? && Same(a, b) && HasOutcome(b.fields, e)
    ensures HasOutcome(a.fields, e)
    decreases a, 0
  {
    var x, y := a.fields, b.fields;
    var k :| 0 <= k < |y| && y[k].0 == e.0 && !y[k].1.Undefined? && Denotes(y[k].1) == e.1;
    var i := PartnerOf(a, b, k);
    ObjectFieldsDenote(x, i);
    SameFieldDenotes(x[i], y[k]);
    assert x[i].0 == e.0;
  }

  lemma PartnerOf(a: Js, b: Js, k: nat) returns (i: nat)
    requires a.Obj? && b.Obj? && Same(a, b) && DistinctKeys(b.fields) && k < |b.fields| && !b.fields[k].1.Undefined?
    ensures i < |a.fields| && a.fields[i].0 == b.fields[k].0 && !a.fields[i].1.Undefined? && SameField(a.fields[i], b.fields[k])
  {
    i :| 0 <= i < |a.fields| && a.fields[i].0 == b.fields[k].0 && !a.fields[i].1.Undefined?;
    var m :| 0 <= m < |b.fields| && b.fields[m].0 == a.fields[i].0 && SameField(a.fields[i], b.fields[m]);
    assert m == k;
  }

  lemma {:induction false} DenotesSame(a: Js, b: Js)
    requires Proper(a) && Proper(b) && Denotes(a).Ok? && Denotes(b) == Denotes(a)
    ensures Same(a, b)
    decreases a, 1
  {
    match a
    case Arr(items) =>
      var xs := seq(|items|, i requires 0 <= i < |items| => Denotes(items[i]));
      assert b.Arr?;
      var ys := seq(|b.items|, i requires 0 <= i < |b.items| => Denotes(b.items[i]));
      CollectIsPointwise(xs);
      CollectIsPointwise(ys);
      forall i | 0 <= i < |items|
        ensures Same(items[i], b.items[i])
      {
        assert xs[i].Ok? && ys[i].Ok? && Collect(xs).value[i] == Collect(ys).value[i];
        DenotesSame(items[i], b.items[i]);
      }
    case Obj(fields) =>
      assert b.Obj?;
      EqualObjectsShare(a, b);
      forall i | 0 <= i < |fields| && !fields[i].1.Undefined?
        ensures exists k :: 0 <= k < |b.fields| && b.fields[k].0 == fields[i].0 && SameField(fields[i], b.fields[k])
      {
        var e := (fields[i].0, Denotes(fields[i].1));
        assert HasOutcome(fields, e);
        OutcomeMembers(fields, e);
        OutcomeMembers(b.fields, e);
        var k :| 0 <= k < |b.fields| && b.fields[k].0 == e.0 && !b.fields[k].1.Undefined? && Denotes(b.fields[k].1) == e.1;
        ObjectFieldsDenote(fields, i);
        DenotesSameField(fields[i], b.fields[k]);
      }
      forall k | 0 <= k < |b.fields| && !b.fields[k].1.Undefined?
        ensures exists i :: 0 <= i < |fields| && fields[i].0 == b.fields[k].0 && !fields[i].1.Undefined?
      {
        var e := (b.fields[k].0, Denotes(b.fields[k].1));
        assert HasOutcome(b.fields, e);
        OutcomeMembers(b.fields, e);
        OutcomeMembers(fields, e);
      }
    case _ =>
  }

  lemma {:induction false} DenotesSameField(a: (Text, Js), b: (Text, Js))
    requires ProperField(a) && ProperField(b) && Denotes(a.1).Ok? && Denotes(b.1) == Denotes(a.1)
    ensures SameField(a, b)
    decreases a
  {
    DenotesSame(a.1, b.1);
  }

  lemma EqualObjectsShare(a: Js, b: Js)
    requires a.Obj? && b.Obj? && Proper(a) && Proper(b) && Denotes(a).Ok? && Denotes(b) == Denotes(a)
    ensures forall e :: e in Outcomes(a.fields) <==> e in Outcomes(b.fields)
  {
    MembersInjective(SortByKey(Outcomes(a.fields)), SortByKey(Outcomes(b.fields)));
    OutcomesDistinct(a.fields);
    OutcomesDistinct(b.fields);
    SortCanonical(Outcomes(a.fields), Outcomes(b.fields));
  }

  // ---------------------------------------------------------------- unique decoding

  lemma {:induction false} DenotesPrintable(v: Js)
    requires Proper(v) && Denotes(v).Ok?
    ensures Printable(Denotes(v).value)
    decreases v, 1
  {
    match v
    case Arr(items) =>
      var xs := seq(|items|, i requires 0 <= i < |items| => Denotes(items[i]));
      CollectIsPointwise(xs);
      forall i | 0 <= i < |items|
        ensures Printable(Collect(xs).value[i])
      {
        assert xs[i].Ok?;
        DenotesPrintable(items[i]);
      }
    case Obj(fields) =>
      var es := SortByKey(Outcomes(fields));
      OutcomesDistinct(fields);
      SortMembers(Outcomes(fields));
      MembersArePointwise(es);
      forall m | 0 <= m < |es|
        ensures Units(es[m].0) && Printable(es[m].1.value)
      {
        OutcomeMembers(fields, es[m]);
        assert es[m] in es;
        var i :| 0 <= i < |fields| && fields[i].0 == es[m].0 && !fields[i].1.Undefined? && Denotes(fields[i].1) == es[m].1;
        FieldPrintable(fields[i]);
      }
    case _ =>
  }

  lemma {:induction false} FieldPrintable(field: (Text, Js))
    requires ProperField(field) && Denotes(field.1).Ok?
    ensures Printable(Denotes(field.1).value)
    decreases field
  {
    DenotesPrintable(field.1);
  }

  /** Two inputs have the same canonical text exactly when they are the same value. */
  lemma CanonicalIffSame(a: Js, b: Js)
    requires Proper(a) && Proper(b) && Canonical(a).Ok?
    ensures Canonical(b) == Canonical(a) <==> Same(a, b)
  {
    if Same(a, b) {
      SameDenotes(a, b);
    } else if Canonical(b) == Canonical(a) {
      DenotesPrintable(a);
      DenotesPrintable(b);
      PrintInjective(Denotes(a).value, Denotes(b).value);
      DenotesSame(a, b);
    }
  }

  /** The canonical text has no lone surrogate, so its UTF-8 bytes determine it. */
  lemma CanonicalIsWellFormed(v: Js)
    requires Proper(v) && Canonical(v).Ok?
    ensures WellFormed(Canonical(v).value)
  {
    DenotesPrintable(v);
    PrintWellFormed(Denotes(v).value);
  }
}
