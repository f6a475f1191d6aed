/**
 What a canonical text says, to anyone who reads it as JSON: the value that was serialized, with
 the members of every object in the order of their keys' code units.
 */
module CanonicalMeaning {
  import opened Wrappers
  import opened CanonicalText
  import opened CanonicalJson
  import opened CanonicalValue
  import opened JsonReader

  // ---------------------------------------------------------------- the meaning of a JSON value

  /** The JSON value stands for this JavaScript value. */
  predicate Means(j: Json, v: Js)
    decreases v, 1
  {
    match j
    case JNull => v.Null?
    case JBool(b) => v == Bool(b)
    case JNum(token) => v == Num(Finite(token)) || (v == Num(NegativeZero) && token == ['0' as int])
    case JStr(text) => v == Str(text)
    case JArr(items) => v.Arr? && |items| == |v.items| && forall i :: 0 <= i < |items| ==> Means(items[i], v.items[i])
    case JObj(members) => v.Obj? && MeansObject(members, v)
  }

  /** The members are the defined fields, each once, in code-unit order of their keys. */
  predicate MeansObject(members: seq<(Text, Json)>, v: Js)
    requires v.Obj?
    decreases v, 0
  {
    && (forall m :: 0 <= m < |members| ==> exists i :: 0 <= i < |v.fields| && MeansField(members[m], v.fields[i]))
    && (forall i :: 0 <= i < |v.fields| && !v.fields[i].1.Undefined? ==> HasKey(members, v.fields[i].0))
    && InOrder(members)
  }

  predicate MeansField(m: (Text, Json), field: (Text, Js))
    decreases field, 2
  {
    m.0 == field.0 && !field.1.Undefined? && Means(m.1, field.1)
  }

  predicate HasKey(members: seq<(Text, Json)>, key: Text) {
    exists m :: 0 <= m < |members| && members[m].0 == key
  }

  /** For any two members, the key of the first is a proper prefix of the other's or has the smaller unit where they first differ. */
  predicate InOrder(members: seq<(Text, Json)>) {
    forall m, n :: 0 <= m < n < |members| ==> ComesBefore(members[m].0, members[n].0)
  }

  lemma MembersInOrder(fields: seq<(Text, Js)>)
    requires DistinctKeys(fields) && Denotes(Obj(fields)).Ok?
    ensures InOrder(Denotes(Obj(fields)).value.members)
  {
    var es := SortByKey(Outcomes(fields));
    OutcomesDistinct(fields);
    SortIsSorted(Outcomes(fields));
    MembersArePointwise(es);
    var members := Denotes(Obj(fields)).value.members;
    forall m, n | 0 <= m < n < |members|
      ensures ComesBefore(members[m].0, members[n].0)
    {
      assert members[m].0 == es[m].0 && members[n].0 == es[n].0;
      LessIsCodeUnitOrder(es[m].0, es[n].0);
    }
  }

  lemma {:induction false} DenotesMeans(v: Js)
    requires Proper(v) && Denotes(v).Ok?
    ensures Means(Denotes(v).value, v)
    decreases v, 1
  {
    match v
    case Arr(items) =>
      var xs := seq(|items|, i requires 0 <= i < |items| => Denotes(items[i]));
      CollectIsPointwise(xs);
      forall i | 0 <= i < |items|
        ensures Means(Collect(xs).value[i], items[i])
      {
        assert xs[i].Ok?;
        DenotesMeans(items[i]);
      }
    case Obj(fields) =>
      MembersInOrder(fields);
      MembersAreFields(v);
      FieldsAreMembers(v);
    case _ =>
  }

  lemma {:induction false} MembersAreFields(v: Js)
    requires v.Obj? && Proper(v) && Denotes(v).Ok?
    ensures var members := Denotes(v).value.members;
            forall m :: 0 <= m < |members| ==> exists i :: 0 <= i < |v.fields| && MeansField(members[m], v.fields[i])
    decreases v, 0
  {
    var fields, es, members := v.fields, SortByKey(Outcomes(v.fields)), Denotes(v).value.members;
    OutcomesDistinct(fields);
    SortMembers(Outcomes(fields));
    MembersArePointwise(es);
    forall m | 0 <= m < |members|
      ensures exists i :: 0 <= i < |fields| && MeansField(members[m], fields[i])
    {
      OutcomeMembers(fields, es[m]);
      assert es[m] in es;
      var i :| 0 <= i < |fields| && fields[i].0 == es[m].0 && !fields[i].1.Undefined? && Denotes(fields[i].1) == es[m].1;
      FieldMeans(fields[i]);
      assert MeansField(members[m], fields[i]);
    }
  }

  lemma {:induction false} FieldMeans(field: (Text, Js))
    requires ProperField(field) && Denotes(field.1).Ok?
    ensures Means(Denotes(field.1).value, field.1)
    decreases field
  {
    DenotesMeans(field.1);
  }

  lemma FieldsAreMembers(v: Js)
    requires v.Obj? && Proper(v) && Denotes(v).Ok?
    ensures forall i :: 0 <= i < |v.fields| && !v.fields[i].1.Undefined? ==> HasKey(Denotes(v).value.members, v.fields[i].0)
  {
    var fields, es, members := v.fields, SortByKey(Outcomes(v.fields)), Denotes(v).value.members;
    OutcomesDistinct(fields);
    SortMembers(Outcomes(fields));
    MembersArePointwise(es);
    forall i | 0 <= i < |fields| && !fields[i].1.Undefined?
      ensures HasKey(members, fields[i].0)
    {
      var e := (fields[i].0, Denotes(fields[i].1));
      assert HasOutcome(fields, e);
      OutcomeMembers(fields, e);
      assert e in es;
      var m :| 0 <= m < |es| && es[m] == e;
      assert members[m].0 == fields[i].0;
    }
  }

  /** Read as JSON, the canonical text of a value means that value. */
  lemma CanonicalReadsBack(v: Js)
    requires Proper(v) && Canonical(v).Ok?
    ensures ReadText(Canonical(v).value).Some? && Means(ReadText(Canonical(v).value).value, v)
  {
    DenotesPrintable(v);
    PrintReadsBack(Denotes(v).value);
    DenotesMeans(v);
  }

  // ---------------------------------------------------------------- what has no canonical text

  /** Somewhere in the value, not below an undefined field, is what this error is about. */
  predicate Faulty(v: Js, e: Error)
    decreases v
  {
    match v
    case Num(NonFinite) => e == NonFiniteInput
    case Hole => e == SparseInput
    case NonPlain => e == NonPlainInput
    case Cycle => e == CircularInput
    case Undefined => e == NonJsonInput
    case NonJson => e == NonJsonInput
    case Arr(items) => exists i :: 0 <= i < |items| && Faulty(items[i], e)
    case Obj(fields) => exists i :: 0 <= i < |fields| && FaultyField(fields[i], e)
    case _ => false
  }

  ghost predicate Faultless(v: Js) {
    forall e :: !Faulty(v, e)
  }

  predicate FaultyField(field: (Text, Js), e: Error)
    decreases field
  {
    !field.1.Undefined? && Faulty(field.1, e)
  }

  lemma {:induction false} CollectError<T>(rs: seq<Result<T, Error>>)
    ensures Collect(rs).Err? ==> exists i :: 0 <= i < |rs| && rs[i] == Err(Collect(rs).error)
    decreases |rs|
  {
    if rs != [] && rs[0].Ok? {
      CollectError(rs[1..]);
      if Collect(rs).Err? {
        var i :| 0 <= i < |rs[1..]| && rs[1..][i] == Err(Collect(rs).error);
        assert rs[i + 1] == Err(Collect(rs).error);
      }
    }
  }

  lemma {:induction false} MembersError(es: seq<(Text, Outcome)>)
    ensures CollectMembers(es).Err? ==> exists i :: 0 <= i < |es| && es[i].1 == Err(CollectMembers(es).error)
    decreases |es|
  {
    if es != [] && es[0].1.Ok? {
      MembersError(es[1..]);
      if CollectMembers(es).Err? {
        var i :| 0 <= i < |es[1..]| && es[1..][i].1 == Err(CollectMembers(es).error);
        assert es[i + 1].1 == Err(CollectMembers(es).error);
      }
    }
  }

  /** A value has a canonical text exactly if nothing in it is faulty; otherwise the error names a fault that it has. */
  lemma {:induction false} ErrorNamesFault(v: Js)
    requires Proper(v)
    ensures Canonical(v).Ok? <==> Faultless(v)
    ensures Canonical(v).Err? ==> Faulty(v, Canonical(v).error)
    decreases v, 1
  {
    match v
    case Arr(items) => ArrayFaults(v);
    case Obj(fields) => ObjectFaults(v);
    case Num(NonFinite) => assert Faulty(v, NonFiniteInput);
    case Hole => assert Faulty(v, SparseInput);
    case NonPlain => assert Faulty(v, NonPlainInput);
    case Cycle => assert Faulty(v, CircularInput);
    case Undefined => assert Faulty(v, NonJsonInput);
    case NonJson => assert Faulty(v, NonJsonInput);
    case _ =>
  }

  lemma {:induction false} ArrayFaults(v: Js)
    requires v.Arr? && Proper(v)
    ensures Denotes(v).Ok? <==> Faultless(v)
    ensures Denotes(v).Err? ==> Faulty(v, Denotes(v).error)
    decreases v, 0
  {
    var items := v.items;
    var xs := seq(|items|, i requires 0 <= i < |items| => Denotes(items[i]));
    CollectIsPointwise(xs);
    CollectError(xs);
    forall i | 0 <= i < |items|
      ensures xs[i].Ok? <==> Faultless(items[i])
      ensures xs[i].Err? ==> Faulty(items[i], xs[i].error)
    {
      ErrorNamesFault(items[i]);
    }
    if Denotes(v).Err? {
      var i :| 0 <= i < |xs| && xs[i] == Err(Collect(xs).error);
      assert Faulty(items[i], Denotes(v).error);
      assert Faulty(v, Denotes(v).error);
    } else {
      forall e
        ensures !Faulty(v, e)
      {
        assert forall i :: 0 <= i < |items| ==> xs[i].Ok? && Faultless(items[i]);
      }
    }
  }

  lemma {:induction false} FieldFaults(field: (Text, Js))
    requires ProperField(field)
    ensures Denotes(field.1).Ok? <==> Faultless(field.1)
    ensures Denotes(field.1).Err? ==> Faulty(field.1, Denotes(field.1).error)
    decreases field
  {
    ErrorNamesFault(field.1);
  }

  lemma {:induction false} ObjectFaults(v: Js)
    requires v.Obj? && Proper(v)
    ensures Denotes(v).Ok? <==> Faultless(v)
    ensures Denotes(v).Err? ==> Faulty(v, Denotes(v).error)
    decreases v, 0
  {
    var fields, es := v.fields, SortByKey(Outcomes(v.fields));
    OutcomesDistinct(fields);
    SortMembers(Outcomes(fields));
    MembersArePointwise(es);
    MembersError(es);
    if Denotes(v).Err? {
      var m :| 0 <= m < |es| && es[m].1 == Err(CollectMembers(es).error);
      assert es[m] in es;
      OutcomeMembers(fields, es[m]);
      var i :| 0 <= i < |fields| && fields[i].0 == es[m].0 && !fields[i].1.Undefined? && Denotes(fields[i].1) == es[m].1;
      FieldFaults(fields[i]);
      assert FaultyField(fields[i], Denotes(v).error);
      assert Faulty(v, Denotes(v).error);
    } else {
      forall i | 0 <= i < |fields| && !fields[i].1.Undefined?
        ensures Faultless(fields[i].1)
      {
        ObjectFieldsDenote(fields, i);
        FieldFaults(fields[i]);
      }
      forall e
        ensures !Faulty(v, e)
      {
        assert forall i :: 0 <= i < |fields| ==> !FaultyField(fields[i], e);
      }
    }
  }
}
