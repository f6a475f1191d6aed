/**
 The deterministic request id of an administrator's mutation: a version-8 UUID over the digest
 of the canonical envelope.  The digest is any function from texts to 64 hexadecimal digits.
 */
module AdminRequestId {
  import opened Wrappers
  import opened CanonicalText
  import opened CanonicalJson
  import opened CanonicalValue
  import opened CanonicalHeap
  import opened CanonicalMeaning

  const DASH: int := 45

  predicate Digits(d: seq<int>) {
    forall i :: 0 <= i < |d| ==> 0 <= d[i] < 16
  }

  /** Where the k-th hexadecimal digit stands in the text form 8-4-4-4-12. */
  function Slot(k: nat): nat {
    if k < 8 then k else if k < 12 then k + 1 else if k < 16 then k + 2 else if k < 20 then k + 3 else k + 4
  }

  /** The k-th digit of the id: version 8 in digit 12, the RFC 9562 variant in digit 16. */
  function IdDigit(digest: seq<int>, k: nat): int
    requires |digest| >= 32 && k < 32
  {
    if k == 12 then 8 else if k == 16 then digest[16] % 4 + 8 else digest[k]
  }

  predicate IsIdOf(id: Text, digest: seq<int>)
    requires |digest| >= 32
  {
    && |id| == 36 && id[8] == DASH && id[13] == DASH && id[18] == DASH && id[23] == DASH
    && forall k :: 0 <= k < 32 ==> id[Slot(k)] == Hex(IdDigit(digest, k))
  }

  function HexText(digits: seq<int>): Text {
    seq(|digits|, i requires 0 <= i < |digits| => Hex(digits[i]))
  }

  /** Keeps 32 digits, overwrites the version and the variant, and inserts the dashes. */
  method FormatId(digest: seq<int>) returns (id: Text)
    requires |digest| == 64 && Digits(digest)
    ensures IsIdOf(id, digest)
  {
    var chars := new int[32](i requires 0 <= i < 32 => digest[i]);
    chars[12] := 8;
    chars[16] := chars[16] % 4 + 8;
    var hex := HexText(chars[..]);
    assert forall k :: 0 <= k < 32 ==> hex[k] == Hex(IdDigit(digest, k));
    id := Dashed(hex);
  }

  function Dashed(hex: Text): (id: Text)
    requires |hex| == 32
    ensures |id| == 36 && id[8] == DASH && id[13] == DASH && id[18] == DASH && id[23] == DASH
    ensures forall k :: 0 <= k < 32 ==> id[Slot(k)] == hex[k]
  {
    hex[..8] + [DASH] + hex[8..12] + [DASH] + hex[12..16] + [DASH] + hex[16..20] + [DASH] + hex[20..]
  }

  /** A version-8 UUID of the RFC 9562 variant (sections 4.1 and 5.8). */
  lemma IdIsVersion8(id: Text, digest: seq<int>)
    requires |digest| >= 32 && Digits(digest) && IsIdOf(id, digest)
    ensures id[14] == Hex(8) && id[19] in {Hex(8), Hex(9), Hex(10), Hex(11)}
    ensures forall i :: 0 <= i < 36 && i !in {8, 13, 18, 23} ==> 48 <= id[i] <= 57 || 97 <= id[i] <= 102
  {
    assert id[Slot(12)] == Hex(8) && id[Slot(16)] == Hex(digest[16] % 4 + 8);
    forall i | 0 <= i < 36 && i !in {8, 13, 18, 23}
      ensures 48 <= id[i] <= 57 || 97 <= id[i] <= 102
    {
      var k := if i < 8 then i else if i < 13 then i - 1 else if i < 18 then i - 2 else if i < 23 then i - 3 else i - 4;
      assert Slot(k) == i;
    }
  }

  predicate SameIdBits(d: seq<int>, e: seq<int>)
    requires |d| >= 32 && |e| >= 32
  {
    forall k :: 0 <= k < 32 ==> k == 12 || (if k == 16 then d[k] % 4 == e[k] % 4 else d[k] == e[k])
  }

  /** Of 128 digest bits the id keeps exactly the 122 that are neither version nor variant. */
  lemma IdKeeps122Bits(a: Text, b: Text, d: seq<int>, e: seq<int>)
    requires |d| >= 32 && |e| >= 32 && Digits(d) && Digits(e) && IsIdOf(a, d) && IsIdOf(b, e)
    ensures a == b <==> SameIdBits(d, e)
  {
    if a == b {
      forall k | 0 <= k < 32
        ensures IdDigit(d, k) == IdDigit(e, k)
      {
        assert a[Slot(k)] == b[Slot(k)];
        HexInjective(IdDigit(d, k), IdDigit(e, k));
      }
      forall k | 0 <= k < 32
        ensures k == 12 || (if k == 16 then d[k] % 4 == e[k] % 4 else d[k] == e[k])
      {
        assert IdDigit(d, k) == IdDigit(e, k);
      }
    }
    if SameIdBits(d, e) {
      forall i | 0 <= i < 36
        ensures a[i] == b[i]
      {
        if i !in {8, 13, 18, 23} {
          var k := if i < 8 then i else if i < 13 then i - 1 else if i < 18 then i - 2 else if i < 23 then i - 3 else i - 4;
          assert Slot(k) == i && IdDigit(d, k) == IdDigit(e, k);
          assert a[Slot(k)] == b[Slot(k)];
        }
      }
    }
  }

  // ---------------------------------------------------------------- the envelope

  const ADMIN_ID: Text := [97, 100, 109, 105, 110, 73, 100]
  const OPERATION: Text := [111, 112, 101, 114, 97, 116, 105, 111, 110]
  const PAYLOAD: Text := [112, 97, 121, 108, 111, 97, 100]
  const TARGET_KEY: Text := [116, 97, 114, 103, 101, 116, 75, 101, 121]

  function Envelope(operation: Text, adminId: Text, targetKey: Text, payload: Js): Js {
    Obj([(ADMIN_ID, Str(adminId)), (OPERATION, Str(operation)), (PAYLOAD, payload), (TARGET_KEY, Str(targetKey))])
  }

  lemma KeysDiffer()
    ensures ADMIN_ID != OPERATION && ADMIN_ID != PAYLOAD && ADMIN_ID != TARGET_KEY
    ensures OPERATION != PAYLOAD && OPERATION != TARGET_KEY && PAYLOAD != TARGET_KEY
  {
    assert |ADMIN_ID| == 7 && |OPERATION| == 9 && |PAYLOAD| == 7 && |TARGET_KEY| == 9;
    assert ADMIN_ID[0] == 97 && PAYLOAD[0] == 112 && OPERATION[0] == 111 && TARGET_KEY[0] == 116;
  }

  lemma EnvelopeIsProper(operation: Text, adminId: Text, targetKey: Text, payload: Js)
    requires Units(operation) && Units(adminId) && Units(targetKey) && Proper(payload)
    ensures Proper(Envelope(operation, adminId, targetKey, payload))
  {
    KeysDiffer();
  }

  predicate SamePayload(p: Js, q: Js) {
    (p.Undefined? && q.Undefined?) || Same(p, q)
  }

  lemma SameFieldAt(x: seq<(Text, Js)>, y: seq<(Text, Js)>, i: nat)
    requires DistinctKeys(y) && |x| == |y| && i < |x| && x[i].0 == y[i].0 && !x[i].1.Undefined?
    ensures (exists k :: 0 <= k < |y| && y[k].0 == x[i].0 && SameField(x[i], y[k])) <==> Same(x[i].1, y[i].1)
  {
    if Same(x[i].1, y[i].1) {
      assert SameField(x[i], y[i]);
    }
  }

  lemma DefinedOnBothSides(x: seq<(Text, Js)>, y: seq<(Text, Js)>, i: nat)
    requires DistinctKeys(x) && |x| == |y| && i < |x| && x[i].0 == y[i].0 && Same(Obj(x), Obj(y))
    ensures y[i].1.Undefined? || !x[i].1.Undefined?
  {
    if !y[i].1.Undefined? {
      var k :| 0 <= k < |x| && x[k].0 == y[i].0 && !x[k].1.Undefined?;
      assert k == i;
    }
  }

  /** Objects with the same keys are the same value when they are so field by field. */
  lemma SameFieldByField(x: seq<(Text, Js)>, y: seq<(Text, Js)>)
    requires DistinctKeys(x) && DistinctKeys(y) && |x| == |y| && forall i :: 0 <= i < |x| ==> x[i].0 == y[i].0
    ensures Same(Obj(x), Obj(y)) <==> forall i :: 0 <= i < |x| ==> SamePayload(x[i].1, y[i].1)
  {
    if Same(Obj(x), Obj(y)) {
      forall i | 0 <= i < |x|
        ensures SamePayload(x[i].1, y[i].1)
      {
        if !x[i].1.Undefined? {
          SameFieldAt(x, y, i);
        }
        DefinedOnBothSides(x, y, i);
      }
    }
    if forall i :: 0 <= i < |x| ==> SamePayload(x[i].1, y[i].1) {
      forall i | 0 <= i < |x| && !x[i].1.Undefined?
        ensures exists k :: 0 <= k < |y| && y[k].0 == x[i].0 && SameField(x[i], y[k])
      {
        SameFieldAt(x, y, i);
      }
      forall k | 0 <= k < |y| && !y[k].1.Undefined?
        ensures exists i :: 0 <= i < |x| && x[i].0 == y[k].0 && !x[i].1.Undefined?
      {
        assert x[k].0 == y[k].0 && SamePayload(x[k].1, y[k].1);
      }
    }
  }

  /** Two envelopes are the same value exactly when all four parts are. */
  lemma SameEnvelope(op: Text, admin: Text, target: Text, p: Js, op': Text, admin': Text, target': Text, q: Js)
    ensures Same(Envelope(op, admin, target, p), Envelope(op', admin', target', q))
            <==> op == op' && admin == admin' && target == target' && SamePayload(p, q)
  {
    KeysDiffer();
    SameFour([ADMIN_ID, OPERATION, PAYLOAD, TARGET_KEY], [Str(admin), Str(op), p, Str(target)], [Str(admin'), Str(op'), q, Str(target')]);
  }

  function Paired(keys: seq<Text>, values: seq<Js>): seq<(Text, Js)>
    requires |keys| == 4 && |values| == 4
  {
    [(keys[0], values[0]), (keys[1], values[1]), (keys[2], values[2]), (keys[3], values[3])]
  }

  lemma SameFour(keys: seq<Text>, v: seq<Js>, w: seq<Js>)
    requires |keys| == 4 && |v| == 4 && |w| == 4 && forall i, k :: 0 <= i < k < 4 ==> keys[i] != keys[k]
    ensures Same(Obj(Paired(keys, v)), Obj(Paired(keys, w))) <==> forall i :: 0 <= i < 4 ==> SamePayload(v[i], w[i])
  {
    var x, y := Paired(keys, v), Paired(keys, w);
    SameFieldByField(x, y);
    assert forall i :: 0 <= i < 4 ==> x[i] == (keys[i], v[i]) && y[i] == (keys[i], w[i]);
  }

  /** Requests share the hashed text exactly when they are the same request. */
  lemma SameRequestSameText(op: Text, admin: Text, target: Text, p: Js, op': Text, admin': Text, target': Text, q: Js)
    requires Units(op) && Units(admin) && Units(target) && Proper(p)
    requires Units(op') && Units(admin') && Units(target') && Proper(q)
    requires Canonical(Envelope(op, admin, target, p)).Ok?
    ensures Canonical(Envelope(op', admin', target', q)) == Canonical(Envelope(op, admin, target, p))
            <==> op == op' && admin == admin' && target == target' && SamePayload(p, q)
  {
    EnvelopeIsProper(op, admin, target, p);
    EnvelopeIsProper(op', admin', target', q);
    CanonicalIffSame(Envelope(op, admin, target, p), Envelope(op', admin', target', q));
    SameEnvelope(op, admin, target, p, op', admin', target', q);
  }

  // ---------------------------------------------------------------- the hashed text

  function Chars(s: string): Text {
    seq(|s|, i requires 0 <= i < |s| => s[i] as int)
  }

  lemma {:induction false} PlainBody(s: Text)
    requires forall i :: 0 <= i < |s| ==> 32 <= s[i] < 127 && s[i] != QUOTE && s[i] != BACKSLASH
    ensures Body(s) == s
    decreases |s|
  {
    if s != [] {
      PlainBody(s[1..]);
      assert s == [s[0]] + s[1..];
    }
  }

  lemma KeyNames()
    ensures ADMIN_ID == Chars("adminId") && OPERATION == Chars("operation") && PAYLOAD == Chars("payload") && TARGET_KEY == Chars("targetKey")
  {
  }

  function EnvelopeOutcomes(op: Text, admin: Text, target: Text, p: Js): seq<(Text, Outcome)> {
    [(ADMIN_ID, Ok(JStr(admin))), (OPERATION, Ok(JStr(op))), (PAYLOAD, Denotes(p)), (TARGET_KEY, Ok(JStr(target)))]
  }

  /** The four parts stand in the order of their names, which is the order of the sort. */
  lemma EnvelopeMembers(op: Text, admin: Text, target: Text, p: Js)
    requires !p.Undefined?
    ensures SortByKey(Outcomes(Envelope(op, admin, target, p).fields)) == EnvelopeOutcomes(op, admin, target, p)
  {
    var fields, es := Envelope(op, admin, target, p).fields, EnvelopeOutcomes(op, admin, target, p);
    OutcomeOfPart(fields[0], JStr(admin));
    OutcomeOfPart(fields[1], JStr(op));
    OutcomeOfPart(fields[3], JStr(target));
    var fs := FieldOutcomes(fields);
    OutcomeOfPayload(fields[2]);
    assert forall i :: 0 <= i < 4 ==> fs[i] == (fields[i].0, FieldOutcome(fields[i]));
    FourDefined(fs, es);
    FourSorted(es);
  }

  lemma OutcomeOfPart(field: (Text, Js), j: Json)
    requires field.1.Str? && j == JStr(field.1.text)
    ensures FieldOutcome(field) == Some(Ok(j))
  {
  }

  lemma OutcomeOfPayload(field: (Text, Js))
    requires !field.1.Undefined?
    ensures FieldOutcome(field) == Some(Denotes(field.1))
  {
  }

  lemma FourSorted<T>(es: seq<(Text, T)>)
    requires |es| == 4 && es[0].0 == ADMIN_ID && es[1].0 == OPERATION && es[2].0 == PAYLOAD && es[3].0 == TARGET_KEY
    ensures SortByKey(es) == es
  {
    KeysDiffer();
    assert ADMIN_ID[0] == 97 && PAYLOAD[0] == 112 && OPERATION[0] == 111 && TARGET_KEY[0] == 116;
    assert Sorted(es);
    SortIsSorted(es);
    SortMembers(es);
    SortedUnique(SortByKey(es), es);
  }

  lemma FourDefined(fs: seq<(Text, Option<Outcome>)>, es: seq<(Text, Outcome)>)
    requires |fs| == 4 && |es| == 4 && forall i :: 0 <= i < 4 ==> fs[i] == (es[i].0, Some(es[i].1))
    ensures Defined(fs) == es
  {
    assert fs[1..][1..] == fs[2..] && fs[2..][1..] == fs[3..] && fs[3..][1..] == [];
    assert Defined(fs[3..]) == [es[3]];
    assert Defined(fs[2..]) == [es[2], es[3]];
    assert Defined(fs[1..]) == [es[1], es[2], es[3]];
  }

  /** A name in quotation marks, a colon, and a text. */
  function Named(name: string, text: Text): Text {
    Chars("\"") + Chars(name) + Chars("\":") + text
  }

  /** The text that is hashed: the four parts in this order, the payload in its canonical form. */
  lemma EnvelopeText(op: Text, admin: Text, target: Text, p: Js)
    requires !p.Undefined?
    ensures Canonical(p).Err? ==> Canonical(Envelope(op, admin, target, p)) == Canonical(p)
    ensures Canonical(p).Ok? ==>
              Canonical(Envelope(op, admin, target, p))
              == Ok(Chars("{") + Named("adminId", Quote(admin)) + Chars(",") + Named("operation", Quote(op)) + Chars(",")
                    + Named("payload", Canonical(p).value) + Chars(",") + Named("targetKey", Quote(target)) + Chars("}"))
  {
    EnvelopeMembers(op, admin, target, p);
    EnvelopeCollects(EnvelopeOutcomes(op, admin, target, p));
    if Denotes(p).Ok? {
      var members := Values(EnvelopeOutcomes(op, admin, target, p));
      assert Denotes(Envelope(op, admin, target, p)) == Ok(JObj(members));
      KeyNames();
      FourText("adminId", "operation", "payload", "targetKey", members);
    }
  }

  lemma FourText(a: string, b: string, c: string, d: string, members: seq<(Text, Json)>)
    requires |members| == 4 && PlainName(a) && PlainName(b) && PlainName(c) && PlainName(d)
    requires members[0].0 == Chars(a) && members[1].0 == Chars(b) && members[2].0 == Chars(c) && members[3].0 == Chars(d)
    ensures Print(JObj(members))
            == Chars("{") + Named(a, Print(members[0].1)) + Chars(",") + Named(b, Print(members[1].1)) + Chars(",")
               + Named(c, Print(members[2].1)) + Chars(",") + Named(d, Print(members[3].1)) + Chars("}")
  {
    FourPrinted(members);
    PrintNamed(a, members[0].1);
    PrintNamed(b, members[1].1);
    PrintNamed(c, members[2].1);
    PrintNamed(d, members[3].1);
    Flatten(PrintMember(members[0]), PrintMember(members[1]), PrintMember(members[2]), PrintMember(members[3]));
  }

  function Values(es: seq<(Text, Outcome)>): seq<(Text, Json)>
    requires |es| == 4 && forall i :: 0 <= i < 4 ==> es[i].1.Ok?
  {
    [(es[0].0, es[0].1.value), (es[1].0, es[1].1.value), (es[2].0, es[2].1.value), (es[3].0, es[3].1.value)]
  }

  lemma EnvelopeCollects(es: seq<(Text, Outcome)>)
    requires |es| == 4 && es[0].1.Ok? && es[1].1.Ok? && es[3].1.Ok?
    ensures es[2].1.Ok? ==> CollectMembers(es) == Ok(Values(es))
    ensures es[2].1.Err? ==> CollectMembers(es) == Err(es[2].1.error)
  {
    MembersArePointwise(es);
    MembersError(es);
    if es[2].1.Ok? {
      assert CollectMembers(es).value == Values(es);
    } else {
      assert !es[2].1.Ok?;
    }
  }

  lemma FourPrinted(ms: seq<(Text, Json)>)
    requires |ms| == 4
    ensures Print(JObj(ms))
            == [LBRACE] + (PrintMember(ms[0]) + [COMMA] + (PrintMember(ms[1]) + [COMMA] + (PrintMember(ms[2]) + [COMMA] + PrintMember(ms[3])))) + [RBRACE]
  {
    assert ms[1..][1..] == ms[2..] && ms[2..][1..] == ms[3..] && ms[3..][0] == ms[3];
    assert PrintMembers(ms[3..]) == PrintMember(ms[3]);
    assert PrintMembers(ms[2..]) == PrintMember(ms[2]) + [COMMA] + PrintMember(ms[3]);
    assert PrintMembers(ms[1..]) == PrintMember(ms[1]) + [COMMA] + PrintMembers(ms[2..]);
  }

  predicate PlainName(name: string) {
    forall i :: 0 <= i < |name| ==> 'A' <= name[i] <= 'z' && name[i] != '\\'
  }

  lemma PrintNamed(name: string, j: Json)
    requires PlainName(name)
    ensures PrintMember((Chars(name), j)) == Named(name, Print(j))
  {
    PlainBody(Chars(name));
    assert Quote(Chars(name)) == [QUOTE] + Chars(name) + [QUOTE];
    assert Chars("\"") == [QUOTE] && Chars("\":") == [QUOTE, COLON];
    assert ([QUOTE] + Chars(name) + [QUOTE]) + ([COLON] + Print(j)) == [QUOTE] + Chars(name) + [QUOTE, COLON] + Print(j);
  }

  lemma Flatten(a: Text, b: Text, c: Text, d: Text)
    ensures [LBRACE] + (a + [COMMA] + (b + [COMMA] + (c + [COMMA] + d))) + [RBRACE]
            == Chars("{") + a + Chars(",") + b + Chars(",") + c + Chars(",") + d + Chars("}")
  {
    assert Chars("{") == [LBRACE] && Chars(",") == [COMMA] && Chars("}") == [RBRACE];
    Regrouped(b, c, d);
    Regrouped(a, b + [COMMA] + c, d);
    Regrouped(a, b, c);
    Regrouped([LBRACE], a, []);
  }

  lemma Regrouped(a: Text, b: Text, c: Text)
    ensures a + [COMMA] + (b + [COMMA] + c) == a + [COMMA] + b + [COMMA] + c
  {
  }

  // ---------------------------------------------------------------- on the heap

  predicate Allocated(h: Heap, v: Value) {
    v.Ref? ==> v.id in h
  }

  ghost predicate Closed(h: Heap) {
    forall id :: id in h ==>
      match h[id]
      case ArrayNode(items) => forall i :: 0 <= i < |items| && items[i].Some? ==> Allocated(h, items[i].value)
      case PlainNode(fields) => forall i :: 0 <= i < |fields| ==> Allocated(h, fields[i].1)
      case ExoticNode => true
  }

  /** A new object above v is invisible from v. */
  lemma {:induction false} UnfoldIgnoresNew(h: Heap, id: nat, node: Node, v: Value, path: set<nat>)
    requires Closed(h) && Allocated(h, v) && id !in h
    ensures Unfold(h[id := node], v, path + {id}) == Unfold(h, v, path)
    decreases |h.Keys - path|
  {
    var h' := h[id := node];
    if v.Ref? && !At(h, v.id).ExoticNode? && v.id !in path {
      StepDown(h, path, v.id);
      StepDown(h', path + {id}, v.id);
      var below, below' := path + {v.id}, path + {id} + {v.id};
      assert below' == below + {id};
      match At(h, v.id)
      case ArrayNode(items) =>
        forall i | 0 <= i < |items|
          ensures UnfoldItems(h', items, below')[i] == UnfoldItems(h, items, below)[i]
        {
          if items[i].Some? {
            UnfoldIgnoresNew(h, id, node, items[i].value, below);
          }
        }
        assert UnfoldItems(h', items, below') == UnfoldItems(h, items, below);
      case PlainNode(fields) =>
        forall i | 0 <= i < |fields|
          ensures UnfoldFields(h', fields, below')[i] == UnfoldFields(h, fields, below)[i]
        {
          UnfoldIgnoresNew(h, id, node, fields[i].1, below);
        }
        assert UnfoldFields(h', fields, below') == UnfoldFields(h, fields, below);
    }
  }

  function EnvelopeNode(operation: Text, adminId: Text, targetKey: Text, payload: Value): Node {
    PlainNode([(ADMIN_ID, StringValue(adminId)), (OPERATION, StringValue(operation)),
               (PAYLOAD, payload), (TARGET_KEY, StringValue(targetKey))])
  }

  lemma EnvelopeUnfolds(h: Heap, id: nat, operation: Text, adminId: Text, targetKey: Text, payload: Value)
    requires Closed(h) && Allocated(h, payload) && id !in h
    ensures Unfold(h[id := EnvelopeNode(operation, adminId, targetKey, payload)], Ref(id), {})
            == Envelope(operation, adminId, targetKey, Unfold(h, payload, {}))
  {
    var node := EnvelopeNode(operation, adminId, targetKey, payload);
    var h' := h[id := node];
    UnfoldIgnoresNew(h, id, node, payload, {});
    StepDown(h', {}, id);
    assert UnfoldFields(h', node.fields, {} + {id})
           == Envelope(operation, adminId, targetKey, Unfold(h, payload, {})).fields;
  }

  /** The id of the digest of the envelope's canonical text, or the payload's serialization error. */
  method DeterministicAdminRequestId(h: Heap, root: nat, sha256: Text -> seq<int>,
                                     operation: Text, adminId: Text, targetKey: Text, payload: Value)
    returns (id: Result<Text, Error>)
    requires Closed(h) && Allocated(h, payload) && root !in h
    requires forall t: Text :: |sha256(t)| == 64 && Digits(sha256(t))
    ensures match Canonical(Envelope(operation, adminId, targetKey, Unfold(h, payload, {})))
            case Ok(text) => id.Ok? && IsIdOf(id.value, sha256(text))
            case Err(e) => id == Err(e)
  {
    EnvelopeUnfolds(h, root, operation, adminId, targetKey, payload);
    var serializer := new Serializer(h[root := EnvelopeNode(operation, adminId, targetKey, payload)]);
    var text := serializer.CanonicalJson(Ref(root));
    if text.Err? {
      return Err(text.error);
    }
    var formatted := FormatId(sha256(text.value));
    id := Ok(formatted);
  }

  /** Equal requests always get equal ids, however their objects are laid out and shared. */
  lemma EqualRequestsEqualIds(h: Heap, h': Heap, sha256: Text -> seq<int>, op: Text, admin: Text, target: Text,
                              p: Value, q: Value, id: Text, id': Text)
    requires ProperHeap(h) && ProperValue(p) && ProperHeap(h') && ProperValue(q)
    requires Units(op) && Units(admin) && Units(target)
    requires SamePayload(Unfold(h, p, {}), Unfold(h', q, {}))
    requires Canonical(Envelope(op, admin, target, Unfold(h, p, {}))).Ok?
    requires forall t: Text :: |sha256(t)| == 64 && Digits(sha256(t))
    ensures Canonical(Envelope(op, admin, target, Unfold(h', q, {}))) == Canonical(Envelope(op, admin, target, Unfold(h, p, {})))
    ensures var digest := sha256(Canonical(Envelope(op, admin, target, Unfold(h, p, {}))).value);
            IsIdOf(id, digest) && IsIdOf(id', digest) ==> id == id'
  {
    UnfoldIsProper(h, p, {});
    UnfoldIsProper(h', q, {});
    SameRequestSameText(op, admin, target, Unfold(h, p, {}), op, admin, target, Unfold(h', q, {}));
    var digest := sha256(Canonical(Envelope(op, admin, target, Unfold(h, p, {}))).value);
    if IsIdOf(id, digest) && IsIdOf(id', digest) {
      IdKeeps122Bits(id, id', digest, digest);
    }
  }
}
