/** JSON texts without white space, and why such a text can be read back in one way only. */
module CanonicalJson {
  import opened CanonicalText

  /** What a text denotes; object members are in the order of the text. */
  datatype Json =
    | JNull
    | JBool(b: bool)
    | JNum(token: Text)
    | JStr(text: Text)
    | JArr(items: seq<Json>)
    | JObj(members: seq<(Text, Json)>)

  // ---------------------------------------------------------------- texts

  const NULL_TEXT: Text := [110, 117, 108, 108]
  const TRUE_TEXT: Text := [116, 114, 117, 101]
  const FALSE_TEXT: Text := [102, 97, 108, 115, 101]
  const ZERO: Text := [48]

  /** The alphabet of a printed finite number: digits, sign, point, exponent. */
  predicate NumberUnit(c: int) {
    48 <= c <= 57 || c == 43 || c == 45 || c == 46 || c == 101
  }

  predicate IsToken(t: Text) {
    t != [] && (t[0] == 45 || 48 <= t[0] <= 57) && forall i :: 0 <= i < |t| ==> NumberUnit(t[i])
  }

  function Print(j: Json): Text {
    match j
    case JNull => NULL_TEXT
    case JBool(b) => if b then TRUE_TEXT else FALSE_TEXT
    case JNum(token) => token
    case JStr(text) => Quote(text)
    case JArr(items) => [LBRACKET] + PrintItems(items) + [RBRACKET]
    case JObj(members) => [LBRACE] + PrintMembers(members) + [RBRACE]
  }

  function PrintItems(items: seq<Json>): Text {
    if items == [] then []
    else if |items| == 1 then Print(items[0])
    else Print(items[0]) + [COMMA] + PrintItems(items[1..])
  }

  function PrintMembers(members: seq<(Text, Json)>): Text {
    if members == [] then []
    else if |members| == 1 then PrintMember(members[0])
    else PrintMember(members[0]) + [COMMA] + PrintMembers(members[1..])
  }

  function PrintMember(m: (Text, Json)): Text {
    Quote(m.0) + ([COLON] + Print(m.1))
  }

  /** All strings are code units and all numbers are printed numbers. */
  predicate Printable(j: Json) {
    match j
    case JNum(token) => IsToken(token)
    case JStr(text) => Units(text)
    case JArr(items) => forall i :: 0 <= i < |items| ==> Printable(items[i])
    case JObj(members) => forall i :: 0 <= i < |members| ==> Units(members[i].0) && Printable(members[i].1)
    case _ => true
  }

  // ---------------------------------------------------------------- unique decoding

  /** What may follow a value: nothing, or a unit that cannot continue a number. */
  predicate Stops(x: Text) {
    x == [] || !NumberUnit(x[0])
  }

  datatype Kind = KNull | KTrue | KFalse | KNum | KStr | KArr | KObj

  function KindOf(j: Json): Kind {
    match j
    case JNull => KNull
    case JBool(b) => if b then KTrue else KFalse
    case JNum(_) => KNum
    case JStr(_) => KStr
    case JArr(_) => KArr
    case JObj(_) => KObj
  }

  function KindAt(c: int): Kind {
    if c == 110 then KNull else if c == 116 then KTrue else if c == 102 then KFalse
    else if c == QUOTE then KStr else if c == LBRACKET then KArr else if c == LBRACE then KObj else KNum
  }

  lemma FirstUnitTellsKind(j: Json)
    requires Printable(j)
    ensures Print(j) != [] && KindAt(Print(j)[0]) == KindOf(j)
    ensures Print(j)[0] != RBRACKET && Print(j)[0] != RBRACE && Print(j)[0] != COMMA
  {
  }

  lemma {:induction false} TokenUnique(s: Text, t: Text, x: Text, y: Text)
    requires (forall i :: 0 <= i < |s| ==> NumberUnit(s[i])) && (forall i :: 0 <= i < |t| ==> NumberUnit(t[i]))
    requires Stops(x) && Stops(y) && s + x == t + y
    ensures s == t && x == y
  {
    SpanOfToken(s, x);
    SpanOfToken(t, y);
    assert s == (s + x)[..|s|] && t == (t + y)[..|t|] && x == (s + x)[|s|..] && y == (t + y)[|t|..];
  }

  /** The number of leading units that belong to a number. */
  function Span(u: Text): nat {
    if u == [] || !NumberUnit(u[0]) then 0 else 1 + Span(u[1..])
  }

  lemma {:induction false} SpanOfToken(s: Text, x: Text)
    requires (forall i :: 0 <= i < |s| ==> NumberUnit(s[i])) && Stops(x)
    ensures Span(s + x) == |s|
    decreases |s|
  {
    if s == [] {
      assert s + x == x;
    } else {
      assert (s + x)[1..] == s[1..] + x;
      SpanOfToken(s[1..], x);
    }
  }

  lemma Enclosed(open: int, s: Text, close: int, x: Text)
    ensures ([open] + s + [close]) + x == [open] + (s + ([close] + x))
  {
  }

  lemma HeadTail(a: int, b: int, s: Text, t: Text)
    requires [a] + s == [b] + t
    ensures a == b && s == t
  {
    assert ([a] + s)[0] == ([b] + t)[0];
    assert s == ([a] + s)[1..] && t == ([b] + t)[1..];
  }

  lemma SameKind(a: Json, b: Json, x: Text, y: Text)
    requires Printable(a) && Printable(b) && Print(a) + x == Print(b) + y
    ensures KindOf(a) == KindOf(b)
  {
    FirstUnitTellsKind(a);
    FirstUnitTellsKind(b);
    var u, v := Print(a) + x, Print(b) + y;
    assert u[0] == Print(a)[0] && v[0] == Print(b)[0];
  }

  lemma SameRest(s: Text, x: Text, y: Text)
    requires s + x == s + y
    ensures x == y
  {
    assert x == (s + x)[|s|..] && y == (s + y)[|s|..];
  }

  /** A printed value can be read back in one way only, whatever follows it. */
  lemma {:induction false} ValueUnique(a: Json, b: Json, x: Text, y: Text)
    requires Printable(a) && Printable(b) && Stops(x) && Stops(y) && Print(a) + x == Print(b) + y
    ensures a == b && x == y
    decreases a, 1
  {
    SameKind(a, b, x, y);
    if a.JNum? {
      TokenUnique(a.token, b.token, x, y);
    } else if a.JStr? {
      QuoteUnique(a.text, b.text, x, y);
    } else if a.JArr? {
      ArrayUnique(a, b, x, y);
    } else if a.JObj? {
      ObjectUnique(a, b, x, y);
    } else {
      assert a == b;
      SameRest(Print(a), x, y);
    }
  }

  lemma {:induction false} ArrayUnique(a: Json, b: Json, x: Text, y: Text)
    requires a.JArr? && b.JArr? && Printable(a) && Printable(b) && Print(a) + x == Print(b) + y
    ensures a == b && x == y
    decreases a, 0
  {
    Enclosed(LBRACKET, PrintItems(a.items), RBRACKET, x);
    Enclosed(LBRACKET, PrintItems(b.items), RBRACKET, y);
    HeadTail(LBRACKET, LBRACKET, PrintItems(a.items) + ([RBRACKET] + x), PrintItems(b.items) + ([RBRACKET] + y));
    ItemsUnique(a.items, b.items, x, y);
  }

  lemma {:induction false} ObjectUnique(a: Json, b: Json, x: Text, y: Text)
    requires a.JObj? && b.JObj? && Printable(a) && Printable(b) && Print(a) + x == Print(b) + y
    ensures a == b && x == y
    decreases a, 0
  {
    Enclosed(LBRACE, PrintMembers(a.members), RBRACE, x);
    Enclosed(LBRACE, PrintMembers(b.members), RBRACE, y);
    HeadTail(LBRACE, LBRACE, PrintMembers(a.members) + ([RBRACE] + x), PrintMembers(b.members) + ([RBRACE] + y));
    MembersUnique(a.members, b.members, x, y);
  }

  /** What follows the first item: the end of the list, or a comma and the other items. */
  function AfterItem(items: seq<Json>, x: Text): Text
    requires items != []
  {
    if |items| == 1 then [RBRACKET] + x else [COMMA] + (PrintItems(items[1..]) + ([RBRACKET] + x))
  }

  lemma ItemsSplit(items: seq<Json>, x: Text)
    requires items != []
    ensures PrintItems(items) + ([RBRACKET] + x) == Print(items[0]) + AfterItem(items, x)
  {
  }

  lemma ItemsEnd(items: seq<Json>, x: Text)
    requires forall i :: 0 <= i < |items| ==> Printable(items[i])
    ensures var u := PrintItems(items) + ([RBRACKET] + x); u != [] && (items == [] <==> u[0] == RBRACKET)
    ensures items == [] ==> PrintItems(items) + ([RBRACKET] + x) == [RBRACKET] + x
  {
    if items != [] {
      ItemsSplit(items, x);
      FirstUnitTellsKind(items[0]);
    }
  }

  lemma RestItems(a: seq<Json>, b: seq<Json>, x: Text, y: Text)
    requires a != [] && b != [] && AfterItem(a, x) == AfterItem(b, y)
    ensures |a| == 1 <==> |b| == 1
    ensures |a| == 1 ==> x == y
    ensures |a| > 1 ==> PrintItems(a[1..]) + ([RBRACKET] + x) == PrintItems(b[1..]) + ([RBRACKET] + y)
  {
    var u, v := AfterItem(a, x), AfterItem(b, y);
    assert u[0] == v[0] && u[1..] == v[1..];
    if |a| == 1 {
      assert u[1..] == x && v[1..] == y;
    }
  }

  lemma {:induction false} ItemsUnique(a: seq<Json>, b: seq<Json>, x: Text, y: Text)
    requires forall i :: 0 <= i < |a| ==> Printable(a[i])
    requires forall i :: 0 <= i < |b| ==> Printable(b[i])
    requires PrintItems(a) + ([RBRACKET] + x) == PrintItems(b) + ([RBRACKET] + y)
    ensures a == b && x == y
    decreases a
  {
    ItemsEnd(a, x);
    ItemsEnd(b, y);
    if a == [] {
      assert x == ([RBRACKET] + x)[1..] && y == ([RBRACKET] + y)[1..];
    } else {
      ItemsSplit(a, x);
      ItemsSplit(b, y);
      ValueUnique(a[0], b[0], AfterItem(a, x), AfterItem(b, y));
      RestItems(a, b, x, y);
      if |a| > 1 {
        ItemsUnique(a[1..], b[1..], x, y);
        assert a == [a[0]] + a[1..] && b == [b[0]] + b[1..];
      }
    }
  }

  function AfterMember(members: seq<(Text, Json)>, x: Text): Text
    requires members != []
  {
    if |members| == 1 then [RBRACE] + x else [COMMA] + (PrintMembers(members[1..]) + ([RBRACE] + x))
  }

  lemma MembersSplit(members: seq<(Text, Json)>, x: Text)
    requires members != []
    ensures PrintMembers(members) + ([RBRACE] + x) == PrintMember(members[0]) + AfterMember(members, x)
  {
  }

  lemma Regroup(key: Text, value: Text, x: Text)
    ensures (key + ([COLON] + value)) + x == key + ([COLON] + (value + x))
    ensures key + ([COLON] + value) == key + [COLON] + value
  {
  }

  lemma {:induction false} MemberUnique(a: (Text, Json), b: (Text, Json), x: Text, y: Text)
    requires Units(a.0) && Units(b.0) && Printable(a.1) && Printable(b.1) && Stops(x) && Stops(y)
    requires PrintMember(a) + x == PrintMember(b) + y
    ensures a == b && x == y
    decreases a
  {
    var u, v := Print(a.1) + x, Print(b.1) + y;
    Regroup(Quote(a.0), Print(a.1), x);
    Regroup(Quote(b.0), Print(b.1), y);
    QuoteUnique(a.0, b.0, [COLON] + u, [COLON] + v);
    HeadTail(COLON, COLON, u, v);
    ValueUnique(a.1, b.1, x, y);
  }

  lemma MembersEnd(members: seq<(Text, Json)>, x: Text)
    ensures var u := PrintMembers(members) + ([RBRACE] + x); u != [] && (members == [] <==> u[0] == RBRACE)
    ensures members == [] ==> PrintMembers(members) + ([RBRACE] + x) == [RBRACE] + x
  {
    if members != [] {
      MembersSplit(members, x);
      assert PrintMember(members[0])[0] == QUOTE;
    }
  }

  lemma RestMembers(a: seq<(Text, Json)>, b: seq<(Text, Json)>, x: Text, y: Text)
    requires a != [] && b != [] && AfterMember(a, x) == AfterMember(b, y)
    ensures |a| == 1 <==> |b| == 1
    ensures |a| == 1 ==> x == y
    ensures |a| > 1 ==> PrintMembers(a[1..]) + ([RBRACE] + x) == PrintMembers(b[1..]) + ([RBRACE] + y)
  {
    var u, v := AfterMember(a, x), AfterMember(b, y);
    assert u[0] == v[0] && u[1..] == v[1..];
    if |a| == 1 {
      assert u[1..] == x && v[1..] == y;
    }
  }

  lemma {:induction false} MembersUnique(a: seq<(Text, Json)>, b: seq<(Text, Json)>, x: Text, y: Text)
    requires forall i :: 0 <= i < |a| ==> Units(a[i].0) && Printable(a[i].1)
    requires forall i :: 0 <= i < |b| ==> Units(b[i].0) && Printable(b[i].1)
    requires PrintMembers(a) + ([RBRACE] + x) == PrintMembers(b) + ([RBRACE] + y)
    ensures a == b && x == y
    decreases a
  {
    MembersEnd(a, x);
    MembersEnd(b, y);
    if a == [] {
      assert x == ([RBRACE] + x)[1..] && y == ([RBRACE] + y)[1..];
    } else {
      MembersSplit(a, x);
      MembersSplit(b, y);
      MemberUnique(a[0], b[0], AfterMember(a, x), AfterMember(b, y));
      RestMembers(a, b, x, y);
      if |a| > 1 {
        MembersUnique(a[1..], b[1..], x, y);
        assert a == [a[0]] + a[1..] && b == [b[0]] + b[1..];
      }
    }
  }

  lemma PrintInjective(a: Json, b: Json)
    requires Printable(a) && Printable(b) && Print(a) == Print(b)
    ensures a == b
  {
    assert Print(a) + [] == Print(a) && Print(b) + [] == Print(b);
    ValueUnique(a, b, [], []);
  }

  // ---------------------------------------------------------------- the text is well-formed

  lemma {:induction false} PrintWellFormed(j: Json)
    requires Printable(j)
    ensures WellFormed(Print(j))
  {
    match j
    case JStr(text) => QuoteWellFormed(text);
    case JArr(items) =>
      ItemsWellFormed(items);
      Bracketed(LBRACKET, PrintItems(items), RBRACKET);
    case JObj(members) =>
      MembersWellFormed(members);
      Bracketed(LBRACE, PrintMembers(members), RBRACE);
    case _ => AsciiWellFormed(Print(j));
  }

  lemma Bracketed(open: int, s: Text, close: int)
    requires WellFormed(s) && 0 <= open < 128 && 0 <= close < 128
    ensures WellFormed([open] + s + [close])
  {
    AsciiWellFormed([open]);
    AsciiWellFormed([close]);
    WellFormedConcat([open], s);
    WellFormedConcat([open] + s, [close]);
  }

  lemma Joined(a: Text, separator: int, b: Text)
    requires WellFormed(a) && WellFormed(b) && 0 <= separator < 128
    ensures WellFormed(a + [separator] + b)
  {
    AsciiWellFormed([separator]);
    WellFormedConcat(a, [separator]);
    WellFormedConcat(a + [separator], b);
  }

  lemma {:induction false} ItemsWellFormed(items: seq<Json>)
    requires forall i :: 0 <= i < |items| ==> Printable(items[i])
    ensures WellFormed(PrintItems(items))
  {
    if items != [] {
      PrintWellFormed(items[0]);
      if |items| > 1 {
        ItemsWellFormed(items[1..]);
        Joined(Print(items[0]), COMMA, PrintItems(items[1..]));
      }
    }
  }

  lemma {:induction false} MembersWellFormed(members: seq<(Text, Json)>)
    requires forall i :: 0 <= i < |members| ==> Units(members[i].0) && Printable(members[i].1)
    ensures WellFormed(PrintMembers(members))
  {
    if members != [] {
      MemberWellFormed(members[0]);
      if |members| > 1 {
        MembersWellFormed(members[1..]);
        Joined(PrintMember(members[0]), COMMA, PrintMembers(members[1..]));
      }
    }
  }

  lemma {:induction false} MemberWellFormed(m: (Text, Json))
    requires Units(m.0) && Printable(m.1)
    ensures WellFormed(PrintMember(m))
  {
    QuoteWellFormed(m.0);
    PrintWellFormed(m.1);
    Joined(Quote(m.0), COLON, Print(m.1));
    Regroup(Quote(m.0), Print(m.1), []);
  }
}
