/**
 A reader of JSON texts without white space, after the grammar of RFC 8259 (sections 2 to 7), and
 why it gets back from a printed text exactly the value that was printed.
 */
module JsonReader {
  import opened Wrappers
  import opened CanonicalText
  import opened CanonicalJson

  type Read<T> = Option<(T, Text)>

  predicate At(t: Text, c: char) {
    t != [] && t[0] == c as int
  }

  // ---------------------------------------------------------------- strings (section 7)

  function HexValue(c: int): Option<int> {
    if '0' as int <= c <= '9' as int then Some(c - '0' as int)
    else if 'a' as int <= c <= 'f' as int then Some(c - 'a' as int + 10)
    else if 'A' as int <= c <= 'F' as int then Some(c - 'A' as int + 10)
    else None
  }

  /** The four digits after a backslash and a u. */
  function ReadHex(t: Text): (r: Read<int>)
    ensures r.Some? ==> |r.value.1| < |t|
  {
    if |t| < 4 || exists i :: 0 <= i < 4 && HexValue(t[i]).None? then None
    else Some((((HexValue(t[0]).value * 16 + HexValue(t[1]).value) * 16 + HexValue(t[2]).value) * 16 + HexValue(t[3]).value, t[4..]))
  }

  /** What follows a backslash. */
  function ReadEscape(t: Text): (r: Read<int>)
    ensures r.Some? ==> |r.value.1| < |t|
  {
    if At(t, '\"') || At(t, '\\') || At(t, '/') then Some((t[0], t[1..]))
    else if At(t, 'b') then Some((8, t[1..]))
    else if At(t, 'f') then Some((12, t[1..]))
    else if At(t, 'n') then Some((10, t[1..]))
    else if At(t, 'r') then Some((13, t[1..]))
    else if At(t, 't') then Some((9, t[1..]))
    else if At(t, 'u') then ReadHex(t[1..])
    else None
  }

  function Cons(c: int, r: Read<Text>): Read<Text> {
    if r.None? then None else Some(([c] + r.value.0, r.value.1))
  }

  /** The rest of a string, up to its closing quotation mark. */
  function ReadString(t: Text): (r: Read<Text>)
    ensures r.Some? ==> |r.value.1| < |t|
    decreases |t|
  {
    if t == [] then None
    else if At(t, '\"') then Some(([], t[1..]))
    else if At(t, '\\') then
      var e := ReadEscape(t[1..]);
      if e.None? then None else Cons(e.value.0, ReadString(e.value.1))
    else if t[0] < 0x20 then None
    else Cons(t[0], ReadString(t[1..]))
  }

  // ---------------------------------------------------------------- values (sections 3 to 6)

  function ReadLiteral(t: Text, word: string, j: Json): (r: Read<Json>)
    requires word != []
    ensures r.Some? ==> |r.value.1| < |t|
  {
    if |word| <= |t| && forall i :: 0 <= i < |word| ==> t[i] == word[i] as int then Some((j, t[|word|..])) else None
  }

  function ReadValue(t: Text): (r: Read<Json>)
    ensures r.Some? ==> |r.value.1| < |t|
    decreases |t|, 1
  {
    if At(t, 'n') then ReadLiteral(t, "null", JNull)
    else if At(t, 't') then ReadLiteral(t, "true", JBool(true))
    else if At(t, 'f') then ReadLiteral(t, "false", JBool(false))
    else if At(t, '\"') then
      var s := ReadString(t[1..]);
      if s.None? then None else Some((JStr(s.value.0), s.value.1))
    else if At(t, '[') then
      if At(t[1..], ']') then Some((JArr([]), t[2..]))
      else
        var items := ReadItems(t[1..]);
        if items.None? then None else Some((JArr(items.value.0), items.value.1))
    else if At(t, '{') then
      if At(t[1..], '}') then Some((JObj([]), t[2..]))
      else
        var members := ReadMembers(t[1..]);
        if members.None? then None else Some((JObj(members.value.0), members.value.1))
    else
      var n := Span(t);
      SpanWithin(t);
      if n == 0 then None else Some((JNum(t[..n]), t[n..]))
  }

  /** One or more items, separated by commas, up to the closing bracket. */
  function ReadItems(t: Text): (r: Read<seq<Json>>)
    ensures r.Some? ==> |r.value.1| < |t|
    decreases |t|, 2
  {
    var first := ReadValue(t);
    if first.None? then None
    else if At(first.value.1, ']') then Some(([first.value.0], first.value.1[1..]))
    else if At(first.value.1, ',') then
      var rest := ReadItems(first.value.1[1..]);
      if rest.None? then None else Some(([first.value.0] + rest.value.0, rest.value.1))
    else None
  }

  function ReadMember(t: Text): (r: Read<(Text, Json)>)
    ensures r.Some? ==> |r.value.1| < |t|
    decreases |t|, 2
  {
    if !At(t, '\"') then None
    else
      var key := ReadString(t[1..]);
      if key.None? || !At(key.value.1, ':') then None
      else
        var value := ReadValue(key.value.1[1..]);
        if value.None? then None else Some(((key.value.0, value.value.0), value.value.1))
  }

  function ReadMembers(t: Text): (r: Read<seq<(Text, Json)>>)
    ensures r.Some? ==> |r.value.1| < |t|
    decreases |t|, 3
  {
    var first := ReadMember(t);
    if first.None? then None
    else if At(first.value.1, '}') then Some(([first.value.0], first.value.1[1..]))
    else if At(first.value.1, ',') then
      var rest := ReadMembers(first.value.1[1..]);
      if rest.None? then None else Some(([first.value.0] + rest.value.0, rest.value.1))
    else None
  }

  /** A whole text is one value and nothing after it. */
  function ReadText(t: Text): Option<Json> {
    var r := ReadValue(t);
    if r.Some? && r.value.1 == [] then Some(r.value.0) else None
  }

  lemma {:induction false} SpanWithin(t: Text)
    ensures Span(t) <= |t|
    decreases |t|
  {
    if t != [] && NumberUnit(t[0]) {
      SpanWithin(t[1..]);
    }
  }

  // ---------------------------------------------------------------- reading what was printed

  lemma HexReadsBack(d: int)
    requires 0 <= d < 16
    ensures HexValue(Hex(d)) == Some(d)
  {
  }

  lemma Hex4ReadsBack(c: nat, u: Text)
    requires c < 0x1_0000
    ensures ReadHex(Hex4(c) + u) == Some((c, u))
  {
    var t := Hex4(c) + u;
    HexReadsBack(c / 4096);
    HexReadsBack(c / 256 % 16);
    HexReadsBack(c / 16 % 16);
    HexReadsBack(c % 16);
    FourDigits(c);
    assert t[0] == Hex(c / 4096) && t[1] == Hex(c / 256 % 16) && t[2] == Hex(c / 16 % 16) && t[3] == Hex(c % 16) && t[4..] == u;
  }

  lemma EscapedReadsBack(c: nat, u: Text)
    requires c < 0x1_0000
    ensures ReadString(Escaped(c) + u) == Cons(c, ReadString(u))
  {
    var e := Escaped(c);
    var t := e + u;
    if |e| == 1 {
      assert t[1..] == u;
    } else if |e| == 2 {
      assert t[1..][0] == e[1] && t[1..][1..] == u;
    } else {
      assert t[1..] == [117] + (Hex4(c) + u);
      assert t[1..][1..] == Hex4(c) + u;
      Hex4ReadsBack(c, u);
    }
  }

  lemma PairReadsBack(s: Text, u: Text)
    requires StartsWithPair(s)
    ensures ReadString(s[..2] + u) == Cons(s[0], Cons(s[1], ReadString(u)))
  {
    var t := s[..2] + u;
    assert t[0] == s[0] && t[1..][0] == s[1] && t[1..][1..] == u;
  }

  lemma {:induction false} StringReadsBack(s: Text, x: Text)
    requires Units(s)
    ensures ReadString(Body(s) + [QUOTE] + x) == Some((s, x))
    decreases |s|
  {
    BodyEnd(s, x);
    if s == [] {
      assert ([QUOTE] + x)[1..] == x;
    } else {
      var rest := s[Width(s)..];
      BodySplit(s, x);
      StringReadsBack(rest, x);
      var u := Body(rest) + [QUOTE] + x;
      if StartsWithPair(s) {
        PairReadsBack(s, u);
        assert s == [s[0]] + ([s[1]] + rest);
      } else {
        EscapedReadsBack(s[0], u);
        assert s == [s[0]] + rest;
      }
    }
  }

  /** After its opening quotation mark a quoted string is read back. */
  lemma QuoteReadsBack(s: Text, x: Text)
    requires Units(s)
    ensures At(Quote(s) + x, '\"') && ReadString((Quote(s) + x)[1..]) == Some((s, x))
  {
    QuoteTail(Body(s), x);
    StringReadsBack(s, x);
  }

  /** A printed value is read back as itself, whatever follows that cannot continue a number. */
  lemma {:induction false} ValueReadsBack(j: Json, x: Text)
    requires Printable(j) && Stops(x)
    ensures ReadValue(Print(j) + x) == Some((j, x))
    decreases j, 1
  {
    var t := Print(j) + x;
    FirstUnitTellsKind(j);
    assert t[0] == Print(j)[0];
    match j
    case JNull => LiteralReadsBack("null", NULL_TEXT, x, JNull);
    case JBool(b) =>
      if b {
        LiteralReadsBack("true", TRUE_TEXT, x, j);
      } else {
        LiteralReadsBack("false", FALSE_TEXT, x, j);
      }
    case JNum(token) =>
      SpanOfToken(token, x);
      assert t[..|token|] == token && t[|token|..] == x;
    case JStr(text) => QuoteReadsBack(text, x);
    case JArr(items) => ArrayReadsBack(j, x);
    case JObj(members) => ObjectReadsBack(j, x);
  }

  lemma LiteralReadsBack(word: string, text: Text, x: Text, j: Json)
    requires word != [] && |word| == |text| && forall i :: 0 <= i < |word| ==> text[i] == word[i] as int
    ensures ReadLiteral(text + x, word, j) == Some((j, x))
  {
    assert (text + x)[|word|..] == x;
  }

  lemma {:induction false} ArrayReadsBack(j: Json, x: Text)
    requires j.JArr? && Printable(j) && Stops(x)
    ensures ReadValue(Print(j) + x) == Some((j, x))
    decreases j, 0
  {
    Enclosed(LBRACKET, PrintItems(j.items), RBRACKET, x);
    var t, u := Print(j) + x, PrintItems(j.items) + ([RBRACKET] + x);
    assert t[1..] == u;
    ItemsEnd(j.items, x);
    if j.items == [] {
      assert t[2..] == u[1..] == x;
    } else {
      ItemsReadBack(j.items, x);
    }
  }

  lemma {:induction false} ItemsReadBack(items: seq<Json>, x: Text)
    requires items != [] && Stops(x) && forall i :: 0 <= i < |items| ==> Printable(items[i])
    ensures ReadItems(PrintItems(items) + ([RBRACKET] + x)) == Some((items, x))
    decreases items
  {
    ItemsSplit(items, x);
    var after := AfterItem(items, x);
    ValueReadsBack(items[0], after);
    if |items| == 1 {
      assert after[1..] == x && items == [items[0]];
    } else {
      assert after[1..] == PrintItems(items[1..]) + ([RBRACKET] + x);
      ItemsReadBack(items[1..], x);
      assert items == [items[0]] + items[1..];
    }
  }

  lemma {:induction false} ObjectReadsBack(j: Json, x: Text)
    requires j.JObj? && Printable(j) && Stops(x)
    ensures ReadValue(Print(j) + x) == Some((j, x))
    decreases j, 0
  {
    Enclosed(LBRACE, PrintMembers(j.members), RBRACE, x);
    var t, u := Print(j) + x, PrintMembers(j.members) + ([RBRACE] + x);
    assert t[1..] == u;
    MembersEnd(j.members, x);
    if j.members == [] {
      assert t[2..] == u[1..] == x;
    } else {
      MembersReadBack(j.members, x);
    }
  }

  lemma {:induction false} MemberReadsBack(m: (Text, Json), x: Text)
    requires Units(m.0) && Printable(m.1) && Stops(x)
    ensures ReadMember(PrintMember(m) + x) == Some((m, x))
    decreases m
  {
    var u := Print(m.1) + x;
    Regroup(Quote(m.0), Print(m.1), x);
    QuoteReadsBack(m.0, [COLON] + u);
    assert ([COLON] + u)[1..] == u;
    ValueReadsBack(m.1, x);
  }

  lemma {:induction false} MembersReadBack(members: seq<(Text, Json)>, x: Text)
    requires members != [] && Stops(x) && forall i :: 0 <= i < |members| ==> Units(members[i].0) && Printable(members[i].1)
    ensures ReadMembers(PrintMembers(members) + ([RBRACE] + x)) == Some((members, x))
    decreases members
  {
    MembersSplit(members, x);
    var after := AfterMember(members, x);
    MemberReadsBack(members[0], after);
    if |members| == 1 {
      assert after[1..] == x && members == [members[0]];
    } else {
      assert after[1..] == PrintMembers(members[1..]) + ([RBRACE] + x);
      MembersReadBack(members[1..], x);
      assert members == [members[0]] + members[1..];
    }
  }

  /** A printed text is a JSON text, and it is read as the value that was printed. */
  lemma PrintReadsBack(j: Json)
    requires Printable(j)
    ensures ReadText(Print(j)) == Some(j)
  {
    ValueReadsBack(j, []);
    assert Print(j) + [] == Print(j);
  }
}
