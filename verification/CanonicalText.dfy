/**
 Texts as sequences of UTF-16 code units: the string literals of JSON.stringify and the code
 unit order in which Array.prototype.sort puts object keys.
 */
module CanonicalText {
  type Text = seq<int>

  const QUOTE: nat := 34
  const COMMA: nat := 44
  const COLON: nat := 58
  const BACKSLASH: nat := 92
  const LBRACKET: nat := 91
  const RBRACKET: nat := 93
  const LBRACE: nat := 123
  const RBRACE: nat := 125

  predicate Units(s: Text) {
    forall i :: 0 <= i < |s| ==> 0 <= s[i] < 0x1_0000
  }

  // ---------------------------------------------------------------- string literals

  predicate High(c: int) { 0xD800 <= c <= 0xDBFF }

  predicate Low(c: int) { 0xDC00 <= c <= 0xDFFF }

  predicate StartsWithPair(s: Text) {
    |s| >= 2 && High(s[0]) && Low(s[1])
  }

  function Hex(d: int): int {
    if d < 10 then 48 + d else 87 + d
  }

  function Hex4(c: int): Text {
    [Hex(c / 4096), Hex(c / 256 % 16), Hex(c / 16 % 16), Hex(c % 16)]
  }

  /** A code unit that is not half of a pair: short escape, hexadecimal escape, or itself. */
  function Escaped(c: int): Text {
    if c == 8 then [BACKSLASH, 98]
    else if c == 9 then [BACKSLASH, 116]
    else if c == 10 then [BACKSLASH, 110]
    else if c == 12 then [BACKSLASH, 102]
    else if c == 13 then [BACKSLASH, 114]
    else if c == QUOTE then [BACKSLASH, QUOTE]
    else if c == BACKSLASH then [BACKSLASH, BACKSLASH]
    else if c < 32 || High(c) || Low(c) then [BACKSLASH, 117] + Hex4(c)
    else [c]
  }

  /** A unit is escaped only where JSON or the pairing of surrogates asks for it, and then as shortly as possible. */
  lemma EscapedIsShortest(c: nat)
    requires c < 0x1_0000
    ensures var e := Escaped(c);
            if c in {0x08, 0x09, 0x0A, 0x0C, 0x0D, 0x22, 0x5C} then |e| == 2
            else if c < 0x20 || 0xD800 <= c <= 0xDFFF then
              |e| == 6 && forall i :: 2 <= i < 6 ==> '0' as int <= e[i] <= '9' as int || 'a' as int <= e[i] <= 'f' as int
            else e == [c]
  {
    var e := Escaped(c);
    if |e| == 6 {
      assert e[2] == Hex(c / 4096) && e[3] == Hex(c / 256 % 16) && e[4] == Hex(c / 16 % 16) && e[5] == Hex(c % 16);
    }
  }

  function Width(s: Text): nat
    requires s != []
  {
    if StartsWithPair(s) then 2 else 1
  }

  function FirstPiece(s: Text): Text
    requires s != []
  {
    if StartsWithPair(s) then s[..2] else Escaped(s[0])
  }

  function Body(s: Text): Text {
    if s == [] then [] else FirstPiece(s) + Body(s[Width(s)..])
  }

  function Quote(s: Text): Text {
    [QUOTE] + Body(s) + [QUOTE]
  }

  lemma Hex4Injective(c: nat, d: nat)
    requires c < 0x1_0000 && d < 0x1_0000 && Hex4(c) == Hex4(d)
    ensures c == d
  {
    Hex4Digits(c, d);
    FourDigits(c);
    FourDigits(d);
  }

  lemma Hex4Digits(c: nat, d: nat)
    requires c < 0x1_0000 && d < 0x1_0000 && Hex4(c) == Hex4(d)
    ensures c / 4096 == d / 4096 && c / 256 % 16 == d / 256 % 16 && c / 16 % 16 == d / 16 % 16 && c % 16 == d % 16
  {
    var u, v := Hex4(c), Hex4(d);
    assert u[0] == v[0] && u[1] == v[1] && u[2] == v[2] && u[3] == v[3];
    HexInjective(c / 4096, d / 4096);
    HexInjective(c / 256 % 16, d / 256 % 16);
    HexInjective(c / 16 % 16, d / 16 % 16);
    HexInjective(c % 16, d % 16);
  }

  lemma FourDigits(c: nat)
    ensures c == 4096 * (c / 4096) + 256 * (c / 256 % 16) + 16 * (c / 16 % 16) + c % 16
  {
    assert c / 16 / 16 == c / 256 && c / 256 / 16 == c / 4096;
  }

  lemma HexInjective(c: nat, d: nat)
    requires c < 16 && d < 16 && Hex(c) == Hex(d)
    ensures c == d
  {
  }

  lemma EscapedUnique(c: nat, d: nat, x: Text, y: Text)
    requires c < 0x1_0000 && d < 0x1_0000 && Escaped(c) + x == Escaped(d) + y
    ensures c == d && x == y
  {
    var u, v := Escaped(c) + x, Escaped(d) + y;
    assert u[0] == v[0];
    if u[0] == BACKSLASH {
      assert u[1] == v[1];
      if u[1] == 117 {
        assert Hex4(c) == u[2..6] == v[2..6] == Hex4(d);
        Hex4Injective(c, d);
      }
    }
    assert x == u[|Escaped(c)|..] && y == v[|Escaped(d)|..];
  }

  lemma FirstPieceUnique(s: Text, t: Text, x: Text, y: Text)
    requires s != [] && t != [] && Units(s) && Units(t) && FirstPiece(s) + x == FirstPiece(t) + y
    ensures Width(s) == Width(t) && s[..Width(s)] == t[..Width(t)] && x == y
  {
    var u, v := FirstPiece(s) + x, FirstPiece(t) + y;
    assert u[0] == v[0];
    if StartsWithPair(s) {
      assert u[1] == v[1];
      assert x == u[2..] && y == v[2..];
    } else {
      EscapedUnique(s[0], t[0], x, y);
    }
  }

  lemma FirstPieceHead(s: Text)
    requires s != []
    ensures FirstPiece(s) != [] && FirstPiece(s)[0] != QUOTE
  {
  }

  lemma QuoteTail(body: Text, x: Text)
    ensures ([QUOTE] + body + [QUOTE] + x)[1..] == body + [QUOTE] + x
  {
  }

  /** A string literal can be read back, whatever follows it. */
  lemma {:induction false} QuoteUnique(s: Text, t: Text, x: Text, y: Text)
    requires Units(s) && Units(t) && Quote(s) + x == Quote(t) + y
    ensures s == t && x == y
  {
    QuoteTail(Body(s), x);
    QuoteTail(Body(t), y);
    BodyUnique(s, t, x, y);
  }

  lemma {:induction false} BodyUnique(s: Text, t: Text, x: Text, y: Text)
    requires Units(s) && Units(t) && Body(s) + [QUOTE] + x == Body(t) + [QUOTE] + y
    ensures s == t && x == y
    decreases |s|
  {
    BodyEnd(s, x);
    BodyEnd(t, y);
    if s == [] {
      assert x == ([QUOTE] + x)[1..] && y == ([QUOTE] + y)[1..];
    } else {
      BodySplit(s, x);
      BodySplit(t, y);
      var s', t' := s[Width(s)..], t[Width(t)..];
      FirstPieceUnique(s, t, Body(s') + [QUOTE] + x, Body(t') + [QUOTE] + y);
      BodyUnique(s', t', x, y);
      assert s == s[..Width(s)] + s' && t == t[..Width(t)] + t';
    }
  }

  lemma BodySplit(s: Text, x: Text)
    requires s != []
    ensures Body(s) + [QUOTE] + x == FirstPiece(s) + (Body(s[Width(s)..]) + [QUOTE] + x)
  {
  }

  lemma BodyEnd(s: Text, x: Text)
    ensures var u := Body(s) + [QUOTE] + x; u != [] && (s == [] <==> u[0] == QUOTE)
    ensures s == [] ==> Body(s) + [QUOTE] + x == [QUOTE] + x
  {
    if s != [] {
      FirstPieceHead(s);
    }
  }

  // ---------------------------------------------------------------- well-formed UTF-16

  /** No lone surrogate, so that encoding the text as UTF-8 loses nothing. */
  predicate WellFormed(s: Text) {
    s == [] || (if StartsWithPair(s) then WellFormed(s[2..]) else !High(s[0]) && !Low(s[0]) && WellFormed(s[1..]))
  }

  lemma {:induction false} WellFormedConcat(a: Text, b: Text)
    requires WellFormed(a) && WellFormed(b)
    ensures WellFormed(a + b)
    decreases |a|
  {
    if a == [] {
      assert a + b == b;
    } else {
      var k := Width(a);
      WellFormedConcat(a[k..], b);
      assert (a + b)[k..] == a[k..] + b;
    }
  }

  predicate Ascii(s: Text) {
    forall i :: 0 <= i < |s| ==> 0 <= s[i] < 128
  }

  lemma {:induction false} AsciiWellFormed(s: Text)
    requires Ascii(s)
    ensures WellFormed(s)
    decreases |s|
  {
    if s != [] {
      AsciiWellFormed(s[1..]);
    }
  }

  lemma EscapedWellFormed(c: nat)
    requires c < 0x1_0000
    ensures WellFormed(Escaped(c))
  {
    if Escaped(c) == [c] {
      assert WellFormed([c][1..]);
    } else {
      AsciiWellFormed(Escaped(c));
    }
  }

  lemma {:induction false} BodyWellFormed(s: Text)
    requires Units(s)
    ensures WellFormed(Body(s))
    decreases |s|
  {
    if s != [] {
      if StartsWithPair(s) {
        assert s[..2][2..] == [];
        assert WellFormed(s[..2]);
      } else {
        EscapedWellFormed(s[0]);
      }
      BodyWellFormed(s[Width(s)..]);
      WellFormedConcat(FirstPiece(s), Body(s[Width(s)..]));
    }
  }

  lemma QuoteWellFormed(s: Text)
    requires Units(s)
    ensures WellFormed(Quote(s))
  {
    BodyWellFormed(s);
    AsciiWellFormed([QUOTE]);
    WellFormedConcat([QUOTE], Body(s));
    WellFormedConcat([QUOTE] + Body(s), [QUOTE]);
  }

  // ---------------------------------------------------------------- key order

  predicate Less(a: Text, b: Text) {
    b != [] && (a == [] || a[0] < b[0] || (a[0] == b[0] && Less(a[1..], b[1..])))
  }

  /**
   The order of two strings by their code units: the first is a proper prefix of the second, or has
   the smaller unit where they first differ.
   */
  predicate ComesBefore(a: Text, b: Text) {
    (a < b) || exists n :: 0 <= n < |a| && n < |b| && DiffersFirstAt(a, b, n) && a[n] < b[n]
  }

  predicate DiffersFirstAt(a: Text, b: Text, n: nat)
    requires n < |a| && n < |b|
  {
    a[n] != b[n] && forall i :: 0 <= i < n ==> a[i] == b[i]
  }

  lemma {:induction false} LessIsCodeUnitOrder(a: Text, b: Text)
    ensures Less(a, b) <==> ComesBefore(a, b)
    decreases |a|
  {
    if a != [] && b != [] && a[0] == b[0] {
      LessIsCodeUnitOrder(a[1..], b[1..]);
      var a', b' := a[1..], b[1..];
      assert a == [a[0]] + a' && b == [b[0]] + b';
      if ComesBefore(a', b') && !(a' < b') {
        var n :| 0 <= n < |a'| && n < |b'| && DiffersFirstAt(a', b', n) && a'[n] < b'[n];
        assert a[n + 1] == a'[n] && b[n + 1] == b'[n];
        assert forall i :: 1 <= i < n + 1 ==> a[i] == a'[i - 1] && b[i] == b'[i - 1];
        assert DiffersFirstAt(a, b, n + 1);
      }
      if ComesBefore(a, b) && !(a < b) {
        var n :| 0 <= n < |a| && n < |b| && DiffersFirstAt(a, b, n) && a[n] < b[n];
        assert n > 0 && a'[n - 1] == a[n] && b'[n - 1] == b[n];
        assert forall i :: 0 <= i < n - 1 ==> a'[i] == a[i + 1] && b'[i] == b[i + 1];
        assert DiffersFirstAt(a', b', n - 1);
      }
    } else if a != [] && b != [] {
      assert DiffersFirstAt(a, b, 0);
      if ComesBefore(a, b) {
        assert !(a < b);
      }
    }
  }

  lemma {:induction false} LessIrreflexive(a: Text)
    ensures !Less(a, a)
  {
    if a != [] {
      LessIrreflexive(a[1..]);
    }
  }

  lemma {:induction false} LessTrichotomy(a: Text, b: Text)
    ensures a == b || Less(a, b) || Less(b, a)
    ensures !(Less(a, b) && Less(b, a)) && !Less(a, a)
    decreases |a|
  {
    LessIrreflexive(a);
    if a != [] && b != [] && a[0] == b[0] {
      LessTrichotomy(a[1..], b[1..]);
      assert a == [a[0]] + a[1..] && b == [b[0]] + b[1..];
    }
  }

  lemma {:induction false} LessTransitive(a: Text, b: Text, c: Text)
    requires Less(a, b) && Less(b, c)
    ensures Less(a, c)
    decreases |a|
  {
    if a != [] && a[0] == b[0] && b[0] == c[0] {
      LessTransitive(a[1..], b[1..], c[1..]);
    }
  }

  /** Entries in the order of their keys. */
  function Insert<T>(e: (Text, T), es: seq<(Text, T)>): seq<(Text, T)> {
    if es == [] || Less(e.0, es[0].0) then [e] + es else [es[0]] + Insert(e, es[1..])
  }

  function SortByKey<T>(es: seq<(Text, T)>): seq<(Text, T)> {
    if es == [] then [] else Insert(es[0], SortByKey(es[1..]))
  }

  predicate Sorted<T>(es: seq<(Text, T)>) {
    forall i, k :: 0 <= i < k < |es| ==> Less(es[i].0, es[k].0)
  }

  predicate DistinctKeys<T>(es: seq<(Text, T)>) {
    forall i, k :: 0 <= i < k < |es| ==> es[i].0 != es[k].0
  }

  predicate Fresh<T>(key: Text, es: seq<(Text, T)>) {
    forall i :: 0 <= i < |es| ==> es[i].0 != key
  }

  lemma {:induction false} InsertAdds<T>(e: (Text, T), es: seq<(Text, T)>)
    ensures multiset(Insert(e, es)) == multiset(es) + multiset{e}
    decreases |es|
  {
    if es != [] {
      assert es == [es[0]] + es[1..];
      InsertAdds(e, es[1..]);
    }
  }

  lemma LessThanAll<T>(e: (Text, T), es: seq<(Text, T)>)
    requires Sorted(es) && es != [] && Less(e.0, es[0].0)
    ensures Sorted([e] + es)
  {
    forall k | 0 <= k < |es|
      ensures Less(e.0, es[k].0)
    {
      if k > 0 {
        LessTransitive(e.0, es[0].0, es[k].0);
      }
    }
  }

  lemma {:induction false} InsertSorts<T>(e: (Text, T), es: seq<(Text, T)>)
    requires Sorted(es) && Fresh(e.0, es)
    ensures Sorted(Insert(e, es))
    decreases |es|
  {
    if es != [] {
      var rest := es[1..];
      LessTrichotomy(e.0, es[0].0);
      if Less(e.0, es[0].0) {
        LessThanAll(e, es);
      } else {
        InsertSorts(e, rest);
        InsertAdds(e, rest);
        var tail := Insert(e, rest);
        forall k | 0 <= k < |tail|
          ensures Less(es[0].0, tail[k].0)
        {
          assert tail[k] in multiset(tail);
          assert tail[k] == e || tail[k] in rest;
        }
      }
    }
  }

  /** Sorting gives the same entries in strictly increasing key order. */
  lemma {:induction false} SortIsSorted<T>(es: seq<(Text, T)>)
    requires DistinctKeys(es)
    ensures Sorted(SortByKey(es))
    ensures multiset(SortByKey(es)) == multiset(es)
    decreases |es|
  {
    if es != [] {
      SortIsSorted(es[1..]);
      assert es == [es[0]] + es[1..];
      var rest := SortByKey(es[1..]);
      forall i | 0 <= i < |rest|
        ensures rest[i].0 != es[0].0
      {
        assert rest[i] in multiset(rest);
        assert rest[i] in es[1..];
      }
      InsertSorts(es[0], rest);
      InsertAdds(es[0], rest);
    }
  }

  /** Two sorted sequences with the same members are the same sequence. */
  lemma {:induction false} SortedUnique<T>(a: seq<(Text, T)>, b: seq<(Text, T)>)
    requires Sorted(a) && Sorted(b)
    requires forall x :: x in a <==> x in b
    ensures a == b
    decreases |a|
  {
    if b != [] {
      var x := b[0];
      assert x in b;
    }
    if a != [] {
      assert a[0] in b;
      var k :| 0 <= k < |b| && b[k] == a[0];
      assert b[0] in a;
      var i :| 0 <= i < |a| && a[i] == b[0];
      LessTrichotomy(a[0].0, b[0].0);
      LessTrichotomy(a[0].0, a[0].0);
      assert a[0] == b[0];
      forall x
        ensures x in a[1..] <==> x in b[1..]
      {
        TailMembers(a, x);
        TailMembers(b, x);
      }
      SortedUnique(a[1..], b[1..]);
      assert a == [a[0]] + a[1..] && b == [b[0]] + b[1..];
    }
  }

  lemma TailMembers<T>(a: seq<(Text, T)>, x: (Text, T))
    requires Sorted(a) && a != []
    ensures x in a[1..] <==> x in a && x != a[0]
  {
    LessTrichotomy(a[0].0, a[0].0);
    assert a == [a[0]] + a[1..];
    if x in a[1..] {
      var i :| 0 <= i < |a[1..]| && a[1..][i] == x;
      assert a[i + 1] == x;
    }
  }

  lemma SortMembers<T>(es: seq<(Text, T)>)
    requires DistinctKeys(es)
    ensures |SortByKey(es)| == |es|
    ensures forall x :: x in SortByKey(es) <==> x in es
  {
    SortIsSorted(es);
    assert |multiset(es)| == |es| && |multiset(SortByKey(es))| == |SortByKey(es)|;
    forall x
      ensures x in SortByKey(es) <==> x in es
    {
      assert x in multiset(SortByKey(es)) <==> x in multiset(es);
    }
  }

  lemma SortCanonical<T>(a: seq<(Text, T)>, b: seq<(Text, T)>)
    requires DistinctKeys(a) && DistinctKeys(b)
    ensures SortByKey(a) == SortByKey(b) <==> (forall x :: x in a <==> x in b)
  {
    SortIsSorted(a);
    SortIsSorted(b);
    SortMembers(a);
    SortMembers(b);
    if forall x :: x in a <==> x in b {
      SortedUnique(SortByKey(a), SortByKey(b));
    }
  }

  /** The values do not matter to the order: sorting commutes with changing them. */
  function Mapped<T, U>(f: T -> U, es: seq<(Text, T)>): seq<(Text, U)> {
    seq(|es|, i requires 0 <= i < |es| => (es[i].0, f(es[i].1)))
  }

  lemma {:induction false} InsertMapped<T, U>(f: T -> U, e: (Text, T), es: seq<(Text, T)>)
    ensures Mapped(f, Insert(e, es)) == Insert((e.0, f(e.1)), Mapped(f, es))
    decreases |es|
  {
    if es != [] && !Less(e.0, es[0].0) {
      InsertMapped(f, e, es[1..]);
      assert Mapped(f, es)[1..] == Mapped(f, es[1..]);
    }
  }

  lemma {:induction false} SortMapped<T, U>(f: T -> U, es: seq<(Text, T)>)
    ensures Mapped(f, SortByKey(es)) == SortByKey(Mapped(f, es))
    decreases |es|
  {
    if es != [] {
      SortMapped(f, es[1..]);
      assert Mapped(f, es)[1..] == Mapped(f, es[1..]);
      InsertMapped(f, es[0], SortByKey(es[1..]));
    }
  }
}
