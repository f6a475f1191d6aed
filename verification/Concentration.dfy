/** The concentration of a hit distribution: the sum of squared shares, and between which bounds it lies. */
module Concentration {
  import opened Wrappers

  function Total(hits: seq<nat>): nat {
    if hits == [] then 0 else hits[0] + Total(hits[1..])
  }

  function Squares(hits: seq<nat>): nat {
    if hits == [] then 0 else hits[0] * hits[0] + Squares(hits[1..])
  }

  /** How many weapons have hits at all. */
  function Positive(hits: seq<nat>): nat {
    if hits == [] then 0 else (if hits[0] > 0 then 1 else 0) + Positive(hits[1..])
  }

  predicate AllEqualTo(hits: seq<nat>, v: nat) {
    forall i :: 0 <= i < |hits| && hits[i] > 0 ==> hits[i] == v
  }

  predicate AllEqual(hits: seq<nat>) {
    forall i, k :: 0 <= i < |hits| && 0 <= k < |hits| && hits[i] > 0 && hits[k] > 0 ==> hits[i] == hits[k]
  }

  /** h is the sum of the squared shares of a total, given the sum of squares. */
  predicate IsIndex(h: real, total: nat, squares: nat) {
    h * (total * total) as real == squares as real
  }

  method Sum(hits: seq<nat>) returns (total: nat)
    ensures total == Total(hits)
  {
    var i := 0;
    total := 0;
    while i < |hits|
      invariant 0 <= i <= |hits| && total == Total(hits[..i])
    {
      TotalAppend(hits, i);
      total := total + hits[i];
      i := i + 1;
    }
    assert hits[..i] == hits;
  }

  /** Total and sum of squared shares in two passes, as reals. */
  method HerfindahlOf(hits: seq<nat>) returns (h: Option<real>)
    ensures h.None? <==> Total(hits) == 0
    ensures h.Some? ==> h.value == SquaredShares(hits, Total(hits))
  {
    var total := Sum(hits);
    if total <= 0 {
      return None;
    }
    var sum, k := 0.0, 0;
    while k < |hits|
      invariant 0 <= k <= |hits|
      invariant sum == SquaredShares(hits[..k], total)
    {
      assert hits[..k + 1][..k] == hits[..k];
      var share := hits[k] as real / total as real;
      sum := sum + share * share;
      k := k + 1;
    }
    assert hits[..k] == hits;
    h := Some(sum);
  }

  function SquaredShares(hits: seq<nat>, total: nat): real
    requires total > 0
  {
    if hits == [] then 0.0
    else
      var share := hits[|hits| - 1] as real / total as real;
      SquaredShares(hits[..|hits| - 1], total) + share * share
  }

  lemma {:induction false} SquaredSharesIsIndex(hits: seq<nat>, total: nat)
    requires total > 0
    ensures IsIndex(SquaredShares(hits, total), total, Squares(hits))
    decreases |hits|
  {
    if hits == [] {
      NoShares(total);
    } else {
      var n := |hits| - 1;
      SquaredSharesIsIndex(hits[..n], total);
      AddShare(SquaredShares(hits[..n], total), hits[n], total, Squares(hits[..n]));
      SquaresAppend(hits, n);
      assert hits[..n + 1] == hits;
    }
  }

  lemma NoShares(total: nat)
    ensures IsIndex(0.0, total, 0)
  {
  }

  lemma AddShare(sum: real, v: nat, total: nat, squares: nat)
    requires total > 0 && IsIndex(sum, total, squares)
    ensures var share := v as real / total as real; IsIndex(sum + share * share, total, squares + v * v)
  {
    var t := total as real;
    var share := v as real / t;
    assert (total * total) as real == t * t;
    ShareSquared(v, share, t);
    assert (sum + share * share) * (t * t) == sum * (t * t) + (share * share) * (t * t);
  }

  lemma ShareSquared(v: nat, share: real, t: real)
    requires t > 0.0 && share == v as real / t
    ensures (share * share) * (t * t) == (v * v) as real
  {
    assert share * t == v as real;
    assert (share * share) * (t * t) == (share * t) * (share * t);
    assert (v * v) as real == v as real * v as real;
  }

  lemma {:induction false} TotalAppend(hits: seq<nat>, i: nat)
    requires i < |hits|
    ensures Total(hits[..i + 1]) == Total(hits[..i]) + hits[i]
    decreases i
  {
    if i > 0 {
      TotalAppend(hits[1..], i - 1);
      assert hits[..i + 1][1..] == hits[1..][..i] && hits[..i][1..] == hits[1..][..i - 1];
    }
  }

  lemma {:induction false} SquaresAppend(hits: seq<nat>, i: nat)
    requires i < |hits|
    ensures Squares(hits[..i + 1]) == Squares(hits[..i]) + hits[i] * hits[i]
    decreases i
  {
    if i > 0 {
      SquaresAppend(hits[1..], i - 1);
      assert hits[..i + 1][1..] == hits[1..][..i] && hits[..i][1..] == hits[1..][..i - 1];
    }
  }

  // ---------------------------------------------------------------- lower bound: all equal

  /** The sum of (v - hit)^2 over the positive hits. */
  function Spread(hits: seq<nat>, v: nat): int {
    Positive(hits) * (v * v) - 2 * v * Total(hits) + Squares(hits)
  }

  lemma {:induction false} SpreadIsZeroIffEqual(hits: seq<nat>, v: nat)
    ensures Spread(hits, v) >= 0
    ensures Spread(hits, v) == 0 <==> AllEqualTo(hits, v)
    decreases |hits|
  {
    if hits != [] {
      var x, rest := hits[0], hits[1..];
      SpreadIsZeroIffEqual(rest, v);
      assert hits == [x] + rest;
      if x > 0 {
        SpreadStep(Positive(rest), Total(rest), Squares(rest), v, x);
        SquareIsZero(v - x);
      }
      assert AllEqualTo(hits, v) <==> AllEqualTo(rest, v) && (x > 0 ==> x == v);
    }
  }

  lemma SpreadStep(p: nat, t: nat, s: nat, v: nat, x: nat)
    ensures (p + 1) * (v * v) - 2 * v * (x + t) + (x * x + s)
            == (p * (v * v) - 2 * v * t + s) + (v - x) * (v - x)
  {
  }

  lemma SquareIsZero(d: int)
    ensures d * d >= 0 && (d * d == 0 <==> d == 0)
  {
  }

  lemma {:induction false} CountTimesSquares(hits: seq<nat>)
    ensures Positive(hits) * Squares(hits) >= Total(hits) * Total(hits)
    ensures Positive(hits) * Squares(hits) == Total(hits) * Total(hits) <==> AllEqual(hits)
    decreases |hits|
  {
    if hits != [] {
      var x, rest := hits[0], hits[1..];
      CountTimesSquares(rest);
      assert hits == [x] + rest;
      if x > 0 {
        SpreadIsZeroIffEqual(rest, x);
        CountStep(Positive(rest), Total(rest), Squares(rest), x);
        EqualSplit(x, rest);
      } else {
        assert AllEqual(hits) <==> AllEqual(rest) by {
          assert forall i :: 0 <= i < |rest| ==> hits[i + 1] == rest[i];
        }
      }
    }
  }

  lemma CountStep(p: nat, t: nat, s: nat, x: nat)
    ensures (p + 1) * (x * x + s) - (x + t) * (x + t) == (p * s - t * t) + (p * (x * x) - 2 * x * t + s)
  {
  }

  lemma EqualSplit(x: nat, rest: seq<nat>)
    requires x > 0
    ensures AllEqual([x] + rest) <==> AllEqualTo(rest, x)
    ensures AllEqualTo(rest, x) ==> AllEqual(rest)
  {
    var hits := [x] + rest;
    assert hits[0] == x && forall i :: 0 <= i < |rest| ==> hits[i + 1] == rest[i];
  }

  // ---------------------------------------------------------------- upper bound: a single weapon

  lemma {:induction false} SquaresAtMostSquare(hits: seq<nat>)
    ensures Squares(hits) <= Total(hits) * Total(hits)
    ensures Squares(hits) == Total(hits) * Total(hits) <==> Positive(hits) <= 1
    ensures Total(hits) > 0 <==> Positive(hits) > 0
    decreases |hits|
  {
    if hits != [] {
      var x, rest := hits[0], hits[1..];
      SquaresAtMostSquare(rest);
      assert (x + Total(rest)) * (x + Total(rest)) == x * x + 2 * (x * Total(rest)) + Total(rest) * Total(rest);
      ProductIsZero(x, Total(rest));
    }
  }

  lemma ProductIsZero(a: nat, b: nat)
    ensures a * b >= 0 && (a * b == 0 <==> a == 0 || b == 0)
  {
  }

  /**
   With k positive hits the index lies between 1/k and 1; it is 1 exactly for k = 1 and 1/k
   exactly when all positive hits are equal.
   */
  lemma ConcentrationBounds(hits: seq<nat>)
    requires Total(hits) > 0
    ensures var k, h := Positive(hits), SquaredShares(hits, Total(hits));
            && k > 0 && 1.0 / k as real <= h <= 1.0
            && (h == 1.0 <==> k == 1)
            && (h == 1.0 / k as real <==> AllEqual(hits))
  {
    SquaresAtMostSquare(hits);
    CountTimesSquares(hits);
    SquaredSharesIsIndex(hits, Total(hits));
    FromCounts(Positive(hits), Total(hits), Squares(hits), SquaredShares(hits, Total(hits)));
  }

  lemma FromCounts(k: nat, t: nat, s: nat, h: real)
    requires k > 0 && t > 0 && s <= t * t && k * s >= t * t && IsIndex(h, t, s)
    ensures 1.0 / k as real <= h <= 1.0
    ensures h == 1.0 <==> s == t * t
    ensures h == 1.0 / k as real <==> k * s == t * t
  {
    var q := t * t;
    ProductIsZero(t, t);
    UpperBound(q, s, h);
    LowerBound(k, q, s, h);
  }

  lemma UpperBound(q: nat, s: nat, h: real)
    requires q > 0 && s <= q && h * q as real == s as real
    ensures h <= 1.0 && (h == 1.0 <==> s == q)
  {
    Compare(h, 1.0, q as real);
  }

  lemma LowerBound(k: nat, q: nat, s: nat, h: real)
    requires k > 0 && q > 0 && k * s >= q && h * q as real == s as real
    ensures 1.0 / k as real <= h && (h == 1.0 / k as real <==> k * s == q)
  {
    var c, r := k as real, q as real;
    assert (k * s) as real == c * s as real == c * (h * r) == (c * h) * r;
    Compare(1.0, c * h, r);
    assert (1.0 / c) * c == 1.0;
    Compare(1.0 / c, h, c);
  }

  lemma Compare(a: real, b: real, q: real)
    requires q > 0.0
    ensures a * q <= b * q <==> a <= b
    ensures a * q == b * q <==> a == b
  {
    var d := b - a;
    assert b * q - a * q == d * q;
    SignOfProduct(d, q);
  }

  lemma SignOfProduct(d: real, q: real)
    requires q > 0.0
    ensures d * q >= 0.0 <==> d >= 0.0
    ensures d * q == 0.0 <==> d == 0.0
  {
  }
}
