/**
 Histograms merged from daily rows, and the median that is read back from them.
 Real numbers stand for the source's floating point.
 */
module HistogramMath {
  import opened Wrappers

  datatype HistBucket = HistBucket(bucket: int, count: int)

  /** Buckets in insertion order with distinct numbers, as a Map lists them. */
  type Histogram = seq<HistBucket>

  predicate Distinct(bs: Histogram) {
    forall i, k :: 0 <= i < k < |bs| ==> bs[i].bucket != bs[k].bucket
  }

  // ---------------------------------------------------------------- the bucket of every rank

  predicate Counted(b: HistBucket) {
    b.count > 0 && b.bucket >= 0
  }

  function Kept(bs: Histogram): Histogram {
    if bs == [] then [] else if Counted(bs[0]) then [bs[0]] + Kept(bs[1..]) else Kept(bs[1..])
  }

  function Repeat(bucket: int, n: int): (r: seq<int>)
    ensures |r| == if n <= 0 then 0 else n
    ensures forall i :: 0 <= i < |r| ==> r[i] == bucket
  {
    if n <= 0 then [] else seq(n, i => bucket)
  }

  /** Each counted bucket number, as often as it counts. */
  function Ranks(bs: Histogram): seq<int> {
    if bs == [] then []
    else if Counted(bs[0]) then Repeat(bs[0].bucket, bs[0].count) + Ranks(bs[1..])
    else Ranks(bs[1..])
  }

  function Total(bs: Histogram): int {
    if bs == [] then 0 else bs[0].count + Total(bs[1..])
  }

  function Insert(b: HistBucket, bs: Histogram): Histogram {
    if bs == [] || b.bucket <= bs[0].bucket then [b] + bs else [bs[0]] + Insert(b, bs[1..])
  }

  function SortBuckets(bs: Histogram): Histogram {
    if bs == [] then [] else Insert(bs[0], SortBuckets(bs[1..]))
  }

  predicate AllCounted(bs: Histogram) {
    forall i :: 0 <= i < |bs| ==> Counted(bs[i])
  }

  predicate Ordered(bs: Histogram) {
    forall i, k :: 0 <= i < k < |bs| ==> bs[i].bucket <= bs[k].bucket
  }

  predicate NonDecreasing(s: seq<int>) {
    forall i, k :: 0 <= i < k < |s| ==> s[i] <= s[k]
  }

  lemma {:induction false} KeptIsCounted(bs: Histogram)
    ensures AllCounted(Kept(bs)) && Ranks(Kept(bs)) == Ranks(bs)
    decreases |bs|
  {
    if bs != [] {
      KeptIsCounted(bs[1..]);
      if Counted(bs[0]) {
        assert Kept(bs)[1..] == Kept(bs[1..]);
      }
    }
  }

  lemma Uncons<T>(s: seq<T>)
    requires s != []
    ensures multiset(s) == multiset{s[0]} + multiset(s[1..])
  {
    assert s == [s[0]] + s[1..];
  }

  lemma {:induction false} InsertAdds(b: HistBucket, bs: Histogram)
    ensures multiset(Insert(b, bs)) == multiset(bs) + multiset{b}
    decreases |bs|
  {
    if bs != [] {
      Uncons(bs);
      InsertAdds(b, bs[1..]);
    }
  }

  lemma {:induction false} InsertOrders(b: HistBucket, bs: Histogram)
    requires Ordered(bs) && AllCounted(bs) && Counted(b)
    ensures Ordered(Insert(b, bs)) && AllCounted(Insert(b, bs))
    decreases |bs|
  {
    if bs != [] && b.bucket > bs[0].bucket {
      InsertOrders(b, bs[1..]);
      InsertAdds(b, bs[1..]);
      var tail := Insert(b, bs[1..]);
      forall k | 0 <= k < |tail|
        ensures bs[0].bucket <= tail[k].bucket
      {
        assert tail[k] in multiset(tail);
        assert tail[k] == b || tail[k] in bs[1..];
      }
    }
  }

  lemma RanksCons(b: HistBucket, bs: Histogram)
    requires Counted(b)
    ensures Ranks([b] + bs) == Repeat(b.bucket, b.count) + Ranks(bs)
  {
    assert ([b] + bs)[1..] == bs;
  }

  lemma {:induction false} InsertRanks(b: HistBucket, bs: Histogram)
    requires AllCounted(bs) && Counted(b)
    ensures multiset(Ranks(Insert(b, bs))) == multiset(Ranks(bs)) + multiset(Repeat(b.bucket, b.count))
    decreases |bs|
  {
    if bs == [] || b.bucket <= bs[0].bucket {
      RanksCons(b, bs);
    } else {
      InsertRanks(b, bs[1..]);
      RanksCons(bs[0], Insert(b, bs[1..]));
    }
  }

  lemma {:induction false} SortKeeps(bs: Histogram)
    requires AllCounted(bs)
    ensures Ordered(SortBuckets(bs)) && AllCounted(SortBuckets(bs))
    ensures multiset(SortBuckets(bs)) == multiset(bs)
    ensures multiset(Ranks(SortBuckets(bs))) == multiset(Ranks(bs))
    decreases |bs|
  {
    if bs != [] {
      SortKeeps(bs[1..]);
      var rest := SortBuckets(bs[1..]);
      InsertOrders(bs[0], rest);
      InsertAdds(bs[0], rest);
      InsertRanks(bs[0], rest);
      Uncons(bs);
    }
  }

  lemma {:induction false} TotalIsRanks(bs: Histogram)
    requires AllCounted(bs)
    ensures |Ranks(bs)| == Total(bs)
    decreases |bs|
  {
    if bs != [] {
      TotalIsRanks(bs[1..]);
    }
  }

  lemma RanksHead(bs: Histogram, r: nat)
    requires AllCounted(bs) && bs != [] && r < |Ranks(bs)|
    ensures Ranks(bs)[r] == if r < bs[0].count then bs[0].bucket else Ranks(bs[1..])[r - bs[0].count]
  {
  }

  lemma {:induction false} RanksFromBucket(bs: Histogram, r: nat)
    requires AllCounted(bs) && r < |Ranks(bs)|
    ensures exists i :: 0 <= i < |bs| && bs[i].bucket == Ranks(bs)[r]
    decreases |bs|
  {
    RanksHead(bs, r);
    if r >= bs[0].count {
      RanksFromBucket(bs[1..], r - bs[0].count);
      var i :| 0 <= i < |bs[1..]| && bs[1..][i].bucket == Ranks(bs)[r];
      assert bs[i + 1].bucket == Ranks(bs)[r];
    }
  }

  lemma {:induction false} RanksAreSorted(bs: Histogram)
    requires AllCounted(bs) && Ordered(bs)
    ensures NonDecreasing(Ranks(bs))
    decreases |bs|
  {
    if bs != [] {
      RanksAreSorted(bs[1..]);
      forall i, k | 0 <= i < k < |Ranks(bs)|
        ensures Ranks(bs)[i] <= Ranks(bs)[k]
      {
        RanksHead(bs, i);
        RanksHead(bs, k);
        if k >= bs[0].count {
          RanksFromBucket(bs[1..], k - bs[0].count);
        }
      }
    }
  }

  lemma {:induction false} SortedIntsUnique(a: seq<int>, b: seq<int>)
    requires NonDecreasing(a) && NonDecreasing(b) && multiset(a) == multiset(b)
    ensures a == b
    decreases |a|
  {
    assert |multiset(a)| == |a| && |multiset(b)| == |b|;
    if a != [] {
      FirstIsSmallest(a, b);
      FirstIsSmallest(b, a);
      Uncons(a);
      Uncons(b);
      assert multiset(a[1..]) == multiset(a) - multiset{a[0]} == multiset(b[1..]);
      SortedIntsUnique(a[1..], b[1..]);
    }
  }

  lemma FirstIsSmallest(a: seq<int>, b: seq<int>)
    requires a != [] && b != [] && NonDecreasing(b) && multiset(a) == multiset(b)
    ensures b[0] <= a[0]
  {
    assert a[0] in multiset(b);
  }

  // ---------------------------------------------------------------- the estimate of a rank

  function Within(b: HistBucket, width: real, rank: int): real
    requires b.count > 0
  {
    Lower(b.bucket, width) + Part(width, rank, b.count)
  }

  function Lower(bucket: int, width: real): real {
    bucket as real * width
  }

  /** Where a rank lies within its bucket when the samples are spread evenly. */
  function Part(width: real, rank: int, count: int): real
    requires count > 0
  {
    width * ((rank as real + 0.5) / count as real)
  }

  /** The value read back for a rank; past the last rank, the upper end of the last bucket. */
  function Estimate(bs: Histogram, width: real, rank: int): real
    requires bs != [] && AllCounted(bs)
    decreases |bs|
  {
    if rank < bs[0].count then Within(bs[0], width, rank)
    else if |bs| == 1 then Lower(bs[0].bucket, width) + width
    else Estimate(bs[1..], width, rank - bs[0].count)
  }

  /** Ranks of one bucket are equally far apart and lie symmetrically in it. */
  lemma RanksAreSpreadEvenly(width: real, rank: nat, count: nat)
    requires width > 0.0 && rank < count
    ensures Part(width, rank, count) + Part(width, count - 1 - rank, count) == width
    ensures Part(width, rank + 1, count) - Part(width, rank, count) == width / count as real
  {
    var c := count as real;
    var x, y := (rank as real + 0.5) / c, ((count - 1 - rank) as real + 0.5) / c;
    assert x * c + y * c == c;
    assert (x + y) * c == c;
    assert x + y == 1.0;
    assert width * x + width * y == width * (x + y);
    var z := ((rank + 1) as real + 0.5) / c;
    assert z * c - x * c == 1.0;
    assert (z - x) * c == 1.0;
    assert z - x == 1.0 / c;
    assert width * z - width * x == width * (z - x);
    assert (width / c) * c == width && (width * (1.0 / c)) * c == width * ((1.0 / c) * c);
  }

  lemma FractionOfWidth(width: real, rank: int, count: int)
    requires width > 0.0 && 0 <= rank < count
    ensures 0.0 < Part(width, rank, count) < width
  {
    ProperFraction(rank as real + 0.5, count as real);
    Scaled(width, (rank as real + 0.5) / count as real);
  }

  lemma ProperFraction(num: real, den: real)
    requires 0.0 < num < den
    ensures 0.0 < num / den < 1.0
  {
    DivStrict(0.0, num, den);
    DivStrict(num, den, den);
    assert den / den == 1.0;
  }

  lemma DivStrict(x: real, y: real, den: real)
    requires x < y && den > 0.0
    ensures x / den < y / den
  {
    var p, q := x / den, y / den;
    assert p * den == x && q * den == y;
    assert (q - p) * den > 0.0;
  }

  lemma Scaled(width: real, x: real)
    requires 0.0 < x < 1.0 && width > 0.0
    ensures 0.0 < width * x < width
  {
    ScaleStrict(0.0, x, width);
    ScaleStrict(x, 1.0, width);
  }

  /** Every rank below the total is read back strictly inside its own bucket, never from the fallback. */
  lemma {:induction false} EstimateInBucket(bs: Histogram, width: real, rank: nat)
    requires bs != [] && AllCounted(bs) && width > 0.0 && rank < |Ranks(bs)|
    ensures var lower := Lower(Ranks(bs)[rank], width);
            lower < Estimate(bs, width, rank) < lower + width
    decreases |bs|
  {
    RanksHead(bs, rank);
    if rank < bs[0].count {
      FractionOfWidth(width, rank, bs[0].count);
    } else {
      EstimateInBucket(bs[1..], width, rank - bs[0].count);
    }
  }

  lemma FractionMonotone(width: real, r: int, q: int, count: int)
    requires width > 0.0 && 0 <= r <= q && 0 < count
    ensures Part(width, r, count) <= Part(width, q, count)
  {
    var x, y := (r as real + 0.5) / count as real, (q as real + 0.5) / count as real;
    assert x <= y;
  }

  lemma WidthStep(a: int, b: int, width: real)
    requires a + 1 <= b && width > 0.0
    ensures Lower(a, width) + width <= Lower(b, width)
  {
    assert (a + 1) as real * width <= b as real * width;
  }

  lemma {:induction false} EstimateMonotone(bs: Histogram, width: real, r: nat, q: nat)
    requires bs != [] && AllCounted(bs) && Ordered(bs) && Distinct(bs) && width > 0.0
    requires r <= q < |Ranks(bs)|
    ensures Estimate(bs, width, r) <= Estimate(bs, width, q)
    decreases |bs|
  {
    RanksHead(bs, r);
    RanksHead(bs, q);
    if q < bs[0].count {
      FractionMonotone(width, r, q, bs[0].count);
    } else if r >= bs[0].count {
      EstimateMonotone(bs[1..], width, r - bs[0].count, q - bs[0].count);
    } else {
      EstimateInBucket(bs, width, r);
      EstimateInBucket(bs, width, q);
      RanksFromBucket(bs[1..], q - bs[0].count);
      WidthStep(bs[0].bucket, Ranks(bs)[q], width);
    }
  }

  // ---------------------------------------------------------------- the median

  /** The counted buckets in ascending order. */
  function Prepared(buckets: Histogram): (sorted: Histogram)
    ensures AllCounted(sorted) && Ordered(sorted) && multiset(Ranks(sorted)) == multiset(Ranks(buckets))
  {
    KeptIsCounted(buckets);
    SortKeeps(Kept(buckets));
    SortBuckets(Kept(buckets))
  }

  function MedianOfSorted(sorted: Histogram, width: real): Option<real>
    requires AllCounted(sorted)
  {
    var n := Total(sorted);
    if n <= 0 then None
    else if n % 2 == 1 then Some(Estimate(sorted, width, (n - 1) / 2))
    else Some((Estimate(sorted, width, n / 2 - 1) + Estimate(sorted, width, n / 2)) / 2.0)
  }

  function HistogramMedianOf(buckets: Histogram, width: real): Option<real> {
    MedianOfSorted(Prepared(buckets), width)
  }

  /** The median of a single bucket is its middle, however many samples it has. */
  lemma MedianOfOneBucket(bucket: nat, count: nat, width: real)
    requires count > 0 && width > 0.0
    ensures HistogramMedianOf([HistBucket(bucket, count)], width) == Some(bucket as real * width + width / 2.0)
  {
    var bs := [HistBucket(bucket, count)];
    assert Counted(bs[0]) && Kept(bs[1..]) == [];
    assert Kept(bs) == bs && SortBuckets(bs[1..]) == [];
    assert SortBuckets(bs) == bs && Total(bs[1..]) == 0;
    assert Prepared(bs) == bs && Total(bs) == count;
    if count % 2 == 1 {
      RanksAreSpreadEvenly(width, (count - 1) / 2, count);
    } else {
      RanksAreSpreadEvenly(width, count / 2 - 1, count);
    }
  }

  lemma WithinStep(b: HistBucket, width: real, rank: nat)
    requires width > 0.0 && rank < b.count
    ensures Within(b, width, rank + 1) - Within(b, width, rank) == width / b.count as real
  {
    RanksAreSpreadEvenly(width, rank, b.count);
  }

  /** The estimates of this rank and the next are one even share of this bucket apart. */
  predicate ShareApart(bs: Histogram, width: real, rank: int, b: HistBucket)
    requires bs != [] && AllCounted(bs)
  {
    b.count > 0 && Estimate(bs, width, rank + 1) - Estimate(bs, width, rank) == width / b.count as real
  }

  lemma ShareInHead(bs: Histogram, width: real, rank: nat)
    requires bs != [] && AllCounted(bs) && width > 0.0 && rank + 1 < bs[0].count
    ensures ShareApart(bs, width, rank, bs[0])
  {
    WithinStep(bs[0], width, rank);
  }

  lemma ShareInTail(bs: Histogram, width: real, rank: nat, b: HistBucket)
    requires |bs| > 1 && AllCounted(bs) && bs[0].count <= rank && ShareApart(bs[1..], width, rank - bs[0].count, b)
    ensures ShareApart(bs, width, rank, b)
  {
  }

  /** Ranks that are consecutive in one bucket are estimated one even share of the width apart. */
  lemma {:induction false} ConsecutiveEstimates(bs: Histogram, width: real, rank: nat)
    requires bs != [] && AllCounted(bs) && Distinct(bs) && width > 0.0 && rank + 1 < |Ranks(bs)| && Ranks(bs)[rank] == Ranks(bs)[rank + 1]
    ensures exists b :: b in bs && b.bucket == Ranks(bs)[rank] && ShareApart(bs, width, rank, b)
    decreases |bs|
  {
    RanksHead(bs, rank);
    RanksHead(bs, rank + 1);
    if bs[0].count <= rank + 1 {
      RanksFromBucket(bs[1..], rank + 1 - bs[0].count);
    }
    if rank + 1 < bs[0].count {
      ShareInHead(bs, width, rank);
    } else if rank >= bs[0].count {
      ConsecutiveEstimates(bs[1..], width, rank - bs[0].count);
      var b :| b in bs[1..] && b.bucket == Ranks(bs)[rank] && ShareApart(bs[1..], width, rank - bs[0].count, b);
      ShareInTail(bs, width, rank, b);
    } else {
      assert false;
    }
  }

  method EstimateRank(sorted: Histogram, width: real, rank: int) returns (value: real)
    requires sorted != [] && AllCounted(sorted)
    ensures value == Estimate(sorted, width, rank)
  {
    var cumBefore, i := 0, 0;
    while i < |sorted|
      invariant 0 <= i <= |sorted| && cumBefore == Total(sorted[..i])
      invariant i < |sorted| ==> Estimate(sorted, width, rank) == Estimate(sorted[i..], width, rank - cumBefore)
      invariant i == |sorted| ==> Estimate(sorted, width, rank) == Lower(sorted[i - 1].bucket, width) + width
    {
      if rank < cumBefore + sorted[i].count {
        return Within(sorted[i], width, rank - cumBefore);
      }
      TotalAppend(sorted, i);
      assert i + 1 < |sorted| ==> sorted[i..][1..] == sorted[i + 1..];
      cumBefore := cumBefore + sorted[i].count;
      i := i + 1;
    }
    value := Lower(sorted[|sorted| - 1].bucket, width) + width;
  }

  lemma {:induction false} TotalAppend(bs: Histogram, i: nat)
    requires i < |bs|
    ensures Total(bs[..i + 1]) == Total(bs[..i]) + bs[i].count
    decreases i
  {
    if i > 0 {
      TotalAppend(bs[1..], i - 1);
      assert bs[..i + 1][1..] == bs[1..][..i] && bs[..i][1..] == bs[1..][..i - 1];
    }
  }

  method Sum(bs: Histogram) returns (n: int)
    ensures n == Total(bs)
  {
    var i := 0;
    n := 0;
    while i < |bs|
      invariant 0 <= i <= |bs| && n == Total(bs[..i])
    {
      TotalAppend(bs, i);
      n := n + bs[i].count;
      i := i + 1;
    }
    assert bs[..i] == bs;
  }

  method HistogramMedian(buckets: Histogram, width: real) returns (median: Option<real>)
    ensures median == HistogramMedianOf(buckets, width)
  {
    var sorted := Prepared(buckets);
    var n := Sum(sorted);
    if n <= 0 {
      return None;
    }
    if n % 2 == 1 {
      var middle := EstimateRank(sorted, width, (n - 1) / 2);
      return Some(middle);
    }
    var low := EstimateRank(sorted, width, n / 2 - 1);
    var high := EstimateRank(sorted, width, n / 2);
    median := Some((low + high) / 2.0);
  }

  // ---------------------------------------------------------------- against the exact median

  function BucketOf(x: real, width: real): int
    requires width > 0.0
  {
    (x / width).Floor
  }

  function BucketsOf(samples: seq<real>, width: real): seq<int>
    requires width > 0.0
  {
    seq(|samples|, i requires 0 <= i < |samples| => BucketOf(samples[i], width))
  }

  predicate SortedReals(s: seq<real>) {
    forall i, k :: 0 <= i < k < |s| ==> s[i] <= s[k]
  }

  /** The histogram counts exactly these samples. */
  ghost predicate Counts(bs: Histogram, samples: seq<real>, width: real)
    requires width > 0.0
  {
    multiset(Ranks(bs)) == multiset(BucketsOf(samples, width))
  }

  function ExactMedian(s: seq<real>): real
    requires s != []
  {
    var n := |s|;
    if n % 2 == 1 then s[(n - 1) / 2] else (s[n / 2 - 1] + s[n / 2]) / 2.0
  }

  function Distance(a: real, b: real): real {
    if a < b then b - a else a - b
  }

  lemma BucketBounds(x: real, width: real)
    requires width > 0.0
    ensures var lower := Lower(BucketOf(x, width), width); lower <= x < lower + width
  {
    var q := x / width;
    assert q * width == x;
    FloorBounds(q, width);
  }

  lemma FloorBounds(q: real, width: real)
    requires width > 0.0
    ensures Lower(q.Floor, width) <= q * width < Lower(q.Floor, width) + width
  {
    var f := q.Floor as real;
    ScaleStrict(q, f + 1.0, width);
    assert (f + 1.0) * width == f * width + width;
    if f < q {
      ScaleStrict(f, q, width);
    }
  }

  lemma BucketMonotone(x: real, y: real, width: real)
    requires x <= y && width > 0.0
    ensures BucketOf(x, width) <= BucketOf(y, width)
  {
    DivMonotone(x, y, width);
  }

  lemma DivMonotone(x: real, y: real, width: real)
    requires x <= y && width > 0.0
    ensures x / width <= y / width
  {
    var p, q := x / width, y / width;
    assert p * width == x && q * width == y;
    if p > q {
      ScaleStrict(q, p, width);
    }
  }

  lemma ScaleStrict(q: real, p: real, width: real)
    requires q < p && width > 0.0
    ensures q * width < p * width
  {
    assert (p - q) * width > 0.0;
  }

  /** The r-th smallest sample lies in the bucket of rank r. */
  lemma SamplesFollowRanks(sorted: Histogram, samples: seq<real>, width: real)
    requires width > 0.0 && AllCounted(sorted) && Ordered(sorted) && SortedReals(samples) && Counts(sorted, samples, width)
    ensures Ranks(sorted) == BucketsOf(samples, width)
  {
    RanksAreSorted(sorted);
    forall i, k | 0 <= i < k < |samples|
      ensures BucketsOf(samples, width)[i] <= BucketsOf(samples, width)[k]
    {
      BucketMonotone(samples[i], samples[k], width);
    }
    SortedIntsUnique(Ranks(sorted), BucketsOf(samples, width));
  }

  lemma RankError(sorted: Histogram, samples: seq<real>, width: real, r: nat)
    requires width > 0.0 && AllCounted(sorted) && sorted != [] && Ranks(sorted) == BucketsOf(samples, width) && r < |samples|
    ensures Distance(Estimate(sorted, width, r), samples[r]) < width
  {
    EstimateInBucket(sorted, width, r);
    BucketBounds(samples[r], width);
  }

  /** The median read back from a histogram is less than one bucket width from the exact one. */
  lemma MedianWithinOneBucket(buckets: Histogram, samples: seq<real>, width: real)
    requires width > 0.0 && SortedReals(samples) && Counts(buckets, samples, width)
    ensures HistogramMedianOf(buckets, width).None? <==> samples == []
    ensures samples != [] ==> Distance(HistogramMedianOf(buckets, width).value, ExactMedian(samples)) < width
  {
    var sorted := Prepared(buckets);
    TotalIsRanks(sorted);
    SamplesFollowRanks(sorted, samples, width);
    var n := |samples|;
    if n > 0 {
      if n % 2 == 1 {
        RankError(sorted, samples, width, (n - 1) / 2);
      } else {
        var k := n / 2;
        RankError(sorted, samples, width, k - 1);
        RankError(sorted, samples, width, k);
        MeanDistance(Estimate(sorted, width, k - 1), Estimate(sorted, width, k), samples[k - 1], samples[k], width);
      }
    }
  }

  lemma MeanDistance(a: real, b: real, c: real, d: real, width: real)
    requires Distance(a, c) < width && Distance(b, d) < width
    ensures Distance((a + b) / 2.0, (c + d) / 2.0) < width
  {
  }

  // ---------------------------------------------------------------- merging daily rows

  datatype DimRow = DimRow(dimType: string, dimKey: string, measure: int)

  datatype BucketKey = BucketKey(group: string, bucket: int)

  /** The index of the last separator, or -1. */
  function LastSeparator(key: string): (at: int)
    ensures -1 <= at < |key|
    ensures at >= 0 ==> key[at] == '|'
    ensures forall i :: at < i < |key| ==> key[i] != '|'
  {
    if key == [] then -1
    else if key[|key| - 1] == '|' then |key| - 1
    else LastSeparator(key[..|key| - 1])
  }

  /** `number` reads a text as a safe integer, if it is one. */
  function ParseBucketKey(number: string -> Option<int>, key: string): Option<BucketKey> {
    var at := LastSeparator(key);
    if at <= 0 || at == |key| - 1 then None
    else
      var bucket := number(key[at + 1..]);
      if bucket.None? || bucket.value < 0 then None else Some(BucketKey(key[..at], bucket.value))
  }

  /** A key that the roll-up writes is read back, also when the group contains a separator. */
  lemma KeyRoundTrip(number: string -> Option<int>, group: string, digits: string, bucket: nat)
    requires group != [] && digits != [] && '|' !in digits && number(digits) == Some(bucket)
    ensures ParseBucketKey(number, group + "|" + digits) == Some(BucketKey(group, bucket))
  {
    var key := group + "|" + digits;
    var at := LastSeparator(key);
    assert key[|group|] == '|';
    forall i | |group| < i < |key|
      ensures key[i] != '|'
    {
      assert key[i] == digits[i - |group| - 1];
    }
    assert key[..at] == group && key[at + 1..] == digits;
  }

  /** `key` is the group, a separator, and digits without a separator that stand for the bucket. */
  predicate Writes(number: string -> Option<int>, k: BucketKey, digits: string, key: string) {
    && k.group != [] && digits != [] && '|' !in digits && number(digits) == Some(k.bucket) && k.bucket >= 0
    && key == k.group + "|" + digits
  }

  /** Exactly the keys of this form are read, and as what they say. */
  lemma KeyReadIff(number: string -> Option<int>, key: string, k: BucketKey)
    ensures ParseBucketKey(number, key) == Some(k) <==> exists digits :: Writes(number, k, digits, key)
  {
    if ParseBucketKey(number, key) == Some(k) {
      var at := LastSeparator(key);
      assert key == key[..at] + [key[at]] + key[at + 1..];
      assert Writes(number, k, key[at + 1..], key);
    }
    if digits :| Writes(number, k, digits, key) {
      KeyRoundTrip(number, k.group, digits, k.bucket);
    }
  }

  /** Map.set(bucket, (Map.get(bucket) ?? 0) + count). */
  function Add(hist: Histogram, bucket: int, count: int): Histogram {
    if hist == [] then [HistBucket(bucket, count)]
    else if hist[0].bucket == bucket then [HistBucket(bucket, hist[0].count + count)] + hist[1..]
    else [hist[0]] + Add(hist[1..], bucket, count)
  }

  datatype Merge = Merge(number: string -> Option<int>, dimType: string, labelOf: string -> string)

  function GroupOf(m: Merge, row: DimRow): Option<BucketKey> {
    if row.dimType != m.dimType then None else ParseBucketKey(m.number, row.dimKey)
  }

  predicate Belongs(m: Merge, row: DimRow, name: string) {
    GroupOf(m, row).Some? && m.labelOf(GroupOf(m, row).value.group) == name
  }

  /** The rows of one name, added up in order. */
  function MergedRows(m: Merge, rows: seq<DimRow>, name: string): Histogram {
    if rows == [] then []
    else
      var last := rows[|rows| - 1];
      var before := MergedRows(m, rows[..|rows| - 1], name);
      if Belongs(m, last, name) then Add(before, GroupOf(m, last).value.bucket, last.measure) else before
  }

  predicate Malformed(m: Merge, row: DimRow) {
    row.dimType == m.dimType && ParseBucketKey(m.number, row.dimKey).None?
  }

  /** All labels at once; a malformed key of the wanted dimension fails the whole call. */
  method CollectHistograms(rows: seq<DimRow>, m: Merge) returns (r: Result<map<string, Histogram>, string>)
    ensures r.Ok? <==> forall i :: 0 <= i < |rows| ==> !Malformed(m, rows[i])
    ensures r.Ok? ==> forall name :: name in r.value <==> MergedRows(m, rows, name) != []
    ensures r.Ok? ==> forall name :: name in r.value ==> r.value[name] == MergedRows(m, rows, name)
  {
    var out: map<string, Histogram>, i := map[], 0;
    while i < |rows|
      invariant 0 <= i <= |rows|
      invariant forall k :: 0 <= k < i ==> !Malformed(m, rows[k])
      invariant forall name :: name in out <==> MergedRows(m, rows[..i], name) != []
      invariant forall name :: name in out ==> out[name] == MergedRows(m, rows[..i], name)
    {
      assert rows[..i + 1][..i] == rows[..i];
      if rows[i].dimType == m.dimType {
        var parsed := ParseBucketKey(m.number, rows[i].dimKey);
        if parsed.None? {
          return Err("invalid_bucket_key");
        }
        var name := m.labelOf(parsed.value.group);
        var hist := if name in out then out[name] else [];
        out := out[name := Add(hist, parsed.value.bucket, rows[i].measure)];
      }
      i := i + 1;
    }
    assert rows[..i] == rows;
    r := Ok(out);
  }

  // ---------------------------------------------------------------- merging loses no sample

  predicate NonNegative(hist: Histogram) {
    forall i :: 0 <= i < |hist| ==> hist[i].count >= 0 && hist[i].bucket >= 0
  }

  lemma RepeatSum(bucket: int, m: int, n: int)
    requires m >= 0 && n >= 0
    ensures Repeat(bucket, m + n) == Repeat(bucket, m) + Repeat(bucket, n)
  {
  }

  predicate HasBucket(hist: Histogram, bucket: int) {
    exists k :: 0 <= k < |hist| && hist[k].bucket == bucket
  }

  lemma {:induction false} AddBuckets(hist: Histogram, bucket: int, count: int, other: int)
    ensures HasBucket(Add(hist, bucket, count), other) <==> other == bucket || HasBucket(hist, other)
    decreases |hist|
  {
    var after := Add(hist, bucket, count);
    if hist == [] {
      assert after[0].bucket == bucket;
    } else {
      assert after[0].bucket == hist[0].bucket;
      if hist[0].bucket == bucket {
        assert forall k :: 0 <= k < |hist| ==> after[k].bucket == hist[k].bucket;
      } else {
        AddBuckets(hist[1..], bucket, count, other);
        HasBucketSplit(hist, other);
        HasBucketSplit(after, other);
        assert after[1..] == Add(hist[1..], bucket, count);
      }
    }
  }

  lemma HasBucketSplit(hist: Histogram, bucket: int)
    requires hist != []
    ensures HasBucket(hist, bucket) <==> hist[0].bucket == bucket || HasBucket(hist[1..], bucket)
  {
    if HasBucket(hist, bucket) && hist[0].bucket != bucket {
      var k :| 0 <= k < |hist| && hist[k].bucket == bucket;
      assert hist[1..][k - 1].bucket == bucket;
    }
    if HasBucket(hist[1..], bucket) {
      var k :| 0 <= k < |hist[1..]| && hist[1..][k].bucket == bucket;
      assert hist[k + 1].bucket == bucket;
    }
  }

  lemma {:induction false} AddKeeps(hist: Histogram, bucket: int, count: int)
    requires NonNegative(hist) && Distinct(hist) && bucket >= 0 && count >= 0
    ensures NonNegative(Add(hist, bucket, count)) && Distinct(Add(hist, bucket, count))
    decreases |hist|
  {
    if hist != [] && hist[0].bucket != bucket {
      AddKeeps(hist[1..], bucket, count);
      AddBuckets(hist[1..], bucket, count, hist[0].bucket);
      var tail := Add(hist[1..], bucket, count);
      assert forall k :: 0 <= k < |hist[1..]| ==> hist[1..][k] == hist[k + 1];
      assert !HasBucket(hist[1..], hist[0].bucket);
    }
  }

  lemma RanksTail(b: HistBucket, bs: Histogram)
    requires b.bucket >= 0 && b.count >= 0
    ensures Ranks([b] + bs) == Repeat(b.bucket, b.count) + Ranks(bs)
  {
    assert ([b] + bs)[1..] == bs;
  }

  lemma {:induction false} AddRanks(hist: Histogram, bucket: int, count: int)
    requires NonNegative(hist) && bucket >= 0 && count >= 0
    ensures multiset(Ranks(Add(hist, bucket, count))) == multiset(Ranks(hist)) + multiset(Repeat(bucket, count))
    decreases |hist|
  {
    if hist == [] {
      RanksTail(HistBucket(bucket, count), []);
    } else if hist[0].bucket == bucket {
      assert hist == [hist[0]] + hist[1..];
      AddRanksHere(hist[0], hist[1..], count);
    } else {
      AddRanks(hist[1..], bucket, count);
      AddRanksLater(hist, bucket, count);
    }
  }

  lemma AddRanksLater(hist: Histogram, bucket: int, count: int)
    requires NonNegative(hist) && hist != [] && hist[0].bucket != bucket
    requires multiset(Ranks(Add(hist[1..], bucket, count))) == multiset(Ranks(hist[1..])) + multiset(Repeat(bucket, count))
    ensures multiset(Ranks(Add(hist, bucket, count))) == multiset(Ranks(hist)) + multiset(Repeat(bucket, count))
  {
    assert hist == [hist[0]] + hist[1..];
    RanksTail(hist[0], hist[1..]);
    RanksTail(hist[0], Add(hist[1..], bucket, count));
  }

  lemma AddRanksHere(first: HistBucket, rest: Histogram, count: int)
    requires first.bucket >= 0 && first.count >= 0 && count >= 0
    ensures multiset(Ranks([HistBucket(first.bucket, first.count + count)] + rest))
            == multiset(Ranks([first] + rest)) + multiset(Repeat(first.bucket, count))
  {
    HereSplits(first, rest, count);
    ThreeParts(Ranks([first] + rest), Ranks([HistBucket(first.bucket, first.count + count)] + rest),
               Repeat(first.bucket, first.count), Repeat(first.bucket, count), Ranks(rest));
  }

  lemma HereSplits(first: HistBucket, rest: Histogram, count: int)
    requires first.bucket >= 0 && first.count >= 0 && count >= 0
    ensures Ranks([first] + rest) == Repeat(first.bucket, first.count) + Ranks(rest)
    ensures Ranks([HistBucket(first.bucket, first.count + count)] + rest)
            == (Repeat(first.bucket, first.count) + Repeat(first.bucket, count)) + Ranks(rest)
  {
    RanksTail(first, rest);
    RanksTail(HistBucket(first.bucket, first.count + count), rest);
    RepeatSum(first.bucket, first.count, count);
  }

  lemma ThreeParts(before: seq<int>, after: seq<int>, a: seq<int>, b: seq<int>, c: seq<int>)
    requires before == a + c && after == (a + b) + c
    ensures multiset(after) == multiset(before) + multiset(b)
  {
  }

  /** What one row stands for: its samples, all in its bucket, as many as it says. */
  ghost predicate RowCounts(m: Merge, row: DimRow, name: string, samples: seq<real>, width: real)
    requires width > 0.0
  {
    if Belongs(m, row, name) then
      row.measure >= 0 && BucketsOf(samples, width) == Repeat(GroupOf(m, row).value.bucket, row.measure)
    else samples == []
  }

  function Flatten(parts: seq<seq<real>>): seq<real> {
    if parts == [] then [] else Flatten(parts[..|parts| - 1]) + parts[|parts| - 1]
  }

  lemma BucketsAppend(a: seq<real>, b: seq<real>, width: real)
    requires width > 0.0
    ensures BucketsOf(a + b, width) == BucketsOf(a, width) + BucketsOf(b, width)
  {
  }

  /** Merging daily rows counts exactly the samples of all days together. */
  lemma {:induction false} MergeCountsAll(m: Merge, rows: seq<DimRow>, name: string, parts: seq<seq<real>>, width: real)
    requires width > 0.0 && |parts| == |rows|
    requires forall i :: 0 <= i < |rows| ==> RowCounts(m, rows[i], name, parts[i], width)
    ensures NonNegative(MergedRows(m, rows, name)) && Distinct(MergedRows(m, rows, name))
    ensures Counts(MergedRows(m, rows, name), Flatten(parts), width)
    decreases |rows|
  {
    if rows != [] {
      var n := |rows| - 1;
      MergeCountsAll(m, rows[..n], name, parts[..n], width);
      assert RowCounts(m, rows[n], name, parts[n], width);
      var before := Flatten(parts[..n]);
      BucketsAppend(before, parts[n], width);
      if Belongs(m, rows[n], name) {
        AddKeeps(MergedRows(m, rows[..n], name), GroupOf(m, rows[n]).value.bucket, rows[n].measure);
        AddRanks(MergedRows(m, rows[..n], name), GroupOf(m, rows[n]).value.bucket, rows[n].measure);
      }
    }
  }

  /** The median of a window of daily rows, against the sorted samples of the whole window. */
  lemma MedianOfDailyRows(m: Merge, rows: seq<DimRow>, name: string, parts: seq<seq<real>>, sorted: seq<real>, width: real)
    requires width > 0.0 && |parts| == |rows|
    requires forall i :: 0 <= i < |rows| ==> RowCounts(m, rows[i], name, parts[i], width)
    requires SortedReals(sorted) && multiset(sorted) == multiset(Flatten(parts))
    ensures HistogramMedianOf(MergedRows(m, rows, name), width).None? <==> sorted == []
    ensures sorted != [] ==>
              Distance(HistogramMedianOf(MergedRows(m, rows, name), width).value, ExactMedian(sorted)) < width
  {
    MergeCountsAll(m, rows, name, parts, width);
    BucketsOfPermutation(sorted, Flatten(parts), width);
    MedianWithinOneBucket(MergedRows(m, rows, name), sorted, width);
  }

  lemma {:induction false} BucketsOfPermutation(a: seq<real>, b: seq<real>, width: real)
    requires width > 0.0 && multiset(a) == multiset(b)
    ensures multiset(BucketsOf(a, width)) == multiset(BucketsOf(b, width))
    decreases |a|
  {
    assert |multiset(a)| == |a| && |multiset(b)| == |b|;
    if a != [] {
      var k := Find(a, b);
      var b' := b[..k] + b[k + 1..];
      SameWithoutFirst(a, b, k);
      BucketsOfPermutation(a[1..], b', width);
      PullBucket(a, 0, width);
      assert a[..0] + a[1..] == a[1..];
      PullBucket(b, k, width);
    }
  }

  lemma Find(a: seq<real>, b: seq<real>) returns (k: nat)
    requires a != [] && multiset(a) == multiset(b)
    ensures k < |b| && b[k] == a[0]
  {
    assert a[0] in multiset(b);
    k :| 0 <= k < |b| && b[k] == a[0];
  }

  lemma SameWithoutFirst(a: seq<real>, b: seq<real>, k: nat)
    requires a != [] && multiset(a) == multiset(b) && k < |b| && b[k] == a[0]
    ensures multiset(a[1..]) == multiset(b[..k] + b[k + 1..])
  {
    Uncons(a);
    Pull(b, k);
    assert multiset(a[1..]) == multiset(a) - multiset{a[0]};
  }

  lemma PullBucket(s: seq<real>, k: nat, width: real)
    requires width > 0.0 && k < |s|
    ensures multiset(BucketsOf(s, width)) == multiset{BucketOf(s[k], width)} + multiset(BucketsOf(s[..k] + s[k + 1..], width))
  {
    Pull(BucketsOf(s, width), k);
    assert BucketsOf(s, width)[..k] + BucketsOf(s, width)[k + 1..] == BucketsOf(s[..k] + s[k + 1..], width);
  }

  lemma Pull<T>(s: seq<T>, k: nat)
    requires k < |s|
    ensures multiset(s) == multiset{s[k]} + multiset(s[..k] + s[k + 1..])
  {
    assert s == s[..k] + [s[k]] + s[k + 1..];
  }
}
