/**
 Score buckets of 1,000 points, merged from daily rows and folded into the tiers of the current
 thresholds: the fold gives what classifying every game by itself would give.
 */
module ScoreBands {
  import opened Wrappers

  const TIER_COUNT: nat := 5
  const THRESHOLD_STEP: nat := 1000

  datatype Stats = Stats(games: int, score: int, durationMs: int)

  const NOTHING := Stats(0, 0, 0)

  function Plus(a: Stats, b: Stats): Stats {
    Stats(a.games + b.games, a.score + b.score, a.durationMs + b.durationMs)
  }

  datatype ScoreBucket = ScoreBucket(bucket: int, stats: Stats)

  datatype Band = Band(tier: int, stats: Stats)

  // ---------------------------------------------------------------- folding buckets into tiers

  /** A classification of scores into `count` tiers, applied to buckets of a width. */
  datatype Tiering = Tiering(tierOf: int -> int, count: nat, width: nat)

  function Clamp(tier: int, tierCount: nat): int {
    var capped := if tierCount - 1 < tier then tierCount - 1 else tier;
    if capped < 0 then 0 else capped
  }

  function LowerScore(bucket: int, width: nat): int {
    bucket * width
  }

  function TierIndex(bucket: int, t: Tiering): (tier: int)
    ensures t.count > 0 ==> 0 <= tier < t.count
  {
    Clamp(t.tierOf(LowerScore(bucket, t.width)), t.count)
  }

  /** The tier a bucket is folded into; a negative bucket is dropped. */
  function TierOfBucket(bucket: int, t: Tiering): Option<int> {
    if bucket < 0 then None else Some(TierIndex(bucket, t))
  }

  /** Which tier each bucket goes to, if any. */
  type Placement = int -> Option<int>

  function PlacementOf(t: Tiering): Placement {
    (bucket: int) => TierOfBucket(bucket, t)
  }

  /** The sum with one more part, if that part belongs to it. */
  function With(sum: Stats, part: Stats, belongs: bool): Stats {
    if belongs then Plus(sum, part) else sum
  }

  function TierStats(buckets: seq<ScoreBucket>, place: Placement, tier: int): Stats {
    if buckets == [] then NOTHING
    else
      var n := |buckets| - 1;
      With(TierStats(buckets[..n], place, tier), buckets[n].stats, place(buckets[n].bucket) == Some(tier))
  }

  /** One band a tier, in order, also for tiers without games. */
  function BandsOf(buckets: seq<ScoreBucket>, place: Placement, count: nat): seq<Band> {
    seq(count, k => Band(k, TierStats(buckets, place, k)))
  }

  method BandScoreBuckets(buckets: seq<ScoreBucket>, t: Tiering) returns (bands: seq<Band>)
    requires t.count > 0
    ensures bands == BandsOf(buckets, PlacementOf(t), t.count)
  {
    var a := new Band[t.count](k => Band(k, NOTHING));
    var i := 0;
    assert a[..] == BandsOf(buckets[..0], PlacementOf(t), t.count);
    while i < |buckets|
      invariant 0 <= i <= |buckets| && a.Length == t.count
      invariant a[..] == BandsOf(buckets[..i], PlacementOf(t), t.count)
    {
      BandsNext(buckets, i, PlacementOf(t), t.count);
      if buckets[i].bucket >= 0 {
        var tier := TierIndex(buckets[i].bucket, t);
        a[tier] := Band(tier, Plus(a[..][tier].stats, buckets[i].stats));
      }
      i := i + 1;
    }
    assert buckets[..i] == buckets;
    bands := a[..];
  }

  /** A further bucket changes the band of its tier and no other. */
  lemma BandsNext(buckets: seq<ScoreBucket>, i: nat, place: Placement, count: nat)
    requires i < |buckets| && (place(buckets[i].bucket).Some? ==> 0 <= place(buckets[i].bucket).value < count)
    ensures var before, tier := BandsOf(buckets[..i], place, count), place(buckets[i].bucket);
            BandsOf(buckets[..i + 1], place, count)
            == if tier.None? then before
               else before[tier.value := Band(tier.value, Plus(before[tier.value].stats, buckets[i].stats))]
  {
    forall k | 0 <= k < count
      ensures TierStats(buckets[..i + 1], place, k) == With(TierStats(buckets[..i], place, k), buckets[i].stats, place(buckets[i].bucket) == Some(k))
    {
      TierStatsNext(buckets, i, place, k);
    }
  }

  lemma TierStatsNext(buckets: seq<ScoreBucket>, i: nat, place: Placement, tier: int)
    requires i < |buckets|
    ensures TierStats(buckets[..i + 1], place, tier) == With(TierStats(buckets[..i], place, tier), buckets[i].stats, place(buckets[i].bucket) == Some(tier))
  {
    assert buckets[..i + 1][..i] == buckets[..i];
  }

  function AcceptedTotal(buckets: seq<ScoreBucket>): Stats {
    if buckets == [] then NOTHING
    else
      var n := |buckets| - 1;
      With(AcceptedTotal(buckets[..n]), buckets[n].stats, buckets[n].bucket >= 0)
  }

  function SumOverTiers(buckets: seq<ScoreBucket>, place: Placement, upTo: nat): Stats {
    if upTo == 0 then NOTHING
    else Plus(SumOverTiers(buckets, place, upTo - 1), TierStats(buckets, place, upTo - 1))
  }

  /** Every bucket from 0 on goes to one of the first `count` tiers, a negative one to none. */
  ghost predicate Places(place: Placement, count: nat) {
    forall bucket :: if bucket < 0 then place(bucket).None? else place(bucket).Some? && 0 <= place(bucket).value < count
  }

  /** Folding loses nothing and counts nothing twice. */
  lemma TiersConserve(buckets: seq<ScoreBucket>, t: Tiering)
    requires t.count > 0
    ensures SumOverTiers(buckets, PlacementOf(t), t.count) == AcceptedTotal(buckets)
  {
    PlacesConserve(buckets, PlacementOf(t), t.count);
  }

  lemma {:induction false} PlacesConserve(buckets: seq<ScoreBucket>, place: Placement, count: nat)
    requires Places(place, count)
    ensures SumOverTiers(buckets, place, count) == AcceptedTotal(buckets)
    decreases |buckets|
  {
    if buckets == [] {
      NoTiers(place, count);
    } else {
      var n := |buckets| - 1;
      PlacesConserve(buckets[..n], place, count);
      OneMoreBucket(buckets, place, count, count);
    }
  }

  lemma {:induction false} NoTiers(place: Placement, upTo: nat)
    ensures SumOverTiers([], place, upTo) == NOTHING
  {
    if upTo > 0 {
      NoTiers(place, upTo - 1);
    }
  }

  lemma {:induction false} OneMoreBucket(buckets: seq<ScoreBucket>, place: Placement, count: nat, upTo: nat)
    requires buckets != [] && Places(place, count)
    ensures var n := |buckets| - 1; var tier := place(buckets[n].bucket);
            SumOverTiers(buckets, place, upTo)
            == With(SumOverTiers(buckets[..n], place, upTo), buckets[n].stats, tier.Some? && tier.value < upTo)
  {
    if upTo > 0 {
      var n := |buckets| - 1;
      OneMoreBucket(buckets, place, count, upTo - 1);
      TierStatsNext(buckets, n, place, upTo - 1);
      assert buckets[..n + 1] == buckets;
    }
  }

  // ---------------------------------------------------------------- merging daily rows

  /** A roll-up row; `bucket` is None when its key is not a safe integer. */
  datatype ScoreRow = ScoreRow(bucket: Option<int>, stats: Stats)

  function Add(buckets: seq<ScoreBucket>, bucket: int, stats: Stats): seq<ScoreBucket> {
    if buckets == [] then [ScoreBucket(bucket, Plus(NOTHING, stats))]
    else if buckets[0].bucket == bucket then [ScoreBucket(bucket, Plus(buckets[0].stats, stats))] + buckets[1..]
    else [buckets[0]] + Add(buckets[1..], bucket, stats)
  }

  predicate Usable(row: ScoreRow) {
    row.bucket.Some? && row.bucket.value >= 0
  }

  function Merged(rows: seq<ScoreRow>): seq<ScoreBucket> {
    if rows == [] then []
    else
      var last := rows[|rows| - 1];
      var before := Merged(rows[..|rows| - 1]);
      if Usable(last) then Add(before, last.bucket.value, last.stats) else before
  }

  function Insert(b: ScoreBucket, bs: seq<ScoreBucket>): seq<ScoreBucket> {
    if bs == [] || b.bucket <= bs[0].bucket then [b] + bs else [bs[0]] + Insert(b, bs[1..])
  }

  function SortBuckets(bs: seq<ScoreBucket>): seq<ScoreBucket> {
    if bs == [] then [] else Insert(bs[0], SortBuckets(bs[1..]))
  }

  method GetScoreBuckets(rows: seq<ScoreRow>) returns (buckets: seq<ScoreBucket>)
    ensures buckets == SortBuckets(Merged(rows))
  {
    var agg, i := [], 0;
    while i < |rows|
      invariant 0 <= i <= |rows| && agg == Merged(rows[..i])
    {
      assert rows[..i + 1][..i] == rows[..i];
      if rows[i].bucket.Some? && rows[i].bucket.value >= 0 {
        agg := Add(agg, rows[i].bucket.value, rows[i].stats);
      }
      i := i + 1;
    }
    assert rows[..i] == rows;
    buckets := SortBuckets(agg);
  }

  lemma {:induction false} TierStatsCons(b: ScoreBucket, bs: seq<ScoreBucket>, place: Placement, tier: int)
    ensures TierStats([b] + bs, place, tier)
            == With(TierStats(bs, place, tier), b.stats, place(b.bucket) == Some(tier))
    decreases |bs|
  {
    if bs == [] {
      assert ([b] + bs)[..0] == [];
    } else {
      var n := |bs| - 1;
      TierStatsCons(b, bs[..n], place, tier);
      assert ([b] + bs)[..n + 1] == [b] + bs[..n];
    }
  }

  lemma {:induction false} AddAdds(bs: seq<ScoreBucket>, bucket: int, stats: Stats, place: Placement, tier: int)
    ensures TierStats(Add(bs, bucket, stats), place, tier)
            == With(TierStats(bs, place, tier), stats, place(bucket) == Some(tier))
    decreases |bs|
  {
    if bs == [] {
      TierStatsCons(ScoreBucket(bucket, stats), [], place, tier);
    } else {
      assert bs == [bs[0]] + bs[1..];
      TierStatsCons(bs[0], bs[1..], place, tier);
      if bs[0].bucket == bucket {
        TierStatsCons(ScoreBucket(bucket, Plus(bs[0].stats, stats)), bs[1..], place, tier);
      } else {
        AddAdds(bs[1..], bucket, stats, place, tier);
        TierStatsCons(bs[0], Add(bs[1..], bucket, stats), place, tier);
      }
    }
  }

  lemma {:induction false} InsertKeepsStats(b: ScoreBucket, bs: seq<ScoreBucket>, place: Placement, tier: int)
    ensures TierStats(Insert(b, bs), place, tier)
            == With(TierStats(bs, place, tier), b.stats, place(b.bucket) == Some(tier))
    decreases |bs|
  {
    TierStatsCons(b, bs, place, tier);
    if bs != [] && bs[0].bucket < b.bucket {
      assert bs == [bs[0]] + bs[1..];
      InsertKeepsStats(b, bs[1..], place, tier);
      TierStatsCons(bs[0], Insert(b, bs[1..]), place, tier);
      TierStatsCons(bs[0], bs[1..], place, tier);
    }
  }

  lemma {:induction false} SortKeepsStats(bs: seq<ScoreBucket>, place: Placement, tier: int)
    ensures TierStats(SortBuckets(bs), place, tier) == TierStats(bs, place, tier)
    decreases |bs|
  {
    if bs != [] {
      assert bs == [bs[0]] + bs[1..];
      SortKeepsStats(bs[1..], place, tier);
      InsertKeepsStats(bs[0], SortBuckets(bs[1..]), place, tier);
      TierStatsCons(bs[0], bs[1..], place, tier);
    }
  }

  // ---------------------------------------------------------------- against the games themselves

  datatype Game = Game(score: nat, durationMs: nat)

  function GameStats(g: Game): Stats {
    Stats(1, g.score, g.durationMs)
  }

  function GamesOfTier(games: seq<Game>, tierOf: int -> int, tier: int): Stats {
    if games == [] then NOTHING
    else
      var last := games[|games| - 1];
      With(GamesOfTier(games[..|games| - 1], tierOf, tier), GameStats(last), tierOf(last.score) == tier)
  }

  function AllGames(games: seq<Game>): Stats {
    if games == [] then NOTHING
    else
      var last := games[|games| - 1];
      Plus(AllGames(games[..|games| - 1]), GameStats(last))
  }

  /** The row that the daily roll-up writes for these games, all of one bucket. */
  ghost predicate RollsUp(row: ScoreRow, games: seq<Game>, width: nat)
    requires width > 0
  {
    && Usable(row) && games != [] && row.stats == AllGames(games)
    && forall i :: 0 <= i < |games| ==> games[i].score / width == row.bucket.value
  }

  /** One tier per bucket, and always one of the existing tiers. */
  ghost predicate FitsBuckets(t: Tiering)
    requires t.width > 0
  {
    forall score: nat :: t.tierOf(score) == t.tierOf(LowerScore(score / t.width, t.width)) && 0 <= t.tierOf(score) < t.count
  }

  function Flatten(parts: seq<seq<Game>>): seq<Game> {
    if parts == [] then [] else Flatten(parts[..|parts| - 1]) + parts[|parts| - 1]
  }

  lemma {:induction false} AppendOneTier(games: seq<Game>, part: seq<Game>, tierOf: int -> int, common: int, tier: int)
    requires part != [] && forall i :: 0 <= i < |part| ==> tierOf(part[i].score) == common
    ensures GamesOfTier(games + part, tierOf, tier)
            == With(GamesOfTier(games, tierOf, tier), AllGames(part), common == tier)
    decreases |part|
  {
    var n := |part| - 1;
    assert (games + part)[..|games| + n] == games + part[..n] && (games + part)[|games| + n] == part[n];
    if n == 0 {
      assert games + part[..n] == games;
    } else {
      AppendOneTier(games, part[..n], tierOf, common, tier);
    }
  }

  lemma AppendOneBucket(games: seq<Game>, part: seq<Game>, bucket: nat, t: Tiering, tier: int)
    requires t.width > 0 && FitsBuckets(t)
    requires part != [] && forall i :: 0 <= i < |part| ==> part[i].score / t.width == bucket
    ensures GamesOfTier(games + part, t.tierOf, tier)
            == With(GamesOfTier(games, t.tierOf, tier), AllGames(part), t.tierOf(LowerScore(bucket, t.width)) == tier)
  {
    forall i | 0 <= i < |part|
      ensures t.tierOf(part[i].score) == t.tierOf(LowerScore(bucket, t.width))
    {
      var score := part[i].score;
      assert t.tierOf(score) == t.tierOf(LowerScore(score / t.width, t.width));
    }
    AppendOneTier(games, part, t.tierOf, t.tierOf(LowerScore(bucket, t.width)), tier);
  }

  lemma BucketTier(bucket: nat, t: Tiering)
    requires t.width > 0 && FitsBuckets(t)
    ensures TierOfBucket(bucket, t) == Some(t.tierOf(LowerScore(bucket, t.width)))
  {
    var score: nat := bucket * t.width;
    assert 0 <= t.tierOf(score) < t.count;
  }

  /** Folding the merged buckets of all days classifies every game exactly. */
  lemma {:induction false} BandingIsExact(rows: seq<ScoreRow>, parts: seq<seq<Game>>, t: Tiering, tier: int)
    requires t.width > 0 && FitsBuckets(t) && |parts| == |rows|
    requires forall i :: 0 <= i < |rows| ==> RollsUp(rows[i], parts[i], t.width)
    ensures TierStats(SortBuckets(Merged(rows)), PlacementOf(t), tier) == GamesOfTier(Flatten(parts), t.tierOf, tier)
    decreases |rows|
  {
    SortKeepsStats(Merged(rows), PlacementOf(t), tier);
    if rows != [] {
      var n := |rows| - 1;
      BandingIsExact(rows[..n], parts[..n], t, tier);
      SortKeepsStats(Merged(rows[..n]), PlacementOf(t), tier);
      assert RollsUp(rows[n], parts[n], t.width);
      var bucket := rows[n].bucket.value;
      AddAdds(Merged(rows[..n]), bucket, rows[n].stats, PlacementOf(t), tier);
      AppendOneBucket(Flatten(parts[..n]), parts[n], bucket, t, tier);
      BucketTier(bucket, t);
    }
  }

  // ---------------------------------------------------------------- the configured tiers

  predicate ValidThresholds(v: seq<int>) {
    && |v| == TIER_COUNT - 1
    && (forall i :: 0 <= i < |v| ==> v[i] % THRESHOLD_STEP == 0 && v[i] >= THRESHOLD_STEP)
    && forall i :: 0 < i < |v| ==> v[i - 1] < v[i]
  }

  /** How many leading thresholds the score has reached. */
  function Reached(score: int, thresholds: seq<int>): nat {
    if thresholds == [] || score < thresholds[0] then 0 else 1 + Reached(score, thresholds[1..])
  }

  function TierOfScore(score: int, thresholds: seq<int>): int {
    if score <= 0 then 0
    else if TIER_COUNT - 1 < Reached(score, thresholds) then TIER_COUNT - 1 else Reached(score, thresholds)
  }

  method ScoreTier(score: int, thresholds: seq<int>) returns (tier: int)
    ensures tier == TierOfScore(score, thresholds)
  {
    if score <= 0 {
      return 0;
    }
    tier := 0;
    var i := 0;
    while i < |thresholds| && score >= thresholds[i]
      invariant 0 <= i <= |thresholds| && tier == i
      invariant Reached(score, thresholds) == i + Reached(score, thresholds[i..])
    {
      tier := tier + 1;
      i := i + 1;
    }
    tier := if TIER_COUNT - 1 < tier then TIER_COUNT - 1 else tier;
  }

  /** The tier is the number of thresholds at or below the score. */
  lemma {:induction false} ReachedCountsThresholds(score: int, thresholds: seq<int>)
    requires forall i :: 0 < i < |thresholds| ==> thresholds[i - 1] < thresholds[i]
    ensures var r := Reached(score, thresholds);
            r <= |thresholds| && forall i :: 0 <= i < |thresholds| ==> (score >= thresholds[i] <==> i < r)
    decreases |thresholds|
  {
    if thresholds != [] {
      ReachedCountsThresholds(score, thresholds[1..]);
      assert forall i :: 0 < i < |thresholds| ==> thresholds[i] == thresholds[1..][i - 1];
      if |thresholds| > 1 && score < thresholds[0] {
        assert score < thresholds[1..][0];
      }
    }
  }

  lemma {:induction false} ReachedByBucket(score: nat, thresholds: seq<int>)
    requires forall i :: 0 <= i < |thresholds| ==> thresholds[i] % THRESHOLD_STEP == 0
    ensures Reached(score, thresholds) == Reached(score / THRESHOLD_STEP * THRESHOLD_STEP, thresholds)
    decreases |thresholds|
  {
    if thresholds != [] {
      ReachedByBucket(score, thresholds[1..]);
    }
  }

  function TieringOf(thresholds: seq<int>): Tiering {
    Tiering(score => TierOfScore(score, thresholds), TIER_COUNT, THRESHOLD_STEP)
  }

  /** Thresholds on multiples of the bucket width make every bucket lie in one tier. */
  lemma ValidThresholdsFit(thresholds: seq<int>)
    requires ValidThresholds(thresholds)
    ensures FitsBuckets(TieringOf(thresholds))
  {
    forall score: nat
      ensures TierOfScore(score, thresholds) == TierOfScore(LowerScore(score / THRESHOLD_STEP, THRESHOLD_STEP), thresholds)
    {
      ReachedByBucket(score, thresholds);
      ReachedCountsThresholds(score, thresholds);
    }
  }

  /** Whatever valid thresholds are configured today, past games are counted in their exact tier. */
  lemma ReclassificationIsExact(rows: seq<ScoreRow>, parts: seq<seq<Game>>, thresholds: seq<int>, tier: int)
    requires ValidThresholds(thresholds) && |parts| == |rows|
    requires forall i :: 0 <= i < |rows| ==> RollsUp(rows[i], parts[i], THRESHOLD_STEP)
    ensures TierStats(SortBuckets(Merged(rows)), PlacementOf(TieringOf(thresholds)), tier)
            == GamesOfTier(Flatten(parts), TieringOf(thresholds).tierOf, tier)
  {
    ValidThresholdsFit(thresholds);
    BandingIsExact(rows, parts, TieringOf(thresholds), tier);
  }
}
