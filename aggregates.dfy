/**
 * The aggregation step of `loadData` (App.tsx): totals over the chosen series, the
 * engagement rate, and the per-platform follower count and top post format.
 */
module Aggregates {
  import opened Types

  /** `data.reduce((acc, curr) => acc + curr.reach, 0)`, folded from the left. */
  function TotalReach(data: seq<DailyMetric>): (t: int)
    ensures data == [] ==> t == 0
    ensures |data| == 1 ==> t == data[0].reach
    ensures (forall k :: 0 <= k < |data| ==> data[k].reach >= 0) ==> t >= 0
  {
    if data == [] then 0 else TotalReach(data[..|data| - 1]) + data[|data| - 1].reach
  }

  /** `data.reduce((acc, curr) => acc + curr.engagement, 0)`, folded from the left. */
  function TotalEngagement(data: seq<DailyMetric>): (t: int)
    ensures data == [] ==> t == 0
    ensures |data| == 1 ==> t == data[0].engagement
    ensures (forall k :: 0 <= k < |data| ==> data[k].engagement >= 0) ==> t >= 0
  {
    if data == [] then 0 else TotalEngagement(data[..|data| - 1]) + data[|data| - 1].engagement
  }

  /** Totals of a concatenation add up: the fold does not depend on how the series is split. */
  lemma {:induction false} TotalsAppend(a: seq<DailyMetric>, b: seq<DailyMetric>)
    ensures TotalReach(a + b) == TotalReach(a) + TotalReach(b)
    ensures TotalEngagement(a + b) == TotalEngagement(a) + TotalEngagement(b)
  {
    if b == [] {
      assert a + b == a;
    } else {
      var b' := b[..|b| - 1];
      assert (a + b)[..|a + b| - 1] == a + b';
      TotalsAppend(a, b');
    }
  }

  /** The sum of the reaches taken from the front: the reference for `TotalReach`. */
  function SumReach(data: seq<DailyMetric>): int {
    if data == [] then 0 else data[0].reach + SumReach(data[1..])
  }

  /** The sum of the engagements taken from the front: the reference for `TotalEngagement`. */
  function SumEngagement(data: seq<DailyMetric>): int {
    if data == [] then 0 else data[0].engagement + SumEngagement(data[1..])
  }

  /** The left folds compute the plain sums of the series. */
  lemma {:induction false} TotalsAreSums(data: seq<DailyMetric>)
    ensures TotalReach(data) == SumReach(data)
    ensures TotalEngagement(data) == SumEngagement(data)
  {
    if data != [] {
      assert data == [data[0]] + data[1..];
      TotalsAppend([data[0]], data[1..]);
      TotalsAreSums(data[1..]);
    }
  }

  /** When no day's engagement exceeds its reach, neither does the total. */
  lemma {:induction false} EngagementWithinReach(data: seq<DailyMetric>)
    requires forall k :: 0 <= k < |data| ==> data[k].engagement <= data[k].reach
    ensures TotalEngagement(data) <= TotalReach(data)
  {
    if data != [] {
      EngagementWithinReach(data[..|data| - 1]);
    }
  }

  /** The follower count shown for a platform; it does not depend on the series. */
  function Followers(p: Platform): (f: int)
    ensures f > 0
  {
    match p
    case Facebook => 45200
    case Instagram => 12800
    case All => 58000
  }

  /** The top post format shown for a platform; it does not depend on the series. */
  function TopPostType(p: Platform): (t: string)
    ensures t == "Reels" <==> p == Instagram
    ensures t != "Reels" ==> t == "Photo Album"
  {
    if p == Instagram then "Reels" else "Photo Album"
  }

  /**
   * `parseFloat(x.toFixed(2))` on the exact value: the nearest multiple of 1/100,
   * ties away from zero (toFixed rounds the magnitude, taking the larger candidate
   * on a tie, and keeps the sign).
   */
  function RoundTo2(x: real): (y: real)
    ensures -0.005 <= y - x <= 0.005
    ensures (y * 100.0).Floor as real == y * 100.0
    ensures x >= 0.0 ==> y >= 0.0
    ensures x >= 0.0 ==> -0.005 < y - x
    ensures x < 0.0 ==> y - x < 0.005
  {
    var magnitude := if x >= 0.0 then x else -x;
    var n := (magnitude * 100.0 + 0.5).Floor;
    assert n as real <= magnitude * 100.0 + 0.5 < n as real + 1.0;
    var cents := if x >= 0.0 then n else -n;
    var y := cents as real / 100.0;
    assert y * 100.0 == cents as real;
    assert (cents as real).Floor == cents;
    y
  }

  /**
   * The contract of `RoundTo2` pins its result: any whole number of hundredths
   * within the same half-open distance of `x` (ties going away from zero) is it.
   */
  lemma RoundTo2Unique(x: real, y: real)
    requires (y * 100.0).Floor as real == y * 100.0
    requires x >= 0.0 ==> -0.005 < y - x <= 0.005
    requires x < 0.0 ==> -0.005 <= y - x < 0.005
    ensures y == RoundTo2(x)
  {
    var z := RoundTo2(x);
    var a, b := (y * 100.0).Floor, (z * 100.0).Floor;
    assert -1.0 < a as real - b as real < 1.0;
    assert a == b;
  }

  /** A non-negative value at most 100 rounds to at most 100. */
  lemma RoundTo2AtMost100(x: real)
    requires 0.0 <= x <= 100.0
    ensures 0.0 <= RoundTo2(x) <= 100.0
  {
    assert (x * 100.0 + 0.5).Floor <= 10000;
  }

  /**
   * The engagement rate: 0 when there is no reach, otherwise the percentage
   * `engagement / reach * 100` rounded to two decimals.
   */
  function EngagementRate(totalReach: int, totalEngagement: int): (rate: real)
    ensures totalReach <= 0 ==> rate == 0.0
    ensures totalReach > 0 ==>
      var exact := totalEngagement as real / totalReach as real * 100.0;
      -0.005 <= rate - exact <= 0.005
    ensures totalReach > 0 ==>
      var exact := totalEngagement as real / totalReach as real * 100.0;
      (totalEngagement >= 0 ==> -0.005 < rate - exact) && (totalEngagement < 0 ==> rate - exact < 0.005)
    ensures (rate * 100.0).Floor as real == rate * 100.0
  {
    if totalReach > 0 then RoundTo2(totalEngagement as real / totalReach as real * 100.0) else 0.0
  }

  /** The rate lies in [0, 100] when the engagement is a non-negative part of the reach. */
  lemma RateWithinPercent(totalReach: int, totalEngagement: int)
    requires 0 <= totalEngagement <= totalReach
    ensures 0.0 <= EngagementRate(totalReach, totalEngagement) <= 100.0
  {
    if totalReach > 0 {
      var ratio := totalEngagement as real / totalReach as real;
      assert ratio * totalReach as real == totalEngagement as real;
      assert 0.0 <= ratio <= 1.0;
      RoundTo2AtMost100(ratio * 100.0);
    }
  }

  /** Reach 5000 with engagement 250 gives a rate of exactly 5. */
  lemma RateExample()
    ensures EngagementRate(5000, 250) == 5.0
  {
    assert 250.0 / 5000.0 * 100.0 == 5.0;
    assert (5.0 * 100.0 + 0.5).Floor == 500;
  }

  /**
   * The aggregates of a series for a platform: the two totals are the sums over
   * the series, the rate is derived from the totals with its zero guard, and the
   * follower count and top format depend on the platform alone.
   */
  function Aggregate(data: seq<DailyMetric>, p: Platform): (a: AggregateMetrics)
    ensures a.totalReach == TotalReach(data) && a.totalEngagement == TotalEngagement(data)
    ensures a.totalReach <= 0 ==> a.engagementRate == 0.0
    ensures a.totalReach > 0 ==>
      -0.005 <= a.engagementRate - a.totalEngagement as real / a.totalReach as real * 100.0 <= 0.005
    ensures a.engagementRate == EngagementRate(a.totalReach, a.totalEngagement)
    ensures (a.engagementRate * 100.0).Floor as real == a.engagementRate * 100.0
    ensures a.totalFollowers == Followers(p) && a.topPostType == TopPostType(p)
  {
    var totalReach := TotalReach(data);
    var totalEngagement := TotalEngagement(data);
    AggregateMetrics(totalReach, totalEngagement, Followers(p), EngagementRate(totalReach, totalEngagement), TopPostType(p))
  }

  /** An empty series aggregates to zero totals and a zero rate. */
  lemma AggregateOfEmpty(p: Platform)
    ensures Aggregate([], p) == AggregateMetrics(0, 0, Followers(p), 0.0, TopPostType(p))
  {
  }

  /** Two series for the same platform differ in their aggregates only through the totals. */
  lemma AggregateDependsOnTotals(d1: seq<DailyMetric>, d2: seq<DailyMetric>, p: Platform)
    requires TotalReach(d1) == TotalReach(d2) && TotalEngagement(d1) == TotalEngagement(d2)
    ensures Aggregate(d1, p) == Aggregate(d2, p)
  {
  }
}
