/**
 * The synthetic generator (`generateMockData`, App.tsx). Randomness and the clock
 * are inputs: `factors[k]` is the `Math.random() * 0.4 + 0.8` drawn for the k-th
 * entry, and days are numbered relative to an injected `today`. Floating-point
 * products are computed exactly, in the reals.
 */
module MockData {
  import opened Types

  /** Per-platform base rates: anything but facebook and instagram takes the third. */
  function BaseReach(p: Platform): (b: int)
    ensures b > 0
  {
    match p
    case Facebook => 2000
    case Instagram => 1200
    case All => 3200
  }

  function BaseEngagement(p: Platform): (b: int)
    ensures b > 0
  {
    match p
    case Facebook => 150
    case Instagram => 300
    case All => 450
  }

  /** Every platform's base engagement is below its base reach. */
  lemma BaseRatesConsistent(p: Platform)
    ensures BaseEngagement(p) < BaseReach(p)
  {
  }

  /** What `Math.random() * 0.4 + 0.8` can yield. */
  predicate ValidFactor(r: real) {
    0.8 <= r < 1.2
  }

  predicate ValidFactors(factors: seq<real>) {
    forall k :: 0 <= k < |factors| ==> ValidFactor(factors[k])
  }

  /** `1 + (days - i) * 0.01`: one percent more per day since the oldest. */
  function TrendFactor(days: int, i: int): real {
    1.0 + (days - i) as real * 0.01
  }

  /** The object the loop pushes, for given base rates, random factor and trend. */
  function DayEntry(date: DateLabel, baseReach: real, baseEngage: real, r: real, trend: real): DailyMetric {
    DailyMetric(
      date,
      (baseReach * r * trend).Floor,
      (baseEngage * r * trend).Floor,
      (baseEngage * 0.7 * r).Floor,
      (baseEngage * 0.1 * r).Floor,
      (baseEngage * 0.2 * r).Floor)
  }

  /** The entry for the day `i` days before `today`, with random factor `r`. */
  function MockEntry(p: Platform, days: int, i: int, today: int, r: real): DailyMetric {
    DayEntry(DayNumber(today - i), BaseReach(p) as real, BaseEngagement(p) as real, r, TrendFactor(days, i))
  }

  /** The whole series: entry k is the day `days - k` days before `today`. */
  function MockSeries(p: Platform, days: nat, today: int, factors: seq<real>): (s: seq<DailyMetric>)
    requires |factors| == days + 1
    ensures |s| == days + 1
    ensures forall k :: 0 <= k <= days ==> s[k].date == DayNumber(today - days + k)
  {
    seq(days + 1, k requires 0 <= k <= days => MockEntry(p, days, days - k, today, factors[k]))
  }

  /**
   * `generateMockData(days, platform)`: the descending loop `i = days .. 0`
   * pushes one entry per day, so the oldest day comes first.
   */
  method GenerateMockData(days: nat, p: Platform, today: int, factors: seq<real>) returns (data: seq<DailyMetric>)
    requires |factors| == days + 1
    ensures |data| == days + 1
    ensures forall k :: 0 <= k <= days ==> data[k] == MockEntry(p, days, days - k, today, factors[k])
    ensures data == MockSeries(p, days, today, factors)
  {
    data := [];
    var i: int := days;
    while i >= 0
      invariant -1 <= i <= days
      invariant |data| == days - i
      invariant forall k :: 0 <= k < |data| ==> data[k] == MockEntry(p, days, days - k, today, factors[k])
    {
      var r := factors[days - i];
      var trend := TrendFactor(days, i);
      var baseReach, baseEngage := BaseReach(p) as real, BaseEngagement(p) as real;
      data := data + [DayEntry(DayNumber(today - i), baseReach, baseEngage, r, trend)];
      i := i - 1;
    }
    ghost var spec := MockSeries(p, days, today, factors);
    assert |spec| == |data| && forall k :: 0 <= k <= days ==> spec[k] == data[k];
  }

  /** Dates run from `today - days` to `today`, one day apart, with no gaps. */
  lemma MockDates(p: Platform, days: nat, today: int, factors: seq<real>)
    requires |factors| == days + 1
    ensures var s := MockSeries(p, days, today, factors);
      && |s| == days + 1
      && s[0].date == DayNumber(today - days)
      && s[days].date == DayNumber(today)
      && (forall k :: 0 <= k < days ==> s[k + 1].date.day == s[k].date.day + 1)
      && (forall j, k :: 0 <= j < k <= days ==> s[j].date.day < s[k].date.day)
  {
  }

  lemma ProductNonNegative(a: real, b: real, c: real)
    requires a >= 0.0 && b >= 0.0 && c >= 0.0
    ensures a * b * c >= 0.0
  {
    assert a * b >= 0.0;
  }

  lemma FloorSumAtMost(a: real, b: real, c: real)
    ensures a.Floor + b.Floor + c.Floor <= (a + b + c).Floor
  {
  }

  /** The 70/10/20 split of `base * r` stays within `base * r * trend` for `trend >= 1`. */
  lemma SplitWithinScaled(base: real, r: real, trend: real)
    requires base >= 0.0 && r >= 0.0 && trend >= 1.0
    ensures (base * 0.7 * r).Floor + (base * 0.1 * r).Floor + (base * 0.2 * r).Floor <= (base * r * trend).Floor
  {
    var x := base * r;
    assert base * 0.7 * r + base * 0.1 * r + base * 0.2 * r == x;
    FloorSumAtMost(base * 0.7 * r, base * 0.1 * r, base * 0.2 * r);
    assert x >= 0.0 by { ProductNonNegative(base, r, 1.0); }
    assert base * r * trend - x == x * (trend - 1.0);
    ProductNonNegative(x, trend - 1.0, 1.0);
  }

  /** Scaling by the same non-negative factors keeps the order of two bases. */
  lemma ScaledOrder(small: real, large: real, r: real, trend: real)
    requires 0.0 <= small <= large && r >= 0.0 && trend >= 0.0
    ensures (small * r * trend).Floor <= (large * r * trend).Floor
  {
    assert large * r * trend - small * r * trend == (large - small) * r * trend;
    ProductNonNegative(large - small, r, trend);
  }

  /** An entry built from bases `0 <= baseEngage <= baseReach` is plausible. */
  lemma DayEntryPlausible(date: DateLabel, baseReach: real, baseEngage: real, r: real, trend: real)
    requires 0.0 <= baseEngage <= baseReach && r >= 0.0 && trend >= 1.0
    ensures var m := DayEntry(date, baseReach, baseEngage, r, trend);
      && m.reach >= 0 && m.engagement >= 0 && m.likes >= 0 && m.shares >= 0 && m.comments >= 0
      && m.likes + m.shares + m.comments <= m.engagement
      && m.engagement <= m.reach
  {
    ProductNonNegative(baseEngage, 0.7, r);
    ProductNonNegative(baseEngage, 0.1, r);
    ProductNonNegative(baseEngage, 0.2, r);
    ProductNonNegative(baseEngage, r, trend);
    SplitWithinScaled(baseEngage, r, trend);
    ScaledOrder(baseEngage, baseReach, r, trend);
  }

  /**
   * With a valid factor, every field of an entry is a non-negative integer, the
   * likes/shares/comments split never exceeds the engagement, and the engagement
   * never exceeds the reach (every platform's base reach exceeds its base engagement).
   */
  lemma MockEntryPlausible(p: Platform, days: int, i: int, today: int, r: real)
    requires 0 <= i <= days
    requires ValidFactor(r)
    ensures var m := MockEntry(p, days, i, today, r);
      && m.reach >= 0 && m.engagement >= 0 && m.likes >= 0 && m.shares >= 0 && m.comments >= 0
      && m.likes + m.shares + m.comments <= m.engagement
      && m.engagement <= m.reach
  {
    BaseRatesConsistent(p);
    DayEntryPlausible(DayNumber(today - i), BaseReach(p) as real, BaseEngagement(p) as real, r, TrendFactor(days, i));
  }

  /** The whole generated series is plausible in the sense of `MockEntryPlausible`. */
  lemma MockSeriesPlausible(p: Platform, days: nat, today: int, factors: seq<real>)
    requires |factors| == days + 1 && ValidFactors(factors)
    ensures forall m :: m in MockSeries(p, days, today, factors) ==>
      && m.reach >= 0 && m.engagement >= 0 && m.likes >= 0 && m.shares >= 0 && m.comments >= 0
      && m.likes + m.shares + m.comments <= m.engagement
      && m.engagement <= m.reach
  {
    var s := MockSeries(p, days, today, factors);
    forall k | 0 <= k <= days
      ensures var m := s[k];
        && m.reach >= 0 && m.engagement >= 0 && m.likes >= 0 && m.shares >= 0 && m.comments >= 0
        && m.likes + m.shares + m.comments <= m.engagement
        && m.engagement <= m.reach
    {
      MockEntryPlausible(p, days, days - k, today, factors[k]);
    }
  }

  /**
   * On the oldest day the trend is 1, and every field lies within the factor's
   * range around the platform's base rate: reach in [0.8, 1.2) times the base reach,
   * rounded down.
   */
  lemma MockOldestDayRange(p: Platform, days: nat, today: int, r: real)
    requires ValidFactor(r)
    ensures var m := MockEntry(p, days, days, today, r);
      && (BaseReach(p) as real * 0.8).Floor <= m.reach < (BaseReach(p) as real * 1.2).Floor + 1
      && (BaseEngagement(p) as real * 0.8).Floor <= m.engagement < (BaseEngagement(p) as real * 1.2).Floor + 1
  {
    var baseReach, baseEngage := BaseReach(p) as real, BaseEngagement(p) as real;
    assert TrendFactor(days, days) == 1.0;
    assert baseReach * 0.8 <= baseReach * r < baseReach * 1.2;
    assert baseEngage * 0.8 <= baseEngage * r < baseEngage * 1.2;
  }
}
