/** The zone-effectiveness analysis: a pass over the weekly (time, price)
    points that counts, from 2012 on, how often the price-to-trend ratio falls
    in each of five zones. The `if/elif` chain leaves two ratio ranges
    unmatched, (1.8, 2.5] and [0.5, 0.7), so the five counters need not add
    up to the number of points. */
module ZoneEffectiveness {
  import opened Zones

  /** Points before this year are skipped. */
  const AnalysisStartYear: real := 2012.0

  /** Which counter, if any, one ratio increments. */
  datatype Tally =
    | ExtremeResistanceBreach
    | StrongResistanceBreach
    | NormalRange
    | StrongSupportBreach
    | ExtremeSupportBreach
    | Uncounted

  /** The `if/elif` chain of the analysis, on the ratio price / trend. Each
      counter owns one interval of ratios; the two gaps own none. */
  function TallyOf(multiplier: real): (t: Tally)
    ensures t == ExtremeResistanceBreach <==> multiplier > ExtremeResistanceMult
    ensures t == StrongResistanceBreach <==> StrongResistanceMult < multiplier <= ExtremeResistanceMult
    ensures t == NormalRange <==> LowerNormalMult <= multiplier <= UpperNormalMult
    ensures t == StrongSupportBreach <==> ExtremeSupportMult <= multiplier < StrongSupportMult
    ensures t == ExtremeSupportBreach <==> multiplier < ExtremeSupportMult
    ensures t == Uncounted <==>
      (UpperNormalMult < multiplier <= StrongResistanceMult) || (StrongSupportMult <= multiplier < LowerNormalMult)
  {
    if multiplier > ExtremeResistanceMult then ExtremeResistanceBreach
    else if multiplier > StrongResistanceMult then StrongResistanceBreach
    else if multiplier >= LowerNormalMult && multiplier <= UpperNormalMult then NormalRange
    else if multiplier < StrongSupportMult && multiplier >= ExtremeSupportMult then StrongSupportBreach
    else if multiplier < ExtremeSupportMult then ExtremeSupportBreach
    else Uncounted
  }

  /** The `zone_stats` dictionary: five counters and the number of points. */
  datatype ZoneStats = ZoneStats(
    extremeResistanceBreaches: nat,
    strongResistanceBreaches: nat,
    normalRangeTime: nat,
    strongSupportBreaches: nat,
    extremeSupportBreaches: nat,
    totalPoints: nat)

  /** The counter that tally `t` increments; none (0) for `Uncounted`. */
  function Counter(s: ZoneStats, t: Tally): nat
  {
    match t
    case ExtremeResistanceBreach => s.extremeResistanceBreaches
    case StrongResistanceBreach => s.strongResistanceBreaches
    case NormalRange => s.normalRangeTime
    case StrongSupportBreach => s.strongSupportBreaches
    case ExtremeSupportBreach => s.extremeSupportBreaches
    case Uncounted => 0
  }

  function CounterSum(s: ZoneStats): nat
  {
    s.extremeResistanceBreaches + s.strongResistanceBreaches + s.normalRangeTime
      + s.strongSupportBreaches + s.extremeSupportBreaches
  }

  function InitialStats(totalPoints: nat): (s: ZoneStats)
    ensures CounterSum(s) == 0 && s.totalPoints == totalPoints
  {
    ZoneStats(0, 0, 0, 0, 0, totalPoints)
  }

  /** Increment the counter of tally `t`: that counter rises by one, every
      other counter and `total_points` stay, and `Uncounted` changes nothing. */
  function Bump(s: ZoneStats, t: Tally): (r: ZoneStats)
    ensures r.totalPoints == s.totalPoints
    ensures forall u :: Counter(r, u) == Counter(s, u) + (if u == t && t != Uncounted then 1 else 0)
    ensures CounterSum(r) == CounterSum(s) + (if t != Uncounted then 1 else 0)
    ensures t == Uncounted ==> r == s
  {
    match t
    case ExtremeResistanceBreach => s.(extremeResistanceBreaches := s.extremeResistanceBreaches + 1)
    case StrongResistanceBreach => s.(strongResistanceBreaches := s.strongResistanceBreaches + 1)
    case NormalRange => s.(normalRangeTime := s.normalRangeTime + 1)
    case StrongSupportBreach => s.(strongSupportBreaches := s.strongSupportBreaches + 1)
    case ExtremeSupportBreach => s.(extremeSupportBreaches := s.extremeSupportBreaches + 1)
    case Uncounted => s
  }

  /** One iteration of the analysis loop on the point (year, price) with
      trend price `trendPrice` at that year. It never changes `totalPoints`,
      raises the counter of the point's tally by one and leaves every other
      counter alone; a point before 2012 or with a ratio in a gap changes nothing. */
  function Step(s: ZoneStats, year: real, price: real, trendPrice: real): (r: ZoneStats)
    requires trendPrice > 0.0
    ensures r.totalPoints == s.totalPoints
    ensures forall t :: (Counter(r, t) == Counter(s, t)
      + (if year >= AnalysisStartYear && t != Uncounted && TallyOf(price / trendPrice) == t then 1 else 0))
    ensures CounterSum(r) == CounterSum(s)
      + (if year >= AnalysisStartYear && TallyOf(price / trendPrice) != Uncounted then 1 else 0)
    ensures year < AnalysisStartYear ==> r == s
    ensures TallyOf(price / trendPrice) == Uncounted ==> r == s
  {
    if year >= AnalysisStartYear then Bump(s, TallyOf(price / trendPrice)) else s
  }

  /** The trend price is positive at every time. The script's trend, ten to
      the power `a * ln(year - 2008) + b`, is defined and positive for every
      year after 2008; a trend here is any positive extension of it, and no
      property below depends on its values before 2012. */
  ghost predicate PositiveTrend(trend: real -> real)
  {
    forall y :: trend(y) > 0.0
  }

  /** `zone_stats` after the first `n` points, starting from all counters
      zero and `total_points` = the number of points. `total_points` never
      moves, and the counters never add up to more than the points analysed. */
  function TallyPrefix(years: seq<real>, prices: seq<real>, trend: real -> real, n: nat): (s: ZoneStats)
    requires |prices| == |years| && n <= |years| && PositiveTrend(trend)
    ensures s.totalPoints == |years|
    ensures CounterSum(s) <= Analyzed(years, n)
  {
    if n == 0 then InitialStats(|years|)
    else Step(TallyPrefix(years, prices, trend, n - 1), years[n - 1], prices[n - 1], trend(years[n - 1]))
  }

  /** The analysis loop over the zipped weekly series. */
  method AnalyzeZones(years: seq<real>, prices: seq<real>, trend: real -> real) returns (zoneStats: ZoneStats)
    requires |prices| == |years| && PositiveTrend(trend)
    ensures zoneStats == TallyPrefix(years, prices, trend, |years|)
    ensures zoneStats.totalPoints == |years|
    ensures forall t :: t != Uncounted ==> Counter(zoneStats, t) == Matching(years, prices, trend, |years|, t)
    ensures CounterSum(zoneStats) + Matching(years, prices, trend, |years|, Uncounted)
         == Analyzed(years, |years|)
    ensures CounterSum(zoneStats) <= Analyzed(years, |years|) <= zoneStats.totalPoints
  {
    zoneStats := InitialStats(|years|);
    for i := 0 to |years|
      invariant zoneStats == TallyPrefix(years, prices, trend, i)
    {
      var year, price := years[i], prices[i];
      if year >= AnalysisStartYear {
        var trendPrice := trend(year);
        var multiplier := price / trendPrice;
        if multiplier > ExtremeResistanceMult {
          zoneStats := zoneStats.(extremeResistanceBreaches := zoneStats.extremeResistanceBreaches + 1);
        } else if multiplier > StrongResistanceMult {
          zoneStats := zoneStats.(strongResistanceBreaches := zoneStats.strongResistanceBreaches + 1);
        } else if multiplier >= LowerNormalMult && multiplier <= UpperNormalMult {
          zoneStats := zoneStats.(normalRangeTime := zoneStats.normalRangeTime + 1);
        } else if multiplier < StrongSupportMult && multiplier >= ExtremeSupportMult {
          zoneStats := zoneStats.(strongSupportBreaches := zoneStats.strongSupportBreaches + 1);
        } else if multiplier < ExtremeSupportMult {
          zoneStats := zoneStats.(extremeSupportBreaches := zoneStats.extremeSupportBreaches + 1);
        }
      }
    }
    TallyCounts(years, prices, trend, |years|);
    TallySum(years, prices, trend, |years|);
  }

  /** Reference count: how many of the first `n` points are from 2012 on. */
  function Analyzed(years: seq<real>, n: nat): (c: nat)
    requires n <= |years|
    ensures c <= n
  {
    if n == 0 then 0
    else Analyzed(years, n - 1) + (if years[n - 1] >= AnalysisStartYear then 1 else 0)
  }

  /** Reference count: how many of the first `n` points are from 2012 on and have tally `t`. */
  function Matching(years: seq<real>, prices: seq<real>, trend: real -> real, n: nat, t: Tally): nat
    requires |prices| == |years| && n <= |years| && PositiveTrend(trend)
  {
    if n == 0 then 0
    else
      var hit := years[n - 1] >= AnalysisStartYear && TallyOf(prices[n - 1] / trend(years[n - 1])) == t;
      Matching(years, prices, trend, n - 1, t) + (if hit then 1 else 0)
  }

  /** Each counter after `n` points equals the number of analysed points with
      its tally, and `total_points` is never touched. */
  lemma {:induction false} TallyCounts(years: seq<real>, prices: seq<real>, trend: real -> real, n: nat)
    requires |prices| == |years| && n <= |years| && PositiveTrend(trend)
    ensures TallyPrefix(years, prices, trend, n).totalPoints == |years|
    ensures forall t :: t != Uncounted ==>
      Counter(TallyPrefix(years, prices, trend, n), t) == Matching(years, prices, trend, n, t)
  {
    if n > 0 {
      TallyCounts(years, prices, trend, n - 1);
    }
  }

  /** Every analysed point has exactly one tally. */
  lemma {:induction false} TalliesPartitionAnalyzed(years: seq<real>, prices: seq<real>, trend: real -> real, n: nat)
    requires |prices| == |years| && n <= |years| && PositiveTrend(trend)
    ensures Matching(years, prices, trend, n, ExtremeResistanceBreach)
          + Matching(years, prices, trend, n, StrongResistanceBreach)
          + Matching(years, prices, trend, n, NormalRange)
          + Matching(years, prices, trend, n, StrongSupportBreach)
          + Matching(years, prices, trend, n, ExtremeSupportBreach)
          + Matching(years, prices, trend, n, Uncounted)
         == Analyzed(years, n)
  {
    if n > 0 {
      TalliesPartitionAnalyzed(years, prices, trend, n - 1);
    }
  }

  /** The five counters plus the points that fell in a gap are exactly the
      points from 2012 on, which are at most all the points: the counters add
      up to `total_points` only when no point is early or in a gap. */
  lemma TallySum(years: seq<real>, prices: seq<real>, trend: real -> real, n: nat)
    requires |prices| == |years| && n <= |years| && PositiveTrend(trend)
    ensures CounterSum(TallyPrefix(years, prices, trend, n)) + Matching(years, prices, trend, n, Uncounted)
         == Analyzed(years, n)
    ensures CounterSum(TallyPrefix(years, prices, trend, n)) <= Analyzed(years, n) <= n
  {
    TallyCounts(years, prices, trend, n);
    TalliesPartitionAnalyzed(years, prices, trend, n);
    var s := TallyPrefix(years, prices, trend, n);
    assert Counter(s, ExtremeResistanceBreach) == Matching(years, prices, trend, n, ExtremeResistanceBreach);
    assert Counter(s, StrongResistanceBreach) == Matching(years, prices, trend, n, StrongResistanceBreach);
    assert Counter(s, NormalRange) == Matching(years, prices, trend, n, NormalRange);
    assert Counter(s, StrongSupportBreach) == Matching(years, prices, trend, n, StrongSupportBreach);
    assert Counter(s, ExtremeSupportBreach) == Matching(years, prices, trend, n, ExtremeSupportBreach);
  }

  /** When every point is from 2012 on, every point is analysed. */
  lemma {:induction false} AllAnalyzed(years: seq<real>, n: nat)
    requires n <= |years|
    requires forall k :: 0 <= k < |years| ==> years[k] >= AnalysisStartYear
    ensures Analyzed(years, n) == n
  {
    if n > 0 {
      AllAnalyzed(years, n - 1);
    }
  }

  /** A point with tally `t` among the first `n` makes the reference count for `t` positive. */
  lemma {:induction false} MatchingPositive(years: seq<real>, prices: seq<real>, trend: real -> real, n: nat, k: nat, t: Tally)
    requires |prices| == |years| && n <= |years| && PositiveTrend(trend)
    requires k < n && years[k] >= AnalysisStartYear && TallyOf(prices[k] / trend(years[k])) == t
    ensures Matching(years, prices, trend, n, t) > 0
  {
    if k < n - 1 {
      MatchingPositive(years, prices, trend, n - 1, k, t);
    }
  }

  /** As soon as one analysed point has its ratio in a gap, the five counters
      add up to strictly less than the number of analysed points. */
  lemma GapPointIsMissed(years: seq<real>, prices: seq<real>, trend: real -> real, k: nat)
    requires |prices| == |years| && PositiveTrend(trend)
    requires k < |years| && years[k] >= AnalysisStartYear
    requires TallyOf(prices[k] / trend(years[k])) == Uncounted
    ensures CounterSum(TallyPrefix(years, prices, trend, |years|)) < Analyzed(years, |years|)
  {
    MatchingPositive(years, prices, trend, |years|, k, Uncounted);
    TallySum(years, prices, trend, |years|);
  }

  /** A price lies above, between or below the bands drawn at trend price `T`
      exactly when its ratio to `T` falls in the matching tally interval. */
  lemma BandPosition(price: real, trendPrice: real)
    requires trendPrice > 0.0
    ensures TallyOf(price / trendPrice) == ExtremeResistanceBreach
        <==> price > ZonePrice(trendPrice, ExtremeResistanceMult)
    ensures TallyOf(price / trendPrice) == StrongResistanceBreach
        <==> ZonePrice(trendPrice, StrongResistanceMult) < price <= ZonePrice(trendPrice, ExtremeResistanceMult)
    ensures TallyOf(price / trendPrice) == NormalRange
        <==> ZonePrice(trendPrice, LowerNormalMult) <= price <= ZonePrice(trendPrice, UpperNormalMult)
    ensures TallyOf(price / trendPrice) == StrongSupportBreach
        <==> ZonePrice(trendPrice, ExtremeSupportMult) <= price < ZonePrice(trendPrice, StrongSupportMult)
    ensures TallyOf(price / trendPrice) == ExtremeSupportBreach
        <==> price < ZonePrice(trendPrice, ExtremeSupportMult)
  {
    var ratio := price / trendPrice;
    assert price == ratio * trendPrice;
    RatioComparison(ratio, trendPrice, ExtremeResistanceMult);
    RatioComparison(ratio, trendPrice, StrongResistanceMult);
    RatioComparison(ratio, trendPrice, UpperNormalMult);
    RatioComparison(ratio, trendPrice, LowerNormalMult);
    RatioComparison(ratio, trendPrice, StrongSupportMult);
    RatioComparison(ratio, trendPrice, ExtremeSupportMult);
  }

  /** For a positive trend price, comparing the ratio with a multiplier is
      comparing the price with that multiple of the trend. */
  lemma RatioComparison(ratio: real, trendPrice: real, multiplier: real)
    requires trendPrice > 0.0
    ensures ratio > multiplier <==> ratio * trendPrice > ZonePrice(trendPrice, multiplier)
    ensures ratio < multiplier <==> ratio * trendPrice < ZonePrice(trendPrice, multiplier)
  {
    if ratio > multiplier {
      assert (ratio - multiplier) * trendPrice > 0.0;
    } else if ratio < multiplier {
      assert (multiplier - ratio) * trendPrice > 0.0;
    }
  }
}
