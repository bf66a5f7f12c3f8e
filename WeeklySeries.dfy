/** The synthetic weekly Bitcoin price series: every hand-entered monthly
    average becomes four weekly points, placed a quarter of a month apart and
    each multiplied by its own volatility draw. The draws (uniform in
    [0.85, 1.15] in the script) are an input sequence, one per point, in the
    order the points are emitted. */
module WeeklySeries {

  /** One entry of the price history: a calendar year and its monthly
      average prices from January on. */
  datatype YearPrices = YearPrices(year: int, monthly: seq<real>)


  /** The hand-entered monthly averages, 2012 to August 2025, in the
      insertion (and so iteration) order of the script's dictionary. */
  const HistoricalData: seq<YearPrices> := [
    YearPrices(2012, [5.0, 6.0, 5.0, 5.0, 5.0, 5.0, 7.0, 10.0, 12.0, 12.0, 13.0, 13.0]),
    YearPrices(2013, [14.0, 20.0, 90.0, 140.0, 110.0, 100.0, 90.0, 110.0, 130.0, 200.0, 800.0, 650.0]),
    YearPrices(2014, [600.0, 550.0, 450.0, 420.0, 440.0, 580.0, 620.0, 520.0, 480.0, 340.0, 380.0, 320.0]),
    YearPrices(2015, [220.0, 240.0, 250.0, 220.0, 230.0, 220.0, 280.0, 270.0, 230.0, 270.0, 320.0, 430.0]),
    YearPrices(2016, [380.0, 370.0, 410.0, 420.0, 450.0, 650.0, 600.0, 580.0, 610.0, 630.0, 750.0, 950.0]),
    YearPrices(2017, [900.0, 1050.0, 1200.0, 1300.0, 2500.0, 2700.0, 2600.0, 4300.0, 4200.0, 6300.0, 9800.0, 14200.0]),
    YearPrices(2018, [11000.0, 8500.0, 7000.0, 6900.0, 7500.0, 6400.0, 6200.0, 6000.0, 6600.0, 6300.0, 4200.0, 3700.0]),
    YearPrices(2019, [3400.0, 3800.0, 4000.0, 5200.0, 8000.0, 11000.0, 9500.0, 10000.0, 8200.0, 7500.0, 7200.0, 7200.0]),
    YearPrices(2020, [7200.0, 8500.0, 5000.0, 6800.0, 9000.0, 9500.0, 9200.0, 11500.0, 10800.0, 13800.0, 19500.0, 28900.0]),
    YearPrices(2021, [32000.0, 45000.0, 50000.0, 58000.0, 35000.0, 32000.0, 30000.0, 47000.0, 43000.0, 61000.0, 57000.0, 46000.0]),
    YearPrices(2022, [38000.0, 39000.0, 45000.0, 38000.0, 30000.0, 20000.0, 19000.0, 20000.0, 19000.0, 20500.0, 16000.0, 16500.0]),
    YearPrices(2023, [16800.0, 23000.0, 28000.0, 30000.0, 27000.0, 26500.0, 29000.0, 26000.0, 26500.0, 35000.0, 37000.0, 42000.0]),
    YearPrices(2024, [42500.0, 51000.0, 69000.0, 66000.0, 62000.0, 70000.0, 58000.0, 60000.0]),
    YearPrices(2025, [94536.0, 84381.0, 82549.0, 94184.0, 104598.0, 107171.0, 115765.0, 113322.0])
  ]

  /** Number of monthly prices over all entries. */
  function TotalMonths(data: seq<YearPrices>): nat
  {
    if data == [] then 0 else TotalMonths(data[..|data| - 1]) + |data[|data| - 1].monthly|
  }

  /** The time coordinate of week `week` of month `monthIdx` of `year`: exactly
      `4 * monthIdx + week` 48ths of a year past the year, so within the year
      whenever the month and the week are in range. */
  function WeekTime(year: int, monthIdx: nat, week: nat): (t: real)
    ensures t == year as real + (4 * monthIdx + week) as real / 48.0
    ensures monthIdx < 12 && week < 4 ==> year as real <= t < (year + 1) as real
  {
    year as real + (monthIdx as real + week as real / 4.0) / 12.0
  }

  /** The first `count` time coordinates emitted for one year. */
  function WeekTimes(year: int, count: nat): (r: seq<real>)
    ensures |r| == count
  {
    if count == 0 then []
    else WeekTimes(year, count - 1) + [WeekTime(year, (count - 1) / 4, (count - 1) % 4)]
  }

  /** A monthly average perturbed by one volatility draw: a non-negative
      average times a draw in [0.85, 1.15] stays within that band of it. */
  function NoisyPrice(monthPrice: real, volatility: real): (p: real)
    ensures monthPrice >= 0.0 && 0.85 <= volatility <= 1.15 ==> 0.85 * monthPrice <= p <= 1.15 * monthPrice
  {
    monthPrice * volatility
  }

  /** The first `count` prices emitted for one year's monthly averages, the
      first of them using draw number `offset`. */
  function WeekPrices(monthly: seq<real>, volatility: seq<real>, offset: nat, count: nat): (r: seq<real>)
    requires count <= 4 * |monthly| && offset + count <= |volatility|
    ensures |r| == count
  {
    if count == 0 then []
    else WeekPrices(monthly, volatility, offset, count - 1)
           + [NoisyPrice(monthly[(count - 1) / 4], volatility[offset + count - 1])]
  }

  /** `btc_years` after the whole history has been processed. */
  function SeriesTimes(data: seq<YearPrices>): (r: seq<real>)
    ensures |r| == 4 * TotalMonths(data)
  {
    if data == [] then []
    else
      var last := data[|data| - 1];
      SeriesTimes(data[..|data| - 1]) + WeekTimes(last.year, 4 * |last.monthly|)
  }

  /** `btc_prices` after the whole history has been processed. */
  function SeriesPrices(data: seq<YearPrices>, volatility: seq<real>): (r: seq<real>)
    requires 4 * TotalMonths(data) <= |volatility|
    ensures |r| == 4 * TotalMonths(data)
  {
    if data == [] then []
    else
      var front, last := data[..|data| - 1], data[|data| - 1];
      SeriesPrices(front, volatility)
        + WeekPrices(last.monthly, volatility, 4 * TotalMonths(front), 4 * |last.monthly|)
  }

  /** The generator loop: for each year, for each month, four weeks, each
      appending one time coordinate and one noisy price. The loops over the
      months and weeks of one year are `EmitYear`. */
  method GenerateWeekly(data: seq<YearPrices>, volatility: seq<real>) returns (btcYears: seq<real>, btcPrices: seq<real>)
    requires |volatility| == 4 * TotalMonths(data)
    ensures |btcYears| == |btcPrices| == 4 * TotalMonths(data)
    ensures btcYears == SeriesTimes(data)
    ensures btcPrices == SeriesPrices(data, volatility)
  {
    btcYears, btcPrices := [], [];
    assert data[..0] == [];
    for i := 0 to |data|
      invariant 4 * TotalMonths(data[..i]) <= |volatility|
      invariant btcYears == SeriesTimes(data[..i])
      invariant btcPrices == SeriesPrices(data[..i], volatility)
    {
      SeriesSnoc(data, volatility, i);
      btcYears, btcPrices := EmitYear(data[i].year, data[i].monthly, volatility, btcYears, btcPrices);
    }
    assert data[..|data|] == data;
  }

  /** The body of the generator for one year: for each month, four weekly
      points appended to the two lists, the draws taken from
      `volatility[|pricesBefore|..]` in order. */
  method EmitYear(year: int, monthlyPrices: seq<real>, volatility: seq<real>,
                  yearsBefore: seq<real>, pricesBefore: seq<real>)
    returns (btcYears: seq<real>, btcPrices: seq<real>)
    requires |pricesBefore| + 4 * |monthlyPrices| <= |volatility|
    ensures btcYears == yearsBefore + WeekTimes(year, 4 * |monthlyPrices|)
    ensures btcPrices == pricesBefore + WeekPrices(monthlyPrices, volatility, |pricesBefore|, 4 * |monthlyPrices|)
  {
    btcYears, btcPrices := yearsBefore, pricesBefore;
    for monthIdx := 0 to |monthlyPrices|
      invariant btcYears == yearsBefore + WeekTimes(year, 4 * monthIdx)
      invariant btcPrices == pricesBefore + WeekPrices(monthlyPrices, volatility, |pricesBefore|, 4 * monthIdx)
    {
      btcYears, btcPrices := EmitMonth(year, monthlyPrices, monthIdx, volatility, yearsBefore, pricesBefore, btcYears, btcPrices);
    }
  }

  /** The four weeks of month `monthIdx` of one year: each appends its time
      coordinate and the month's average times the next draw. */
  method EmitMonth(year: int, monthlyPrices: seq<real>, monthIdx: nat, volatility: seq<real>,
                   ghost yearsBefore: seq<real>, ghost pricesBefore: seq<real>, yearsSoFar: seq<real>, pricesSoFar: seq<real>)
    returns (btcYears: seq<real>, btcPrices: seq<real>)
    requires monthIdx < |monthlyPrices| && |pricesBefore| + 4 * |monthlyPrices| <= |volatility|
    requires yearsSoFar == yearsBefore + WeekTimes(year, 4 * monthIdx)
    requires pricesSoFar == pricesBefore + WeekPrices(monthlyPrices, volatility, |pricesBefore|, 4 * monthIdx)
    ensures btcYears == yearsBefore + WeekTimes(year, 4 * monthIdx + 4)
    ensures btcPrices == pricesBefore + WeekPrices(monthlyPrices, volatility, |pricesBefore|, 4 * monthIdx + 4)
  {
    btcYears, btcPrices := yearsSoFar, pricesSoFar;
    var monthPrice := monthlyPrices[monthIdx];
    for week := 0 to 4
      invariant btcYears == yearsBefore + WeekTimes(year, 4 * monthIdx + week)
      invariant btcPrices == pricesBefore + WeekPrices(monthlyPrices, volatility, |pricesBefore|, 4 * monthIdx + week)
    {
      var weekFraction := monthIdx as real + week as real / 4.0;
      var yearFraction := year as real + weekFraction / 12.0;
      TimesStep(yearsBefore, btcYears, year, monthIdx, week);
      PricesStep(pricesBefore, btcPrices, monthlyPrices, volatility, monthIdx, week);
      var v := volatility[|btcPrices|];
      btcYears := btcYears + [yearFraction];
      btcPrices := btcPrices + [NoisyPrice(monthPrice, v)];
    }
  }

  /** Processing entry `i` appends its whole block to both series. */
  lemma SeriesSnoc(data: seq<YearPrices>, volatility: seq<real>, i: nat)
    requires i < |data| && |volatility| == 4 * TotalMonths(data)
    ensures TotalMonths(data[..i + 1]) == TotalMonths(data[..i]) + |data[i].monthly|
    ensures 4 * TotalMonths(data[..i + 1]) <= |volatility|
    ensures SeriesTimes(data[..i + 1]) == SeriesTimes(data[..i]) + WeekTimes(data[i].year, 4 * |data[i].monthly|)
    ensures SeriesPrices(data[..i + 1], volatility)
         == SeriesPrices(data[..i], volatility)
            + WeekPrices(data[i].monthly, volatility, 4 * TotalMonths(data[..i]), 4 * |data[i].monthly|)
  {
    PrefixMonths(data, i + 1);
    assert data[..i + 1][..i] == data[..i];
  }

  /** Appending week `week` of month `monthIdx` extends the year's block of time coordinates by one. */
  lemma TimesStep(yearsBefore: seq<real>, btcYears: seq<real>, year: int, monthIdx: nat, week: nat)
    requires week < 4 && btcYears == yearsBefore + WeekTimes(year, 4 * monthIdx + week)
    ensures btcYears + [year as real + (monthIdx as real + week as real / 4.0) / 12.0]
         == yearsBefore + WeekTimes(year, 4 * monthIdx + week + 1)
  {
    var c := 4 * monthIdx + week;
    assert c / 4 == monthIdx && c % 4 == week;
  }

  /** Appending the noisy price of week `week` of month `monthIdx`, drawn with
      the next unused volatility, extends the year's block of prices by one. */
  lemma PricesStep(pricesBefore: seq<real>, btcPrices: seq<real>, monthly: seq<real>, volatility: seq<real>, monthIdx: nat, week: nat)
    requires monthIdx < |monthly| && week < 4 && |pricesBefore| + 4 * |monthly| <= |volatility|
    requires btcPrices == pricesBefore + WeekPrices(monthly, volatility, |pricesBefore|, 4 * monthIdx + week)
    ensures |btcPrices| < |volatility|
    ensures btcPrices + [NoisyPrice(monthly[monthIdx], volatility[|btcPrices|])]
         == pricesBefore + WeekPrices(monthly, volatility, |pricesBefore|, 4 * monthIdx + week + 1)
  {
    var c := 4 * monthIdx + week;
    assert c / 4 == monthIdx;
  }

  /** A prefix of the history has no more monthly prices than the whole. */
  lemma {:induction false} PrefixMonths(data: seq<YearPrices>, n: nat)
    requires n <= |data|
    ensures TotalMonths(data[..n]) <= TotalMonths(data)
  {
    if n < |data| {
      var front := data[..|data| - 1];
      assert front[..n] == data[..n];
      PrefixMonths(front, n);
    } else {
      assert data[..n] == data;
    }
  }

  /** Point `k` of one year's block is week `k % 4` of month `k / 4`. */
  lemma {:induction false} WeekTimesAt(year: int, count: nat, k: nat)
    requires k < count
    ensures WeekTimes(year, count)[k] == WeekTime(year, k / 4, k % 4)
  {
    if k < count - 1 {
      WeekTimesAt(year, count - 1, k);
    }
  }

  /** Price `k` of one year's block is month `k / 4`'s average times draw `offset + k`. */
  lemma {:induction false} WeekPricesAt(monthly: seq<real>, volatility: seq<real>, offset: nat, count: nat, k: nat)
    requires count <= 4 * |monthly| && offset + count <= |volatility|
    requires k < count
    ensures WeekPrices(monthly, volatility, offset, count)[k] == NoisyPrice(monthly[k / 4], volatility[offset + k])
  {
    if k < count - 1 {
      WeekPricesAt(monthly, volatility, offset, count - 1, k);
    }
  }

  /** Point `k` of a year's block lies `k` 48ths of a year past the year. */
  lemma WeekTimesValue(year: int, count: nat, k: nat)
    requires k < count
    ensures WeekTimes(year, count)[k] == year as real + k as real / 48.0
  {
    WeekTimesAt(year, count, k);
    assert 4 * (k / 4) + k % 4 == k;
  }

  /** A point (time `t`, price `p`, drawn with volatility `v`) comes from
      week `w` of month `m` of entry `j` of `data`. */
  ghost predicate ComesFrom(data: seq<YearPrices>, t: real, p: real, v: real)
  {
    exists j, m, w :: 0 <= j < |data| && 0 <= m < |data[j].monthly| && 0 <= w < 4
      && t == WeekTime(data[j].year, m, w) && p == NoisyPrice(data[j].monthly[m], v)
  }

  /** Every generated point comes from one monthly average of one entry and
      one week of that month: its time is that week's coordinate, and its
      price is that average times the draw with the point's own index. */
  lemma {:induction false} PointOrigin(data: seq<YearPrices>, volatility: seq<real>)
    requires 4 * TotalMonths(data) <= |volatility|
    ensures forall k :: 0 <= k < |SeriesTimes(data)| ==>
      ComesFrom(data, SeriesTimes(data)[k], SeriesPrices(data, volatility)[k], volatility[k])
  {
    if data != [] {
      var front, last := data[..|data| - 1], data[|data| - 1];
      PointOrigin(front, volatility);
      var ts, ps := SeriesTimes(data), SeriesPrices(data, volatility);
      var fs, fp := SeriesTimes(front), SeriesPrices(front, volatility);
      var n := |fs|;
      forall k | 0 <= k < |ts|
        ensures ComesFrom(data, ts[k], ps[k], volatility[k])
      {
        if k < n {
          assert ts[k] == fs[k] && ps[k] == fp[k];
          assert ComesFrom(front, fs[k], fp[k], volatility[k]);
          var j, m, w :| 0 <= j < |front| && 0 <= m < |front[j].monthly| && 0 <= w < 4
            && fs[k] == WeekTime(front[j].year, m, w) && fp[k] == NoisyPrice(front[j].monthly[m], volatility[k]);
          assert front[j] == data[j];
        } else {
          var c := k - n;
          var count := 4 * |last.monthly|;
          WeekTimesAt(last.year, count, c);
          WeekPricesAt(last.monthly, volatility, n, count, c);
          assert ts[k] == WeekTimes(last.year, count)[c];
          assert ps[k] == WeekPrices(last.monthly, volatility, n, count)[c];
          var j, m, w := |data| - 1, c / 4, c % 4;
          assert ts[k] == WeekTime(data[j].year, m, w) && ps[k] == NoisyPrice(data[j].monthly[m], volatility[k]);
        }
      }
    }
  }

  ghost predicate AtMostTwelveMonths(data: seq<YearPrices>)
  {
    forall j :: 0 <= j < |data| ==> |data[j].monthly| <= 12
  }

  ghost predicate StrictlyAscendingYears(data: seq<YearPrices>)
  {
    forall j, k :: 0 <= j < k < |data| ==> data[j].year < data[k].year
  }

  ghost predicate NonNegativePrices(data: seq<YearPrices>)
  {
    forall j, m :: 0 <= j < |data| && 0 <= m < |data[j].monthly| ==> data[j].monthly[m] >= 0.0
  }

  ghost predicate VolatilityInRange(volatility: seq<real>)
  {
    forall k :: 0 <= k < |volatility| ==> 0.85 <= volatility[k] <= 1.15
  }

  ghost predicate StrictlyIncreasing(s: seq<real>)
  {
    forall k, l :: 0 <= k < l < |s| ==> s[k] < s[l]
  }

  /** Time `t` lies within the 48 weekly slots of the year of some entry. */
  ghost predicate WithinSomeYear(data: seq<YearPrices>, t: real)
  {
    exists j :: 0 <= j < |data| && data[j].year as real <= t <= data[j].year as real + 47.0 / 48.0
  }

  /** With at most twelve months per entry, every time coordinate lies in
      [year, year + 47/48] of the entry it came from, so below year + 1. */
  lemma TimesWithinYear(data: seq<YearPrices>)
    requires AtMostTwelveMonths(data)
    ensures forall k :: 0 <= k < |SeriesTimes(data)| ==> WithinSomeYear(data, SeriesTimes(data)[k])
  {
    var ones := seq(4 * TotalMonths(data), k => 1.0);
    PointOrigin(data, ones);
    forall k | 0 <= k < |SeriesTimes(data)|
      ensures WithinSomeYear(data, SeriesTimes(data)[k])
    {
      assert ComesFrom(data, SeriesTimes(data)[k], SeriesPrices(data, ones)[k], ones[k]);
      var j, m, w :| 0 <= j < |data| && 0 <= m < |data[j].monthly| && 0 <= w < 4
        && SeriesTimes(data)[k] == WeekTime(data[j].year, m, w);
      assert 4 * m + w <= 47;
    }
  }

  /** With strictly ascending years and at most twelve months per entry, the
      whole series of time coordinates is strictly increasing. */
  lemma {:induction false} TimesStrictlyIncreasing(data: seq<YearPrices>)
    requires AtMostTwelveMonths(data) && StrictlyAscendingYears(data)
    ensures StrictlyIncreasing(SeriesTimes(data))
  {
    if data != [] {
      var front, last := data[..|data| - 1], data[|data| - 1];
      TimesStrictlyIncreasing(front);
      var fs, block := SeriesTimes(front), WeekTimes(last.year, 4 * |last.monthly|);
      BlockIncreasing(last.year, 4 * |last.monthly|);
      SeriesBeforeYear(front, last.year);
      ConcatIncreasing(fs, block, last.year as real);
    }
  }

  /** One year's block is strictly increasing and starts at the year. */
  lemma BlockIncreasing(year: int, count: nat)
    ensures StrictlyIncreasing(WeekTimes(year, count))
    ensures forall k :: 0 <= k < count ==> year as real <= WeekTimes(year, count)[k]
  {
    forall k | 0 <= k < count
      ensures WeekTimes(year, count)[k] == year as real + k as real / 48.0
    {
      WeekTimesValue(year, count, k);
    }
  }

  /** If every entry's year is before `laterYear`, so is every point of the series. */
  lemma SeriesBeforeYear(data: seq<YearPrices>, laterYear: int)
    requires AtMostTwelveMonths(data)
    requires forall j :: 0 <= j < |data| ==> data[j].year < laterYear
    ensures forall k :: 0 <= k < |SeriesTimes(data)| ==> SeriesTimes(data)[k] < laterYear as real
  {
    TimesWithinYear(data);
    forall k | 0 <= k < |SeriesTimes(data)|
      ensures SeriesTimes(data)[k] < laterYear as real
    {
      assert WithinSomeYear(data, SeriesTimes(data)[k]);
    }
  }

  /** Two strictly increasing sequences on either side of a bound concatenate
      to a strictly increasing sequence. */
  lemma ConcatIncreasing(a: seq<real>, b: seq<real>, bound: real)
    requires StrictlyIncreasing(a) && StrictlyIncreasing(b)
    requires forall k :: 0 <= k < |a| ==> a[k] < bound
    requires forall k :: 0 <= k < |b| ==> bound <= b[k]
    ensures StrictlyIncreasing(a + b)
  {
    var c := a + b;
    forall k, l | 0 <= k < l < |c|
      ensures c[k] < c[l]
    {
      if l < |a| {
        assert c[k] == a[k] && c[l] == a[l];
      } else if |a| <= k {
        assert c[k] == b[k - |a|] && c[l] == b[l - |a|];
      } else {
        assert c[k] == a[k] && c[l] == b[l - |a|];
      }
    }
  }

  /** The point at time `t` with price `p` is within [0.85, 1.15] times the
      average of the month whose week it is: some week `w` of month `m` of
      entry `j` has time `t`, and `p` lies in that month's band. */
  ghost predicate WithinVolatilityOfItsMonth(data: seq<YearPrices>, t: real, p: real)
  {
    exists j, m, w :: 0 <= j < |data| && 0 <= m < |data[j].monthly| && 0 <= w < 4
      && t == WeekTime(data[j].year, m, w)
      && 0.85 * data[j].monthly[m] <= p <= 1.15 * data[j].monthly[m]
  }

  /** With draws in [0.85, 1.15] and non-negative averages, every generated
      price lies within [0.85, 1.15] times the average of its own month, the
      month of the point's time coordinate (which `WeekTimeDetermines` makes
      unique for a well-formed history). */
  lemma PricesWithinVolatility(data: seq<YearPrices>, volatility: seq<real>)
    requires |volatility| == 4 * TotalMonths(data)
    requires VolatilityInRange(volatility) && NonNegativePrices(data)
    ensures forall k :: 0 <= k < |SeriesPrices(data, volatility)| ==>
      WithinVolatilityOfItsMonth(data, SeriesTimes(data)[k], SeriesPrices(data, volatility)[k])
  {
    PointOrigin(data, volatility);
    var ts, ps := SeriesTimes(data), SeriesPrices(data, volatility);
    forall k | 0 <= k < |ps|
      ensures WithinVolatilityOfItsMonth(data, ts[k], ps[k])
    {
      assert ComesFrom(data, ts[k], ps[k], volatility[k]);
      var j, m, w :| 0 <= j < |data| && 0 <= m < |data[j].monthly| && 0 <= w < 4
        && ts[k] == WeekTime(data[j].year, m, w) && ps[k] == NoisyPrice(data[j].monthly[m], volatility[k]);
      assert data[j].monthly[m] >= 0.0 && 0.85 <= volatility[k] <= 1.15;
    }
  }

  /** The time coordinate names its week: two in-range (year, month, week)
      triples with the same coordinate are the same triple. */
  lemma WeekTimeDetermines(y1: int, m1: nat, w1: nat, y2: int, m2: nat, w2: nat)
    requires m1 < 12 && w1 < 4 && m2 < 12 && w2 < 4
    requires WeekTime(y1, m1, w1) == WeekTime(y2, m2, w2)
    ensures y1 == y2 && m1 == m2 && w1 == w2
  {
    var k1, k2 := 48 * y1 + 4 * m1 + w1, 48 * y2 + 4 * m2 + w2;
    assert k1 as real == k2 as real;
    assert k1 == k2;
  }

  /** The literal history holds 160 monthly averages. */
  lemma HistoricalMonths()
    ensures TotalMonths(HistoricalData) == 160
  {
    var d := HistoricalData;
    assert d[..0] == [];
    assert TotalMonths(d[..1]) == 12;
    assert TotalMonths(d[..2]) == 24 by { assert d[..2][..1] == d[..1]; }
    assert TotalMonths(d[..3]) == 36 by { assert d[..3][..2] == d[..2]; }
    assert TotalMonths(d[..4]) == 48 by { assert d[..4][..3] == d[..3]; }
    assert TotalMonths(d[..5]) == 60 by { assert d[..5][..4] == d[..4]; }
    assert TotalMonths(d[..6]) == 72 by { assert d[..6][..5] == d[..5]; }
    assert TotalMonths(d[..7]) == 84 by { assert d[..7][..6] == d[..6]; }
    assert TotalMonths(d[..8]) == 96 by { assert d[..8][..7] == d[..7]; }
    assert TotalMonths(d[..9]) == 108 by { assert d[..9][..8] == d[..8]; }
    assert TotalMonths(d[..10]) == 120 by { assert d[..10][..9] == d[..9]; }
    assert TotalMonths(d[..11]) == 132 by { assert d[..11][..10] == d[..10]; }
    assert TotalMonths(d[..12]) == 144 by { assert d[..12][..11] == d[..11]; }
    assert TotalMonths(d[..13]) == 152 by { assert d[..13][..12] == d[..12]; }
    assert d[..14][..13] == d[..13];
    assert d[..14] == d;
  }

  /** The literal history has twelve months for each year 2012 to 2023 and
      eight (January to August) for 2024 and 2025, so the series skips from
      August 2024 straight to January 2025. */
  lemma HistoricalMonthCounts()
    ensures forall j :: 0 <= j < 12 ==> |HistoricalData[j].monthly| == 12
    ensures |HistoricalData[12].monthly| == 8 && |HistoricalData[13].monthly| == 8
  {
  }

  /** The literal history: entry `j` is the year 2012 + j, with at most twelve
      months, so the years ascend strictly. */
  lemma HistoricalYears()
    ensures |HistoricalData| == 14
    ensures forall j :: 0 <= j < |HistoricalData| ==> HistoricalData[j].year == 2012 + j
    ensures AtMostTwelveMonths(HistoricalData) && StrictlyAscendingYears(HistoricalData)
  {
  }

  /** Every literal monthly average is non-negative. */
  lemma HistoricalPricesNonNegative()
    ensures NonNegativePrices(HistoricalData)
  {
    forall j | 0 <= j < |HistoricalData|
      ensures forall m :: 0 <= m < |HistoricalData[j].monthly| ==> HistoricalData[j].monthly[m] >= 0.0
    {
      EntryPricesAtLeastFive(j);
    }
  }

  /** Every monthly average of entry `j` is at least 5, the 2012 low. The
      case split gives the solver one literal entry at a time instead of the
      whole table at once. */
  lemma EntryPricesAtLeastFive(j: nat)
    requires j < |HistoricalData|
    ensures forall m :: 0 <= m < |HistoricalData[j].monthly| ==> HistoricalData[j].monthly[m] >= 5.0
  {
    if j < 7 {
      if j == 0 {} else if j == 1 {} else if j == 2 {} else if j == 3 {} else if j == 4 {} else if j == 5 {} else {}
    } else {
      if j == 7 {} else if j == 8 {} else if j == 9 {} else if j == 10 {} else if j == 11 {} else if j == 12 {} else {}
    }
  }

  /** The script's series: 640 weekly points, strictly increasing in time, all from 2012 on. */
  lemma HistoricalSeries()
    ensures |SeriesTimes(HistoricalData)| == 640
    ensures StrictlyIncreasing(SeriesTimes(HistoricalData))
    ensures forall k :: 0 <= k < |SeriesTimes(HistoricalData)| ==> SeriesTimes(HistoricalData)[k] >= 2012.0
  {
    HistoricalMonths();
    HistoricalYears();
    TimesStrictlyIncreasing(HistoricalData);
    TimesWithinYear(HistoricalData);
    var ts := SeriesTimes(HistoricalData);
    forall k | 0 <= k < |ts|
      ensures ts[k] >= 2012.0
    {
      assert WithinSomeYear(HistoricalData, ts[k]);
    }
  }
}
