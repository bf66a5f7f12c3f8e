/** The script's modelled flow: the weekly series is generated from the
    literal history and then tallied against the trend. */
module HalvingScript {
  import opened WeeklySeries
  import opened ZoneEffectiveness
  import opened Validation

  /** The historical halving years and the price at each. */
  const HalvingYears: seq<int> := [2012, 2016, 2020, 2024]
  const HalvingPrices: seq<real> := [12.33, 651.94, 8591.65, 63807.0]

  /** One price per halving year, the halvings four years apart from 2012,
      and each halving price higher than the one before. */
  lemma HalvingTable()
    ensures |HalvingYears| == |HalvingPrices| == 4
    ensures forall i :: 0 <= i < 4 ==> HalvingYears[i] == 2012 + 4 * i
    ensures 0.0 < HalvingPrices[0]
    ensures forall i :: 0 < i < 4 ==> HalvingPrices[i - 1] < HalvingPrices[i]
  {
  }

  /** Generate the 640-point weekly series from the literal history with the
      given draws (one per point, 640 in all), then run the zone-effectiveness analysis on it. Every point
      is from 2012 on, so the five counters plus the points whose ratio fell in
      a gap are exactly `total_points`, which is 640. */
  method AnalyzeHistory(volatility: seq<real>, trend: real -> real) returns (zoneStats: ZoneStats)
    requires |volatility| == 4 * TotalMonths(HistoricalData) && PositiveTrend(trend)
    ensures zoneStats.totalPoints == 640
    ensures CounterSum(zoneStats) <= zoneStats.totalPoints
    ensures var btcYears, btcPrices := SeriesTimes(HistoricalData), SeriesPrices(HistoricalData, volatility);
      CounterSum(zoneStats) + Matching(btcYears, btcPrices, trend, |btcYears|, Uncounted) == zoneStats.totalPoints
  {
    HistoricalMonths();
    var btcYears, btcPrices := GenerateWeekly(HistoricalData, volatility);
    zoneStats := AnalyzeZones(btcYears, btcPrices, trend);
    HistoricalSeries();
    AllAnalyzed(btcYears, |btcYears|);
  }

  /** The labels of the historical validation table, one per halving year. */
  function ValidationTable(trend: real -> real): (zones: seq<ValidationZone>)
    requires PositiveTrend(trend)
    ensures |zones| == 4
    ensures forall i :: 0 <= i < 4 ==> zones[i] == ValidationZoneOf(HalvingPrices[i] / trend(HalvingYears[i] as real))
  {
    ValidateHalvings(HalvingYears, HalvingPrices, trend)
  }
}
