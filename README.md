# Bitcoin halving-regression rainbow chart: verified model of its core

`BTCRainbowHalvingLR.py` fits a power-law trend, the halving price regression
(HPR), through the four halving-year prices. It draws six support and
resistance bands around that trend, each a fixed multiple of the trend price.
It also builds a synthetic weekly price series from a table of hand-entered
monthly averages, counts how often that series falls in each band, and labels
each halving price with a zone. This project models four parts of the script
and proves properties about them:

- **Weekly series generator** (`WeeklySeries`). The year, month and week
  loops join the monthly averages into two lists: one time coordinate per
  point, and one price per point multiplied by a volatility draw. Each loop
  level is its own method (`GenerateWeekly`, `EmitYear`, `EmitMonth`). Each
  method is proved against the recursive functions `SeriesTimes`/`WeekTimes`
  and `SeriesPrices`/`WeekPrices`.
- **Zone bands** (`Zones`). The six multiplier constants, and the six band
  arrays obtained by scaling the trend array by each multiplier.
- **Zone-effectiveness analysis** (`ZoneEffectiveness`). The counting loop
  over the weekly points. `AnalyzeZones` is the loop, with the source's own
  `if/elif` chain. It is proved equal to the fold `TallyPrefix` of the
  one-point function `Step`. Its counters are proved equal to reference
  counts (`Matching`, `Analyzed`).
- **Historical zone validation** (`Validation`). The five-way classifier
  applied to the four halving prices.

`HalvingScript` (in `Script.dfy`) puts the pieces together in the script's
order. It runs the generator on the literal history and then the analysis
on the result. It also builds the validation table for the four halving
points.

The trend price `10 ** (a * ln(year - 2008) + b)` is a parameter
`trend: real -> real`. The script's trend is defined and positive for
every year after 2008, whatever `a` and `b` the fit returns. The model asks
for a positive function on all reals, that is, some positive extension of
the trend. No property depends on its values before 2012, the earliest year
the analysed points can have. The volatility draws are a parameter too: one real per generated
point, in the order the points are emitted. Prices and time coordinates are
exact reals.

## Model

| member | source | states |
|---|---|---|
| Zones.MultipliersOrdered | BTCRainbowHalvingLR.py:78-83 | the six multipliers are positive and strictly ordered, extreme support < strong support < lower normal < 1 < upper normal < strong resistance < extreme resistance |
| Zones.ZonePrice | BTCRainbowHalvingLR.py:123-128 | a band price divided by a positive trend price gives back the band's multiplier, which is the ratio the analysis compares against |
| Zones.Bands | BTCRainbowHalvingLR.py:123-128 | the six band arrays each have one entry per trend point, and entry `i` of each is the trend price `i` times that band's multiplier |
| Zones.Scale | BTCRainbowHalvingLR.py:123-128 | a band array has the trend array's length, and each element is the trend element times the multiplier |
| Zones.BandsOrdered | BTCRainbowHalvingLR.py:123-128 | all six band arrays have the trend's length; at every positive trend point the bands are strictly ordered, and the trend lies strictly inside the normal range |
| WeeklySeries.WeekTime | BTCRainbowHalvingLR.py:44-45 | week `w` of month `m` lies exactly `(4m + w)/48` of a year past the year, so it falls inside the year when `m` < 12 and `w` < 4 |
| WeeklySeries.NoisyPrice | BTCRainbowHalvingLR.py:47-49 | a non-negative monthly average times a draw in [0.85, 1.15] lies between 0.85 and 1.15 times that average |
| WeeklySeries.WeekTimes | BTCRainbowHalvingLR.py:43-45 | one year's block has one time coordinate per requested point |
| WeeklySeries.WeekPrices | BTCRainbowHalvingLR.py:47-49 | one year's block has one price per requested point |
| WeeklySeries.SeriesTimes | BTCRainbowHalvingLR.py:39-48 | the series holds exactly four time coordinates per monthly average |
| WeeklySeries.SeriesPrices | BTCRainbowHalvingLR.py:39-49 | the series holds exactly four prices per monthly average |
| WeeklySeries.GenerateWeekly | BTCRainbowHalvingLR.py:36-52 | the generator's two lists have equal length, four times the number of monthly averages, and equal the reference series `SeriesTimes` and `SeriesPrices` |
| WeeklySeries.EmitYear | BTCRainbowHalvingLR.py:42-49 | processing one entry appends exactly that year's block of time coordinates and noisy prices, using the next unused draws in order |
| WeeklySeries.EmitMonth | BTCRainbowHalvingLR.py:43-49 | the four weeks of one month extend both lists by that month's next four points |
| WeeklySeries.SeriesSnoc | BTCRainbowHalvingLR.py:39 | processing entry `i` appends exactly its block to both series and uses up its months' worth of draws |
| WeeklySeries.TimesStep | BTCRainbowHalvingLR.py:44-48 | the coordinate `year + (month + week/4)/12` is the next element of the year's block |
| WeeklySeries.PricesStep | BTCRainbowHalvingLR.py:47-49 | the month's average times the next unused draw is the next element of the year's price block |
| WeeklySeries.PrefixMonths | BTCRainbowHalvingLR.py:39 | a prefix of the history has no more monthly averages than the whole |
| WeeklySeries.WeekTimeDetermines | BTCRainbowHalvingLR.py:42-45 | two in-range (year, month, week) triples with the same time coordinate are the same triple |
| WeeklySeries.WeekTimesAt | BTCRainbowHalvingLR.py:42-45 | point `k` of a year's block is week `k % 4` of month `k / 4` |
| WeeklySeries.WeekPricesAt | BTCRainbowHalvingLR.py:42-49 | price `k` of a year's block is the average of month `k / 4` times draw number `offset + k` |
| WeeklySeries.WeekTimesValue | BTCRainbowHalvingLR.py:42-45 | point `k` of a year's block is `year + k/48` |
| WeeklySeries.PointOrigin | BTCRainbowHalvingLR.py:39-49 | every generated point `k` has time `year + (4m + w)/48` and price `monthly[m] * volatility[k]`, for some entry, some month `m` of it and some week `w` < 4 |
| WeeklySeries.TimesWithinYear | BTCRainbowHalvingLR.py:39-45 | with at most twelve months per entry, every time coordinate lies in `[year, year + 47/48]` for the year of some entry |
| WeeklySeries.TimesStrictlyIncreasing | BTCRainbowHalvingLR.py:39-45 | with strictly ascending years and at most twelve months per entry, the time coordinates are strictly increasing |
| WeeklySeries.BlockIncreasing | BTCRainbowHalvingLR.py:42-45 | one year's block is strictly increasing and never earlier than the year |
| WeeklySeries.SeriesBeforeYear | BTCRainbowHalvingLR.py:39-45 | if every entry's year is before some later year, so is every time coordinate |
| WeeklySeries.ConcatIncreasing | BTCRainbowHalvingLR.py:48 | appending a strictly increasing block that lies above a strictly increasing list keeps the list strictly increasing |
| WeeklySeries.PricesWithinVolatility | BTCRainbowHalvingLR.py:46-49 | with draws in [0.85, 1.15] and non-negative averages, every generated point lies between 0.85 and 1.15 times the average of its own month, the month whose week has the point's time coordinate |
| WeeklySeries.HistoricalMonths | BTCRainbowHalvingLR.py:18-33 | the literal history holds 160 monthly averages |
| WeeklySeries.HistoricalMonthCounts | BTCRainbowHalvingLR.py:18-33 | the literal history has twelve months for each of 2012 to 2023 and eight (January to August) for each of 2024 and 2025 |
| WeeklySeries.HistoricalYears | BTCRainbowHalvingLR.py:18-33 | the literal history has 14 entries, 2012 to 2025 in order, none with more than twelve months |
| WeeklySeries.HistoricalPricesNonNegative | BTCRainbowHalvingLR.py:18-33 | every literal monthly average is non-negative |
| WeeklySeries.EntryPricesAtLeastFive | BTCRainbowHalvingLR.py:19-32 | every monthly average of entry `j` is at least 5 |
| WeeklySeries.HistoricalSeries | BTCRainbowHalvingLR.py:18-52 | the script's series has 640 points, strictly increasing in time, all from 2012.0 on |
| ZoneEffectiveness.TallyOf | BTCRainbowHalvingLR.py:244-253 | each counter of the chain owns exactly one interval of ratios, in both directions. Ratios in (1.8, 2.5] and in [0.5, 0.7) reach no counter |
| ZoneEffectiveness.InitialStats | BTCRainbowHalvingLR.py:230-237 | the five counters start at zero and `total_points` is the number of points |
| ZoneEffectiveness.Bump | BTCRainbowHalvingLR.py:244-253 | the `+= 1` of one branch: that tally's counter rises by one, every other counter and `total_points` stay, and the counter sum rises by one; `Uncounted` changes nothing |
| ZoneEffectiveness.Step | BTCRainbowHalvingLR.py:240-253 | one point never changes `total_points`. It raises the counter of its tally by one and no other, so the counter sum rises by at most one. A point before 2012, or one whose ratio is in a gap, changes nothing |
| ZoneEffectiveness.TallyPrefix | BTCRainbowHalvingLR.py:230-253 | after any prefix of the points, `total_points` is still the number of points and the counters add up to no more than the points analysed so far |
| ZoneEffectiveness.AnalyzeZones | BTCRainbowHalvingLR.py:230-253 | the loop's result is the fold of `Step` over the points. `total_points` is the number of points. Each counter equals the number of analysed points with that tally. The counter sum plus the gap points equals the number of analysed points, which is at most `total_points` |
| ZoneEffectiveness.Analyzed | BTCRainbowHalvingLR.py:240 | at most `n` of the first `n` points are analysed |
| ZoneEffectiveness.TallyCounts | BTCRainbowHalvingLR.py:239-253 | after any prefix, each counter equals the reference count of analysed points with its tally, and `total_points` is unchanged |
| ZoneEffectiveness.TalliesPartitionAnalyzed | BTCRainbowHalvingLR.py:240-253 | the six tally counts, the gap included, add up to the number of analysed points |
| ZoneEffectiveness.TallySum | BTCRainbowHalvingLR.py:236-253 | counter sum + gap points = analysed points <= points seen |
| ZoneEffectiveness.AllAnalyzed | BTCRainbowHalvingLR.py:240 | when every point is from 2012 on, every point is analysed |
| ZoneEffectiveness.MatchingPositive | BTCRainbowHalvingLR.py:240-253 | one analysed point with a given tally makes that tally's count positive |
| ZoneEffectiveness.GapPointIsMissed | BTCRainbowHalvingLR.py:246-253 | one analysed point whose ratio lies in a gap makes the five counters add up to strictly fewer than the analysed points |
| ZoneEffectiveness.BandPosition | BTCRainbowHalvingLR.py:241-253 | for a positive trend price, the ratio's tally matches the price's position against the plotted band prices, in both directions |
| ZoneEffectiveness.RatioComparison | BTCRainbowHalvingLR.py:242 | for a positive trend price, comparing the ratio with a multiplier is the same as comparing the price with that band price |
| Validation.Label | BTCRainbowHalvingLR.py:301-310 | the label string of each zone, as the chain assigns it; `LabelsDistinct` proves that no two zones share one |
| Validation.Tier | BTCRainbowHalvingLR.py:301-310 | the five validation zones rank from 0 (extreme support) to 4 |
| Validation.ValidationZoneOf | BTCRainbowHalvingLR.py:301-310 | every ratio gets exactly one zone, each zone owning one half-open interval (>2.5, (1.8, 2.5], (0.6, 1.8], (0.4, 0.6], <=0.4), in both directions |
| Validation.ThresholdsGoToLowerZone | BTCRainbowHalvingLR.py:301-310 | a ratio of exactly 2.5, 1.8, 0.6 or 0.4 is labelled with the zone below it |
| Validation.ZoneMonotone | BTCRainbowHalvingLR.py:301-310 | a larger ratio never gets a lower zone |
| Validation.LabelsDistinct | BTCRainbowHalvingLR.py:302-310 | distinct zones print distinct labels |
| Validation.ValidateHalvings | BTCRainbowHalvingLR.py:296-310 | one label per halving year, each the zone of that year's price divided by the trend at that year |
| Validation.TallyAgainstValidation | BTCRainbowHalvingLR.py:244-253 | the two resistance counters together are exactly the top validation zone. The upper validation normal range is exactly the tally's gap above 1.8. The tally's normal range lies inside the lower validation normal range. Both support tallies map into the validation support zones |
| Validation.SupportBoundariesDiffer | BTCRainbowHalvingLR.py:250-253 | the two classifiers disagree on support: 0.4 is a strong support breach for the tally but extreme support for the validation, and 0.65 is counted by no tally but is lower normal range for the validation |
| HalvingScript.AnalyzeHistory | BTCRainbowHalvingLR.py:230-253 | on the literal history, `total_points` is 640. The five counters plus the gap points are exactly 640, so the counters never exceed `total_points` |
| HalvingScript.HalvingTable | BTCRainbowHalvingLR.py:7-8 | four halving years, 2012 to 2024 four years apart, each with one price, the prices positive and strictly increasing |
| HalvingScript.ValidationTable | BTCRainbowHalvingLR.py:296-310 | the validation table has one zone for each of the four halving years, zone `i` being that of halving price `i` divided by the trend at halving year `i` |

Two features of the code shape the model. The analysis chain is not
exhaustive: it leaves ratios in (1.8, 2.5] and [0.5, 0.7) uncounted
(`TallyOf`, `GapPointIsMissed`). The percentages the script prints
therefore need not add up to 100. The validation chain does not use the band
multipliers. It uses the literal thresholds 2.5, 1.8, 0.6 and 0.4, so the
two classifiers disagree near the support bands (`SupportBoundariesDiffer`).
The literal tables `HistoricalData`, `HalvingYears` and `HalvingPrices`
are constants. Their rows above are the lemmas that state their shape:
`HistoricalMonthCounts`, `HistoricalYears`, `HistoricalMonths`,
`EntryPricesAtLeastFive` and `HalvingTable`.

## Left out

- The regression fit (`polyfit` of `log10(price)` on `ln(year - 2008)`, lines 56-71), the trend grid (`linspace`, lines 92-95) and the trend price in the loops (lines 241, 297): transcendental floating-point functions. The trend is a positive function parameter instead.
- `np.random.uniform(0.85, 1.15)` (line 47): randomness. The draws are an input sequence with one value per point. `VolatilityInRange` states their range where a lemma needs it.
- The unused `months = np.linspace(...)` (line 40): it has no effect on the series.
- All plotting (lines 98-224) and every `print`, including the percentage lines (255-260) and the recommendation thresholds (262-268): output only.
- The current-2025 report (lines 286-292): it evaluates the trend at one time and prints four fixed multiples. It is left out with the trend evaluation.
- The future-halving projections (lines 10-12 and the plot code that uses them): they only feed the chart.
- IEEE double rounding: every number is an exact real. `year + week_fraction/12` is therefore exact, and the strict ordering of the time coordinates is proved for exact arithmetic.
- The history dictionary is a sequence of (year, monthly averages) entries in insertion order, which is the order Python iterates it in. `GenerateWeekly` takes any such sequence; the year-order and twelve-month conditions are stated where the ordering lemmas need them.
- The `zone_stats` dictionary is the record `ZoneStats`, with one field per key.
