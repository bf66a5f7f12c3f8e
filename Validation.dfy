/** The historical zone validation: each halving-year price is labelled by
    its ratio to the trend price, with thresholds 2.5, 1.8, 0.6 and 0.4 written
    into the chain itself (not the multipliers of the bands). */
module Validation {
  import opened ZoneEffectiveness

  datatype ValidationZone =
    | StrongExtremeResistance
    | UpperNormalRange
    | LowerNormalRange
    | StrongSupport
    | ExtremeSupport

  /** The label printed for each zone. */
  function Label(z: ValidationZone): string
  {
    match z
    case StrongExtremeResistance => "Strong/Extreme Resistance"
    case UpperNormalRange => "Upper Normal Range"
    case LowerNormalRange => "Lower Normal Range"
    case StrongSupport => "Strong Support"
    case ExtremeSupport => "Extreme Support"
  }

  /** Zones ranked from the bottom (0, extreme support) to the top (4). */
  function Tier(z: ValidationZone): (n: nat)
    ensures n <= 4
  {
    match z
    case ExtremeSupport => 0
    case StrongSupport => 1
    case LowerNormalRange => 2
    case UpperNormalRange => 3
    case StrongExtremeResistance => 4
  }

  /** The `if/elif/else` chain. Every ratio gets exactly one zone, each zone
      owning the half-open interval (lower threshold, upper threshold], so a
      ratio on a threshold goes to the zone below it. */
  function ValidationZoneOf(multiplier: real): (z: ValidationZone)
    ensures z == StrongExtremeResistance <==> multiplier > 2.5
    ensures z == UpperNormalRange <==> 1.8 < multiplier <= 2.5
    ensures z == LowerNormalRange <==> 0.6 < multiplier <= 1.8
    ensures z == StrongSupport <==> 0.4 < multiplier <= 0.6
    ensures z == ExtremeSupport <==> multiplier <= 0.4
  {
    if multiplier > 2.5 then StrongExtremeResistance
    else if multiplier > 1.8 then UpperNormalRange
    else if multiplier > 0.6 then LowerNormalRange
    else if multiplier > 0.4 then StrongSupport
    else ExtremeSupport
  }

  /** A ratio exactly on a threshold is labelled with the lower zone. */
  lemma ThresholdsGoToLowerZone()
    ensures Label(ValidationZoneOf(2.5)) == "Upper Normal Range"
    ensures Label(ValidationZoneOf(1.8)) == "Lower Normal Range"
    ensures Label(ValidationZoneOf(0.6)) == "Strong Support"
    ensures Label(ValidationZoneOf(0.4)) == "Extreme Support"
  {
  }

  /** A larger ratio never gets a lower zone. */
  lemma ZoneMonotone(m1: real, m2: real)
    requires m1 <= m2
    ensures Tier(ValidationZoneOf(m1)) <= Tier(ValidationZoneOf(m2))
  {
  }

  /** Distinct zones print distinct labels. */
  lemma LabelsDistinct(z1: ValidationZone, z2: ValidationZone)
    requires Label(z1) == Label(z2)
    ensures z1 == z2
  {
  }

  /** The validation labels of the halving points, in order. */
  function ValidateHalvings(years: seq<int>, prices: seq<real>, trend: real -> real): (zones: seq<ValidationZone>)
    requires |prices| == |years| && PositiveTrend(trend)
    ensures |zones| == |years|
    ensures forall i :: 0 <= i < |zones| ==> zones[i] == ValidationZoneOf(prices[i] / trend(years[i] as real))
  {
    seq(|years|, i requires 0 <= i < |years| => ValidationZoneOf(prices[i] / trend(years[i] as real)))
  }

  /** How the validation labels relate to the tally of the effectiveness
      analysis on the same ratio: the two resistance counters together are the
      top validation zone, the normal-range counter lies inside the lower
      normal range, and the tally's gap above 1.8 is exactly the upper normal
      range. */
  lemma TallyAgainstValidation(m: real)
    ensures (TallyOf(m) == ExtremeResistanceBreach || TallyOf(m) == StrongResistanceBreach)
        <==> ValidationZoneOf(m) == StrongExtremeResistance
    ensures (TallyOf(m) == Uncounted && m > 1.8) <==> ValidationZoneOf(m) == UpperNormalRange
    ensures TallyOf(m) == NormalRange ==> ValidationZoneOf(m) == LowerNormalRange
    ensures TallyOf(m) == ExtremeSupportBreach ==> ValidationZoneOf(m) == ExtremeSupport
    ensures TallyOf(m) == StrongSupportBreach ==>
      ValidationZoneOf(m) == StrongSupport || ValidationZoneOf(m) == ExtremeSupport
  {
  }

  /** The two classifiers disagree on support: a ratio of 0.4 is a strong
      support breach for the tally and extreme support for the validation,
      and 0.65 is counted nowhere by the tally but lower normal range here. */
  lemma SupportBoundariesDiffer()
    ensures TallyOf(0.4) == StrongSupportBreach && ValidationZoneOf(0.4) == ExtremeSupport
    ensures TallyOf(0.65) == Uncounted && ValidationZoneOf(0.65) == LowerNormalRange
  {
  }
}
