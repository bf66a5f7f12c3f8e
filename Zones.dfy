/** The six support/resistance multipliers and the bands they draw around the
    halving-price-regression (HPR) trend curve. The trend price itself
    (ten to the power of the fitted `a * ln(year - genesis) + b`) is an input
    here: any positive real. */
module Zones {

  const ExtremeResistanceMult: real := 4.2   // red zone: bubble territory
  const StrongResistanceMult: real := 2.5    // orange zone: bull market peaks
  const UpperNormalMult: real := 1.8         // yellow zone, upper boundary
  const LowerNormalMult: real := 0.7         // yellow zone, lower boundary
  const StrongSupportMult: real := 0.5       // light green zone: bear market lows
  const ExtremeSupportMult: real := 0.35     // green zone: capitulation territory

  /** The six multipliers in their intended order, with the normal range around 1. */
  lemma MultipliersOrdered()
    ensures 0.0 < ExtremeSupportMult < StrongSupportMult < LowerNormalMult < 1.0
    ensures 1.0 < UpperNormalMult < StrongResistanceMult < ExtremeResistanceMult
  {
  }

  /** The price of one band at one point of the trend curve. Dividing it by
      a positive trend price gives back the multiplier, the ratio the
      analysis compares against the band. */
  function ZonePrice(trendPrice: real, multiplier: real): (p: real)
    ensures trendPrice > 0.0 ==> p / trendPrice == multiplier
  {
    trendPrice * multiplier
  }

  /** A whole trend array multiplied elementwise by one multiplier. */
  function Scale(trend: seq<real>, multiplier: real): (r: seq<real>)
    ensures |r| == |trend|
    ensures forall i :: 0 <= i < |r| ==> r[i] == ZonePrice(trend[i], multiplier)
  {
    seq(|trend|, i requires 0 <= i < |trend| => ZonePrice(trend[i], multiplier))
  }

  /** The six band arrays plotted around the trend. */
  datatype ZoneBands = ZoneBands(
    extremeResistance: seq<real>,
    strongResistance: seq<real>,
    upperNormal: seq<real>,
    lowerNormal: seq<real>,
    strongSupport: seq<real>,
    extremeSupport: seq<real>)

  /** The six band arrays: each has one entry per trend point, the trend
      price there times that band's multiplier. */
  function Bands(trend: seq<real>): (b: ZoneBands)
    ensures |b.extremeResistance| == |b.strongResistance| == |b.upperNormal| == |trend|
    ensures |b.lowerNormal| == |b.strongSupport| == |b.extremeSupport| == |trend|
    ensures forall i :: 0 <= i < |trend| ==>
      && b.extremeResistance[i] == ZonePrice(trend[i], ExtremeResistanceMult)
      && b.strongResistance[i] == ZonePrice(trend[i], StrongResistanceMult)
      && b.upperNormal[i] == ZonePrice(trend[i], UpperNormalMult)
      && b.lowerNormal[i] == ZonePrice(trend[i], LowerNormalMult)
      && b.strongSupport[i] == ZonePrice(trend[i], StrongSupportMult)
      && b.extremeSupport[i] == ZonePrice(trend[i], ExtremeSupportMult)
  {
    ZoneBands(
      Scale(trend, ExtremeResistanceMult),
      Scale(trend, StrongResistanceMult),
      Scale(trend, UpperNormalMult),
      Scale(trend, LowerNormalMult),
      Scale(trend, StrongSupportMult),
      Scale(trend, ExtremeSupportMult))
  }

  ghost predicate AllPositive(s: seq<real>)
  {
    forall i :: 0 <= i < |s| ==> s[i] > 0.0
  }

  /** Every band array has the trend's length, and wherever the trend is
      positive the six bands are strictly ordered from extreme support up to
      extreme resistance, with the trend itself inside the normal range. */
  lemma BandsOrdered(trend: seq<real>)
    requires AllPositive(trend)
    ensures var b := Bands(trend);
      && |b.extremeSupport| == |b.strongSupport| == |b.lowerNormal| == |trend|
      && |b.upperNormal| == |b.strongResistance| == |b.extremeResistance| == |trend|
      && forall i :: 0 <= i < |trend| ==>
           && 0.0 < b.extremeSupport[i] < b.strongSupport[i] < b.lowerNormal[i]
           && b.lowerNormal[i] < trend[i] < b.upperNormal[i]
           && b.upperNormal[i] < b.strongResistance[i] < b.extremeResistance[i]
  {
  }
}
