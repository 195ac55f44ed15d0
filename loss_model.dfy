/** Piecewise loss terms used by the efficiency surrogate: row-to-row
    shading by hour of day, low-light mismatch by irradiance, and the
    linear ageing law (ml/advanced_loss_model.py). */
module LossModel {
  import opened Util

  /** Shading fraction for an hour of the day: full shade at night, none
      within four hours of noon, and a linear ramp to 50% between four and
      six hours from noon. */
  function ShadingLoss(hour: real): (r: real)
    ensures hour < 6.0 || hour > 18.0 ==> r == 1.0
    ensures 6.0 <= hour <= 18.0 ==> 0.0 <= r <= 0.5
    ensures Abs(hour - 12.0) < 4.0 ==> r == 0.0
  {
    if hour < 6.0 || hour > 18.0 then 1.0
    else
      var timeFromNoon := Abs(hour - 12.0);
      if timeFromNoon < 4.0 then 0.0
      else
        var excess := timeFromNoon - 4.0;
        Min(Max(excess / 2.0, 0.0), 1.0) * 0.5
  }

  /** Noon is unshaded and sunrise (6 h) carries the maximal daytime
      shading of one half. */
  lemma ShadingNoonAndSunrise()
    ensures ShadingLoss(12.0) == 0.0
    ensures ShadingLoss(6.0) == 0.5 && ShadingLoss(18.0) == 0.5
  {
  }

  /** The shading curve is symmetric about noon. */
  lemma ShadingSymmetric(x: real)
    ensures ShadingLoss(12.0 + x) == ShadingLoss(12.0 - x)
  {
  }

  /** During the day, shading does not decrease as the hour moves away
      from noon. */
  lemma ShadingGrowsAwayFromNoon(x: real, y: real)
    requires 0.0 <= x <= y <= 6.0
    ensures ShadingLoss(12.0 + x) <= ShadingLoss(12.0 + y)
  {
  }

  /** Low-light mismatch: zero without light, `rated` from 200 W/m2
      upwards, an extra penalty of up to 5% below 200 W/m2, capped at 10%. */
  function MismatchLoss(irradiance: real, rated: real): (r: real)
    ensures irradiance <= 0.0 ==> r == 0.0
    ensures r <= 0.10
    ensures irradiance > 0.0 && rated >= 0.0 ==> rated <= 0.10 ==> rated <= r
  {
    if irradiance <= 0.0 then 0.0
    else
      var loss := if irradiance < 200.0 then rated + 0.05 * (200.0 - irradiance) / 200.0 else rated;
      Min(loss, 0.10)
  }

  /** The default rated mismatch (1%) keeps the loss within [0, 0.10]. */
  lemma MismatchDefaultRange(irradiance: real)
    ensures 0.0 <= MismatchLoss(irradiance, 0.01) <= 0.10
  {
  }

  /** At 100 W/m2 and the default 1% rating the mismatch is 3.5%. */
  lemma MismatchAtHundred()
    ensures MismatchLoss(100.0, 0.01) == 0.035
  {
  }

  /** At or above 200 W/m2 the mismatch is the (capped) rated value, and
      the low-light branch meets it continuously at 200. */
  lemma MismatchBright(irradiance: real, rated: real)
    requires irradiance >= 200.0
    ensures MismatchLoss(irradiance, rated) == Min(rated, 0.10)
    ensures MismatchLoss(irradiance, rated) == MismatchLoss(200.0, rated)
  {
  }

  /** For a fixed rating, more light never increases the mismatch. */
  lemma MismatchNonIncreasing(a: real, b: real, rated: real)
    requires 0.0 < a <= b
    ensures MismatchLoss(b, rated) <= MismatchLoss(a, rated)
  {
  }

  /** The ageing law names accepted by calculate_aging_loss. Only the
      linear law and unrecognised names are modelled; 'bath_tub' uses exp. */
  const BathTub: string := "bath_tub"

  /** Linear ageing loss: years times the annual rate. */
  function AgingLoss(years: real, rate: real, model: string): (r: real)
    requires model != BathTub
    ensures years >= 0.0 && rate >= 0.0 ==> r >= 0.0
    ensures years >= 0.0 && rate >= 0.0 ==> r <= years * rate
  {
    years * rate
  }

  /** Any name other than 'bath_tub' behaves exactly like 'linear'. */
  lemma AgingUnknownIsLinear(years: real, rate: real, model: string)
    requires model != BathTub
    ensures AgingLoss(years, rate, model) == AgingLoss(years, rate, "linear")
  {
  }
}
