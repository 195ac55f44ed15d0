/** The 30-day scenario arithmetic (ml/scenario_analysis.py): the search for
    the first day whose projected recoverable value pays for a cleaning, and
    the comparison of the totals of a no-cleaning and a cleaning run. */
module ScenarioAnalysis {
  import opened Util

  const CarbonPricePerKg: real := 75.0
  const DefaultProjectionDays: int := 7
  const ScaledPanelArea: real := 5000.0

  /** The value of an amount of energy: its sale price plus its carbon
      saving at the shadow carbon price, weighted. */
  function ProjectedValue(kwh: real, price: real, carbonFactor: real, carbonWeight: real): real
  {
    kwh * price + kwh * carbonFactor * CarbonPricePerKg * carbonWeight
  }

  /** A bound of a Python slice of a sequence of length n: a negative bound
      counts from the end, and the result is clamped to [0, n]. */
  function SliceBound(k: int, n: nat): (j: nat)
    ensures j <= n
  {
    if k < 0 then (if k + n < 0 then 0 else k + n)
    else if k > n then n
    else k
  }

  /** Python's s[start:stop] with step 1; empty when the clamped bounds
      cross. */
  function PySlice<T>(s: seq<T>, start: int, stop: int): (w: seq<T>)
    ensures 0 <= start <= stop <= |s| ==> w == s[start..stop]
    ensures -|s| <= stop < 0 <= start <= stop + |s| ==> w == s[start..stop + |s|]
  {
    var a := SliceBound(start, |s|);
    var b := SliceBound(stop, |s|);
    if a < b then s[a..b] else []
  }

  /** The kWh of daily.iloc[i : i + p]: the next p days, or, for p below
      zero, a slice whose negative stop counts from the end of the data. */
  function WindowKwh(daily: seq<real>, i: nat, p: int): real
  {
    Sum(PySlice(daily, i, i + p))
  }

  /** Day i pays for a cleaning: its projected value exceeds the cost. */
  predicate Qualifies(daily: seq<real>, i: nat, p: int, price: real, cost: real, carbonWeight: real, carbonFactor: real)
  {
    ProjectedValue(WindowKwh(daily, i, p), price, carbonFactor, carbonWeight) > cost
  }

  /** The last day index the search tries: len - p. */
  function LastCandidate(daily: seq<real>, p: int): int
  {
    |daily| - p
  }

  /** The first qualifying day in [i, len - p], if any. */
  function FirstQualifyingFrom(daily: seq<real>, i: nat, p: int, price: real, cost: real, carbonWeight: real, carbonFactor: real): (r: Option<nat>)
    decreases LastCandidate(daily, p) + 1 - i
  {
    if i > LastCandidate(daily, p) then None
    else if Qualifies(daily, i, p, price, cost, carbonWeight, carbonFactor) then Some(i)
    else FirstQualifyingFrom(daily, i + 1, p, price, cost, carbonWeight, carbonFactor)
  }

  /** get_recommended_cleaning_date over the daily recoverable kWh: no day
      for empty data or fewer than p + 1 days, otherwise the first
      qualifying day from day 1 on. */
  function RecommendedDay(daily: seq<real>, p: int, price: real, cost: real, carbonWeight: real, carbonFactor: real): Option<nat>
  {
    if |daily| == 0 || |daily| < p + 1 then None
    else FirstQualifyingFrom(daily, 1, p, price, cost, carbonWeight, carbonFactor)
  }

  /** The scanning loop of get_recommended_cleaning_date, returning the index
      of the recommended daily bucket. */
  method GetRecommendedCleaningDay(daily: seq<real>, price: real, cost: real, p: int, carbonWeight: real, carbonFactor: real)
    returns (r: Option<nat>)
    ensures r == RecommendedDay(daily, p, price, cost, carbonWeight, carbonFactor)
    ensures r.Some? ==> 1 <= r.value <= |daily| - p && Qualifies(daily, r.value, p, price, cost, carbonWeight, carbonFactor)
    ensures r.Some? ==> forall j: nat :: 1 <= j < r.value ==> !Qualifies(daily, j, p, price, cost, carbonWeight, carbonFactor)
    ensures r.None? && |daily| >= 1 && |daily| >= p + 1 ==>
              forall j: nat :: 1 <= j <= |daily| - p ==> !Qualifies(daily, j, p, price, cost, carbonWeight, carbonFactor)
  {
    FirstQualifyingIsLeast(daily, 1, p, price, cost, carbonWeight, carbonFactor);
    if |daily| == 0 || |daily| < p + 1 {
      return None;
    }
    r := ScanDays(daily, price, cost, p, carbonWeight, carbonFactor);
  }

  /** The loop itself: the days 1 to len - p in order, stopping at the
      first one that qualifies. */
  method ScanDays(daily: seq<real>, price: real, cost: real, p: int, carbonWeight: real, carbonFactor: real)
    returns (r: Option<nat>)
    ensures r == FirstQualifyingFrom(daily, 1, p, price, cost, carbonWeight, carbonFactor)
  {
    var i: nat := 1;
    while i < |daily| - p + 1
      invariant 1 <= i
      invariant FirstQualifyingFrom(daily, i, p, price, cost, carbonWeight, carbonFactor)
             == FirstQualifyingFrom(daily, 1, p, price, cost, carbonWeight, carbonFactor)
      decreases |daily| - p + 1 - i
    {
      var projectedKwh := WindowKwh(daily, i, p);
      // the energy value plus the weighted value of the carbon saved
      var totalValue := ProjectedValue(projectedKwh, price, carbonFactor, carbonWeight);
      if totalValue > cost {
        return Some(i);
      }
      i := i + 1;
    }
    return None;
  }

  /** The first-match search finds a day exactly when some day in range
      qualifies, and it is the least such day. */
  lemma {:induction false} FirstQualifyingIsLeast(daily: seq<real>, i: nat, p: int, price: real, cost: real, carbonWeight: real, carbonFactor: real)
    ensures var r := FirstQualifyingFrom(daily, i, p, price, cost, carbonWeight, carbonFactor);
            (r.Some? ==> i <= r.value <= LastCandidate(daily, p) && Qualifies(daily, r.value, p, price, cost, carbonWeight, carbonFactor) &&
                         forall j: nat :: i <= j < r.value ==> !Qualifies(daily, j, p, price, cost, carbonWeight, carbonFactor)) &&
            (r.None? <==> forall j: nat :: i <= j <= LastCandidate(daily, p) ==> !Qualifies(daily, j, p, price, cost, carbonWeight, carbonFactor))
    decreases LastCandidate(daily, p) + 1 - i
  {
    var r := FirstQualifyingFrom(daily, i, p, price, cost, carbonWeight, carbonFactor);
    if i > LastCandidate(daily, p) {
      assert r.None?;
    } else {
      var q := Qualifies(daily, i, p, price, cost, carbonWeight, carbonFactor);
      if q {
        assert r == Some(i);
      } else {
        var r' := FirstQualifyingFrom(daily, i + 1, p, price, cost, carbonWeight, carbonFactor);
        assert r == r';
        FirstQualifyingIsLeast(daily, i + 1, p, price, cost, carbonWeight, carbonFactor);
        forall j: nat | i <= j && (if r.Some? then j < r.value else j <= LastCandidate(daily, p))
          ensures !Qualifies(daily, j, p, price, cost, carbonWeight, carbonFactor)
        {
          if j == i {
            assert !q;
          } else {
            assert i + 1 <= j;
          }
        }
      }
    }
  }

  /** With non-negative energy, carbon factor and price of carbon, a larger
      carbon weight can only raise the projected value. */
  lemma ValueMonotoneInWeight(kwh: real, price: real, carbonFactor: real, w1: real, w2: real)
    requires kwh >= 0.0 && carbonFactor >= 0.0 && w1 <= w2
    ensures ProjectedValue(kwh, price, carbonFactor, w1) <= ProjectedValue(kwh, price, carbonFactor, w2)
  {
    var c := kwh * carbonFactor * CarbonPricePerKg;
    ScaleBetween(kwh, carbonFactor, 0.0, carbonFactor);
    assert c >= 0.0;
    assert c * w1 <= c * w2 by {
      assert c * w2 - c * w1 == c * (w2 - w1);
      ScaleBetween(c, w2 - w1, 0.0, w2 - w1);
    }
  }

  lemma WindowKwhNonNegative(daily: seq<real>, i: nat, p: int)
    requires forall k :: 0 <= k < |daily| ==> daily[k] >= 0.0
    ensures WindowKwh(daily, i, p) >= 0.0
  {
    var a := SliceBound(i, |daily|);
    var b := SliceBound(i + p, |daily|);
    if a < b {
      var w := daily[a..b];
      assert forall k :: 0 <= k < |w| ==> w[k] == daily[a + k];
      SumNonNegative(w);
    }
  }

  /** A negative window does not leave the slice empty: with ten days and
      p = -2, the window of day 1 is daily[1:-1], days 1 to 8. */
  lemma NegativeWindowWraps(daily: seq<real>)
    requires |daily| == 10
    ensures WindowKwh(daily, 1, -2) == Sum(daily[1..9])
  {
  }

  /** With a positive window the recommended position is a real daily
      bucket, so looking up its date cannot fail. */
  lemma RecommendedDayIsBucket(daily: seq<real>, p: int, price: real, cost: real, carbonWeight: real, carbonFactor: real)
    requires p >= 1
    requires RecommendedDay(daily, p, price, cost, carbonWeight, carbonFactor).Some?
    ensures RecommendedDay(daily, p, price, cost, carbonWeight, carbonFactor).value < |daily|
  {
    FirstQualifyingIsLeast(daily, 1, p, price, cost, carbonWeight, carbonFactor);
  }

  /** Raising the carbon weight keeps every qualifying day qualifying, so
      the first-match search from any day can only move earlier. */
  lemma {:induction false} FirstQualifyingEarlierWithWeight(daily: seq<real>, i: nat, p: int, price: real, cost: real, w1: real, w2: real, carbonFactor: real)
    requires forall k :: 0 <= k < |daily| ==> daily[k] >= 0.0
    requires carbonFactor >= 0.0 && w1 <= w2
    requires FirstQualifyingFrom(daily, i, p, price, cost, w1, carbonFactor).Some?
    ensures FirstQualifyingFrom(daily, i, p, price, cost, w2, carbonFactor).Some?
    ensures FirstQualifyingFrom(daily, i, p, price, cost, w2, carbonFactor).value
         <= FirstQualifyingFrom(daily, i, p, price, cost, w1, carbonFactor).value
    decreases LastCandidate(daily, p) + 1 - i
  {
    WindowKwhNonNegative(daily, i, p);
    ValueMonotoneInWeight(WindowKwh(daily, i, p), price, carbonFactor, w1, w2);
    FirstQualifyingIsLeast(daily, i, p, price, cost, w1, carbonFactor);
    if !Qualifies(daily, i, p, price, cost, w2, carbonFactor) {
      assert !Qualifies(daily, i, p, price, cost, w1, carbonFactor);
      assert FirstQualifyingFrom(daily, i, p, price, cost, w1, carbonFactor)
          == FirstQualifyingFrom(daily, i + 1, p, price, cost, w1, carbonFactor);
      FirstQualifyingEarlierWithWeight(daily, i + 1, p, price, cost, w1, w2, carbonFactor);
    }
  }

  /** With non-negative daily kWh and carbon factor, a larger carbon weight
      recommends the same day or an earlier one, never none instead of one. */
  lemma RecommendedDayEarlierWithWeight(daily: seq<real>, p: int, price: real, cost: real, w1: real, w2: real, carbonFactor: real)
    requires forall k :: 0 <= k < |daily| ==> daily[k] >= 0.0
    requires carbonFactor >= 0.0 && w1 <= w2
    requires RecommendedDay(daily, p, price, cost, w1, carbonFactor).Some?
    ensures RecommendedDay(daily, p, price, cost, w2, carbonFactor).Some?
    ensures RecommendedDay(daily, p, price, cost, w2, carbonFactor).value <= RecommendedDay(daily, p, price, cost, w1, carbonFactor).value
  {
    FirstQualifyingEarlierWithWeight(daily, 1, p, price, cost, w1, w2, carbonFactor);
  }

  /** Too little data yields no recommendation. */
  lemma ShortDataRecommendsNothing(daily: seq<real>, p: int, price: real, cost: real, carbonWeight: real, carbonFactor: real)
    requires |daily| < p + 1
    ensures RecommendedDay(daily, p, price, cost, carbonWeight, carbonFactor).None?
  {
  }

  // ---------------------------------------------------------------------
  // compute_comparison

  /** What run_scenario reports for one scenario. */
  datatype ScenarioTotals = ScenarioTotals(totalEnergyKwh: real, totalRecoverableKwh: real)

  datatype Comparison = Comparison(
    additionalEnergyGainedKwh: real,
    totalOutputGainPercent: real,
    recoverableCapturePercent: real,
    carbonSavedKg: real,
    netEconomicGain: real,
    waterUsedLiters: real,
    waterEfficiencyRatio: real,
    scaledNetGain1Mw: real)

  /** compute_comparison, before the rounding of its outputs. */
  function ComputeComparison(noClean: ScenarioTotals, withClean: ScenarioTotals, cleaningCost: real, carbonFactor: real,
                             price: real, waterUsed: real, panelArea: real, carbonWeight: real): (c: Comparison)
    ensures c.additionalEnergyGainedKwh + noClean.totalEnergyKwh == withClean.totalEnergyKwh
    ensures noClean.totalEnergyKwh <= 0.0 ==> c.totalOutputGainPercent == 0.0
    ensures noClean.totalEnergyKwh > 0.0 ==>
              c.totalOutputGainPercent * noClean.totalEnergyKwh == c.additionalEnergyGainedKwh * 100.0
    ensures noClean.totalRecoverableKwh <= 0.0 ==> c.recoverableCapturePercent == 0.0
    ensures noClean.totalRecoverableKwh > 0.0 ==>
              c.recoverableCapturePercent * noClean.totalRecoverableKwh == c.additionalEnergyGainedKwh * 100.0
    ensures c.carbonSavedKg == c.additionalEnergyGainedKwh * carbonFactor
    ensures c.netEconomicGain == ProjectedValue(c.additionalEnergyGainedKwh, price, carbonFactor, carbonWeight) - cleaningCost
    ensures c.waterUsedLiters == waterUsed
    ensures waterUsed <= 0.0 ==> c.waterEfficiencyRatio == 0.0
    ensures waterUsed > 0.0 ==> c.waterEfficiencyRatio * waterUsed == c.additionalEnergyGainedKwh
    ensures panelArea <= 0.0 ==> c.scaledNetGain1Mw == c.netEconomicGain
    ensures panelArea > 0.0 ==> c.scaledNetGain1Mw * panelArea == c.netEconomicGain * ScaledPanelArea
  {
    var additional := withClean.totalEnergyKwh - noClean.totalEnergyKwh;
    var outputGain := if noClean.totalEnergyKwh > 0.0 then (additional / noClean.totalEnergyKwh) * 100.0 else 0.0;
    var capture := if noClean.totalRecoverableKwh > 0.0 then (additional / noClean.totalRecoverableKwh) * 100.0 else 0.0;
    var carbonSaved := additional * carbonFactor;
    // the value gained plus the weighted value of the carbon saved
    var net := ProjectedValue(additional, price, carbonFactor, carbonWeight) - cleaningCost;
    var waterEfficiency := if waterUsed > 0.0 then additional / waterUsed else 0.0;
    var scale := if panelArea > 0.0 then ScaledPanelArea / panelArea else 1.0;
    Comparison(additional, outputGain, capture, carbonSaved, net, waterUsed, waterEfficiency, net * scale)
  }

  /** The comparison reports a positive net gain exactly when the extra
      energy of the cleaning run would pass the recommendation threshold. */
  lemma NetGainIffPaysForCleaning(noClean: ScenarioTotals, withClean: ScenarioTotals, cleaningCost: real, carbonFactor: real,
                                  price: real, waterUsed: real, panelArea: real, carbonWeight: real)
    ensures var c := ComputeComparison(noClean, withClean, cleaningCost, carbonFactor, price, waterUsed, panelArea, carbonWeight);
            c.netEconomicGain > 0.0 <==>
              ProjectedValue(withClean.totalEnergyKwh - noClean.totalEnergyKwh, price, carbonFactor, carbonWeight) > cleaningCost
  {
  }

  /** A cleaning run that adds no energy gains nothing and loses the cost. */
  lemma NoExtraEnergyLosesCost(totals: ScenarioTotals, cleaningCost: real, carbonFactor: real,
                               price: real, waterUsed: real, panelArea: real, carbonWeight: real)
    ensures var c := ComputeComparison(totals, totals, cleaningCost, carbonFactor, price, waterUsed, panelArea, carbonWeight);
            c.additionalEnergyGainedKwh == 0.0 && c.totalOutputGainPercent == 0.0 && c.recoverableCapturePercent == 0.0 &&
            c.carbonSavedKg == 0.0 && c.waterEfficiencyRatio == 0.0 && c.netEconomicGain == -cleaningCost
  {
  }
}
