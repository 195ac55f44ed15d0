/** The soiling and efficiency surrogate (ml/degradation_model.py,
    calculate_energy_metrics): an hourly dust state machine followed by
    clamped loss terms, a multiplicative effective efficiency and the
    ideal, actual and recoverable energy of every row. */
module Degradation {
  import opened Util
  import opened Weather
  import LossModel
  import RainModel

  const BaseEfficiency: real := 0.20
  const TempCoeff: real := 0.004
  const RefTemp: real := 25.0
  const DustAccumulationRate: real := 0.15
  const DaysInPeriod: real := 30.0
  const AnnualDegradationRate: real := 0.005
  const RainCleaningGamma: real := 0.4
  const RainEffectThreshold: real := 0.1
  /** The dust added every hour: 0.15 over the 30 days of 24 hours. */
  const HourlyDustRate: real := 0.15 / 720.0
  const HoursPerYear: real := 365.25 * 24.0

  /** The clamps applied to the loss columns before the efficiency product. */
  const MaxDustLevel: real := 0.30
  const MaxTemperatureLoss: real := 0.15
  const MaxAgingLoss: real := 0.05
  const MaxMismatchLoss: real := 0.10
  /** The rated mismatch calculate_mismatch_loss is called with. */
  const RatedMismatch: real := 0.01

  // ---------------------------------------------------------------------
  // The hourly dust state machine

  /** The hourly rate is the monthly accumulation rate spread over the
      hours of the period. */
  lemma HourlyRateFromPeriod()
    ensures HourlyDustRate == DustAccumulationRate / (DaysInPeriod * 24.0)
    ensures HourlyDustRate * 720.0 == DustAccumulationRate
  {
  }

  /** What a rain amount above 0.1 mm leaves of the dust: one minus
      min(0.4 rain, 0.95). */
  function RainKeep(rainMm: real): (k: real)
    ensures 0.05 <= k
    ensures rainMm > RainEffectThreshold ==> k <= 1.0
  {
    1.0 - Min(RainCleaningGamma * rainMm, 0.95)
  }

  /** The rain-wash step of the loop: only rain above 0.1 mm washes. */
  function Washed(dust: real, rainMm: real): (r: real)
    ensures 0.0 <= dust ==> 0.0 <= r <= dust
    ensures rainMm <= RainEffectThreshold ==> r == dust
  {
    var keep := RainKeep(rainMm);
    ScaleBetween(dust, keep, 0.0, 1.0);
    assert rainMm > RainEffectThreshold && 0.0 <= dust ==> 0.0 <= dust * keep <= dust;
    if rainMm > RainEffectThreshold then dust * keep else dust
  }

  /** One hour of dust: accumulate, reset on a cleaning date, wash with
      rain above 0.1 mm, cap at 1. */
  function DustStep(dust: real, rainMm: real, cleaned: bool): (r: real)
    ensures 0.0 <= dust <= 1.0 ==> 0.0 <= r <= 1.0
    ensures cleaned ==> r == 0.0
  {
    var accumulated := dust + HourlyDustRate;
    var afterClean := if cleaned then 0.0 else accumulated;
    Min(Washed(afterClean, rainMm), 1.0)
  }

  /** Whether row i falls on one of the cleaning dates. */
  predicate IsCleaningRow(f: Frame, cleaningDays: set<int>, i: nat)
    requires i < |f.rows|
  {
    DayOf(f.rows[i].time) in cleaningDays
  }

  /** The dust level after the first n rows, starting clean. */
  function DustAfter(f: Frame, cleaningDays: set<int>, n: nat): (r: real)
    requires n <= |f.rows|
    ensures 0.0 <= r <= 1.0
  {
    if n == 0 then 0.0
    else DustStep(DustAfter(f, cleaningDays, n - 1), RainAt(f, n - 1), IsCleaningRow(f, cleaningDays, n - 1))
  }

  /** The dust loop: writes the dust level of every row into a fresh
      array, one hour at a time. */
  method DustLevels(f: Frame, cleaningDays: set<int>) returns (dustLevels: array<real>)
    ensures fresh(dustLevels) && dustLevels.Length == |f.rows|
    ensures forall i :: 0 <= i < |f.rows| ==> dustLevels[i] == DustAfter(f, cleaningDays, i + 1)
  {
    dustLevels := new real[|f.rows|](_ => 0.0);
    var currentDust := 0.0;
    var i := 0;
    while i < |f.rows|
      invariant 0 <= i <= |f.rows|
      invariant currentDust == DustAfter(f, cleaningDays, i)
      invariant forall j :: 0 <= j < i ==> dustLevels[j] == DustAfter(f, cleaningDays, j + 1)
    {
      currentDust := currentDust + HourlyDustRate;
      if IsCleaningRow(f, cleaningDays, i) {
        currentDust := 0.0;
      }
      var afterClean := currentDust;
      var rainMm := RainAt(f, i);
      if rainMm > RainEffectThreshold {
        // the reduction is min(0.4 * rain, 0.95); RainKeep is one minus it
        currentDust := currentDust * RainKeep(rainMm);
      }
      WashedUnfolds(afterClean, rainMm);
      DustAfterUnfolds(f, cleaningDays, i);
      currentDust := Min(currentDust, 1.0);
      dustLevels[i] := currentDust;
      i := i + 1;
    }
  }

  /** Washed spelled out as the loop's two branches. */
  lemma WashedUnfolds(dust: real, rainMm: real)
    ensures Washed(dust, rainMm) == if rainMm > RainEffectThreshold then dust * RainKeep(rainMm) else dust
  {
  }

  /** DustAfter of one more row spelled out as the loop's steps. */
  lemma DustAfterUnfolds(f: Frame, cleaningDays: set<int>, i: nat)
    requires i < |f.rows|
    ensures DustAfter(f, cleaningDays, i + 1) ==
              Min(Washed(if IsCleaningRow(f, cleaningDays, i) then 0.0 else DustAfter(f, cleaningDays, i) + HourlyDustRate,
                         RainAt(f, i)), 1.0)
  {
  }

  /** A rain wash in the dust loop is the rain model's apply_rain_cleaning. */
  lemma RainWashIsApplyRainCleaning(dust: real, rainMm: real)
    requires rainMm > RainEffectThreshold && 0.0 <= dust <= 1.0
    ensures DustStep(dust, rainMm, false) == Min(RainModel.ApplyRainCleaning(dust + HourlyDustRate, rainMm), 1.0)
  {
  }

  /** Every row on a cleaning date has zero dust. */
  lemma CleaningRowsAreClean(f: Frame, cleaningDays: set<int>, i: nat)
    requires i < |f.rows| && IsCleaningRow(f, cleaningDays, i)
    ensures DustAfter(f, cleaningDays, i + 1) == 0.0
  {
  }

  /** Rows 0..n-1 see neither a cleaning date nor rain above 0.1 mm. */
  predicate DryAndUncleaned(f: Frame, cleaningDays: set<int>, n: nat)
    requires n <= |f.rows|
  {
    forall j :: 0 <= j < n ==> RainAt(f, j) <= RainEffectThreshold && !IsCleaningRow(f, cleaningDays, j)
  }

  /** Without cleaning and rain, dust grows linearly: after n rows it is
      min(n * 0.15/720, 1). */
  lemma {:induction false} DustLinearWhenDry(f: Frame, cleaningDays: set<int>, n: nat)
    requires n <= |f.rows| && DryAndUncleaned(f, cleaningDays, n)
    ensures DustAfter(f, cleaningDays, n) == Min(n as real * HourlyDustRate, 1.0)
  {
    if n > 0 {
      DustLinearWhenDry(f, cleaningDays, n - 1);
      var prev := (n - 1) as real * HourlyDustRate;
      assert n as real * HourlyDustRate == prev + HourlyDustRate;
      assert DustAfter(f, cleaningDays, n) == Min(Min(prev, 1.0) + HourlyDustRate, 1.0);
    }
  }

  /** In the dry, uncleaned regime dust never decreases, and 720 hours
      (30 days) bring it to exactly 15%. */
  lemma DustMonotoneWhenDry(f: Frame, cleaningDays: set<int>, m: nat, n: nat)
    requires m <= n <= |f.rows| && DryAndUncleaned(f, cleaningDays, n)
    ensures DustAfter(f, cleaningDays, m) <= DustAfter(f, cleaningDays, n)
    ensures n == 720 ==> DustAfter(f, cleaningDays, n) == 0.15
  {
    DustLinearWhenDry(f, cleaningDays, n);
    DustLinearWhenDry(f, cleaningDays, m);
  }

  // ---------------------------------------------------------------------
  // Loss columns, efficiency product and energy columns

  /** Temperature loss before the 15% clamp: 0.4% per degree above 25 C,
      clipped to [0, 1]. */
  function TemperatureLossRaw(temperature: real): (r: real)
    ensures 0.0 <= r <= 1.0
  {
    var tempDiff := temperature - RefTemp;
    Clip(if tempDiff > 0.0 then tempDiff * TempCoeff else 0.0, 0.0, 1.0)
  }

  /** Years from the reference timestamp, never negative. */
  function YearsSince(time: int, referenceTime: int): (r: real)
    ensures r >= 0.0
  {
    Max((time - referenceTime) as real / HoursPerYear, 0.0)
  }

  /** Ageing loss before the 5% clamp: the linear law at 0.5% a year,
      clipped to [0, 1]. */
  function AgingLossRaw(time: int, referenceTime: int): (r: real)
    ensures 0.0 <= r <= 1.0
  {
    Clip(YearsSince(time, referenceTime) * AnnualDegradationRate, 0.0, 1.0)
  }

  /** The columns calculate_energy_metrics adds to one row. The aliases
      temp_loss and dust_loss are copied before the clamps and keep the
      unclamped values. */
  datatype RowMetrics = RowMetrics(
    baseEfficiency: real,
    temperatureLoss: real,
    tempLoss: real,
    dustLevel: real,
    dustLoss: real,
    agingLoss: real,
    shadingLoss: real,
    mismatchLoss: real,
    effectiveEfficiency: real,
    healthScore: real,
    idealEnergyKwh: real,
    actualEnergyKwh: real,
    recoverableEnergyKwh: real)

  /** The share of the base efficiency that survives the five losses. */
  function KeptShare(dust: real, temp: real, age: real, shade: real, mismatch: real): real
  {
    (1.0 - dust) * (1.0 - temp) * (1.0 - age) * (1.0 - shade) * (1.0 - mismatch)
  }

  /** The multiplicative efficiency, clipped below at 0. */
  function EffectiveEfficiency(dust: real, temp: real, age: real, shade: real, mismatch: real): real
  {
    Max(BaseEfficiency * KeptShare(dust, temp, age, shade, mismatch), 0.0)
  }

  /** Two shares in [0, 1] multiply to a share, which is 1 exactly when
      both are 1. */
  lemma UnitProduct(x: real, y: real)
    requires 0.0 <= x <= 1.0 && 0.0 <= y <= 1.0
    ensures 0.0 <= x * y <= 1.0
    ensures x * y == 1.0 <==> x == 1.0 && y == 1.0
  {
    ScaleBetween(x, y, 0.0, 1.0);
    ScaleBetween(y, x, 0.0, 1.0);
  }

  /** With every loss in [0, 1] the kept share lies in [0, 1], and it is
      all of the base exactly when every loss is 0. */
  lemma {:induction false} KeptShareRule(dust: real, temp: real, age: real, shade: real, mismatch: real)
    requires 0.0 <= dust <= 1.0 && 0.0 <= temp <= 1.0 && 0.0 <= age <= 1.0
    requires 0.0 <= shade <= 1.0 && 0.0 <= mismatch <= 1.0
    ensures 0.0 <= KeptShare(dust, temp, age, shade, mismatch) <= 1.0
    ensures KeptShare(dust, temp, age, shade, mismatch) == 1.0 <==>
              dust == 0.0 && temp == 0.0 && age == 0.0 && shade == 0.0 && mismatch == 0.0
  {
    var p2 := (1.0 - dust) * (1.0 - temp);
    UnitProduct(1.0 - dust, 1.0 - temp);
    var p3 := p2 * (1.0 - age);
    UnitProduct(p2, 1.0 - age);
    var p4 := p3 * (1.0 - shade);
    UnitProduct(p3, 1.0 - shade);
    UnitProduct(p4, 1.0 - mismatch);
    assert KeptShare(dust, temp, age, shade, mismatch) == p4 * (1.0 - mismatch);
  }

  /** When every loss lies in [0, 1] the efficiency lies in [0, base]. */
  lemma EfficiencyWithinBase(dust: real, temp: real, age: real, shade: real, mismatch: real)
    requires 0.0 <= dust <= 1.0 && 0.0 <= temp <= 1.0 && 0.0 <= age <= 1.0
    requires 0.0 <= shade <= 1.0 && 0.0 <= mismatch <= 1.0
    ensures 0.0 <= EffectiveEfficiency(dust, temp, age, shade, mismatch) <= BaseEfficiency
  {
    KeptShareRule(dust, temp, age, shade, mismatch);
    ScaleBetween(BaseEfficiency, KeptShare(dust, temp, age, shade, mismatch), 0.0, 1.0);
  }

  /** More dust never raises the efficiency, the other losses being equal. */
  lemma EfficiencyFallsWithDust(d1: real, d2: real, temp: real, age: real, shade: real, mismatch: real)
    requires 0.0 <= d1 <= d2 <= 1.0 && 0.0 <= temp <= 1.0 && 0.0 <= age <= 1.0
    requires 0.0 <= shade <= 1.0 && 0.0 <= mismatch <= 1.0
    ensures EffectiveEfficiency(d2, temp, age, shade, mismatch) <= EffectiveEfficiency(d1, temp, age, shade, mismatch)
  {
    var rest := KeptShare(0.0, temp, age, shade, mismatch);
    KeptShareRule(0.0, temp, age, shade, mismatch);
    assert KeptShare(d1, temp, age, shade, mismatch) == (1.0 - d1) * rest;
    assert KeptShare(d2, temp, age, shade, mismatch) == (1.0 - d2) * rest;
    ScaleBetween(rest, 1.0 - d2, 0.0, 1.0 - d1);
    ScaleBetween(BaseEfficiency, (1.0 - d2) * rest, 0.0, (1.0 - d1) * rest);
  }

  /** The energy of one hour at an efficiency: irradiance * area *
      efficiency / 1000 kWh. */
  function EnergyKwh(irradiance: real, area: real, efficiency: real): real
  {
    irradiance * area * efficiency / 1000.0
  }

  /** The metrics of one row, given its loop dust level, the reference
      timestamp and the panel area. */
  function RowMetricsOf(row: HourRow, dust: real, referenceTime: int, panelArea: real): (m: RowMetrics)
    requires 0.0 <= dust <= 1.0
    ensures 0.0 <= m.dustLevel <= MaxDustLevel && m.dustLevel == Min(dust, MaxDustLevel)
    ensures 0.0 <= m.temperatureLoss <= MaxTemperatureLoss
    ensures 0.0 <= m.agingLoss <= MaxAgingLoss
    ensures 0.0 <= m.mismatchLoss <= MaxMismatchLoss
    ensures 0.0 <= m.shadingLoss <= 1.0
    ensures 0.0 <= m.effectiveEfficiency <= m.baseEfficiency == BaseEfficiency
    ensures m.recoverableEnergyKwh == m.idealEnergyKwh - m.actualEnergyKwh
  {
    var temperatureLoss := TemperatureLossRaw(row.temperature);
    var agingLoss := AgingLossRaw(row.time, referenceTime);
    var shading := LossModel.ShadingLoss(HourOf(row.time) as real);
    var mismatch := LossModel.MismatchLoss(row.irradiance, RatedMismatch);
    LossModel.MismatchDefaultRange(row.irradiance);
    var dustLevel := Min(dust, MaxDustLevel);
    var temperatureClamped := Min(temperatureLoss, MaxTemperatureLoss);
    var agingClamped := Min(agingLoss, MaxAgingLoss);
    var mismatchClamped := Min(mismatch, MaxMismatchLoss);
    var effective := EffectiveEfficiency(dustLevel, temperatureClamped, agingClamped, shading, mismatchClamped);
    EfficiencyWithinBase(dustLevel, temperatureClamped, agingClamped, shading, mismatchClamped);
    var ideal := EnergyKwh(row.irradiance, panelArea, BaseEfficiency);
    var actual := EnergyKwh(row.irradiance, panelArea, effective);
    RowMetrics(
      BaseEfficiency, temperatureClamped, temperatureLoss, dustLevel, dust, agingClamped, shading,
      mismatchClamped, effective, effective / BaseEfficiency, ideal, actual, ideal - actual)
  }

  lemma RecoverableNonNegative(irradiance: real, area: real, effective: real)
    requires effective <= BaseEfficiency
    ensures EnergyKwh(irradiance, area, BaseEfficiency) - EnergyKwh(irradiance, area, effective)
         == EnergyKwh(irradiance, area, BaseEfficiency - effective)
    ensures irradiance >= 0.0 && area >= 0.0 ==> EnergyKwh(irradiance, area, BaseEfficiency - effective) >= 0.0
  {
    var ia := irradiance * area;
    assert irradiance * area * BaseEfficiency - irradiance * area * effective == ia * (BaseEfficiency - effective);
    if irradiance >= 0.0 && area >= 0.0 {
      ScaleBetween(irradiance, area, 0.0, area);
      ScaleBetween(ia, BaseEfficiency - effective, 0.0, BaseEfficiency - effective);
    }
  }

  /** Recoverable energy is the energy lost to the efficiency gap,
      irradiance * area * (base - effective) / 1000, and never negative for
      non-negative irradiance and area. */
  lemma RecoverableRule(row: HourRow, dust: real, referenceTime: int, panelArea: real)
    requires 0.0 <= dust <= 1.0
    ensures var m := RowMetricsOf(row, dust, referenceTime, panelArea);
            m.recoverableEnergyKwh == EnergyKwh(row.irradiance, panelArea, m.baseEfficiency - m.effectiveEfficiency) &&
            (row.irradiance >= 0.0 && panelArea >= 0.0 ==> m.recoverableEnergyKwh >= 0.0)
  {
    var m := RowMetricsOf(row, dust, referenceTime, panelArea);
    RecoverableNonNegative(row.irradiance, panelArea, m.effectiveEfficiency);
  }

  /** Temperature loss: 0.004 (T - 25) above 25 C and 0 otherwise,
      clipped to [0, 1] and then to at most 0.15. */
  lemma TemperatureLossRule(row: HourRow, dust: real, referenceTime: int, panelArea: real)
    requires 0.0 <= dust <= 1.0
    ensures var m := RowMetricsOf(row, dust, referenceTime, panelArea);
            (row.temperature <= RefTemp ==> m.temperatureLoss == 0.0 && m.tempLoss == 0.0) &&
            (row.temperature > RefTemp ==>
               m.tempLoss == Min(TempCoeff * (row.temperature - RefTemp), 1.0) &&
               m.temperatureLoss == Min(m.tempLoss, MaxTemperatureLoss))
  {
  }

  /** Ageing: the linear law of the loss model at 0.5% a year over the
      non-negative years since the reference, clipped to [0, 1] and then
      to at most 0.05. */
  lemma AgingLossRule(row: HourRow, dust: real, referenceTime: int, panelArea: real)
    requires 0.0 <= dust <= 1.0
    ensures var m := RowMetricsOf(row, dust, referenceTime, panelArea);
            var years := YearsSince(row.time, referenceTime);
            m.agingLoss == Min(Clip(LossModel.AgingLoss(years, AnnualDegradationRate, "linear"), 0.0, 1.0), MaxAgingLoss)
  {
  }

  /** Of two dust levels for the same hour, the dirtier one has no higher
      efficiency and, with non-negative irradiance and area, no more
      actual energy and no less recoverable energy. */
  lemma DustLowersOutput(row: HourRow, d1: real, d2: real, referenceTime: int, panelArea: real)
    requires 0.0 <= d1 <= d2 <= 1.0
    ensures var m1 := RowMetricsOf(row, d1, referenceTime, panelArea);
            var m2 := RowMetricsOf(row, d2, referenceTime, panelArea);
            m2.effectiveEfficiency <= m1.effectiveEfficiency &&
            (row.irradiance >= 0.0 && panelArea >= 0.0 ==>
               m2.actualEnergyKwh <= m1.actualEnergyKwh && m1.recoverableEnergyKwh <= m2.recoverableEnergyKwh)
  {
    var m1 := RowMetricsOf(row, d1, referenceTime, panelArea);
    var m2 := RowMetricsOf(row, d2, referenceTime, panelArea);
    EfficiencyFallsWithDust(m1.dustLevel, m2.dustLevel, m1.temperatureLoss, m1.agingLoss, m1.shadingLoss, m1.mismatchLoss);
    assert m2.effectiveEfficiency <= m1.effectiveEfficiency;
    if row.irradiance >= 0.0 && panelArea >= 0.0 {
      EnergyGrowsWithEfficiency(row.irradiance, panelArea, m2.effectiveEfficiency, m1.effectiveEfficiency);
    }
  }

  lemma EnergyGrowsWithEfficiency(irradiance: real, area: real, e1: real, e2: real)
    requires irradiance >= 0.0 && area >= 0.0 && 0.0 <= e1 <= e2
    ensures 0.0 <= EnergyKwh(irradiance, area, e1) <= EnergyKwh(irradiance, area, e2)
  {
    ScaleBetween(irradiance, area, 0.0, area);
    ScaleBetween(irradiance * area, e1, 0.0, e2);
  }

  /** The health score lies in [0, 1] and is 1 exactly when the stored
      dust and every clamped loss are 0. */
  lemma HealthScoreRule(row: HourRow, dust: real, referenceTime: int, panelArea: real)
    requires 0.0 <= dust <= 1.0
    ensures var m := RowMetricsOf(row, dust, referenceTime, panelArea);
            0.0 <= m.healthScore <= 1.0 &&
            (m.healthScore == 1.0 <==>
               m.dustLevel == 0.0 && m.temperatureLoss == 0.0 && m.agingLoss == 0.0 &&
               m.shadingLoss == 0.0 && m.mismatchLoss == 0.0)
  {
    var m := RowMetricsOf(row, dust, referenceTime, panelArea);
    var k := KeptShare(m.dustLevel, m.temperatureLoss, m.agingLoss, m.shadingLoss, m.mismatchLoss);
    KeptShareRule(m.dustLevel, m.temperatureLoss, m.agingLoss, m.shadingLoss, m.mismatchLoss);
    assert m.effectiveEfficiency == BaseEfficiency * k;
    assert m.healthScore == k;
  }

  /** With non-negative irradiance and area, the actual energy of an hour
      lies between 0 and its ideal energy. */
  lemma ActualWithinIdeal(row: HourRow, dust: real, referenceTime: int, panelArea: real)
    requires 0.0 <= dust <= 1.0
    requires row.irradiance >= 0.0 && panelArea >= 0.0
    ensures var m := RowMetricsOf(row, dust, referenceTime, panelArea);
            0.0 <= m.actualEnergyKwh <= m.idealEnergyKwh
  {
    var m := RowMetricsOf(row, dust, referenceTime, panelArea);
    EnergyGrowsWithEfficiency(row.irradiance, panelArea, m.effectiveEfficiency, m.baseEfficiency);
  }

  /** The metrics of every row of the frame. */
  function EnergyMetricsOf(f: Frame, panelArea: real, cleaningDays: set<int>, referenceTime: int): (ms: seq<RowMetrics>)
    ensures |ms| == |f.rows|
    ensures forall i :: 0 <= i < |f.rows| ==> ms[i] == RowMetricsOf(f.rows[i], DustAfter(f, cleaningDays, i + 1), referenceTime, panelArea)
  {
    seq(|f.rows|, i requires 0 <= i < |f.rows| => RowMetricsOf(f.rows[i], DustAfter(f, cleaningDays, i + 1), referenceTime, panelArea))
  }

  /** processed['recoverable_energy_kwh'].sum() */
  function TotalRecoverable(ms: seq<RowMetrics>): real
  {
    if |ms| == 0 then 0.0 else TotalRecoverable(ms[..|ms| - 1]) + ms[|ms| - 1].recoverableEnergyKwh
  }

  /** processed['actual_energy_kwh'].sum() */
  function TotalActual(ms: seq<RowMetrics>): real
  {
    if |ms| == 0 then 0.0 else TotalActual(ms[..|ms| - 1]) + ms[|ms| - 1].actualEnergyKwh
  }

  /** calculate_energy_metrics. The reference timestamp defaults to the
      first row's; an empty frame fails as `.iloc[0]` does. */
  method CalculateEnergyMetrics(f: Frame, panelArea: real, cleaningDays: set<int>, referenceTime: Option<int>)
    returns (r: Result<seq<RowMetrics>>)
    ensures r.Failure? <==> |f.rows| == 0
    ensures r.Failure? ==> r.error == IndexError
    ensures r.Ok? ==> r.value == EnergyMetricsOf(f, panelArea, cleaningDays,
                                                 if referenceTime.Some? then referenceTime.value else f.rows[0].time)
  {
    if |f.rows| == 0 {
      return Failure(IndexError);
    }
    var ref := if referenceTime.Some? then referenceTime.value else f.rows[0].time;
    var dustLevels := DustLevels(f, cleaningDays);
    var metrics := seq(|f.rows|, i requires 0 <= i < |f.rows| && 0.0 <= dustLevels[i] <= 1.0 reads dustLevels =>
                       RowMetricsOf(f.rows[i], dustLevels[i], ref, panelArea));
    return Ok(metrics);
  }

  /** Over the whole frame: every row on a cleaning date reports zero dust,
      and with non-negative area every row with non-negative irradiance has
      non-negative recoverable energy. */
  lemma EnergyMetricsProperties(f: Frame, panelArea: real, cleaningDays: set<int>, referenceTime: int)
    ensures var ms := EnergyMetricsOf(f, panelArea, cleaningDays, referenceTime);
            forall i :: 0 <= i < |f.rows| && IsCleaningRow(f, cleaningDays, i) ==> ms[i].dustLevel == 0.0
    ensures var ms := EnergyMetricsOf(f, panelArea, cleaningDays, referenceTime);
            panelArea >= 0.0 ==> forall i :: 0 <= i < |f.rows| && f.rows[i].irradiance >= 0.0 ==> ms[i].recoverableEnergyKwh >= 0.0
  {
    var ms := EnergyMetricsOf(f, panelArea, cleaningDays, referenceTime);
    forall i | 0 <= i < |f.rows|
      ensures IsCleaningRow(f, cleaningDays, i) ==> ms[i].dustLevel == 0.0
      ensures panelArea >= 0.0 && f.rows[i].irradiance >= 0.0 ==> ms[i].recoverableEnergyKwh >= 0.0
    {
      if IsCleaningRow(f, cleaningDays, i) {
        CleaningRowsAreClean(f, cleaningDays, i);
      }
      RecoverableRule(f.rows[i], DustAfter(f, cleaningDays, i + 1), referenceTime, panelArea);
    }
  }
}
