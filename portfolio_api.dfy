/** The portfolio selection of the /optimize-farms handler (ml/api.py,
    optimize_farm_portfolio): each farm with data is scored by the requested
    mode from its P10/P50/P90 schedule values, insights are collected, the
    farms are visited by descending score (stable) and taken greedily while
    their cleaning water fits the budget. The per-farm weather fetch and
    optimizer runs are inputs. */
module PortfolioApi {
  import opened Util
  import opened Greedy

  const ModeProfit: string := "PROFIT"
  const ModeCarbon: string := "CARBON"
  const ModeWaterScarcity: string := "WATER_SCARCITY"

  /** The fixed cleaning cost the handler gives every farm's optimizer. */
  const CleaningCost: real := 1500.0
  const WaterPricePerLiter: real := 0.05
  const CarbonPerKwh: real := 0.7
  const RoiInsightThreshold: real := 20.0
  const RainInsightThreshold: real := 5.0
  const MaxInsights: nat := 4

  /** One farm of the request. */
  datatype FarmRequest = FarmRequest(name: string, dustRate: real, electricityPrice: real, waterUsage: real, panelArea: real)

  /** What the handler computes for a farm before the selection: whether the
      weather fetch returned data, the P10/P50/P90 net values of the
      optimized schedule (before scaling to the farm's area), the schedule's
      cleaning day indices and the forecast's precipitation column. */
  datatype FarmRun = FarmRun(
    farm: FarmRequest, hasData: bool, p10: real, p50: real, p90: real,
    cleaningDates: seq<int>, precipitation: seq<real>)

  /** One entry of the handler's results list. */
  datatype ScoredFarm = ScoredFarm(farm: FarmRequest, score: real, netBenefit: real, waterNeeded: real, cleaningDates: seq<int>)

  /** The insight messages, by kind, with the numbers they report. */
  datatype Insight =
    | ExpectedRoi(farmName: string, roiP50: real, roiP10: real, roiP90: real)
    | HighSoiling(farmName: string, zScore: real)
    | LowMaintenance(farmName: string, zScore: real)
    | RainDeferral(farmName: string, savedCost: real, confidence: real)

  datatype PortfolioResult = PortfolioResult(
    selectedFarms: seq<string>, waterUsed: real, totalBenefit: real,
    totalEnergy: real, totalCo2: real, insights: seq<Insight>)

  // ---------------------------------------------------------------------
  // Scoring

  /** The net benefit: the P50 value scaled by panel area / 100. */
  function NetBenefit(run: FarmRun): real
  {
    run.p50 * (run.farm.panelArea / 100.0)
  }

  /** The mode score of a farm; WATER_SCARCITY divides by water + 1. */
  function ModeScore(mode: string, net: real, waterUsage: real): (r: Result<real>)
    ensures r.Failure? <==> mode == ModeWaterScarcity && waterUsage + 1.0 == 0.0
    ensures r.Failure? ==> r.error == ZeroDivisionError
    ensures mode == ModeProfit ==> r == Ok(net)
    ensures mode == ModeCarbon ==> r == Ok(net * 0.5)
    ensures mode == ModeWaterScarcity && r.Ok? ==> r.value * (waterUsage + 1.0) == net
    ensures mode != ModeProfit && mode != ModeCarbon && mode != ModeWaterScarcity ==> r == Ok(0.0)
  {
    if mode == ModeProfit then Ok(net)
    else if mode == ModeCarbon then Ok(net * 0.5)
    else if mode == ModeWaterScarcity then
      (if waterUsage + 1.0 == 0.0 then Failure(ZeroDivisionError) else Ok(net / (waterUsage + 1.0)))
    else Ok(0.0)
  }

  /** The water a farm's schedule needs: its usage per cleaning times the
      number of cleanings. */
  function WaterNeeded(run: FarmRun): real
  {
    run.farm.waterUsage * |run.cleaningDates| as real
  }

  /** The results list after the first n farms, or the error that ends the
      handler. Farms without data are skipped. */
  function ScoredUpTo(mode: string, runs: seq<FarmRun>, n: nat): Result<seq<ScoredFarm>>
    requires n <= |runs|
  {
    if n == 0 then Ok([])
    else
      var prev := ScoredUpTo(mode, runs, n - 1);
      var run := runs[n - 1];
      if prev.Failure? || !run.hasData then prev
      else
        var score := ModeScore(mode, NetBenefit(run), run.farm.waterUsage);
        if score.Failure? then Failure(score.error)
        else Ok(prev.value + [ScoredFarm(run.farm, score.value, NetBenefit(run), WaterNeeded(run), run.cleaningDates)])
  }

  /** Scoring fails exactly in WATER_SCARCITY mode when a farm with data has
      water usage -1. */
  lemma {:induction false} ScoringFailsIff(mode: string, runs: seq<FarmRun>, n: nat)
    requires n <= |runs|
    ensures ScoredUpTo(mode, runs, n).Failure? <==>
              mode == ModeWaterScarcity && exists i :: 0 <= i < n && runs[i].hasData && runs[i].farm.waterUsage + 1.0 == 0.0
    ensures ScoredUpTo(mode, runs, n).Ok? ==> |ScoredUpTo(mode, runs, n).value| <= n
  {
    if n > 0 {
      ScoringFailsIff(mode, runs, n - 1);
    }
  }

  // ---------------------------------------------------------------------
  // Insights

  function Mean(xs: seq<real>): real
  {
    if |xs| == 0 then 0.0 else Sum(xs) / |xs| as real
  }

  /** numpy's population variance. */
  function Variance(xs: seq<real>): real
  {
    var m := Mean(xs);
    Mean(seq(|xs|, i requires 0 <= i < |xs| => (xs[i] - m) * (xs[i] - m)))
  }

  function DustRates(runs: seq<FarmRun>): (rs: seq<real>)
    ensures |rs| == |runs| && forall i :: 0 <= i < |runs| ==> rs[i] == runs[i].farm.dustRate
  {
    seq(|runs|, i requires 0 <= i < |runs| => runs[i].farm.dustRate)
  }

  /** The cost of a schedule: every cleaning costs 1500 plus its water. */
  function ActionCost(run: FarmRun): real
  {
    |run.cleaningDates| as real * (CleaningCost + run.farm.waterUsage * WaterPricePerLiter)
  }

  /** Insight A: the expected ROI, shown only when the schedule costs
      something and the P50 ROI is above 20%. */
  function RoiInsights(run: FarmRun): (r: seq<Insight>)
    ensures |r| <= 1
    ensures |r| == 1 ==> ActionCost(run) > 0.0 && r[0].ExpectedRoi? && r[0].roiP50 > RoiInsightThreshold
  {
    var scaling := run.farm.panelArea / 100.0;
    var cost := ActionCost(run);
    if cost > 0.0 then
      var roiP50 := (run.p50 * scaling / cost) * 100.0;
      var roiP10 := (run.p10 * scaling / cost) * 100.0;
      var roiP90 := (run.p90 * scaling / cost) * 100.0;
      if roiP50 > RoiInsightThreshold then [ExpectedRoi(run.farm.name, roiP50, roiP10, roiP90)] else []
    else []
  }

  /** Insight B: the dust z-score against the portfolio, shown only beyond
      one standard deviation either way. */
  function DustInsights(run: FarmRun, avgDust: real, stdDust: real): (r: seq<Insight>)
    ensures |r| <= 1
    ensures r != [] <==> stdDust > 0.0 && Abs(run.farm.dustRate - avgDust) > stdDust
    ensures r != [] ==> (r[0].HighSoiling? <==> run.farm.dustRate > avgDust)
    ensures r != [] ==> (r[0].HighSoiling? || r[0].LowMaintenance?) && r[0].zScore * stdDust == run.farm.dustRate - avgDust
  {
    if stdDust > 0.0 then
      var z := (run.farm.dustRate - avgDust) / stdDust;
      ZScoreBeyondOne(run.farm.dustRate - avgDust, stdDust);
      if z > 1.0 then [HighSoiling(run.farm.name, z)]
      else if z < -1.0 then [LowMaintenance(run.farm.name, z)]
      else []
    else []
  }

  /** A deviation divided by a positive spread exceeds 1 in size exactly
      when the deviation exceeds the spread. */
  lemma ZScoreBeyondOne(deviation: real, spread: real)
    requires spread > 0.0
    ensures deviation / spread > 1.0 <==> deviation > spread
    ensures deviation / spread < -1.0 <==> deviation < -spread
    ensures (deviation / spread) * spread == deviation
  {
  }

  /** The rain of the forecast rows before the first cleaning. */
  function RainBefore(precipitation: seq<real>, idx: int): real
  {
    if idx <= 0 then 0.0
    else if idx >= |precipitation| then Sum(precipitation)
    else Sum(precipitation[..idx])
  }

  /** Insight C: deferring pays when the first cleaning is more than two
      days out and more than 5 mm of rain falls before it. */
  function RainInsights(run: FarmRun): (r: seq<Insight>)
    ensures |r| <= 1
    ensures |r| == 1 ==> |run.cleaningDates| > 0 && run.cleaningDates[0] > 2 &&
                         RainBefore(run.precipitation, run.cleaningDates[0]) > RainInsightThreshold &&
                         r[0] == RainDeferral(run.farm.name, CleaningCost + run.farm.waterUsage * WaterPricePerLiter,
                                              Min(100.0, RainBefore(run.precipitation, run.cleaningDates[0]) * 10.0))
  {
    var nextClean := if |run.cleaningDates| > 0 then run.cleaningDates[0] else -1;
    if nextClean > 2 then
      var upcomingRain := RainBefore(run.precipitation, nextClean);
      if upcomingRain > RainInsightThreshold then
        [RainDeferral(run.farm.name, CleaningCost + run.farm.waterUsage * WaterPricePerLiter, Min(100.0, upcomingRain * 10.0))]
      else []
    else []
  }

  function FarmInsights(run: FarmRun, avgDust: real, stdDust: real): seq<Insight>
  {
    RoiInsights(run) + DustInsights(run, avgDust, stdDust) + RainInsights(run)
  }

  /** The insights collected from the first n farms; farms without data add
      none. */
  function InsightsUpTo(runs: seq<FarmRun>, n: nat, avgDust: real, stdDust: real): seq<Insight>
    requires n <= |runs|
  {
    if n == 0 then []
    else InsightsUpTo(runs, n - 1, avgDust, stdDust) +
         (if runs[n - 1].hasData then FarmInsights(runs[n - 1], avgDust, stdDust) else [])
  }

  /** A portfolio of one farm never gets a dust insight: the farm is the
      mean and the deviation defaults to 1. */
  lemma SingleFarmHasNoDustInsight(run: FarmRun)
    ensures DustInsights(run, Mean(DustRates([run])), 1.0) == []
  {
    var rs := DustRates([run]);
    assert rs == [run.farm.dustRate];
    assert rs[..0] == [];
    assert Sum(rs) == run.farm.dustRate;
  }

  // ---------------------------------------------------------------------
  // Selection

  /** The totals the greedy loop accumulates over the farms it takes. */
  datatype Totals = Totals(selectedFarms: seq<string>, totalBenefit: real, totalWater: real, totalEnergy: real)

  function Needs(results: seq<ScoredFarm>): (ns: seq<real>)
    ensures |ns| == |results| && forall i :: 0 <= i < |results| ==> ns[i] == results[i].waterNeeded
  {
    seq(|results|, i requires 0 <= i < |results| => results[i].waterNeeded)
  }

  /** The greedy loop after the first n results, or the error raised when a
      taken farm has electricity price 0. A farm is taken when its water
      fits into what the taken farms before it left of the budget. */
  function TotalsUpTo(results: seq<ScoredFarm>, budget: real, n: nat): Result<Totals>
    requires n <= |results|
  {
    if n == 0 then Ok(Totals([], 0.0, 0.0, 0.0))
    else
      var prev := TotalsUpTo(results, budget, n - 1);
      var res := results[n - 1];
      if prev.Failure? || prev.value.totalWater + res.waterNeeded > budget then prev
      else if res.farm.electricityPrice == 0.0 then Failure(ZeroDivisionError)
      else
        var t := prev.value;
        Ok(Totals(t.selectedFarms + [res.farm.name], t.totalBenefit + res.netBenefit, t.totalWater + res.waterNeeded,
                  t.totalEnergy + res.netBenefit / res.farm.electricityPrice))
  }

  /** The greedy loop takes exactly the farms the shared greedy scan takes
      over their water needs: it reports their water, names them in visiting
      order, and fails exactly when one of them has electricity price 0. */
  lemma {:induction false} TotalsFollowScan(results: seq<ScoredFarm>, needs: seq<real>, budget: real, n: nat)
    requires |needs| == |results| && forall i :: 0 <= i < |results| ==> needs[i] == results[i].waterNeeded
    requires n <= |results|
    ensures TotalsUpTo(results, budget, n).Ok? ==>
              TotalsUpTo(results, budget, n).value.totalWater == UsedAfter(needs, budget, n) &&
              |TotalsUpTo(results, budget, n).value.selectedFarms| == |Selection(needs, budget, n)|
    ensures TotalsUpTo(results, budget, n).Ok? ==>
              forall k :: 0 <= k < |Selection(needs, budget, n)| ==>
                TotalsUpTo(results, budget, n).value.selectedFarms[k] == results[Selection(needs, budget, n)[k]].farm.name
    ensures TotalsUpTo(results, budget, n).Failure? <==>
              exists i :: 0 <= i < n && Taken(needs, budget, i) && results[i].farm.electricityPrice == 0.0
  {
    if n > 0 {
      TotalsFollowScan(results, needs, budget, n - 1);
      var prev := TotalsUpTo(results, budget, n - 1);
      if prev.Failure? {
        var i :| 0 <= i < n - 1 && Taken(needs, budget, i) && results[i].farm.electricityPrice == 0.0;
        assert 0 <= i < n;
      } else if Taken(needs, budget, n - 1) && results[n - 1].farm.electricityPrice != 0.0 {
        var sel := Selection(needs, budget, n - 1);
        assert Selection(needs, budget, n) == sel + [n - 1];
      } else if !Taken(needs, budget, n - 1) {
        assert Selection(needs, budget, n) == Selection(needs, budget, n - 1);
      }
    }
  }

  /** Once the greedy loop has failed it stays failed. */
  lemma {:induction false} TotalsFailureStays(results: seq<ScoredFarm>, budget: real, i: nat, n: nat)
    requires i <= n <= |results|
    requires TotalsUpTo(results, budget, i) == Failure(ZeroDivisionError)
    ensures TotalsUpTo(results, budget, n) == Failure(ZeroDivisionError)
    decreases n - i
  {
    if i < n {
      TotalsFailureStays(results, budget, i + 1, n);
    }
  }

  /** The greedy loop of the handler, over the sorted results. */
  method SelectPortfolio(sorted: seq<ScoredFarm>, budget: real) returns (r: Result<Totals>)
    ensures r == TotalsUpTo(sorted, budget, |sorted|)
  {
    var selectedFarms: seq<string> := [];
    var totalBenefit := 0.0;
    var totalWater := 0.0;
    var totalEnergy := 0.0;
    var currentWater := 0.0;
    var k := 0;
    while k < |sorted|
      invariant 0 <= k <= |sorted|
      invariant TotalsUpTo(sorted, budget, k) == Ok(Totals(selectedFarms, totalBenefit, totalWater, totalEnergy))
      invariant currentWater == totalWater
    {
      var res := sorted[k];
      if currentWater + res.waterNeeded <= budget {
        selectedFarms := selectedFarms + [res.farm.name];
        totalBenefit := totalBenefit + res.netBenefit;
        totalWater := totalWater + res.waterNeeded;
        if res.farm.electricityPrice == 0.0 {
          TotalsFailureStays(sorted, budget, k + 1, |sorted|);
          return Failure(ZeroDivisionError);
        }
        totalEnergy := totalEnergy + res.netBenefit / res.farm.electricityPrice;
        currentWater := currentWater + res.waterNeeded;
      }
      k := k + 1;
    }
    return Ok(Totals(selectedFarms, totalBenefit, totalWater, totalEnergy));
  }

  /** The results in the order the handler visits them. */
  function SortedResults(results: seq<ScoredFarm>): (sorted: seq<ScoredFarm>)
    ensures |sorted| == |results|
  {
    var order := SortOrder(ScoreKeys(results));
    seq(|order|, k requires 0 <= k < |order| => results[order[k]])
  }

  function ScoreKeys(results: seq<ScoredFarm>): (keys: seq<real>)
    ensures |keys| == |results| && forall i :: 0 <= i < |results| ==> keys[i] == results[i].score
  {
    seq(|results|, i requires 0 <= i < |results| => results[i].score)
  }

  /** The handler visits the results by descending score. */
  lemma SortedResultsByScore(results: seq<ScoredFarm>)
    ensures var sorted := SortedResults(results);
            forall a, b :: 0 <= a < b < |sorted| ==> sorted[a].score >= sorted[b].score
  {
    SortOrderCorrect(ScoreKeys(results));
  }

  /** Every result is visited, and nothing else. */
  lemma SortedResultsPermute(results: seq<ScoredFarm>)
    ensures var sorted := SortedResults(results);
            (forall k :: 0 <= k < |sorted| ==> sorted[k] in results) &&
            (forall i :: 0 <= i < |results| ==> results[i] in sorted)
  {
    var keys := ScoreKeys(results);
    var order := SortOrder(keys);
    SortOrderCorrect(keys);
    var sorted := SortedResults(results);
    forall i | 0 <= i < |results|
      ensures results[i] in sorted
    {
      var all := Range(0, |keys|);
      assert all[i] == i;
      assert i in multiset(all);
      assert i in multiset(order);
      var k :| 0 <= k < |order| && order[k] == i;
      assert sorted[k] == results[i];
    }
  }

  /** The first four insights. */
  function FirstInsights(insights: seq<Insight>): (r: seq<Insight>)
    ensures |r| <= MaxInsights && |r| <= |insights| && r == insights[..|r|]
    ensures |insights| <= MaxInsights ==> r == insights
  {
    if |insights| > MaxInsights then insights[..MaxInsights] else insights
  }

  /** The whole selection: scoring, insights, sort, greedy loop and totals. */
  function Portfolio(mode: string, runs: seq<FarmRun>, budget: real, stdDust: real): Result<PortfolioResult>
  {
    var scored := ScoredUpTo(mode, runs, |runs|);
    if scored.Failure? then Failure(scored.error)
    else
      var totals := TotalsUpTo(SortedResults(scored.value), budget, |scored.value|);
      if totals.Failure? then Failure(totals.error)
      else
        var t := totals.value;
        var insights := InsightsUpTo(runs, |runs|, Mean(DustRates(runs)), stdDust);
        Ok(PortfolioResult(t.selectedFarms, t.totalWater, t.totalBenefit, t.totalEnergy, t.totalEnergy * CarbonPerKwh,
                           FirstInsights(insights)))
  }

  /** Once scoring has failed it stays failed. */
  lemma {:induction false} ScoredFailureStays(mode: string, runs: seq<FarmRun>, i: nat, n: nat)
    requires i <= n <= |runs|
    requires ScoredUpTo(mode, runs, i) == Failure(ZeroDivisionError)
    ensures ScoredUpTo(mode, runs, n) == Failure(ZeroDivisionError)
    decreases n - i
  {
    if i < n {
      ScoredFailureStays(mode, runs, i + 1, n);
    }
  }

  /** The score branch of the per-farm loop. */
  method ScoreOf(mode: string, netValScaled: real, waterUsage: real) returns (r: Result<real>)
    ensures r == ModeScore(mode, netValScaled, waterUsage)
  {
    var score := 0.0;
    if mode == ModeProfit {
      score := netValScaled;
    } else if mode == ModeCarbon {
      score := netValScaled * 0.5;
    } else if mode == ModeWaterScarcity {
      if waterUsage + 1.0 == 0.0 {
        return Failure(ZeroDivisionError);
      }
      score := netValScaled / (waterUsage + 1.0);
    }
    return Ok(score);
  }

  /** The per-farm loop of the handler: scores every farm with data and
      collects its insights. */
  method ScoreFarms(mode: string, runs: seq<FarmRun>, avgDust: real, stdDust: real)
    returns (r: Result<seq<ScoredFarm>>, insights: seq<Insight>)
    ensures r == ScoredUpTo(mode, runs, |runs|)
    ensures r.Ok? ==> insights == InsightsUpTo(runs, |runs|, avgDust, stdDust)
  {
    var results: seq<ScoredFarm> := [];
    insights := [];
    var i := 0;
    while i < |runs|
      invariant 0 <= i <= |runs|
      invariant ScoredUpTo(mode, runs, i) == Ok(results)
      invariant insights == InsightsUpTo(runs, i, avgDust, stdDust)
    {
      var run := runs[i];
      if !run.hasData {
        assert InsightsUpTo(runs, i + 1, avgDust, stdDust) == insights + [];
        i := i + 1;
        continue;
      }
      var netValScaled := NetBenefit(run);
      var score := ScoreOf(mode, netValScaled, run.farm.waterUsage);
      if score.Failure? {
        ScoredFailureStays(mode, runs, i + 1, |runs|);
        return Failure(ZeroDivisionError), insights;
      }
      var entry := ScoredFarm(run.farm, score.value, netValScaled, WaterNeeded(run), run.cleaningDates);
      assert ScoredUpTo(mode, runs, i + 1) == Ok(results + [entry]);
      results := results + [entry];
      assert InsightsUpTo(runs, i + 1, avgDust, stdDust) == insights + FarmInsights(run, avgDust, stdDust);
      insights := insights + FarmInsights(run, avgDust, stdDust);
      i := i + 1;
    }
    return Ok(results), insights;
  }

  /** optimize_farm_portfolio from the per-farm runs on. The portfolio's
      dust deviation is numpy's population standard deviation, given by its
      non-negative square root of the variance, and 1.0 for a single farm. */
  method OptimizeFarmPortfolio(mode: string, runs: seq<FarmRun>, budget: real, sqrtDustVariance: real)
    returns (r: Result<PortfolioResult>)
    requires sqrtDustVariance >= 0.0 && sqrtDustVariance * sqrtDustVariance == Variance(DustRates(runs))
    ensures r == Portfolio(mode, runs, budget, if |runs| > 1 then sqrtDustVariance else 1.0)
  {
    var dustRates := DustRates(runs);
    var avgDust := Mean(dustRates);
    var stdDust := if |dustRates| > 1 then sqrtDustVariance else 1.0;
    var scored, insights := ScoreFarms(mode, runs, avgDust, stdDust);
    if scored.Failure? {
      return Failure(scored.error);
    }
    var sorted := SortedResults(scored.value);
    var totals := SelectPortfolio(sorted, budget);
    if totals.Failure? {
      return Failure(totals.error);
    }
    var t := totals.value;
    var totalCo2 := t.totalEnergy * CarbonPerKwh;
    var selectedInsights := if |insights| > MaxInsights then insights[..MaxInsights] else insights;
    PortfolioOk(mode, runs, budget, stdDust, scored.value, t);
    return Ok(PortfolioResult(t.selectedFarms, t.totalWater, t.totalBenefit, t.totalEnergy, totalCo2, selectedInsights));
  }

  /** The portfolio once scoring and the greedy totals have succeeded. */
  lemma PortfolioOk(mode: string, runs: seq<FarmRun>, budget: real, stdDust: real, scored: seq<ScoredFarm>, t: Totals)
    requires ScoredUpTo(mode, runs, |runs|) == Ok(scored)
    requires TotalsUpTo(SortedResults(scored), budget, |scored|) == Ok(t)
    ensures Portfolio(mode, runs, budget, stdDust) ==
              Ok(PortfolioResult(t.selectedFarms, t.totalWater, t.totalBenefit, t.totalEnergy, t.totalEnergy * CarbonPerKwh,
                                 FirstInsights(InsightsUpTo(runs, |runs|, Mean(DustRates(runs)), stdDust))))
  {
    var p := Portfolio(mode, runs, budget, stdDust);
    assert p.Ok? && p.value.selectedFarms == t.selectedFarms;
    assert p.value.waterUsed == t.totalWater && p.value.totalBenefit == t.totalBenefit;
    assert p.value.totalEnergy == t.totalEnergy && p.value.totalCo2 == t.totalEnergy * CarbonPerKwh;
    assert p.value.insights == FirstInsights(InsightsUpTo(runs, |runs|, Mean(DustRates(runs)), stdDust));
  }

  /** For a non-negative budget the portfolio never uses more water than
      the budget, its water is the sum of the taken farms' needs, its CO2 is
      0.7 kg per kWh, and it reports at most four insights. */
  lemma PortfolioWithinBudget(mode: string, runs: seq<FarmRun>, budget: real, stdDust: real)
    requires Portfolio(mode, runs, budget, stdDust).Ok?
    ensures var p := Portfolio(mode, runs, budget, stdDust).value;
            var sorted := SortedResults(ScoredUpTo(mode, runs, |runs|).value);
            (budget >= 0.0 ==> p.waterUsed <= budget) &&
            p.waterUsed == SumAt(Needs(sorted), Selection(Needs(sorted), budget, |sorted|)) &&
            p.totalCo2 == p.totalEnergy * CarbonPerKwh &&
            |p.insights| <= MaxInsights
  {
    var sorted := SortedResults(ScoredUpTo(mode, runs, |runs|).value);
    TotalsFollowScan(sorted, Needs(sorted), budget, |sorted|);
    UsedIsSumOfSelected(Needs(sorted), budget, |sorted|);
    if budget >= 0.0 {
      UsedWithinBudget(Needs(sorted), budget, |sorted|);
    }
  }

  /** For a non-negative budget, a scored farm with no cleanings scheduled
      needs no water and is always among the selected farms. */
  lemma NoCleaningFarmAlwaysSelected(mode: string, runs: seq<FarmRun>, budget: real, stdDust: real, k: nat)
    requires Portfolio(mode, runs, budget, stdDust).Ok? && budget >= 0.0
    requires k < |SortedResults(ScoredUpTo(mode, runs, |runs|).value)|
    requires |SortedResults(ScoredUpTo(mode, runs, |runs|).value)[k].cleaningDates| == 0
    ensures SortedResults(ScoredUpTo(mode, runs, |runs|).value)[k].farm.name in Portfolio(mode, runs, budget, stdDust).value.selectedFarms
  {
    var sorted := SortedResults(ScoredUpTo(mode, runs, |runs|).value);
    var needs := Needs(sorted);
    ScoredWaterNeeds(mode, runs, |runs|);
    assert sorted[k].waterNeeded == 0.0;
    ZeroNeedAlwaysTaken(needs, budget, k);
    SelectionIsTaken(needs, budget, |sorted|);
    TotalsFollowScan(sorted, needs, budget, |sorted|);
    var sel := Selection(needs, budget, |sorted|);
    var j :| 0 <= j < |sel| && sel[j] == k;
    assert Portfolio(mode, runs, budget, stdDust).value.selectedFarms[j] == sorted[k].farm.name;
  }

  /** Every scored entry needs water usage times the number of cleanings. */
  lemma {:induction false} ScoredWaterNeeds(mode: string, runs: seq<FarmRun>, n: nat)
    requires n <= |runs|
    ensures ScoredUpTo(mode, runs, n).Ok? ==>
              forall e :: e in ScoredUpTo(mode, runs, n).value ==> e.waterNeeded == e.farm.waterUsage * |e.cleaningDates| as real
  {
    if n > 0 {
      ScoredWaterNeeds(mode, runs, n - 1);
    }
  }
}
