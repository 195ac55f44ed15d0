/** The multi-site decision of ml/multi_farm_optimizer.py: every SolarFarm
    evaluates its cleaning opportunity from the shared forecast, gets an
    optimization value by mode, and the CLEAN farms with positive value go
    into the exact knapsack under the (mode-adjusted) water budget. The
    daily recoverable series and the two run_scenario energy totals of a
    farm are inputs. */
module MultiFarm {
  import opened Util
  import opened Knapsack
  import ScenarioAnalysis
  import Greedy

  const ModeCarbon: string := "CARBON"
  const ModeWaterScarcity: string := "WATER_SCARCITY"
  const CarbonPerKwh: real := 0.7
  /** CARBON mode ranks a farm at 10 per kg of CO2 saved. */
  const CarbonPriority: real := 10.0
  /** WATER_SCARCITY keeps 70% of the global budget. */
  const ScarcityBudgetShare: real := 0.7

  datatype Action = Wait | Clean

  /** The evaluation fields of a farm. */
  datatype FarmOutcome = FarmOutcome(netBenefit: real, energyRecovered: real, co2Saved: real, action: Action, efficiencyScore: real)

  /** The shared-data results a farm's evaluation uses: the daily
      recoverable kWh of the no-cleaning scenario and the total energy of
      the scenarios with the recommended cleaning and without cleaning. */
  datatype ScenarioInput = ScenarioInput(dailyRecoverable: seq<real>, energyWithClean: real, energyWithoutClean: real)

  /** A farm's fixed parameters. */
  datatype FarmParams = FarmParams(name: string, panelArea: real, dustRateFactor: real, electricityPrice: real,
                                   waterCost: real, waterUsage: real, scarcityScore: real)

  function CleaningCost(p: FarmParams): real
  {
    p.waterUsage * p.waterCost
  }

  /** The day get_recommended_cleaning_date picks for this farm's price and
      cost, with the default 7-day window, carbon weight 1 and 0.7 kg/kWh. */
  function RecommendedDay(p: FarmParams, input: ScenarioInput): Option<nat>
  {
    ScenarioAnalysis.RecommendedDay(input.dailyRecoverable, ScenarioAnalysis.DefaultProjectionDays,
                                    p.electricityPrice, CleaningCost(p), 1.0, CarbonPerKwh)
  }

  /** The energy gain of the recommended cleaning, scaled by the farm's dust
      factor. */
  function AdjustedGain(p: FarmParams, input: ScenarioInput): real
  {
    (input.energyWithClean - input.energyWithoutClean) * p.dustRateFactor
  }

  /** evaluate_cleaning_opportunity as a value: WAIT with everything 0
      without a recommended day; otherwise CLEAN, net benefit the gain's
      value less the cleaning cost, CO2 0.7 kg per kWh and efficiency the
      net benefit per litre, which divides by zero for a farm using no
      water. */
  function Evaluation(p: FarmParams, input: ScenarioInput): (r: Result<FarmOutcome>)
    ensures r.Failure? <==> RecommendedDay(p, input).Some? && p.waterUsage == 0.0
    ensures r.Ok? && r.value.action == Wait ==> r.value == FarmOutcome(0.0, 0.0, 0.0, Wait, 0.0)
    ensures r.Ok? ==> (r.value.action == Clean <==> RecommendedDay(p, input).Some?)
    ensures r.Ok? ==> r.value.co2Saved == CarbonPerKwh * r.value.energyRecovered
    ensures r.Ok? && r.value.action == Clean ==>
              r.value.netBenefit + CleaningCost(p) == r.value.energyRecovered * p.electricityPrice
  {
    if RecommendedDay(p, input).Some? then
      var adj := AdjustedGain(p, input);
      var net := adj * p.electricityPrice - CleaningCost(p);
      if p.waterUsage == 0.0 then Failure(ZeroDivisionError)
      else Ok(FarmOutcome(net, adj, adj * CarbonPerKwh, Clean, net / p.waterUsage))
    else Ok(FarmOutcome(0.0, 0.0, 0.0, Wait, 0.0))
  }

  /** A clean efficiency is the net benefit per litre. */
  lemma EfficiencyIsBenefitPerLitre(p: FarmParams, input: ScenarioInput)
    requires Evaluation(p, input).Ok? && Evaluation(p, input).value.action == Clean
    ensures Evaluation(p, input).value.efficiencyScore * p.waterUsage == Evaluation(p, input).value.netBenefit
  {
  }

  class SolarFarm {
    const name: string
    const panelArea: real
    const dustRateFactor: real
    const electricityPrice: real
    const waterCost: real
    const waterUsage: real
    const scarcityScore: real

    var netBenefit: real
    var action: Action
    var efficiencyScore: real
    var energyRecovered: real
    var co2Saved: real
    var optimizationValue: real

    /** A new farm waits, with nothing recovered. */
    constructor (name: string, panelArea: real, dustRateFactor: real, electricityPrice: real,
                 waterCost: real, waterUsage: real, scarcityScore: real)
      ensures Params() == FarmParams(name, panelArea, dustRateFactor, electricityPrice, waterCost, waterUsage, scarcityScore)
      ensures Outcome() == FarmOutcome(0.0, 0.0, 0.0, Wait, 0.0) && optimizationValue == 0.0
    {
      this.name := name;
      this.panelArea := panelArea;
      this.dustRateFactor := dustRateFactor;
      this.electricityPrice := electricityPrice;
      this.waterCost := waterCost;
      this.waterUsage := waterUsage;
      this.scarcityScore := scarcityScore;
      netBenefit := 0.0;
      action := Wait;
      efficiencyScore := 0.0;
      energyRecovered := 0.0;
      co2Saved := 0.0;
      optimizationValue := 0.0;
    }

    function Params(): FarmParams
    {
      FarmParams(name, panelArea, dustRateFactor, electricityPrice, waterCost, waterUsage, scarcityScore)
    }

    function Outcome(): FarmOutcome
      reads this
    {
      FarmOutcome(netBenefit, energyRecovered, co2Saved, action, efficiencyScore)
    }

    /** evaluate_cleaning_opportunity: on success the farm's fields are the
        evaluation; the division by zero leaves the efficiency score as it
        was after the other fields are already set. */
    method EvaluateCleaningOpportunity(input: ScenarioInput) returns (r: Result<()>)
      modifies this
      ensures r.Failure? <==> Evaluation(Params(), input).Failure?
      ensures r.Ok? ==> Outcome() == Evaluation(Params(), input).value
      ensures r.Failure? ==> r.error == ZeroDivisionError && action == Clean && efficiencyScore == old(efficiencyScore)
      ensures optimizationValue == old(optimizationValue)
    {
      var cleaningCost := waterUsage * waterCost;
      var recDate := ScenarioAnalysis.GetRecommendedCleaningDay(
        input.dailyRecoverable, electricityPrice, cleaningCost, ScenarioAnalysis.DefaultProjectionDays, 1.0, CarbonPerKwh);
      assert Params().waterUsage == waterUsage && CleaningCost(Params()) == cleaningCost;
      assert recDate == RecommendedDay(Params(), input);
      if recDate.Some? {
        var energyGain := input.energyWithClean - input.energyWithoutClean;
        var adjEnergyGain := energyGain * dustRateFactor;
        var valGain := adjEnergyGain * electricityPrice;
        netBenefit := valGain - cleaningCost;
        energyRecovered := adjEnergyGain;
        co2Saved := adjEnergyGain * CarbonPerKwh;
        action := Clean;
        if waterUsage == 0.0 {
          return Failure(ZeroDivisionError);
        }
        efficiencyScore := netBenefit / waterUsage;
        assert RecommendedDay(Params(), input).Some?;
        assert adjEnergyGain == AdjustedGain(Params(), input);
      } else {
        netBenefit := 0.0;
        energyRecovered := 0.0;
        co2Saved := 0.0;
        action := Wait;
        efficiencyScore := 0.0;
      }
      return Ok(());
    }
  }

  // ---------------------------------------------------------------------
  // Portfolio decision

  /** What the solver needs of a candidate farm and the totals add up. */
  datatype Candidate = Candidate(name: string, waterUsage: real, value: real, netBenefit: real, energyRecovered: real, co2Saved: real)

  function OptimizationValue(mode: string, o: FarmOutcome): real
  {
    if mode == ModeCarbon then o.co2Saved * CarbonPriority else o.netBenefit
  }

  function EffectiveBudget(budget: real, mode: string): real
  {
    if mode == ModeWaterScarcity then budget * ScarcityBudgetShare else budget
  }

  /** A farm is a candidate when its action is CLEAN and its optimization
      value is positive. */
  function CandidateOf(p: FarmParams, o: FarmOutcome, mode: string): (cs: seq<Candidate>)
    ensures |cs| <= 1
    ensures |cs| == 1 <==> o.action == Clean && OptimizationValue(mode, o) > 0.0
    ensures |cs| == 1 ==> cs[0].name == p.name && cs[0].waterUsage == p.waterUsage && cs[0].value == OptimizationValue(mode, o)
  {
    var v := OptimizationValue(mode, o);
    if o.action == Clean && v > 0.0 then [Candidate(p.name, p.waterUsage, v, o.netBenefit, o.energyRecovered, o.co2Saved)]
    else []
  }

  /** The candidates in farm order. */
  function Candidates(ps: seq<FarmParams>, outs: seq<FarmOutcome>, mode: string): (cs: seq<Candidate>)
    requires |ps| == |outs|
    ensures |cs| <= |ps|
    ensures forall k :: 0 <= k < |cs| ==> cs[k].value > 0.0
  {
    if |ps| == 0 then []
    else
      var n := |ps| - 1;
      Candidates(ps[..n], outs[..n], mode) + CandidateOf(ps[n], outs[n], mode)
  }

  function Usages(cs: seq<Candidate>): (us: seq<real>)
    ensures |us| == |cs| && forall k :: 0 <= k < |cs| ==> us[k] == cs[k].waterUsage
  {
    seq(|cs|, k requires 0 <= k < |cs| => cs[k].waterUsage)
  }

  function Values(cs: seq<Candidate>): (vs: seq<real>)
    ensures |vs| == |cs| && forall k :: 0 <= k < |cs| ==> vs[k] == cs[k].value
  {
    seq(|cs|, k requires 0 <= k < |cs| => cs[k].value)
  }

  function Names(cs: seq<Candidate>): (ns: set<string>)
    ensures forall k :: 0 <= k < |cs| ==> cs[k].name in ns
    ensures forall x :: x in ns ==> exists k :: 0 <= k < |cs| && cs[k].name == x
  {
    set k | 0 <= k < |cs| :: cs[k].name
  }

  /** The candidates whose name was not selected, in candidate order. */
  function Deferred(cs: seq<Candidate>, selectedNames: set<string>): (ds: seq<Candidate>)
    ensures forall c :: c in ds <==> c in cs && c.name !in selectedNames
  {
    if |cs| == 0 then []
    else
      var last := cs[|cs| - 1];
      Deferred(cs[..|cs| - 1], selectedNames) + (if last.name !in selectedNames then [last] else [])
  }

  function TotalWater(cs: seq<Candidate>): real
  {
    if |cs| == 0 then 0.0 else cs[0].waterUsage + TotalWater(cs[1..])
  }

  function TotalBenefit(cs: seq<Candidate>): real
  {
    if |cs| == 0 then 0.0 else cs[0].netBenefit + TotalBenefit(cs[1..])
  }

  function TotalEnergy(cs: seq<Candidate>): real
  {
    if |cs| == 0 then 0.0 else cs[0].energyRecovered + TotalEnergy(cs[1..])
  }

  function TotalCo2(cs: seq<Candidate>): real
  {
    if |cs| == 0 then 0.0 else cs[0].co2Saved + TotalCo2(cs[1..])
  }

  /** The portfolio's water efficiency: kWh per litre, 0 without water. */
  function WaterEfficiency(energy: real, water: real): real
  {
    if water > 0.0 then energy / water else 0.0
  }

  datatype Decision = Decision(
    selected: seq<Candidate>, deferred: seq<Candidate>, waterUsed: real, totalBenefit: real,
    totalEnergy: real, totalCo2: real, waterEfficiency: real)

  /** The decision over the candidates: the knapsack's selection in its
      (reverse) order, the candidates not selected, and the totals of the
      selected farms. */
  function Decide(cs: seq<Candidate>, budget: real): Result<Decision>
  {
    var sol := Solve(Usages(cs), Values(cs), budget);
    if sol.Failure? then Failure(sol.error)
    else
      var sel := Greedy.Permuted(cs, sol.value.selected);
      var water := TotalWater(sel);
      var energy := TotalEnergy(sel);
      Ok(Decision(sel, Deferred(cs, Names(sel)), water, TotalBenefit(sel), energy, TotalCo2(sel),
                  WaterEfficiency(energy, water)))
  }

  /** The farms' fixed parameters and current evaluation fields. */
  function ParamsOf(farms: seq<SolarFarm>): (ps: seq<FarmParams>)
    ensures |ps| == |farms| && forall i :: 0 <= i < |farms| ==> ps[i] == farms[i].Params()
  {
    seq(|farms|, i requires 0 <= i < |farms| => farms[i].Params())
  }

  function OutcomesOf(farms: seq<SolarFarm>): (os: seq<FarmOutcome>)
    reads set f | f in farms
    ensures |os| == |farms| && forall i :: 0 <= i < |farms| ==> os[i] == farms[i].Outcome()
  {
    seq(|farms|, i reads set f | f in farms requires 0 <= i < |farms| => farms[i].Outcome())
  }

  /** MultiSiteOptimizer.optimize up to the totals: with shared data every
      farm is evaluated first (a division by zero ends the run); each farm's
      optimization value is set by mode; the candidates go through the
      knapsack under the effective budget. The farms are distinct objects. */
  method Optimize(farms: seq<SolarFarm>, budget: real, mode: string, shared: Option<seq<ScenarioInput>>)
    returns (r: Result<Decision>)
    requires forall i, j :: 0 <= i < j < |farms| ==> farms[i] != farms[j]
    requires shared.Some? ==> |shared.value| == |farms|
    modifies set f | f in farms
    ensures shared.Some? && r.Ok? ==>
              forall i :: 0 <= i < |farms| ==> Evaluation(farms[i].Params(), shared.value[i]) == Ok(farms[i].Outcome())
    ensures shared.None? ==> forall i :: 0 <= i < |farms| ==> farms[i].Outcome() == old(farms[i].Outcome())
    ensures r.Ok? ==> forall i :: 0 <= i < |farms| ==> farms[i].optimizationValue == OptimizationValue(mode, farms[i].Outcome())
    ensures r.Ok? ==> r == Decide(Candidates(ParamsOf(farms), OutcomesOf(farms), mode), EffectiveBudget(budget, mode))
    ensures r.Failure? ==> r.error == ZeroDivisionError || r.error == IndexError
  {
    var effectiveBudget := budget;
    if mode == ModeWaterScarcity {
      effectiveBudget := effectiveBudget * ScarcityBudgetShare;
    }
    var candidates := EvaluateFarms(farms, mode, shared);
    if candidates.Failure? {
      return Failure(candidates.error);
    }
    r := DecideCandidates(candidates.value, effectiveBudget);
  }

  /** The per-farm loop of optimize: evaluation, optimization value and
      the candidate filter. */
  method EvaluateFarms(farms: seq<SolarFarm>, mode: string, shared: Option<seq<ScenarioInput>>)
    returns (r: Result<seq<Candidate>>)
    requires forall i, j :: 0 <= i < j < |farms| ==> farms[i] != farms[j]
    requires shared.Some? ==> |shared.value| == |farms|
    modifies set f | f in farms
    ensures shared.Some? && r.Ok? ==>
              forall i :: 0 <= i < |farms| ==> Evaluation(farms[i].Params(), shared.value[i]) == Ok(farms[i].Outcome())
    ensures shared.None? ==> forall i :: 0 <= i < |farms| ==> farms[i].Outcome() == old(farms[i].Outcome())
    ensures r.Ok? ==> forall i :: 0 <= i < |farms| ==> farms[i].optimizationValue == OptimizationValue(mode, farms[i].Outcome())
    ensures r.Ok? ==> r.value == Candidates(ParamsOf(farms), OutcomesOf(farms), mode)
    ensures r.Failure? ==> r.error == ZeroDivisionError
  {
    ghost var before := OutcomesOf(farms);
    ghost var params := ParamsOf(farms);
    var candidates: seq<Candidate> := [];
    var outs: seq<FarmOutcome> := [];
    var i := 0;
    while i < |farms|
      invariant 0 <= i <= |farms| && |outs| == i
      invariant forall j :: 0 <= j < i ==> Prepared(farms[j], outs[j], mode, InputOf(shared, j))
      invariant shared.None? ==> forall j :: 0 <= j < |farms| ==> farms[j].Outcome() == before[j]
      invariant candidates == Candidates(params[..i], outs, mode)
    {
      var farm := farms[i];
      var c := PrepareNext(farms, i, mode, shared, outs);
      if c.Failure? {
        return Failure(c.error);
      }
      CandidatesSnoc(params, i, outs, farm.Outcome(), mode);
      candidates := candidates + c.value;
      ghost var done := outs;
      outs := outs + [farm.Outcome()];
      forall j | 0 <= j <= i
        ensures Prepared(farms[j], outs[j], mode, InputOf(shared, j))
      {
        if j < i {
          assert outs[j] == done[j];
        }
      }
      i := i + 1;
    }
    assert params[..i] == params;
    OutcomesAre(farms, outs, mode, shared);
    return Ok(candidates);
  }

  /** PrepareFarm on farm i, which leaves the other farms as they were. */
  method PrepareNext(farms: seq<SolarFarm>, i: nat, mode: string, shared: Option<seq<ScenarioInput>>, ghost outs: seq<FarmOutcome>)
    returns (c: Result<seq<Candidate>>)
    requires forall i, j :: 0 <= i < j < |farms| ==> farms[i] != farms[j]
    requires shared.Some? ==> |shared.value| == |farms|
    requires i < |farms| && |outs| == i
    requires forall j :: 0 <= j < i ==> Prepared(farms[j], outs[j], mode, InputOf(shared, j))
    modifies farms[i]
    ensures forall j :: 0 <= j < i ==> Prepared(farms[j], outs[j], mode, InputOf(shared, j))
    ensures forall j :: 0 <= j < |farms| && j != i ==> farms[j].Outcome() == old(farms[j].Outcome())
    ensures shared.None? ==> c.Ok? && farms[i].Outcome() == old(farms[i].Outcome())
    ensures c.Ok? ==> Prepared(farms[i], farms[i].Outcome(), mode, InputOf(shared, i)) &&
                      c.value == CandidateOf(farms[i].Params(), farms[i].Outcome(), mode)
    ensures c.Failure? ==> c.error == ZeroDivisionError
  {
    var farm := farms[i];
    c := PrepareFarm(farm, mode, if shared.Some? then Some(shared.value[i]) else None);
    forall j | 0 <= j < |farms| && j != i
      ensures farms[j].Outcome() == old(farms[j].Outcome())
      ensures j < i ==> Prepared(farms[j], outs[j], mode, InputOf(shared, j))
    {
      assert farms[j] != farm;
    }
  }

  /** Once every farm is prepared, the outcomes the loop collected are the
      farms' outcomes. */
  lemma OutcomesAre(farms: seq<SolarFarm>, outs: seq<FarmOutcome>, mode: string, shared: Option<seq<ScenarioInput>>)
    requires |outs| == |farms| && (shared.Some? ==> |shared.value| == |farms|)
    requires forall j :: 0 <= j < |farms| ==> Prepared(farms[j], outs[j], mode, InputOf(shared, j))
    ensures OutcomesOf(farms) == outs
  {
  }

  /** The shared input of farm j, when there is shared data. */
  function InputOf(shared: Option<seq<ScenarioInput>>, j: nat): Option<ScenarioInput>
    requires shared.Some? ==> j < |shared.value|
  {
    if shared.Some? then Some(shared.value[j]) else None
  }

  /** A farm the loop has handled: it holds outcome o, the optimization
      value of o, and o is its evaluation when there is shared data. */
  predicate Prepared(farm: SolarFarm, o: FarmOutcome, mode: string, input: Option<ScenarioInput>)
    reads farm
  {
    farm.Outcome() == o && farm.optimizationValue == OptimizationValue(mode, o) &&
    (input.Some? ==> Evaluation(farm.Params(), input.value) == Ok(o))
  }

  /** Candidates of one more farm appends that farm's candidate. */
  lemma CandidatesSnoc(ps: seq<FarmParams>, i: nat, outs: seq<FarmOutcome>, o: FarmOutcome, mode: string)
    requires i < |ps| && |outs| == i
    ensures Candidates(ps[..i + 1], outs + [o], mode) == Candidates(ps[..i], outs, mode) + CandidateOf(ps[i], o, mode)
  {
    assert ps[..i + 1][..i] == ps[..i];
    assert (outs + [o])[..i] == outs;
  }

  /** One farm of the loop: its evaluation when there is shared data, its
      optimization value, and whether it becomes a candidate. */
  method PrepareFarm(farm: SolarFarm, mode: string, input: Option<ScenarioInput>) returns (r: Result<seq<Candidate>>)
    modifies farm
    ensures input.Some? ==> (r.Failure? <==> Evaluation(farm.Params(), input.value).Failure?)
    ensures input.Some? && r.Ok? ==> Evaluation(farm.Params(), input.value) == Ok(farm.Outcome())
    ensures input.None? ==> r.Ok? && farm.Outcome() == old(farm.Outcome())
    ensures r.Ok? ==> farm.optimizationValue == OptimizationValue(mode, farm.Outcome()) &&
                      r.value == CandidateOf(farm.Params(), farm.Outcome(), mode)
    ensures r.Failure? ==> r.error == ZeroDivisionError
  {
    if input.Some? {
      var e := farm.EvaluateCleaningOpportunity(input.value);
      if e.Failure? {
        return Failure(e.error);
      }
    }
    if mode == ModeCarbon {
      farm.optimizationValue := farm.co2Saved * CarbonPriority;
    } else {
      farm.optimizationValue := farm.netBenefit;
    }
    if farm.action == Clean && farm.optimizationValue > 0.0 {
      return Ok([Candidate(farm.name, farm.waterUsage, farm.optimizationValue, farm.netBenefit, farm.energyRecovered, farm.co2Saved)]);
    }
    return Ok([]);
  }

  /** The knapsack call and the totals loop over the selected farms. */
  method DecideCandidates(candidates: seq<Candidate>, effectiveBudget: real) returns (r: Result<Decision>)
    ensures r == Decide(candidates, effectiveBudget)
    ensures r.Failure? ==> r.error == IndexError
  {
    var sol := SolveKnapsack(Usages(candidates), Values(candidates), effectiveBudget);
    if sol.Failure? {
      return Failure(sol.error);
    }
    var selectedFarms := Greedy.Permuted(candidates, sol.value.selected);
    var selectedSet := Names(selectedFarms);
    var deferredFarms := Deferred(candidates, selectedSet);
    var waterUsed, totalBenefit, totalEnergy, totalCo2 := SumSelected(selectedFarms);
    var optEff := if waterUsed > 0.0 then totalEnergy / waterUsed else 0.0;
    assert optEff == WaterEfficiency(totalEnergy, waterUsed);
    return Ok(Decision(selectedFarms, deferredFarms, waterUsed, totalBenefit, totalEnergy, totalCo2, optEff));
  }

  /** The totals loop over the selected farms, last to first. */
  method SumSelected(selectedFarms: seq<Candidate>) returns (waterUsed: real, totalBenefit: real, totalEnergy: real, totalCo2: real)
    ensures waterUsed == TotalWater(selectedFarms) && totalBenefit == TotalBenefit(selectedFarms)
    ensures totalEnergy == TotalEnergy(selectedFarms) && totalCo2 == TotalCo2(selectedFarms)
  {
    waterUsed, totalBenefit, totalEnergy, totalCo2 := 0.0, 0.0, 0.0, 0.0;
    var k := |selectedFarms|;
    while k > 0
      invariant 0 <= k <= |selectedFarms|
      invariant waterUsed == TotalWater(selectedFarms[k..]) && totalBenefit == TotalBenefit(selectedFarms[k..])
      invariant totalEnergy == TotalEnergy(selectedFarms[k..]) && totalCo2 == TotalCo2(selectedFarms[k..])
    {
      k := k - 1;
      assert selectedFarms[k..][1..] == selectedFarms[k + 1..];
      var f := selectedFarms[k];
      waterUsed := f.waterUsage + waterUsed;
      totalBenefit := f.netBenefit + totalBenefit;
      totalEnergy := f.energyRecovered + totalEnergy;
      totalCo2 := f.co2Saved + totalCo2;
    }
    assert selectedFarms[0..] == selectedFarms;
  }

  // ---------------------------------------------------------------------
  // Properties of the decision

  /** The selected farms' water, summed in selection order, is the sum of
      the usages at the knapsack's positions. */
  lemma {:induction false} WaterOfPick(cs: seq<Candidate>, positions: seq<nat>)
    requires forall k :: 0 <= k < |positions| ==> positions[k] < |cs|
    ensures TotalWater(Greedy.Permuted(cs, positions)) == ValueAt(Usages(cs), positions)
  {
    if |positions| > 0 {
      WaterOfPick(cs, positions[1..]);
      assert Greedy.Permuted(cs, positions)[1..] == Greedy.Permuted(cs, positions[1..]);
    }
  }

  function TotalValue(cs: seq<Candidate>): real
  {
    if |cs| == 0 then 0.0 else cs[0].value + TotalValue(cs[1..])
  }

  lemma {:induction false} ValueOfPick(cs: seq<Candidate>, positions: seq<nat>)
    requires forall k :: 0 <= k < |positions| ==> positions[k] < |cs|
    ensures TotalValue(Greedy.Permuted(cs, positions)) == ValueAt(Values(cs), positions)
  {
    if |positions| > 0 {
      ValueOfPick(cs, positions[1..]);
      assert Greedy.Permuted(cs, positions)[1..] == Greedy.Permuted(cs, positions[1..]);
    }
  }

  /** With whole-litre usages and a non-negative budget the reported water
      never exceeds the budget: the raw usages are then the rounded weights
      the knapsack bounds by the truncated budget. */
  lemma DecisionWithinBudget(cs: seq<Candidate>, budget: real)
    requires forall k :: 0 <= k < |cs| ==> cs[k].waterUsage == cs[k].waterUsage.Floor as real
    requires budget >= 0.0
    requires Decide(cs, budget).Ok?
    ensures Decide(cs, budget).value.waterUsed <= budget
  {
    if |cs| > 0 {
      var sol := Solve(Usages(cs), Values(cs), budget).value;
      SolveIsOptimal(Usages(cs), Values(cs), budget);
      WaterOfPick(cs, sol.selected);
      IntegralWater(Usages(cs), sol.selected);
    }
  }

  /** The selected farms reach the knapsack optimum: no choice of
      candidates whose rounded usages fit the truncated budget has more
      total optimization value. */
  lemma DecisionIsOptimal(cs: seq<Candidate>, budget: real, c: seq<bool>)
    requires Decide(cs, budget).Ok?
    requires |c| == |cs| && ChoiceWeight(Weights(Usages(cs)), c) <= Trunc(budget)
    ensures ChoiceValue(Values(cs), c) <= TotalValue(Decide(cs, budget).value.selected)
  {
    var sol := Solve(Usages(cs), Values(cs), budget).value;
    SolveIsOptimal(Usages(cs), Values(cs), budget);
    ValueOfPick(cs, sol.selected);
  }

  /** The deferred farms are exactly the candidates whose name was not
      selected, and every selected farm is a candidate. */
  lemma DeferredAreUnselectedCandidates(cs: seq<Candidate>, budget: real)
    requires Decide(cs, budget).Ok?
    ensures var d := Decide(cs, budget).value;
            (forall x :: x in d.deferred <==> x in cs && forall k :: 0 <= k < |d.selected| ==> d.selected[k].name != x.name) &&
            (forall k :: 0 <= k < |d.selected| ==> d.selected[k] in cs)
  {
    var d := Decide(cs, budget).value;
    forall x | x in cs && x.name in Names(d.selected)
      ensures exists k :: 0 <= k < |d.selected| && d.selected[k].name == x.name
    {
    }
  }

  /** No water used means an efficiency of 0; otherwise it is the energy
      per litre. */
  lemma EfficiencyPerLitre(energy: real, water: real)
    ensures water <= 0.0 ==> WaterEfficiency(energy, water) == 0.0
    ensures water > 0.0 ==> WaterEfficiency(energy, water) * water == energy
  {
  }

  /** When every candidate saves 0.7 kg of CO2 per kWh, as an evaluation
      sets it, so does the whole selection. */
  lemma {:induction false} Co2OfSelection(cs: seq<Candidate>)
    requires forall c :: c in cs ==> c.co2Saved == CarbonPerKwh * c.energyRecovered
    ensures TotalCo2(cs) == CarbonPerKwh * TotalEnergy(cs)
  {
    if |cs| > 0 {
      Co2OfSelection(cs[1..]);
    }
  }

  /** Candidates made from evaluated farms save 0.7 kg of CO2 per kWh. */
  lemma {:induction false} CandidatesCarryEvaluationCo2(ps: seq<FarmParams>, outs: seq<FarmOutcome>, mode: string)
    requires |ps| == |outs|
    requires forall i :: 0 <= i < |outs| ==> outs[i].co2Saved == CarbonPerKwh * outs[i].energyRecovered
    ensures forall c :: c in Candidates(ps, outs, mode) ==> c.co2Saved == CarbonPerKwh * c.energyRecovered
  {
    if |ps| > 0 {
      var n := |ps| - 1;
      CandidatesCarryEvaluationCo2(ps[..n], outs[..n], mode);
      var last := CandidateOf(ps[n], outs[n], mode);
      assert Candidates(ps, outs, mode) == Candidates(ps[..n], outs[..n], mode) + last;
    } else {
      assert Candidates(ps, outs, mode) == [];
    }
  }

  /** No candidates: nothing selected, nothing deferred, all totals 0. */
  lemma NoCandidates(budget: real)
    ensures Decide([], budget) == Ok(Decision([], [], 0.0, 0.0, 0.0, 0.0, 0.0))
  {
    assert Greedy.Permuted<Candidate>([], []) == [];
  }

  /** WATER_SCARCITY solves with 70% of a non-negative budget, every other
      mode with all of it; CARBON ranks farms by CO2 saved. */
  lemma ModeSettings(budget: real, mode: string, o: FarmOutcome)
    ensures mode == ModeWaterScarcity ==> EffectiveBudget(budget, mode) == 0.7 * budget
    ensures mode != ModeWaterScarcity ==> EffectiveBudget(budget, mode) == budget
    ensures budget >= 0.0 ==> EffectiveBudget(budget, mode) <= budget
    ensures mode == ModeCarbon ==> OptimizationValue(mode, o) == 10.0 * o.co2Saved
    ensures mode != ModeCarbon ==> OptimizationValue(mode, o) == o.netBenefit
  {
  }
}
