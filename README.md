# SolarOS cleaning-decision core in Dafny

This project models the decision and allocation logic of SolarOS, a system
that decides when to wash dusty solar panels and how to share a water
budget between farms and between sections of one farm. It covers four
groups of code under `ml/`.

- **Soiling and efficiency.** The hourly dust state machine of
  `calculate_energy_metrics` adds dust each hour, resets it on cleaning
  dates, washes it with rain and caps it. The loss terms are clamped and
  multiplied into an effective efficiency, which gives ideal, actual and
  recoverable energy. This group also covers the piecewise shading,
  mismatch and aging losses and the rain-wash rule.
- **Single-site scheduling.**
  - The forward dynamic program over (day, dirty days) with its parent
    dictionary and backtrack.
  - The P10/P50/P90 schedule evaluator.
  - The first-window-above-cost search and the scenario comparison.
  - The rain WAIT/PROCEED advice.
  - The clamped sustainability score (SSES).
- **Allocation under a water budget.**
  - The exact 0/1 knapsack of the multi-farm optimizer, with its mode
    handling.
  - The greedy by-score portfolio selection of the `/optimize-farms`
    handler.
  - The greedy by-ROI section selection of the section optimizer.
- **Bookkeeping.** The bounded prediction buffer with its drift check,
  and the retraining history of the adaptive learner.

Python floats are modelled as `real`, and numpy's minus infinity as the
`NegInf` case of `ExtReal`. Pandas frames become sequences of records, and
timestamps become whole hours, so a row's date is its hour count divided by
24. Python exceptions that the code raises on its inputs are modelled as a
`Failure` result. These are the `IndexError` on an empty frame, the
`ZeroDivisionError`s of divisions by a Python float zero, and the
`KeyError`s of missing columns. The two divisions by zero in the portfolio
handler are an exception to this. There numpy floats divide, and the
source yields an infinity or NaN rather than raising; the model reports
these cases as a `ZeroDivisionError` failure as well (see "## Left out"). Python's `round` is modelled as
round-half-to-even and `int` as truncation toward zero.

Code that changes state step by step is modelled as Dafny methods with
loops. These are:
- the schedule DP over a two-dimensional array and a parent map;
- the evaluator loop;
- the dust loop writing an array;
- the knapsack table fill and backtrack;
- the greedy loops;
- the grid generation;
- the `SolarFarm`, `FarmSection`, `ModelMonitor` and `AdaptiveLearner`
  classes, whose fields are updated in place.

Each method is proved equal to a specification function. The source's
promises are proved about those functions as lemmas.

One might expect a larger water budget only to add farms to a greedy
selection. The greedy scans of ml/api.py:242-251 and
ml/section_optimizer.py:158-165 do not behave that way.
`Greedy.SelectionNotMonotoneInBudget` shows two items where one more litre
of budget swaps the selected item. Section ids
"S{row}{col}" are unique only while both indices are below 10.
`SectionOptimizer.SectionIdsCollideOnWideGrids` shows "S111" being produced
by both (1, 11) and (11, 1).

## Model

| member | source | states |
|---|---|---|
| LossModel.ShadingLoss | ml/advanced_loss_model.py:5-44 | outside 6h-18h the loss is total (1.0); from 6h to 18h it lies in [0, 0.5]; within 4 hours of noon it is 0 |
| LossModel.ShadingNoonAndSunrise | ml/advanced_loss_model.py:31-44 | noon has no shading loss; hours 6 and 18 lose exactly 0.5 |
| LossModel.ShadingSymmetric | ml/advanced_loss_model.py:31 | the shading loss is symmetric about noon |
| LossModel.ShadingGrowsAwayFromNoon | ml/advanced_loss_model.py:38-44 | over the daylight hours the loss never decreases with the distance from noon |
| LossModel.MismatchLoss | ml/advanced_loss_model.py:46-67 | no light gives no mismatch; the loss never exceeds 0.10; for positive light it is at least the rated mismatch (when that is at most 0.10) |
| LossModel.MismatchDefaultRange | ml/advanced_loss_model.py:46-67 | with the default rating the loss lies in [0, 0.10] for every irradiance |
| LossModel.MismatchAtHundred | ml/advanced_loss_model.py:58-67 | 100 W/m2 with the default rating loses 0.035 |
| LossModel.MismatchBright | ml/advanced_loss_model.py:56-67 | at or above 200 W/m2 the loss is the rated mismatch capped at 0.10, the same as at 200 |
| LossModel.MismatchNonIncreasing | ml/advanced_loss_model.py:56-67 | for positive light, more light never increases the mismatch |
| LossModel.AgingLoss | ml/advanced_loss_model.py:69-79 | for non-negative years and rate, the aging loss lies between 0 and years times rate |
| LossModel.AgingUnknownIsLinear | ml/advanced_loss_model.py:78-91 | any model name other than bath_tub ages exactly like the linear model |
| RainModel.RainReduction | ml/rain_model.py:24-25 | the wash fraction is at most 0.95 and is non-negative for non-negative rain |
| RainModel.ApplyRainCleaning | ml/rain_model.py:10-27 | for non-negative dust and rain, washing keeps between 5% and 100% of the dust |
| RainModel.WindowRows | ml/rain_model.py:48-53 | the window holds only rows of the frame timed in [start, end), start inclusive and end exclusive, and every such row |
| RainModel.WindowRowsCounts | ml/rain_model.py:48-53 | each row timed in [start, end) occurs in the window as often as in the frame, and no other row occurs |
| RainModel.WindowRowsSplit | ml/rain_model.py:48-53 | the mask keeps the frame's order: masking a concatenation joins the masks of its parts |
| RainModel.CheckRainForecastWait | ml/rain_model.py:29-81 | with no precipitation column the advice is a plain "no data" message; it fails exactly when no current time is given and the frame is empty; it advises waiting iff its reason is a WAIT reason |
| RainModel.WaitIffRainReachesThreshold | ml/rain_model.py:59-79 | the advice is WAIT iff the window's rain reaches the threshold; a WAIT carries the reduction, 0.5 L saved per mm and the boost of 100 times the reduction |
| RainModel.WaitSavesWater | ml/rain_model.py:61-68 | with a positive threshold every WAIT saves a positive amount of water |
| RainModel.DailyForecastExampleWaits | ml/verify_solaros_v3.py:22-29 | daily rain 0, 3.5, 0, 0, 0 from day 0 with a two-day window gives WAIT |
| Degradation.HourlyRateFromPeriod | ml/degradation_model.py:69 | the hourly dust rate accumulates 0.15 over 720 hours |
| Degradation.RainKeep | ml/degradation_model.py:101-102 | the share of dust that rain leaves is at least 0.05 and, in rain above 0.1 mm, at most 1 |
| Degradation.Washed | ml/degradation_model.py:97-102 | rain never adds dust or makes it negative; rain of at most 0.1 mm leaves it as it was |
| Degradation.DustStep | ml/degradation_model.py:84-105 | one hour keeps the dust within [0, 1], and a cleaning-date row ends with no dust |
| Degradation.DustAfter | ml/degradation_model.py:79-106 | the dust after any number of hours lies in [0, 1] |
| Degradation.DustLevels | ml/degradation_model.py:65-110 | the loop writes, for each row, the dust after that row's step |
| Degradation.RainWashIsApplyRainCleaning | ml/degradation_model.py:98-102 | a rainy step is the rain-model wash of the accumulated dust, capped at 1 |
| Degradation.CleaningRowsAreClean | ml/degradation_model.py:93-94 | every row on a cleaning date has dust 0 |
| Degradation.DustLinearWhenDry | ml/degradation_model.py:85-105 | with no cleaning and no rain, dust after n hours is min(n times the hourly rate, 1) |
| Degradation.DustMonotoneWhenDry | ml/degradation_model.py:85-105 | with no cleaning and no rain dust never decreases, and it is 0.15 after 720 hours |
| Degradation.TemperatureLossRaw | ml/degradation_model.py:53-54 | the raw temperature loss lies in [0, 1] |
| Degradation.YearsSince | ml/degradation_model.py:114-115 | the panel age is never negative |
| Degradation.AgingLossRaw | ml/degradation_model.py:124-130 | the raw aging loss lies in [0, 1] |
| Degradation.EfficiencyWithinBase | ml/degradation_model.py:153-161 | with every loss in [0, 1], the effective efficiency lies between 0 and the base efficiency |
| Degradation.RowMetricsOf | ml/degradation_model.py:144-180 | stored dust is the loop dust capped at 0.30; temperature, aging, mismatch and shading losses stay within their caps; efficiency is between 0 and base; recoverable is ideal minus actual |
| Degradation.RecoverableNonNegative | ml/degradation_model.py:175-180 | with non-negative irradiance and area, the recoverable energy is never negative |
| Degradation.RecoverableRule | ml/degradation_model.py:175-180 | the recoverable energy of a row is irradiance times area times the lost efficiency, per 1000 |
| Degradation.TemperatureLossRule | ml/degradation_model.py:53-54 | above 25 C the temperature loss is 0.004 per degree, capped at 0.15, and 0 otherwise |
| Degradation.AgingLossRule | ml/degradation_model.py:128-150 | the aging loss is 0.005 per year of age, capped at 0.05 |
| Degradation.UnitProduct | ml/degradation_model.py:153-161 | two shares in [0, 1] multiply to a share, which is 1 exactly when both are 1 |
| Degradation.KeptShareRule | ml/degradation_model.py:153-161 | with every loss in [0, 1] the kept share lies in [0, 1] and is 1 exactly when every loss is 0 |
| Degradation.EfficiencyFallsWithDust | ml/degradation_model.py:153-161 | more dust never raises the effective efficiency |
| Degradation.EnergyGrowsWithEfficiency | ml/degradation_model.py:172-176 | with non-negative irradiance and area, hourly energy is non-negative and grows with the efficiency |
| Degradation.DustLowersOutput | ml/degradation_model.py:144-180 | for one hour, a dirtier panel has no higher efficiency, no more actual energy and no less recoverable energy |
| Degradation.HealthScoreRule | ml/degradation_model.py:153-170 | the health score lies in [0, 1] and is 1 exactly when the stored dust and every clamped loss are 0 |
| Degradation.ActualWithinIdeal | ml/degradation_model.py:172-176 | with non-negative irradiance and area, actual energy lies between 0 and the ideal energy |
| Degradation.EnergyMetricsOf | ml/degradation_model.py:5-182 | one metrics row per hour, each computed from that hour's loop dust |
| Degradation.CalculateEnergyMetrics | ml/degradation_model.py:5-182 | an empty frame fails with IndexError (the first row is read); otherwise the result is the metrics of every row |
| Degradation.EnergyMetricsProperties | ml/degradation_model.py:93-180 | every cleaning-date row has stored dust 0, and with non-negative area and irradiance every row's recoverable energy is non-negative |
| ScenarioAnalysis.ScanDays | ml/scenario_analysis.py:58-70 | the loop returns the first-match search from day 1 |
| ScenarioAnalysis.GetRecommendedCleaningDay | ml/scenario_analysis.py:37-70 | the scan returns the first day whose projected window value exceeds the cost; every earlier day fails; nothing is returned only when no day qualifies or the data is too short |
| ScenarioAnalysis.FirstQualifyingIsLeast | ml/scenario_analysis.py:59-70 | a found day qualifies and every day scanned before it does not |
| ScenarioAnalysis.ValueMonotoneInWeight | ml/scenario_analysis.py:63-66 | with non-negative energy and carbon factor, a larger carbon weight never lowers the projected value |
| ScenarioAnalysis.PySlice | ml/scenario_analysis.py:60 | a slice with bounds inside the data is the plain sub-sequence, and a negative stop counts from the end |
| ScenarioAnalysis.WindowKwhNonNegative | ml/scenario_analysis.py:60 | a window of non-negative daily energies sums to a non-negative amount, for any horizon |
| ScenarioAnalysis.NegativeWindowWraps | ml/scenario_analysis.py:60 | with ten days and a horizon of -2, day 1's window is days 1 to 8, as pandas' iloc[1:-1] |
| ScenarioAnalysis.RecommendedDayIsBucket | ml/scenario_analysis.py:59-70 | with a positive horizon the recommended position is a daily bucket, so its date lookup succeeds |
| ScenarioAnalysis.FirstQualifyingEarlierWithWeight | ml/scenario_analysis.py:59-69 | raising the carbon weight finds a day no later than before |
| ScenarioAnalysis.RecommendedDayEarlierWithWeight | ml/scenario_analysis.py:59-69 | raising the carbon weight keeps a recommendation and makes it no later |
| ScenarioAnalysis.ShortDataRecommendsNothing | ml/scenario_analysis.py:49-57 | with fewer than projection days plus one daily buckets there is no recommendation |
| ScenarioAnalysis.ComputeComparison | ml/scenario_analysis.py:90-143 | additional energy closes the gap between the two scenarios; percentages are 0 for non-positive denominators; carbon saved is the additional energy times the carbon factor; net gain is the projected value less cost; water efficiency and the 1 MW scale divide only by positive amounts |
| ScenarioAnalysis.NetGainIffPaysForCleaning | ml/scenario_analysis.py:122-132 | the net gain is positive iff the extra energy's value exceeds the cleaning cost |
| ScenarioAnalysis.NoExtraEnergyLosesCost | ml/scenario_analysis.py:109-132 | comparing a scenario with itself loses exactly the cleaning cost |
| Sustainability.Sses | ml/intelligence_core.py:20-33 | the score always lies in [0, 100], and equals the weighted raw score when that is in range |
| Sustainability.SsesNeutral | ml/intelligence_core.py:31-32 | all-zero inputs score 50 |
| Sustainability.SsesMonotone | ml/intelligence_core.py:26-33 | more energy or carbon and less water or cost never lower the score |
| Sustainability.BackendInlineSses | backend/main.py:145-151 | the backend's inline score equals the score of ml/intelligence_core.py on the same arguments |
| SectionOptimizer.FarmSection.constructor | ml/section_optimizer.py:21-37 | a section starts with its given geometry and all loss, cost and priority fields at 0 |
| SectionOptimizer.SectionShading | ml/section_optimizer.py:76-78 | shading is at least 0.7, and an edge section carries the 0.05 penalty |
| SectionOptimizer.SectionDustMultiplier | ml/section_optimizer.py:82-84 | the dust multiplier lies in [0.8, 1.5] |
| SectionOptimizer.GridAreaSum | ml/section_optimizer.py:68-69 | equal shares of the farm area add up to the farm area |
| SectionOptimizer.GenerateGridRow | ml/section_optimizer.py:73-98 | one row of the grid: cols fresh sections of equal area with their row, column, id, shading and dust drawn as specified |
| SectionOptimizer.GenerateFarmGrid | ml/section_optimizer.py:56-100 | an empty grid shape fails with ZeroDivisionError; otherwise rows times cols fresh sections in row-major order whose areas sum to the farm area |
| SectionOptimizer.GenerateRows | ml/section_optimizer.py:72-98 | on a grid with rows and columns, rows times cols fresh sections, the k-th at row k / cols and column k % cols with the k-th draw |
| SectionOptimizer.RowAppended | ml/section_optimizer.py:72-98 | appending a row after the rows before it keeps every section at its row-major position |
| SectionOptimizer.SectionIdsUniqueOnSmallGrids | ml/section_optimizer.py:90 | on grids up to 10 by 10 different positions get different ids |
| SectionOptimizer.SectionIdsCollideOnWideGrids | ml/section_optimizer.py:90 | positions (1, 11) and (11, 1) both get the id "S111" |
| SectionOptimizer.SectionCleaningCost | ml/section_optimizer.py:128 | cleaning costs 25 per 1000 m2, never negative for a non-negative area |
| SectionOptimizer.SectionRoi | ml/section_optimizer.py:131-135 | a section that costs nothing has ROI 0 |
| SectionOptimizer.RoiIsValuePerCost | ml/section_optimizer.py:131-135 | for a positive cost the ROI times the cost is the lost energy's value |
| SectionOptimizer.RoiOrdersByLoss | ml/section_optimizer.py:128-138 | among sections of the same area, a larger loss never gets a lower ROI |
| SectionOptimizer.CalculateSectionEnergyLossAsWritten | ml/section_optimizer.py:114-123 | as written the method sets the loss and then fails with KeyError, leaving the other fields unchanged |
| SectionOptimizer.LossPercentOfPotential | ml/section_optimizer.py:124-125 | the loss percentage is the loss as a share of the potential energy |
| SectionOptimizer.CalculateSectionEnergyLoss | ml/section_optimizer.py:103-140 | given the potential energy, the section's loss, loss percent, cost, ROI and priority (equal to the ROI) |
| SectionOptimizer.WaterNeed | ml/section_optimizer.py:161 | a section needs 500 L per 100 m2 |
| SectionOptimizer.SectionWaterWithinBudget | ml/section_optimizer.py:159-166 | the water used stays within a non-negative budget |
| SectionOptimizer.SectionWaterIsSelectedNeeds | ml/section_optimizer.py:159-166 | the water reported is the sum of the needs of the selected sections |
| SectionOptimizer.SelectedByPriority | ml/section_optimizer.py:154-166 | the selected sections are listed in descending priority |
| SectionOptimizer.SelectedAreGiven | ml/section_optimizer.py:159-166 | every selected section is one of the inputs |
| SectionOptimizer.SectionVisitStep | ml/section_optimizer.py:159-166 | one visit adds the section and its need exactly when the need still fits the remaining budget |
| SectionOptimizer.ScanSections | ml/section_optimizer.py:157-166 | the loop ends with the greedy selection over the visiting order and the water it uses |
| SectionOptimizer.OptimizeSectionCleaning | ml/section_optimizer.py:143-168 | the loop returns the greedy selection and its water; it stays within a non-negative budget and lists the sections in descending priority |
| Greedy.SortOrderCorrect | ml/section_optimizer.py:154 | the sort order is a permutation of the indices, descending by key, with ties kept in input order (a stable sort) |
| Greedy.SelectionIsTaken | ml/section_optimizer.py:159-166 | an item is selected iff the running total plus its need fits the budget when it is reached; the selection lists items in visiting order |
| Greedy.UsedIsSumOfSelected | ml/section_optimizer.py:159-166 | the water used is the sum of the selected items' needs |
| Greedy.UsedWithinBudget | ml/section_optimizer.py:163-165 | for a non-negative budget the water used never exceeds the budget |
| Greedy.ZeroNeedAlwaysTaken | ml/section_optimizer.py:159-166 | with a non-negative budget, an item needing no water is always taken |
| Greedy.SkippedItemDoesNotStopScan | ml/section_optimizer.py:159-166 | an item too large for the budget is skipped and a later smaller one is still taken |
| Greedy.SelectionNotMonotoneInBudget | ml/api.py:244-251 | raising the budget from 9 to 10 drops the item selected before |
| PortfolioApi.ModeScore | ml/api.py:189-196 | PROFIT scores the net value, CARBON half of it, WATER_SCARCITY the net per litre plus one (failing only on a zero divisor), and any other mode 0 |
| PortfolioApi.ScoringFailsIff | ml/api.py:153-204 | scoring the farms fails iff some farm's mode score divides by zero |
| PortfolioApi.RoiInsights | ml/api.py:209-217 | an ROI insight appears only for a positive cost and a P50 ROI above 20 |
| PortfolioApi.DustInsights | ml/api.py:219-225 | a dust insight appears iff the farm's dust rate is more than one standard deviation from the mean; it is high soiling iff above the mean |
| PortfolioApi.ZScoreBeyondOne | ml/api.py:221-225 | a z-score beyond one is a deviation beyond one standard deviation |
| PortfolioApi.RainInsights | ml/api.py:229-236 | a rain insight appears only when the first cleaning is more than two days out and more than 5 mm of rain falls before it; it offers the cleaning and water cost as savings |
| PortfolioApi.SingleFarmHasNoDustInsight | ml/api.py:147-149 | a single farm, with the default deviation 1.0, never gets a dust insight |
| PortfolioApi.TotalsFollowScan | ml/api.py:242-251 | the loop selects exactly the farms the greedy scan takes, in order, and fails exactly when a taken farm has price 0 |
| PortfolioApi.TotalsFailureStays | ml/api.py:250 | once the totals fail with ZeroDivisionError they stay failed |
| PortfolioApi.SelectPortfolio | ml/api.py:242-253 | the greedy loop computes the budgeted totals |
| PortfolioApi.SortedResultsByScore | ml/api.py:240 | the results are sorted by score, descending and stable |
| PortfolioApi.SortedResultsPermute | ml/api.py:240 | sorting keeps every result |
| PortfolioApi.FirstInsights | ml/api.py:257 | at most the first four insights are returned, in order |
| PortfolioApi.ScoredFailureStays | ml/api.py:153-204 | once scoring fails it stays failed for the later farms |
| PortfolioApi.ScoreOf | ml/api.py:189-196 | the scoring branch computes the mode score |
| PortfolioApi.ScoreFarms | ml/api.py:153-237 | the per-farm loop computes the scored entries and their insights |
| PortfolioApi.OptimizeFarmPortfolio | ml/api.py:147-257 | the handler's result: scores, the stable sort, the greedy selection and the first four insights, with a deviation of 1.0 for a single farm |
| PortfolioApi.PortfolioWithinBudget | ml/api.py:244-253 | water used stays within a non-negative budget and is the sum of the taken needs; CO2 is 0.7 per kWh; at most four insights |
| PortfolioApi.NoCleaningFarmAlwaysSelected | ml/api.py:202-245 | with a non-negative budget, a farm with no cleanings scheduled is always selected |
| PortfolioApi.ScoredWaterNeeds | ml/api.py:202 | a farm needs its water usage times its number of cleanings |
| Knapsack.Trunc | ml/multi_farm_optimizer.py:243 | int() truncates toward zero |
| Knapsack.RoundHalfEven | ml/multi_farm_optimizer.py:246 | round() is within a half, and ties go to the even integer |
| Knapsack.RoundIntegral | ml/multi_farm_optimizer.py:246 | rounding a whole number returns it |
| Knapsack.Weights | ml/multi_farm_optimizer.py:246 | the weights are the rounded water usages |
| Knapsack.BestIsOptimal | ml/multi_farm_optimizer.py:249-264 | no choice of the first i items within capacity w is worth more than the table cell (i, w) |
| Knapsack.BacktrackSound | ml/multi_farm_optimizer.py:266-275 | the backtrack picks distinct items, latest first, whose weights fit and whose values sum to the table cell |
| Knapsack.BestOfNothing | ml/multi_farm_optimizer.py:238-240 | with no items the value is 0 and nothing is picked |
| Knapsack.Solve | ml/multi_farm_optimizer.py:226-275 | every picked item is one of the candidates |
| Knapsack.SolveIsOptimal | ml/multi_farm_optimizer.py:243-264 | the solution is the 0/1-knapsack optimum over rounded weights within the truncated capacity, and realizes its value |
| Knapsack.IntegralWater | ml/multi_farm_optimizer.py:163 | for whole-litre usages the summed water equals the summed rounded weights |
| Knapsack.GreedyFailureCase | ml/verify_optimizer.py:16-31 | items (10 L, 60), (20 L, 100), (30 L, 120) with budget 50 yield 220 from the last two, beating the 160 a value-first greedy takes |
| Knapsack.SolveKnapsack | ml/multi_farm_optimizer.py:226-275 | the array solver returns the specified solution |
| Knapsack.FillTable | ml/multi_farm_optimizer.py:251-262 | every table cell holds the best value of its prefix and capacity |
| Knapsack.RowFill | ml/multi_farm_optimizer.py:254-262 | one row of the table is filled with best values, earlier rows kept |
| Knapsack.TraceBack | ml/multi_farm_optimizer.py:266-275 | the decrementing backtrack over the table returns the specified selection |
| MultiFarm.Evaluation | ml/multi_farm_optimizer.py:55-105 | with no recommended day the farm waits with everything at 0; otherwise it cleans with CO2 0.7 per kWh; it fails only on zero water usage |
| MultiFarm.EfficiencyIsBenefitPerLitre | ml/multi_farm_optimizer.py:98 | a cleaning farm's efficiency is its net benefit per litre |
| MultiFarm.SolarFarm.constructor | ml/multi_farm_optimizer.py:16-48 | a farm starts with its parameters and a zero WAIT outcome |
| MultiFarm.SolarFarm.EvaluateCleaningOpportunity | ml/multi_farm_optimizer.py:55-105 | the farm's outcome fields become the evaluation; on a zero divisor it fails with the action already set to CLEAN |
| MultiFarm.CandidateOf | ml/multi_farm_optimizer.py:138-153 | a farm becomes a candidate iff it cleans with positive mode value |
| MultiFarm.Candidates | ml/multi_farm_optimizer.py:131-153 | every candidate has positive value, and there are at most as many as farms |
| MultiFarm.Deferred | ml/multi_farm_optimizer.py:159-160 | deferred are exactly the candidates whose names were not selected |
| MultiFarm.Optimize | ml/multi_farm_optimizer.py:113-167 | the farms are evaluated (or kept when no scenarios are shared) and the decision is the knapsack over the candidates within the mode's budget |
| MultiFarm.EvaluateFarms | ml/multi_farm_optimizer.py:131-153 | the loop updates each farm and returns the candidate list |
| MultiFarm.PrepareFarm | ml/multi_farm_optimizer.py:132-153 | one farm is evaluated, valued for the mode and offered as a candidate |
| MultiFarm.DecideCandidates | ml/multi_farm_optimizer.py:156-167 | the decision step computes the specified decision |
| MultiFarm.WaterOfPick | ml/multi_farm_optimizer.py:163 | the reported water sums the raw usages of the picked candidates |
| MultiFarm.ValueOfPick | ml/multi_farm_optimizer.py:156-166 | the total value sums the picked candidates' values |
| MultiFarm.DecisionWithinBudget | ml/multi_farm_optimizer.py:163 | with whole-litre usages and a non-negative budget the water used stays within the budget |
| MultiFarm.DecisionIsOptimal | ml/multi_farm_optimizer.py:156 | no choice of candidates within the truncated budget is worth more than the selection |
| MultiFarm.DeferredAreUnselectedCandidates | ml/multi_farm_optimizer.py:158-160 | a deferred farm is a candidate not selected, and every selected name belongs to a selected candidate |
| MultiFarm.EfficiencyPerLitre | ml/multi_farm_optimizer.py:167 | water efficiency is energy per litre, and 0 when no water is used |
| MultiFarm.Co2OfSelection | ml/multi_farm_optimizer.py:166 | the total CO2 is 0.7 per kWh of the total energy |
| MultiFarm.CandidatesCarryEvaluationCo2 | ml/multi_farm_optimizer.py:92 | candidates keep the evaluation's 0.7 kg per kWh |
| MultiFarm.NoCandidates | ml/multi_farm_optimizer.py:238-240 | no candidates gives no selection and all totals 0 |
| MultiFarm.ModeSettings | ml/multi_farm_optimizer.py:123-148 | WATER_SCARCITY uses 70% of the budget and others all of it; CARBON values a farm at ten times its CO2, others at its net benefit |
| ScheduleSpec.DayReward | ml/optimization_engine.py:19-27 | revenue plus carbon value, less the cleaning cost exactly on a cleaning day |
| ScheduleSpec.CleaningDayCostsCleaningCost | ml/optimization_engine.py:23-27 | cleaning and not cleaning on the same energy differ by exactly the cleaning cost |
| ScheduleSpec.Efficiency | ml/optimization_engine.py:121-122 | realized efficiency lies in [0.9, 1] and loses 0.5% per dirty day until that floor |
| ScheduleSpec.DaysLeftAfterRain | ml/optimization_engine.py:111-116 | rain never raises the dirty days and strictly lowers a positive count |
| ScheduleSpec.WaitNext | ml/optimization_engine.py:111-119 | WAIT lands in 1..60, at most one more than before; a dry day adds one below the cap; rain never adds to a dirty panel |
| ScheduleSpec.StartRow | ml/optimization_engine.py:61-65 | only dirt 0 is reachable on day 0, with value 0 |
| ScheduleSpec.VisitIsBellman | ml/optimization_engine.py:103-160 | relaxing one state keeps the row sound and makes every allowed move from it covered |
| ScheduleSpec.RelaxedIsBellman | ml/optimization_engine.py:103-160 | after a day's relaxation every finite cell has a sound parent and every allowed move from a reachable state below 60 is covered |
| ScheduleSpec.StackedHolds | ml/optimization_engine.py:129-160 | the parent dictionary holds exactly the per-day parent entries, keyed by (day, dirt) |
| ScheduleSpec.TableBoundsPaths | ml/optimization_engine.py:91-160 | the table cell a schedule ends in is finite and worth at least that schedule |
| ScheduleSpec.BacktrackRealizes | ml/optimization_engine.py:166-176 | the backtrack from a finite cell is a valid schedule ending in that cell and worth exactly its value |
| ScheduleSpec.ArgMax | ml/optimization_engine.py:163-164 | the first index of a maximal cell of the final row |
| ScheduleSpec.CleanDays | ml/optimization_engine.py:169-176 | the recorded days are exactly the cleaning actions of the schedule |
| ScheduleSpec.CleanDaysIncrease | ml/optimization_engine.py:169-176 | the cleaning days come out strictly increasing |
| ScheduleSpec.DirtSinceLastClean | ml/optimization_engine.py:116-119 | along a valid schedule dirt grows by at most one a day since the last cleaning |
| ScheduleSpec.ValidPathsAreSpaced | ml/optimization_engine.py:136-138 | the first cleaning is at least max(min days, 10) days in, and later ones at least that many days after the day following the previous one |
| ScheduleSpec.Schedule | ml/optimization_engine.py:29-182 | the total is the maximum of the final row, reached by some cell, over the whole horizon |
| ScheduleSpec.ScheduleIsOptimal | ml/optimization_engine.py:163-164 | no valid schedule over the horizon is worth more than the returned total |
| ScheduleSpec.ScheduleIsRealized | ml/optimization_engine.py:163-182 | a finite total is the value of a valid schedule whose cleaning days are the returned dates |
| OptimizationEngine.ForecastFrame.RainColumn | ml/optimization_engine.py:40-41 | a missing precipitation column reads as zero rain |
| OptimizationEngine.ForecastFrame.EnergyColumn | ml/optimization_engine.py:68 | one energy value per day (hybrid if present, else actual) |
| OptimizationEngine.ImproveCell | ml/optimization_engine.py:127-129 | a cell and its parent entry change only on strict improvement, and no other row changes |
| OptimizationEngine.RelaxState | ml/optimization_engine.py:103-160 | relaxing one dirt state does the WAIT then the allowed CLEAN update on the next row only |
| OptimizationEngine.RelaxDay | ml/optimization_engine.py:103-160 | one day's loop fills the next row with the relaxed row and its parent entries |
| OptimizationEngine.FillTable | ml/optimization_engine.py:61-160 | the final row and the parent dictionary equal the specified table |
| OptimizationEngine.FillDays | ml/optimization_engine.py:91-160 | from the start row, the day loop leaves the last row equal to the specified table's and the dictionary equal to all days' parent entries |
| OptimizationEngine.AdvanceDay | ml/optimization_engine.py:103-160 | one day turns the still-empty next row into the table's next row, adds its parent entries and leaves later rows empty |
| OptimizationEngine.TraceSchedule | ml/optimization_engine.py:166-176 | the backtrack and reverse give the schedule's cleaning days in increasing order |
| OptimizationEngine.TraceClean | ml/optimization_engine.py:170-173 | a CLEAN parent entry records day-1 and moves to its previous state, keeping the recorded days the tail of the backtracked ones |
| OptimizationEngine.TraceWait | ml/optimization_engine.py:170-173 | a WAIT parent entry only moves to its previous state |
| OptimizationEngine.TraceMissing | ml/optimization_engine.py:170-173 | a state without a parent entry keeps its dirt count one day back |
| OptimizationEngine.OptimizeCleaningSchedule | ml/optimization_engine.py:29-182 | fails with KeyError exactly when the frame has a p90 column but no p10 column; otherwise the result is the DP schedule, optimal over all valid schedules |
| OptimizationEngine.SolveSchedule | ml/optimization_engine.py:60-182 | the result is optimal over all valid schedules, its dates are increasing days within the horizon, and a finite total's dates are spaced |
| OptimizationEngine.DirtAfter | ml/optimization_engine.py:217-227 | a scheduled day resets dirt, a dry day adds one, and rain never adds dirt |
| OptimizationEngine.DirtTrace | ml/optimization_engine.py:216-227 | the dirt used on each day is the dirt after that day's update |
| OptimizationEngine.ReplayDayReward | ml/optimization_engine.py:229-238 | one day's reward at the realized efficiency |
| OptimizationEngine.ScenarioValue | ml/optimization_engine.py:211-241 | the evaluator loop sums the day rewards over the dirt trace |
| OptimizationEngine.CalculateConfidenceIntervals | ml/optimization_engine.py:183-243 | the three totals; a missing P10 or P90 column makes that total equal to P50 |
| OptimizationEngine.ScheduledDays | ml/optimization_engine.py:218 | the number of scheduled days is at most the horizon |
| OptimizationEngine.DayValueCharges | ml/optimization_engine.py:230-238 | a day's value is its cost-free value less the cost on a scheduled day |
| OptimizationEngine.TotalChargesScheduledDays | ml/optimization_engine.py:216-239 | the total charges the cleaning cost once per scheduled day |
| OptimizationEngine.ScheduledDayResetsDirt | ml/optimization_engine.py:218-238 | a scheduled day has dirt 0 and adds its full energy value less the cleaning cost |
| OptimizationEngine.DayValueMonotone | ml/optimization_engine.py:230-238 | with a non-negative price, more potential energy never lowers a day's value |
| OptimizationEngine.TotalMonotone | ml/optimization_engine.py:207-241 | pointwise more energy never lowers the total |
| OptimizationEngine.IntervalsOrdered | ml/optimization_engine.py:207-241 | with P10, P50 and P90 energies ordered pointwise and a non-negative price, the totals are ordered P10, P50, P90 |
| Monitoring.Logged | ml/monitoring.py:45-47 | the new value goes at the end; the oldest value is dropped only when the buffer was full |
| Monitoring.Window | ml/monitoring.py:45-47 | the window holds at most 1000 values, all of a short history, and the last 1000 of a long one |
| Monitoring.WindowStep | ml/monitoring.py:45-47 | logging a value into the window of a history gives the window of the longer history |
| Monitoring.Drift | ml/monitoring.py:49-70 | fewer than 10 values give no drift and confidence 0; otherwise drift iff the mean is more than 15% off 1000, with confidence 0.95 when detected and 0.8 when not |
| Monitoring.BaselineIsStable | ml/monitoring.py:58-70 | a buffer at the baseline shows no drift |
| Monitoring.ModelMonitor.constructor | ml/monitoring.py:16-19 | a monitor starts with an empty buffer |
| Monitoring.ModelMonitor.LogInference | ml/monitoring.py:21-47 | the buffer stays the last 1000 logged values (a missing energy logs 0); a line is written only when the write succeeds, with action UNKNOWN by default |
| Monitoring.ModelMonitor.CheckDrift | ml/monitoring.py:49-70 | the drift check reads the buffer without changing it |
| Feedback.Version | ml/feedback_loop.py:57 | every version name starts with "v3." |
| Feedback.VersionInjective | ml/feedback_loop.py:57 | different retraining counts give different version names |
| Feedback.Mape | ml/feedback_loop.py:24-25 | the error is never negative; for a positive actual it is the absolute miss as a percentage of it; otherwise 0 |
| Feedback.RetrainIffTenPercentMiss | ml/feedback_loop.py:24-31 | retraining fires iff the prediction misses a positive actual by more than a tenth of it |
| Feedback.StatusOf | ml/feedback_loop.py:61-64 | an empty history reports "Model Stable (v3.0)"; otherwise the last record's date and version |
| Feedback.NumberedVersionsDistinct | ml/feedback_loop.py:53-58 | a history numbered by the learner never repeats a version |
| Feedback.AdaptiveLearner.constructor | ml/feedback_loop.py:16-18 | a learner starts with an empty history |
| Feedback.AdaptiveLearner.TriggerRetraining | ml/feedback_loop.py:45-59 | exactly one successful record is appended with the next version, and the status reports it |
| Feedback.AdaptiveLearner.SubmitFeedback | ml/feedback_loop.py:20-43 | the error is returned on both paths; retraining is triggered iff it exceeds 10%; acceptance leaves the history unchanged |
| Feedback.AdaptiveLearner.RetrainingStatus | ml/feedback_loop.py:61-64 | the status line of the current history |

## Left out

- LossModel.AgingLoss: the bath_tub branch (ml/advanced_loss_model.py:81-89) uses `exp`, which has no exact counterpart over the reals here, so callers may not pass that model name.
- MultiFarm.DecisionWithinBudget: holds only for whole-litre usages, because the knapsack rounds each usage to a weight while the reported water sums the raw usages.
- PortfolioApi.OptimizeFarmPortfolio: the square root of the dust-rate variance is passed in with its defining equation rather than computed.
- The schedule DP never expands dirt state 60 (`range(max_days_dirty)`), although transitions can land there. The model keeps this. Valid schedules are those that never act from state 60, and optimality is stated over them.
- The evaluator updates dirt before computing the day's efficiency, while the DP uses the dirt held before the move. The model keeps both orders and does not relate the two totals.
- OptimizationEngine.OptimizeCleaningSchedule: of the uncertainty block only the `KeyError` of a p90 column without a p10 column is modelled; the spread's mean and the `uncertainty_penalty` it sets are never read afterwards, so they do not affect the schedule.
- When every final DP cell is minus infinity, numpy's `argmax` picks index 0. The model returns that cell's `NegInf` as the total.
- PortfolioApi.ModeScore: in WATER_SCARCITY mode a water usage of -1 makes the source divide a numpy float by zero, which yields an infinity or NaN with a warning and the request goes on; the model has no non-finite reals and reports `Failure(ZeroDivisionError)`, so `OptimizeFarmPortfolio` fails where the source returns non-finite figures.
- ScoringFailsIff (PortfolioApi): the failure it characterises stands for the non-finite score of `ModeScore` above, which the source does not raise.
- ScoredFailureStays (PortfolioApi): the failure it propagates stands for that same non-finite score; the source scores the later farms as usual.
- TotalsFollowScan (PortfolioApi): a taken farm with electricity price 0 makes the source's energy total an infinity or NaN (numpy division) rather than an error; the model reports `Failure(ZeroDivisionError)` instead.
- TotalsFailureStays (PortfolioApi): the failure it propagates stands for that non-finite energy total; the source keeps summing the later farms.
- Degradation.RowMetricsOf: always applies the advanced shading and mismatch losses; the fallback of ml/degradation_model.py:118-142, which sets both to 0 when the advanced loss model cannot be imported, is not modelled.
- ScenarioAnalysis.GetRecommendedCleaningDay: returns the position of the recommended daily bucket; with a horizon of 0 or less the scan can pass the last bucket, where the source's date lookup `daily_recoverable.index[i]` raises IndexError, and the model returns the position instead (`RecommendedDayIsBucket` shows a positive horizon never does this).
- Floating-point rounding, NaN and infinities other than the DP's minus infinity are not modelled. All arithmetic is exact over the reals.
- `round(...)` in the reported figures, and f-string and message formatting, are not modelled. Reasons and messages are structured values.
- File and console output are not modelled. The monitor's log file is the list of entries written to it, and whether a write succeeds is a parameter. The JSON encoding, the rounding of latency and `print` calls are not modelled.
- Clock readings (`datetime.now()`) and timestamps are opaque parameters.
- The random draws of `generate_farm_grid` are parameters.
- `ModelMonitor.get_stats` returns fixed mock figures and is not modelled.
- Network fetches, the HTTP handlers' plumbing, the per-farm fetch loop and the machine-learning models are not modelled. The scenario results that feed the multi-farm optimizer and the portfolio handler are inputs.
- Pandas date handling (`resample`, `.dt.date`, `Timedelta`) is replaced by whole-hour timestamps and day numbers.

## Findings

| source | as written | input that shows it | evidently intended | confidence | as-written member | corrected member |
|---|---|---|---|---|---|---|
| ml/section_optimizer.py:123 | reads the column `potential_energy_kwh`, which the frame from `calculate_energy_metrics` never has | any section with any metrics frame: the lookup raises KeyError after the loss is set | loss percent = loss / potential energy × 100, with the potential energy supplied | not executed | SectionOptimizer.CalculateSectionEnergyLossAsWritten | SectionOptimizer.CalculateSectionEnergyLoss |
