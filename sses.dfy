/** The site sustainability score (SSES): a clamped 0-100 blend of
    energy and carbon gains against water and cost
    (ml/intelligence_core.py, calculate_sses). */
module Sustainability {
  import opened Util

  /** The unclamped blend: 50 plus 50 times the weighted, normalised
      sum of energy (0.5), carbon (0.3), water (-0.1) and cost (-0.1). */
  function RawSses(energyKwh: real, waterLiters: real, carbonKg: real, costInr: real): real
  {
    var normEnergy := energyKwh / 150000.0;
    var normCarbon := carbonKg / 10000.0;
    var normWater := waterLiters / 50000.0;
    var normCost := costInr / 50000.0;
    var raw := 0.5 * normEnergy + 0.3 * normCarbon - 0.1 * normWater - 0.1 * normCost;
    50.0 + raw * 50.0
  }

  /** calculate_sses: the blend clamped to [0, 100]. */
  function Sses(energyKwh: real, waterLiters: real, carbonKg: real, costInr: real): (r: real)
    ensures 0.0 <= r <= 100.0
    ensures 0.0 <= RawSses(energyKwh, waterLiters, carbonKg, costInr) <= 100.0 ==>
              r == RawSses(energyKwh, waterLiters, carbonKg, costInr)
    ensures RawSses(energyKwh, waterLiters, carbonKg, costInr) < 0.0 ==> r == 0.0
    ensures RawSses(energyKwh, waterLiters, carbonKg, costInr) > 100.0 ==> r == 100.0
  {
    Max(0.0, Min(100.0, RawSses(energyKwh, waterLiters, carbonKg, costInr)))
  }

  /** All-zero inputs score exactly the neutral 50. */
  lemma SsesNeutral()
    ensures Sses(0.0, 0.0, 0.0, 0.0) == 50.0
  {
  }

  /** More energy or carbon never lowers the score; more water or cost
      never raises it. */
  lemma SsesMonotone(e1: real, e2: real, w1: real, w2: real, c1: real, c2: real, k1: real, k2: real)
    requires e1 <= e2 && c1 <= c2 && w1 >= w2 && k1 >= k2
    ensures Sses(e1, w1, c1, k1) <= Sses(e2, w2, c2, k2)
  {
    assert RawSses(e1, w1, c1, k1) <= RawSses(e2, w2, c2, k2);
  }

  /** The score as backend/main.py writes it inline in its analysis
      handler (same normalisers and weights, clamped the same way). */
  function BackendInlineSses(optEnergy: real, carbonSaved: real, waterUsed: real, totalCost: real): (r: real)
    ensures r == Sses(optEnergy, waterUsed, carbonSaved, totalCost)
  {
    var normEnergy := optEnergy / 150000.0;
    var normCarbon := carbonSaved / 10000.0;
    var normWater := waterUsed / 50000.0;
    var normCost := totalCost / 50000.0;
    var rawScore := (0.5 * normEnergy) + (0.3 * normCarbon) - (0.1 * normWater) - (0.1 * normCost);
    Max(0.0, Min(100.0, 50.0 + (rawScore * 50.0)))
  }
}
