/** The exact 0/1 knapsack of MultiSiteOptimizer._solve_knapsack_dp
    (ml/multi_farm_optimizer.py): integer weights (rounded water usages),
    an integer capacity (the truncated budget), a (n+1) x (W+1) table
    filled row by row, and a backtrack that walks the table from
    dp[n][W] down to row 0. */
module Knapsack {
  import opened Util
  import opened Greedy

  /** Python's int() on a float: truncation toward zero. */
  function Trunc(x: real): (r: int)
    ensures x >= 0.0 ==> r as real <= x < r as real + 1.0
    ensures x < 0.0 ==> r as real - 1.0 < x <= r as real
  {
    if x >= 0.0 then x.Floor else -((-x).Floor)
  }

  /** Python's round() on a float: to the nearest integer, ties to even. */
  function RoundHalfEven(x: real): (r: int)
    ensures -0.5 <= r as real - x <= 0.5
    ensures r as real - x == 0.5 || r as real - x == -0.5 ==> r % 2 == 0
  {
    var f := x.Floor;
    var d := x - f as real;
    if d < 0.5 then f
    else if d > 0.5 then f + 1
    else if f % 2 == 0 then f else f + 1
  }

  /** An integral usage is its own rounded weight. */
  lemma RoundIntegral(k: int)
    ensures RoundHalfEven(k as real) == k
  {
  }

  /** The table's weights: the rounded usages. */
  function Weights(usages: seq<real>): (wt: seq<int>)
    ensures |wt| == |usages| && forall j :: 0 <= j < |usages| ==> wt[j] == RoundHalfEven(usages[j])
  {
    seq(|usages|, j requires 0 <= j < |usages| => RoundHalfEven(usages[j]))
  }

  predicate NonNegative(wt: seq<int>)
  {
    forall j :: 0 <= j < |wt| ==> wt[j] >= 0
  }

  /** dp[i][w]: the best value of the first i items within weight w. */
  function Best(wt: seq<int>, val: seq<real>, i: nat, w: int): real
    requires i <= |wt| == |val|
  {
    if i == 0 then 0.0
    else if wt[i - 1] <= w then Max(val[i - 1] + Best(wt, val, i - 1, w - wt[i - 1]), Best(wt, val, i - 1, w))
    else Best(wt, val, i - 1, w)
  }

  // ---------------------------------------------------------------------
  // Subsets of the first i items, as one choice per item

  function ChoiceWeight(wt: seq<int>, c: seq<bool>): int
    requires |c| <= |wt|
  {
    if |c| == 0 then 0
    else ChoiceWeight(wt, c[..|c| - 1]) + (if c[|c| - 1] then wt[|c| - 1] else 0)
  }

  function ChoiceValue(val: seq<real>, c: seq<bool>): real
    requires |c| <= |val|
  {
    if |c| == 0 then 0.0
    else ChoiceValue(val, c[..|c| - 1]) + (if c[|c| - 1] then val[|c| - 1] else 0.0)
  }

  lemma {:induction false} ChoiceWeightNonNegative(wt: seq<int>, c: seq<bool>)
    requires |c| <= |wt| && NonNegative(wt)
    ensures ChoiceWeight(wt, c) >= 0
  {
    if |c| > 0 {
      ChoiceWeightNonNegative(wt, c[..|c| - 1]);
    }
  }

  /** The table is optimal: with non-negative weights, no subset of the
      first i items that fits into w is worth more than dp[i][w]. */
  lemma {:induction false} BestIsOptimal(wt: seq<int>, val: seq<real>, c: seq<bool>, w: int)
    requires |c| <= |wt| == |val| && NonNegative(wt)
    requires ChoiceWeight(wt, c) <= w
    ensures ChoiceValue(val, c) <= Best(wt, val, |c|, w)
  {
    var i := |c|;
    if i > 0 {
      var prefix := c[..i - 1];
      ChoiceWeightNonNegative(wt, prefix);
      if c[i - 1] {
        BestIsOptimal(wt, val, prefix, w - wt[i - 1]);
      } else {
        BestIsOptimal(wt, val, prefix, w);
      }
    }
  }

  // ---------------------------------------------------------------------
  // Backtracking

  /** The items the backtrack from dp[i][w] selects, latest first: item
      i-1 is taken exactly when dp[i][w] differs from dp[i-1][w]. */
  function Backtrack(wt: seq<int>, val: seq<real>, i: nat, w: int): (r: seq<nat>)
    requires i <= |wt| == |val|
    ensures forall k :: 0 <= k < |r| ==> r[k] < i
  {
    if i == 0 then []
    else if Best(wt, val, i, w) != Best(wt, val, i - 1, w) then [i - 1] + Backtrack(wt, val, i - 1, w - wt[i - 1])
    else Backtrack(wt, val, i - 1, w)
  }

  function WeightAt(wt: seq<int>, positions: seq<nat>): int
    requires forall k :: 0 <= k < |positions| ==> positions[k] < |wt|
  {
    if |positions| == 0 then 0
    else wt[positions[0]] + WeightAt(wt, positions[1..])
  }

  /** The sum of vals at the given positions, summed from the front. */
  function ValueAt(val: seq<real>, positions: seq<nat>): real
    requires forall k :: 0 <= k < |positions| ==> positions[k] < |val|
  {
    if |positions| == 0 then 0.0
    else val[positions[0]] + ValueAt(val, positions[1..])
  }

  /** The backtrack is a feasible subset that reaches the table's value:
      its weights fit into w, its values add up to dp[i][w], and it lists
      the items in strictly decreasing (reverse input) order. */
  lemma {:induction false} BacktrackSound(wt: seq<int>, val: seq<real>, i: nat, w: int)
    requires i <= |wt| == |val| && NonNegative(wt)
    ensures var r := Backtrack(wt, val, i, w);
            ValueAt(val, r) == Best(wt, val, i, w) &&
            (w >= 0 ==> WeightAt(wt, r) <= w) &&
            forall a, b :: 0 <= a < b < |r| ==> r[a] > r[b]
  {
    if i > 0 {
      if Best(wt, val, i, w) != Best(wt, val, i - 1, w) {
        BacktrackSound(wt, val, i - 1, w - wt[i - 1]);
        var rest := Backtrack(wt, val, i - 1, w - wt[i - 1]);
        assert ([i - 1] + rest)[1..] == rest;
      } else {
        BacktrackSound(wt, val, i - 1, w);
      }
    }
  }

  /** With no weights, the best value of the empty table is 0. */
  lemma BestOfNothing(wt: seq<int>, val: seq<real>, w: int)
    requires |wt| == |val|
    ensures Best(wt, val, 0, w) == 0.0 && Backtrack(wt, val, 0, w) == []
  {
  }

  // ---------------------------------------------------------------------
  // The solver

  /** What the solver returns: the backtracked item indices, latest first,
      and dp[n][W]. */
  datatype Solution = Solution(selected: seq<nat>, maxValue: real)

  /** The solver's outcome: an empty item list gives no selection and 0;
      otherwise the table is indexed out of range when the truncated
      capacity is negative (dp[n][W] of an empty row) or some rounded
      weight is negative (w - wt reaches past column W). */
  function Solve(usages: seq<real>, values: seq<real>, capacity: real): (r: Result<Solution>)
    requires |usages| == |values|
    ensures r.Ok? ==> forall k :: 0 <= k < |r.value.selected| ==> r.value.selected[k] < |usages|
  {
    var wt := Weights(usages);
    var w := Trunc(capacity);
    if |usages| == 0 then Ok(Solution([], 0.0))
    else if w < 0 || !NonNegative(wt) then Failure(IndexError)
    else Ok(Solution(Backtrack(wt, values, |wt|, w), Best(wt, values, |wt|, w)))
  }

  /** A successful solve returns the 0/1-knapsack optimum over the rounded
      weights and the truncated capacity, together with a subset that
      reaches it within the capacity, listed in reverse input order. */
  lemma SolveIsOptimal(usages: seq<real>, values: seq<real>, capacity: real)
    requires |usages| == |values|
    requires Solve(usages, values, capacity).Ok?
    ensures var s := Solve(usages, values, capacity).value;
            var wt := Weights(usages);
            (|usages| > 0 ==> WeightAt(wt, s.selected) <= Trunc(capacity)) &&
            ValueAt(values, s.selected) == s.maxValue &&
            (forall a, b :: 0 <= a < b < |s.selected| ==> s.selected[a] > s.selected[b]) &&
            forall c :: |c| == |usages| && ChoiceWeight(wt, c) <= Trunc(capacity) ==> ChoiceValue(values, c) <= s.maxValue
  {
    var wt := Weights(usages);
    var w := Trunc(capacity);
    if |usages| > 0 {
      BacktrackSound(wt, values, |wt|, w);
      forall c | |c| == |usages| && ChoiceWeight(wt, c) <= w
        ensures ChoiceValue(values, c) <= Best(wt, values, |wt|, w)
      {
        BestIsOptimal(wt, values, c, w);
      }
    }
  }

  /** With integral usages the rounded weights are the usages, so the raw
      water of a selection is its table weight. */
  lemma {:induction false} IntegralWater(usages: seq<real>, positions: seq<nat>)
    requires forall j :: 0 <= j < |usages| ==> usages[j] == usages[j].Floor as real
    requires forall k :: 0 <= k < |positions| ==> positions[k] < |usages|
    ensures ValueAt(usages, positions) == WeightAt(Weights(usages), positions) as real
  {
    if |positions| > 0 {
      RoundIntegral(usages[positions[0]].Floor);
      IntegralWater(usages, positions[1..]);
    }
  }

  /** The classic case where greedy by value per litre fails: items
      (10 L, 60), (20 L, 100), (30 L, 120) under a 50 L budget. The table
      reaches 220 with the last two items, while the first two, which a
      ratio-greedy takes, give only 160. */
  lemma GreedyFailureCase()
    ensures Best([10, 20, 30], [60.0, 100.0, 120.0], 3, 50) == 220.0
    ensures Backtrack([10, 20, 30], [60.0, 100.0, 120.0], 3, 50) == [2, 1]
    ensures ChoiceWeight([10, 20, 30], [true, true, false]) <= 50
    ensures ChoiceValue([60.0, 100.0, 120.0], [true, true, false]) == 160.0
  {
    var wt := [10, 20, 30];
    var val := [60.0, 100.0, 120.0];
    assert Best(wt, val, 1, 0) == 0.0;
    assert Best(wt, val, 1, 20) == 60.0;
    assert Best(wt, val, 1, 30) == 60.0;
    assert Best(wt, val, 1, 50) == 60.0;
    assert Best(wt, val, 2, 20) == 100.0;
    assert Best(wt, val, 2, 50) == 160.0;
    assert Best(wt, val, 3, 50) == 220.0;
    assert Best(wt, val, 0, 0) == 0.0;
    assert Best(wt, val, 2, 20) != Best(wt, val, 1, 20);
    assert Best(wt, val, 1, 0) == Best(wt, val, 0, 0);
    assert Backtrack(wt, val, 1, 0) == [];
    assert Backtrack(wt, val, 2, 20) == [1];
    var c := [true, true, false];
    assert c[..2] == [true, true] && c[..2][..1] == [true] && c[..2][..1][..0] == [];
    assert ChoiceWeight(wt, [true]) == 10 && ChoiceWeight(wt, [true, true]) == 30;
    assert ChoiceValue(val, [true]) == 60.0 && ChoiceValue(val, [true, true]) == 160.0;
  }

  /** The table filling and the backtrack of _solve_knapsack_dp. */
  method SolveKnapsack(usages: seq<real>, values: seq<real>, capacity: real) returns (r: Result<Solution>)
    requires |usages| == |values|
    ensures r == Solve(usages, values, capacity)
  {
    var n := |usages|;
    if n == 0 {
      return Ok(Solution([], 0.0));
    }
    var cap := Trunc(capacity);
    var wt := Weights(usages);
    var dp, ok := FillTable(wt, values, cap);
    if !ok || cap < 0 {
      return Failure(IndexError);
    }
    var maxValue := dp[n, cap];
    var selected := TraceBack(dp, wt, values, cap);
    return Ok(Solution(selected, maxValue));
  }

  /** The nested fill loops: row after row until a row reports the
      out-of-range read. */
  method FillTable(wt: seq<int>, values: seq<real>, cap: int) returns (dp: array2<real>, ok: bool)
    requires |wt| == |values|
    ensures fresh(dp) && dp.Length0 == |wt| + 1 && dp.Length1 == if cap >= 0 then cap + 1 else 0
    ensures ok <==> cap < 0 || NonNegative(wt)
    ensures ok ==> forall a, b :: 0 <= a < dp.Length0 && 0 <= b < dp.Length1 ==> dp[a, b] == Best(wt, values, a, b)
  {
    var n := |wt|;
    var cols := if cap >= 0 then cap + 1 else 0;
    dp := new real[n + 1, cols]((_, _) => 0.0);
    var i := 1;
    while i <= n
      invariant 1 <= i <= n + 1
      invariant cap >= 0 ==> forall j :: 0 <= j < i - 1 ==> wt[j] >= 0
      invariant forall a, b :: 0 <= a < i && 0 <= b < cols ==> dp[a, b] == Best(wt, values, a, b)
    {
      ok := RowFill(dp, wt, values, i, cap);
      if !ok {
        return dp, false;
      }
      i := i + 1;
    }
    return dp, true;
  }

  /** The backtrack loop: from dp[n][W] up to row 0, taking item i-1 when
      dp[i][w] differs from dp[i-1][w] and then leaving its weight. */
  method TraceBack(dp: array2<real>, wt: seq<int>, values: seq<real>, cap: int) returns (selected: seq<nat>)
    requires |wt| == |values| && NonNegative(wt) && cap >= 0
    requires dp.Length0 == |wt| + 1 && dp.Length1 == cap + 1
    requires forall a, b :: 0 <= a < dp.Length0 && 0 <= b < dp.Length1 ==> dp[a, b] == Best(wt, values, a, b)
    ensures selected == Backtrack(wt, values, |wt|, cap)
  {
    selected := [];
    var w := cap;
    var i := |wt|;
    while i > 0
      invariant 0 <= i <= |wt| && 0 <= w <= cap
      invariant selected + Backtrack(wt, values, i, w) == Backtrack(wt, values, |wt|, cap)
    {
      if dp[i, w] != dp[i - 1, w] {
        selected := selected + [i - 1];
        w := w - wt[i - 1];
      }
      i := i - 1;
    }
  }

  /** Fills row i of the table from row i-1 for w = 0 .. W. It stops with
      ok false at the read dp[i-1][w - wt] past column W, which happens
      exactly when item i-1 has a negative weight and W >= 0. */
  method RowFill(dp: array2<real>, wt: seq<int>, values: seq<real>, i: nat, cap: int)
    returns (ok: bool)
    requires 1 <= i < dp.Length0 && |wt| == |values| == dp.Length0 - 1
    requires dp.Length1 == if cap >= 0 then cap + 1 else 0
    requires forall a, b :: 0 <= a < i && 0 <= b < dp.Length1 ==> dp[a, b] == Best(wt, values, a, b)
    modifies dp
    ensures ok <==> cap < 0 || wt[i - 1] >= 0
    ensures forall a, b :: 0 <= a < i && 0 <= b < dp.Length1 ==> dp[a, b] == Best(wt, values, a, b)
    ensures ok ==> forall b :: 0 <= b < dp.Length1 ==> dp[i, b] == Best(wt, values, i, b)
  {
    var w := 0;
    while w < dp.Length1
      invariant 0 <= w <= dp.Length1
      invariant forall a, b :: 0 <= a < i && 0 <= b < dp.Length1 ==> dp[a, b] == Best(wt, values, a, b)
      invariant forall b :: 0 <= b < w ==> dp[i, b] == Best(wt, values, i, b)
      invariant wt[i - 1] < 0 ==> w <= cap + wt[i - 1] + 1 || w == 0
    {
      if wt[i - 1] <= w {
        var k := w - wt[i - 1];
        if k > cap {
          return false;
        }
        var withItem := values[i - 1] + dp[i - 1, k];
        var withoutItem := dp[i - 1, w];
        dp[i, w] := Max(withItem, withoutItem);
      } else {
        dp[i, w] := dp[i - 1, w];
      }
      w := w + 1;
    }
    return true;
  }
}
