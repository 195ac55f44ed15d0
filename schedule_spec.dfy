/** The single-site cleaning schedule of OptimizationEngine
    (ml/optimization_engine.py) as values: the day reward, the WAIT and
    CLEAN transitions over (day, dirty days), the table the forward DP
    builds row by row with its parent entries, the backtrack, and the
    meaning of all of it over schedules (action sequences). */
module ScheduleSpec {
  import opened Util

  const MaxDaysDirty: nat := 60
  const AvgDailyLoss: real := 0.005
  const RainCleaningGamma: real := 0.4
  const MinDirtinessThreshold: nat := 10
  const CarbonPerKwh: real := 0.7

  /** The engine's prices and costs (its constructor arguments). */
  datatype Engine = Engine(electricityPrice: real, cleaningCost: real, carbonPrice: real, waterPrice: real, waterUsage: real)

  /** The constructor defaults. */
  const DefaultEngine: Engine := Engine(6.0, 1500.0, 5.0, 0.05, 500.0)

  /** _calculate_day_reward: revenue plus carbon value, less the cleaning
      cost on a cleaning day. */
  function DayReward(e: Engine, energy: real, isCleaningDay: bool, carbonSaved: real): (r: real)
    ensures isCleaningDay ==> r + e.cleaningCost == energy * e.electricityPrice + carbonSaved * e.carbonPrice
    ensures !isCleaningDay ==> r == energy * e.electricityPrice + carbonSaved * e.carbonPrice
  {
    var revenue := energy * e.electricityPrice;
    var carbonValue := carbonSaved * e.carbonPrice;
    var cost := if isCleaningDay then e.cleaningCost else 0.0;
    revenue + carbonValue - cost
  }

  /** Cleaning never pays more than not cleaning on the same energy and
      carbon: the two rewards differ by exactly the cleaning cost. */
  lemma CleaningDayCostsCleaningCost(e: Engine, energy: real, carbonSaved: real)
    ensures DayReward(e, energy, true, carbonSaved) == DayReward(e, energy, false, carbonSaved) - e.cleaningCost
  {
  }

  /** The forecast the schedule is planned over: per day the clean-panel
      energy (actual plus recoverable kWh) and the precipitation. */
  datatype Forecast = Forecast(potential: seq<real>, rain: seq<real>)
  {
    predicate Valid() { |potential| == |rain| }
    function Days(): nat { |potential| }
  }

  /** The realized efficiency at a number of dirty days. */
  function Efficiency(dirtyDays: nat): (r: real)
    ensures 0.9 <= r <= 1.0
    ensures dirtyDays as real * AvgDailyLoss <= 0.1 ==> r == 1.0 - dirtyDays as real * AvgDailyLoss
  {
    Max(0.9, 1.0 - dirtyDays as real * AvgDailyLoss)
  }

  /** A share of the dirty days below one keeps them non-negative and,
      when there are any, strictly fewer. */
  lemma ShareBelow(x: real, share: real)
    requires x >= 0.0 && 0.0 <= share < 1.0
    ensures 0.0 <= x * share <= x
    ensures x > 0.0 ==> x * share < x
  {
    assert x * share <= x * 1.0;
    if x > 0.0 {
      assert x * share < x * 1.0;
    }
  }

  /** The whole dirty days left after rain: int() of the dirty days scaled
      by one minus the rain reduction (at most 0.95). */
  function DaysLeftAfterRain(dirtyDays: nat, rainMm: real): (r: nat)
    requires rainMm > 0.1
    ensures r <= dirtyDays && (dirtyDays > 0 ==> r < dirtyDays)
  {
    var reduction := Min(RainCleaningGamma * rainMm, 0.95);
    ShareBelow(dirtyDays as real, 1.0 - reduction);
    (dirtyDays as real * (1.0 - reduction)).Floor
  }

  /** The WAIT transition: rain above 0.1 mm jumps to a lower state, the
      whole days left after the rain reduction plus one; otherwise one more
      dirty day. Both are capped at 60. */
  function WaitNext(dirtyDays: nat, rainMm: real): (r: nat)
    ensures 1 <= r <= MaxDaysDirty && r <= dirtyDays + 1
    ensures rainMm <= 0.1 && dirtyDays < MaxDaysDirty ==> r == dirtyDays + 1
    ensures rainMm > 0.1 && dirtyDays > 0 ==> r <= dirtyDays
  {
    var effective := if rainMm > 0.1 then DaysLeftAfterRain(dirtyDays, rainMm) else dirtyDays;
    if effective + 1 < MaxDaysDirty then effective + 1 else MaxDaysDirty
  }

  /** CLEAN is allowed after at least minDays and at least 10 dirty days. */
  predicate CanClean(dirtyDays: nat, minDays: int)
  {
    dirtyDays >= minDays && dirtyDays >= MinDirtinessThreshold
  }

  /** More than 5 mm in the next two days halves the value of cleaning;
      looked at only when two more days exist. */
  predicate RainComing(f: Forecast, day: nat)
    requires f.Valid()
  {
    day + 2 < f.Days() && f.rain[day + 1] + f.rain[day + 2] > 5.0
  }

  function WaitReward(e: Engine, f: Forecast, day: nat, dirtyDays: nat): real
    requires f.Valid() && day < f.Days()
  {
    DayReward(e, f.potential[day] * Efficiency(dirtyDays), false, 0.0)
  }

  /** The energy a clean recovers over staying dirty, halved when rain is
      coming. */
  function CleanGain(f: Forecast, day: nat, dirtyDays: nat): real
    requires f.Valid() && day < f.Days()
  {
    var potential := f.potential[day];
    var gain := potential * 1.0 - potential * (1.0 - dirtyDays as real * AvgDailyLoss);
    if RainComing(f, day) then gain * (1.0 - 0.5) else gain
  }

  function CleanReward(e: Engine, f: Forecast, day: nat, dirtyDays: nat): real
    requires f.Valid() && day < f.Days()
  {
    DayReward(e, f.potential[day] * 1.0, true, CleanGain(f, day, dirtyDays) * CarbonPerKwh)
  }

  function StepReward(e: Engine, f: Forecast, day: nat, dirtyDays: nat, clean: bool): real
    requires f.Valid() && day < f.Days()
  {
    if clean then CleanReward(e, f, day, dirtyDays) else WaitReward(e, f, day, dirtyDays)
  }

  function StepNext(f: Forecast, day: nat, dirtyDays: nat, clean: bool): nat
    requires f.Valid() && day < f.Days()
  {
    if clean then 0 else WaitNext(dirtyDays, f.rain[day])
  }

  // ---------------------------------------------------------------------
  // Values with minus infinity

  datatype ExtReal = NegInf | Fin(v: real)

  predicate Less(a: ExtReal, b: ExtReal)
  {
    (a.NegInf? && b.Fin?) || (a.Fin? && b.Fin? && a.v < b.v)
  }

  // ---------------------------------------------------------------------
  // The table

  /** A parent entry: the previous dirty days and whether the day cleaned. */
  datatype Choice = Choice(prev: nat, clean: bool)

  type Row = seq<ExtReal>

  /** Row 0: only (day 0, dirt 0) is reachable, with value 0. */
  function StartRow(): (row: Row)
    ensures |row| == MaxDaysDirty + 1
    ensures row[0] == Fin(0.0) && forall s :: 1 <= s < |row| ==> row[s] == NegInf
  {
    seq(MaxDaysDirty + 1, s => if s == 0 then Fin(0.0) else NegInf)
  }

  /** The strict-improvement update of one cell: the candidate replaces
      the cell (and its parent entry) only when it is strictly better. */
  function Improve(row: Row, par: map<nat, Choice>, target: nat, value: real, c: Choice): (r: (Row, map<nat, Choice>))
    requires target < |row|
    ensures |r.0| == |row|
  {
    if Less(row[target], Fin(value)) then (row[target := Fin(value)], par[target := c]) else (row, par)
  }

  /** The relaxation from one dirt state p of row day: WAIT first, then
      CLEAN when allowed; an unreachable state is skipped. */
  function Visit(e: Engine, f: Forecast, minDays: int, prev: Row, day: nat, p: nat, row: Row, par: map<nat, Choice>): (r: (Row, map<nat, Choice>))
    requires f.Valid() && day < f.Days() && |prev| == |row| == MaxDaysDirty + 1 && p < MaxDaysDirty
    ensures |r.0| == MaxDaysDirty + 1
  {
    if prev[p].NegInf? then (row, par)
    else
      var current := prev[p].v;
      var (row1, par1) := Improve(row, par, WaitNext(p, f.rain[day]), current + WaitReward(e, f, day, p), Choice(p, false));
      if CanClean(p, minDays) then Improve(row1, par1, 0, current + CleanReward(e, f, day, p), Choice(p, true))
      else (row1, par1)
  }

  /** Visit from a reachable state, spelled out as its two updates. */
  lemma VisitReachable(e: Engine, f: Forecast, minDays: int, prev: Row, day: nat, p: nat, row: Row, par: map<nat, Choice>)
    requires f.Valid() && day < f.Days() && |prev| == |row| == MaxDaysDirty + 1 && p < MaxDaysDirty && prev[p].Fin?
    ensures var waited := Improve(row, par, StepNext(f, day, p, false), prev[p].v + StepReward(e, f, day, p, false), Choice(p, false));
            Visit(e, f, minDays, prev, day, p, row, par) ==
              if CanClean(p, minDays)
              then Improve(waited.0, waited.1, StepNext(f, day, p, true), prev[p].v + StepReward(e, f, day, p, true), Choice(p, true))
              else waited
  {
  }

  function EmptyRow(): (row: Row)
    ensures |row| == MaxDaysDirty + 1 && forall s :: 0 <= s < |row| ==> row[s] == NegInf
  {
    seq(MaxDaysDirty + 1, s => NegInf)
  }

  /** Row day+1 and its parent entries after the relaxation has visited
      dirt states 0 .. k-1 of row day. */
  function Relaxed(e: Engine, f: Forecast, minDays: int, prev: Row, day: nat, k: nat): (r: (Row, map<nat, Choice>))
    requires f.Valid() && day < f.Days() && |prev| == MaxDaysDirty + 1 && k <= MaxDaysDirty
    ensures |r.0| == MaxDaysDirty + 1
  {
    if k == 0 then (EmptyRow(), map[])
    else
      var (row, par) := Relaxed(e, f, minDays, prev, day, k - 1);
      Visit(e, f, minDays, prev, day, k - 1, row, par)
  }

  /** dp[day]: the table's row for a day. */
  function Table(e: Engine, f: Forecast, minDays: int, day: nat): (row: Row)
    requires f.Valid() && day <= f.Days()
    ensures |row| == MaxDaysDirty + 1
  {
    if day == 0 then StartRow() else Relaxed(e, f, minDays, Table(e, f, minDays, day - 1), day - 1, MaxDaysDirty).0
  }

  /** The parent entries (day, _) the relaxation of day-1 leaves. */
  function Parents(e: Engine, f: Forecast, minDays: int, day: nat): map<nat, Choice>
    requires f.Valid() && 1 <= day <= f.Days()
  {
    Relaxed(e, f, minDays, Table(e, f, minDays, day - 1), day - 1, MaxDaysDirty).1
  }

  /** One row's parent entries keyed by (day, dirt), as the DP's parent
      dictionary holds them. */
  function Keyed(day: nat, par: map<nat, Choice>): (m: map<(nat, nat), Choice>)
    ensures forall k :: k in m <==> k.0 == day && k.1 in par
    ensures forall s :: s in par ==> m[(day, s)] == par[s]
  {
    map s | s in par :: (day, s) := par[s]
  }

  /** The parent dictionary holding the entries of rows 1 .. |rows|. */
  function Stacked(rows: seq<map<nat, Choice>>): map<(nat, nat), Choice>
  {
    if |rows| == 0 then map[] else Stacked(rows[..|rows| - 1]) + Keyed(|rows|, rows[|rows| - 1])
  }

  lemma {:induction false} StackedHolds(rows: seq<map<nat, Choice>>)
    ensures forall d: nat, s: nat :: (d, s) in Stacked(rows) <==> 1 <= d <= |rows| && s in rows[d - 1]
    ensures forall d: nat, s: nat :: 1 <= d <= |rows| && s in rows[d - 1] ==> Stacked(rows)[(d, s)] == rows[d - 1][s]
  {
    if |rows| > 0 {
      var n := |rows|;
      StackedHolds(rows[..n - 1]);
      var earlier := Stacked(rows[..n - 1]);
      var later := Keyed(n, rows[n - 1]);
      forall d: nat, s: nat
        ensures (d, s) in Stacked(rows) <==> 1 <= d <= n && s in rows[d - 1]
        ensures 1 <= d <= n && s in rows[d - 1] ==> Stacked(rows)[(d, s)] == rows[d - 1][s]
      {
        if d == n {
          assert (d, s) !in earlier;
        } else {
          assert (d, s) !in later;
          if 1 <= d < n {
            assert rows[d - 1] == rows[..n - 1][d - 1];
          }
        }
      }
    }
  }

  /** Looking up (d, s) in the stacked dictionary is looking up s in row d. */
  lemma StackedLookup(rows: seq<map<nat, Choice>>, d: nat, s: nat)
    requires 1 <= d <= |rows|
    ensures (d, s) in Stacked(rows) <==> s in rows[d - 1]
    ensures s in rows[d - 1] ==> Stacked(rows)[(d, s)] == rows[d - 1][s]
  {
    StackedHolds(rows);
  }

  /** The per-row parent entries of rows 1 .. n. */
  function ParentRows(e: Engine, f: Forecast, minDays: int, n: nat): (rows: seq<map<nat, Choice>>)
    requires f.Valid() && n <= f.Days()
    ensures |rows| == n && forall d :: 1 <= d <= n ==> rows[d - 1] == Parents(e, f, minDays, d)
  {
    if n == 0 then [] else ParentRows(e, f, minDays, n - 1) + [Parents(e, f, minDays, n)]
  }

  // ---------------------------------------------------------------------
  // The relaxation computes a Bellman row

  /** An allowed move from a state that the DP expands (dirt below 60). */
  predicate Allowed(minDays: int, dirtyDays: nat, clean: bool)
  {
    dirtyDays < MaxDaysDirty && (clean ==> CanClean(dirtyDays, minDays))
  }

  /** The parent entry names an expanded finite cell of the previous row, an
      allowed move from it to dirt s, and exactly the value of that move. */
  predicate SoundEntry(e: Engine, f: Forecast, minDays: int, prev: Row, day: nat, s: nat, c: Choice, value: real)
    requires f.Valid() && day < f.Days() && |prev| == MaxDaysDirty + 1
  {
    Allowed(minDays, c.prev, c.clean) && prev[c.prev].Fin? && StepNext(f, day, c.prev, c.clean) == s &&
    value == prev[c.prev].v + StepReward(e, f, day, c.prev, c.clean)
  }

  /** Every finite cell of the relaxed row, and only those, has a sound
      parent entry. */
  predicate RowSound(e: Engine, f: Forecast, minDays: int, prev: Row, day: nat, row: Row, par: map<nat, Choice>)
    requires f.Valid() && day < f.Days() && |prev| == |row| == MaxDaysDirty + 1
  {
    forall s :: 0 <= s <= MaxDaysDirty ==>
      (row[s].Fin? <==> s in par) && (s in par ==> SoundEntry(e, f, minDays, prev, day, s, par[s], row[s].v))
  }

  /** The move from dirt p (an allowed one from a finite cell) reaches a
      finite cell worth at least the move. */
  predicate Covered(e: Engine, f: Forecast, prev: Row, day: nat, row: Row, p: nat, clean: bool)
    requires f.Valid() && day < f.Days() && |prev| == |row| == MaxDaysDirty + 1 && p < MaxDaysDirty && prev[p].Fin?
  {
    row[StepNext(f, day, p, clean)].Fin? &&
    row[StepNext(f, day, p, clean)].v >= prev[p].v + StepReward(e, f, day, p, clean)
  }

  /** Every allowed move from a finite cell below k is covered. */
  predicate RowOptimal(e: Engine, f: Forecast, minDays: int, prev: Row, day: nat, row: Row, k: nat)
    requires f.Valid() && day < f.Days() && |prev| == |row| == MaxDaysDirty + 1
  {
    forall p: nat, clean: bool :: p < k && p < MaxDaysDirty && prev[p].Fin? && Allowed(minDays, p, clean) ==>
      Covered(e, f, prev, day, row, p, clean)
  }

  /** Cells only grow: finite stays finite and values never drop. */
  predicate Grows(old_row: Row, row: Row)
  {
    |old_row| == |row| && forall s :: 0 <= s < |row| && old_row[s].Fin? ==> row[s].Fin? && row[s].v >= old_row[s].v
  }

  lemma CoveredGrows(e: Engine, f: Forecast, minDays: int, prev: Row, day: nat, row: Row, row': Row, k: nat)
    requires f.Valid() && day < f.Days() && |prev| == |row| == MaxDaysDirty + 1
    requires RowOptimal(e, f, minDays, prev, day, row, k) && Grows(row, row')
    ensures RowOptimal(e, f, minDays, prev, day, row', k)
  {
    forall p: nat, clean: bool | p < k && p < MaxDaysDirty && prev[p].Fin? && Allowed(minDays, p, clean)
      ensures Covered(e, f, prev, day, row', p, clean)
    {
      assert Covered(e, f, prev, day, row, p, clean);
    }
  }

  /** A sound candidate keeps the row sound, and the row grows. */
  lemma ImproveSound(e: Engine, f: Forecast, minDays: int, prev: Row, day: nat, row: Row, par: map<nat, Choice>, c: Choice)
    requires f.Valid() && day < f.Days() && |prev| == |row| == MaxDaysDirty + 1
    requires RowSound(e, f, minDays, prev, day, row, par)
    requires Allowed(minDays, c.prev, c.clean) && prev[c.prev].Fin?
    ensures var target := StepNext(f, day, c.prev, c.clean);
            var r := Improve(row, par, target, prev[c.prev].v + StepReward(e, f, day, c.prev, c.clean), c);
            RowSound(e, f, minDays, prev, day, r.0, r.1) && Grows(row, r.0) &&
            Covered(e, f, prev, day, r.0, c.prev, c.clean)
  {
  }

  /** A move covered in a row stays covered in a row that grows from it. */
  lemma CoveredStays(e: Engine, f: Forecast, prev: Row, day: nat, row: Row, row': Row, p: nat, clean: bool)
    requires f.Valid() && day < f.Days() && |prev| == |row| == MaxDaysDirty + 1 && p < MaxDaysDirty && prev[p].Fin?
    requires Covered(e, f, prev, day, row, p, clean) && Grows(row, row')
    ensures Covered(e, f, prev, day, row', p, clean)
  {
  }

  /** One sound update keeps the row sound and optimal below k, and covers
      its own move. */
  lemma ImproveStep(e: Engine, f: Forecast, minDays: int, prev: Row, day: nat, row: Row, par: map<nat, Choice>, c: Choice, k: nat)
    requires f.Valid() && day < f.Days() && |prev| == |row| == MaxDaysDirty + 1
    requires RowSound(e, f, minDays, prev, day, row, par) && RowOptimal(e, f, minDays, prev, day, row, k)
    requires Allowed(minDays, c.prev, c.clean) && prev[c.prev].Fin?
    ensures var r := Improve(row, par, StepNext(f, day, c.prev, c.clean), prev[c.prev].v + StepReward(e, f, day, c.prev, c.clean), c);
            RowSound(e, f, minDays, prev, day, r.0, r.1) && RowOptimal(e, f, minDays, prev, day, r.0, k) &&
            Grows(row, r.0) && Covered(e, f, prev, day, r.0, c.prev, c.clean)
  {
    ImproveSound(e, f, minDays, prev, day, row, par, c);
    var r := Improve(row, par, StepNext(f, day, c.prev, c.clean), prev[c.prev].v + StepReward(e, f, day, c.prev, c.clean), c);
    CoveredGrows(e, f, minDays, prev, day, row, r.0, k);
  }

  /** Optimality below p extends to p once p's allowed moves are covered
      (or p is unreachable). */
  lemma ExtendOptimal(e: Engine, f: Forecast, minDays: int, prev: Row, day: nat, row: Row, p: nat)
    requires f.Valid() && day < f.Days() && |prev| == |row| == MaxDaysDirty + 1 && p < MaxDaysDirty
    requires RowOptimal(e, f, minDays, prev, day, row, p)
    requires prev[p].Fin? ==> Covered(e, f, prev, day, row, p, false)
    requires prev[p].Fin? && CanClean(p, minDays) ==> Covered(e, f, prev, day, row, p, true)
    ensures RowOptimal(e, f, minDays, prev, day, row, p + 1)
  {
  }

  /** From a reachable state that may not clean: the WAIT update alone
      keeps the row sound and extends its optimality to p. */
  lemma WaitOnlyIsBellman(e: Engine, f: Forecast, minDays: int, prev: Row, day: nat, p: nat, row: Row, par: map<nat, Choice>)
    requires f.Valid() && day < f.Days() && |prev| == |row| == MaxDaysDirty + 1 && p < MaxDaysDirty
    requires prev[p].Fin? && !CanClean(p, minDays)
    requires RowSound(e, f, minDays, prev, day, row, par) && RowOptimal(e, f, minDays, prev, day, row, p)
    ensures var r := Improve(row, par, StepNext(f, day, p, false), prev[p].v + StepReward(e, f, day, p, false), Choice(p, false));
            RowSound(e, f, minDays, prev, day, r.0, r.1) && RowOptimal(e, f, minDays, prev, day, r.0, p + 1)
  {
    ImproveStep(e, f, minDays, prev, day, row, par, Choice(p, false), p);
    var r := Improve(row, par, StepNext(f, day, p, false), prev[p].v + StepReward(e, f, day, p, false), Choice(p, false));
    ExtendOptimal(e, f, minDays, prev, day, r.0, p);
  }

  /** From a reachable state that may clean: the WAIT update and then the
      CLEAN update keep the row sound and extend its optimality to p. */
  lemma WaitCleanIsBellman(e: Engine, f: Forecast, minDays: int, prev: Row, day: nat, p: nat, row: Row, par: map<nat, Choice>)
    requires f.Valid() && day < f.Days() && |prev| == |row| == MaxDaysDirty + 1 && p < MaxDaysDirty
    requires prev[p].Fin? && CanClean(p, minDays)
    requires RowSound(e, f, minDays, prev, day, row, par) && RowOptimal(e, f, minDays, prev, day, row, p)
    ensures var w := Improve(row, par, StepNext(f, day, p, false), prev[p].v + StepReward(e, f, day, p, false), Choice(p, false));
            var r := Improve(w.0, w.1, StepNext(f, day, p, true), prev[p].v + StepReward(e, f, day, p, true), Choice(p, true));
            RowSound(e, f, minDays, prev, day, r.0, r.1) && RowOptimal(e, f, minDays, prev, day, r.0, p + 1)
  {
    ImproveStep(e, f, minDays, prev, day, row, par, Choice(p, false), p);
    var w := Improve(row, par, StepNext(f, day, p, false), prev[p].v + StepReward(e, f, day, p, false), Choice(p, false));
    CleanAfterWait(e, f, minDays, prev, day, p, w.0, w.1);
  }

  /** The CLEAN update on a row that already covers p's WAIT move. */
  lemma CleanAfterWait(e: Engine, f: Forecast, minDays: int, prev: Row, day: nat, p: nat, w: Row, wpar: map<nat, Choice>)
    requires f.Valid() && day < f.Days() && |prev| == |w| == MaxDaysDirty + 1 && p < MaxDaysDirty
    requires prev[p].Fin? && CanClean(p, minDays)
    requires RowSound(e, f, minDays, prev, day, w, wpar) && RowOptimal(e, f, minDays, prev, day, w, p)
    requires Covered(e, f, prev, day, w, p, false)
    ensures var r := Improve(w, wpar, StepNext(f, day, p, true), prev[p].v + StepReward(e, f, day, p, true), Choice(p, true));
            RowSound(e, f, minDays, prev, day, r.0, r.1) && RowOptimal(e, f, minDays, prev, day, r.0, p + 1)
  {
    ImproveStep(e, f, minDays, prev, day, w, wpar, Choice(p, true), p);
    var r := Improve(w, wpar, StepNext(f, day, p, true), prev[p].v + StepReward(e, f, day, p, true), Choice(p, true));
    CoveredStays(e, f, prev, day, w, r.0, p, false);
    ExtendOptimal(e, f, minDays, prev, day, r.0, p);
  }

  lemma VisitIsBellman(e: Engine, f: Forecast, minDays: int, prev: Row, day: nat, p: nat, row: Row, par: map<nat, Choice>)
    requires f.Valid() && day < f.Days() && |prev| == |row| == MaxDaysDirty + 1 && p < MaxDaysDirty
    requires RowSound(e, f, minDays, prev, day, row, par) && RowOptimal(e, f, minDays, prev, day, row, p)
    ensures var r := Visit(e, f, minDays, prev, day, p, row, par);
            RowSound(e, f, minDays, prev, day, r.0, r.1) && RowOptimal(e, f, minDays, prev, day, r.0, p + 1)
  {
    if prev[p].Fin? {
      VisitReachable(e, f, minDays, prev, day, p, row, par);
      if CanClean(p, minDays) {
        WaitCleanIsBellman(e, f, minDays, prev, day, p, row, par);
      } else {
        WaitOnlyIsBellman(e, f, minDays, prev, day, p, row, par);
      }
    } else {
      ExtendOptimal(e, f, minDays, prev, day, row, p);
    }
  }

  /** The relaxation builds a Bellman row: sound, and optimal over the
      states it has visited. */
  lemma {:induction false} RelaxedIsBellman(e: Engine, f: Forecast, minDays: int, prev: Row, day: nat, k: nat)
    requires f.Valid() && day < f.Days() && |prev| == MaxDaysDirty + 1 && k <= MaxDaysDirty
    ensures var r := Relaxed(e, f, minDays, prev, day, k);
            RowSound(e, f, minDays, prev, day, r.0, r.1) && RowOptimal(e, f, minDays, prev, day, r.0, k)
  {
    if k > 0 {
      RelaxedIsBellman(e, f, minDays, prev, day, k - 1);
      var (row, par) := Relaxed(e, f, minDays, prev, day, k - 1);
      VisitIsBellman(e, f, minDays, prev, day, k - 1, row, par);
    }
  }

  // ---------------------------------------------------------------------
  // Schedules: one action per day, true for CLEAN

  /** The dirty days after following the actions from (day 0, dirt 0). */
  function StateAfter(f: Forecast, acts: seq<bool>): (s: nat)
    requires f.Valid() && |acts| <= f.Days()
    ensures s <= MaxDaysDirty
  {
    if |acts| == 0 then 0
    else var n := |acts| - 1; StepNext(f, n, StateAfter(f, acts[..n]), acts[n])
  }

  /** Every action is one the DP considers: from dirt below 60, and CLEAN
      only when allowed. */
  predicate ValidPath(f: Forecast, minDays: int, acts: seq<bool>)
    requires f.Valid() && |acts| <= f.Days()
  {
    |acts| == 0 ||
    (var n := |acts| - 1; ValidPath(f, minDays, acts[..n]) && Allowed(minDays, StateAfter(f, acts[..n]), acts[n]))
  }

  /** The summed day rewards of following the actions. */
  function PathValue(e: Engine, f: Forecast, acts: seq<bool>): real
    requires f.Valid() && |acts| <= f.Days()
  {
    if |acts| == 0 then 0.0
    else var n := |acts| - 1; PathValue(e, f, acts[..n]) + StepReward(e, f, n, StateAfter(f, acts[..n]), acts[n])
  }

  /** dp[n][s] is at least the value of every valid schedule of n days that
      ends in dirt s. */
  lemma {:induction false} TableBoundsPaths(e: Engine, f: Forecast, minDays: int, acts: seq<bool>)
    requires f.Valid() && |acts| <= f.Days() && ValidPath(f, minDays, acts)
    ensures var cell := Table(e, f, minDays, |acts|)[StateAfter(f, acts)];
            cell.Fin? && cell.v >= PathValue(e, f, acts)
  {
    if |acts| > 0 {
      var n := |acts| - 1;
      TableBoundsPaths(e, f, minDays, acts[..n]);
      var prev := Table(e, f, minDays, n);
      RelaxedIsBellman(e, f, minDays, prev, n, MaxDaysDirty);
      var p := StateAfter(f, acts[..n]);
      assert Covered(e, f, prev, n, Table(e, f, minDays, |acts|), p, acts[n]);
    }
  }

  /** The backtrack from (day, s): follow the parent entries down to day 0;
      a missing entry leaves the state as it is and records no cleaning. */
  function Backtrack(rows: seq<map<nat, Choice>>, day: nat, s: nat): (acts: seq<bool>)
    requires day <= |rows|
    ensures |acts| == day
  {
    if day == 0 then []
    else
      var par := rows[day - 1];
      if s in par then Backtrack(rows, day - 1, par[s].prev) + [par[s].clean]
      else Backtrack(rows, day - 1, s) + [false]
  }

  /** Appending an allowed action to a valid schedule. */
  lemma ExtendPath(e: Engine, f: Forecast, minDays: int, front: seq<bool>, clean: bool)
    requires f.Valid() && |front| < f.Days() && ValidPath(f, minDays, front)
    requires Allowed(minDays, StateAfter(f, front), clean)
    ensures var acts := front + [clean];
            ValidPath(f, minDays, acts) &&
            StateAfter(f, acts) == StepNext(f, |front|, StateAfter(f, front), clean) &&
            PathValue(e, f, acts) == PathValue(e, f, front) + StepReward(e, f, |front|, StateAfter(f, front), clean)
  {
    assert (front + [clean])[..|front|] == front;
  }

  /** The parent entry of a finite cell of row day names a finite cell of
      row day-1 and the move from it. */
  lemma ParentIsSound(e: Engine, f: Forecast, minDays: int, day: nat, s: nat)
    requires f.Valid() && 1 <= day <= f.Days() && s <= MaxDaysDirty
    requires Table(e, f, minDays, day)[s].Fin?
    ensures s in Parents(e, f, minDays, day)
    ensures SoundEntry(e, f, minDays, Table(e, f, minDays, day - 1), day - 1, s,
                       Parents(e, f, minDays, day)[s], Table(e, f, minDays, day)[s].v)
  {
    RelaxedIsBellman(e, f, minDays, Table(e, f, minDays, day - 1), day - 1, MaxDaysDirty);
  }

  /** From a finite cell the backtrack yields a valid schedule ending in
      that cell and worth exactly its value. */
  lemma {:induction false} BacktrackRealizes(e: Engine, f: Forecast, minDays: int, day: nat, s: nat)
    requires f.Valid() && day <= f.Days() && s <= MaxDaysDirty
    requires Table(e, f, minDays, day)[s].Fin?
    ensures var acts := Backtrack(ParentRows(e, f, minDays, f.Days()), day, s);
            ValidPath(f, minDays, acts) && StateAfter(f, acts) == s &&
            PathValue(e, f, acts) == Table(e, f, minDays, day)[s].v
  {
    if day > 0 {
      ParentIsSound(e, f, minDays, day, s);
      var rows := ParentRows(e, f, minDays, f.Days());
      var c := Parents(e, f, minDays, day)[s];
      assert rows[day - 1] == Parents(e, f, minDays, day);
      BacktrackRealizes(e, f, minDays, day - 1, c.prev);
      var front := Backtrack(rows, day - 1, c.prev);
      ExtendPath(e, f, minDays, front, c.clean);
      assert front + [c.clean] == Backtrack(rows, day, s);
    } else {
      assert Table(e, f, minDays, 0) == StartRow();
      assert s == 0;
    }
  }

  /** One step of the backtrack, seen on the cleaning days it records. */
  lemma BacktrackStep(rows: seq<map<nat, Choice>>, day: nat, s: nat)
    requires 1 <= day <= |rows|
    ensures var par := rows[day - 1];
            CleanDays(Backtrack(rows, day, s)) ==
              if s in par then CleanDays(Backtrack(rows, day - 1, par[s].prev)) + (if par[s].clean then [day - 1] else [])
              else CleanDays(Backtrack(rows, day - 1, s))
  {
    var acts := Backtrack(rows, day, s);
    var par := rows[day - 1];
    if s in par {
      assert acts[..day - 1] == Backtrack(rows, day - 1, par[s].prev);
    } else {
      assert acts[..day - 1] == Backtrack(rows, day - 1, s);
    }
  }

  // ---------------------------------------------------------------------
  // The result

  /** numpy.argmax over the final row: the first index holding the maximum
      of the first n cells, minus infinity below every number. */
  function ArgMax(row: Row, n: nat): (r: nat)
    requires 1 <= n <= |row|
    ensures r < n
    ensures forall j :: 0 <= j < n ==> !Less(row[r], row[j])
    ensures forall j :: 0 <= j < r ==> Less(row[j], row[r])
  {
    if n == 1 then 0
    else
      var best := ArgMax(row, n - 1);
      if Less(row[best], row[n - 1]) then n - 1 else best
  }

  /** The cleaning days of a schedule, in increasing order. */
  function CleanDays(acts: seq<bool>): (days: seq<nat>)
    ensures forall i :: 0 <= i < |days| ==> days[i] < |acts| && acts[days[i]]
    ensures forall i :: 0 <= i < |acts| && acts[i] ==> i in days
  {
    if |acts| == 0 then []
    else
      var n := |acts| - 1;
      CleanDays(acts[..n]) + (if acts[n] then [n] else [])
  }

  predicate StrictlyIncreasing(days: seq<nat>)
  {
    forall i, j :: 0 <= i < j < |days| ==> days[i] < days[j]
  }

  lemma {:induction false} CleanDaysIncrease(acts: seq<bool>)
    ensures StrictlyIncreasing(CleanDays(acts))
  {
    if |acts| > 0 {
      CleanDaysIncrease(acts[..|acts| - 1]);
    }
  }

  /** The least number of dirty days before a clean: minDays and at least
      10. */
  function MinGap(minDays: int): nat
  {
    if minDays > MinDirtinessThreshold then minDays else MinDirtinessThreshold
  }

  /** The first cleaning day is at least gap days in, and each further one
      at least gap days after the day following the previous one. */
  predicate Spaced(days: seq<nat>, gap: nat)
  {
    (|days| > 0 ==> days[0] >= gap) &&
    forall i :: 0 <= i < |days| - 1 ==> days[i + 1] >= days[i] + 1 + gap
  }

  /** Dirt grows by at most one a day from the last clean (or day 0). */
  lemma {:induction false} DirtSinceLastClean(f: Forecast, minDays: int, acts: seq<bool>)
    requires f.Valid() && |acts| <= f.Days() && ValidPath(f, minDays, acts)
    ensures var days := CleanDays(acts);
            StateAfter(f, acts) <= |acts| - (if days == [] then 0 else days[|days| - 1] + 1)
  {
    if |acts| > 0 {
      DirtSinceLastClean(f, minDays, acts[..|acts| - 1]);
    }
  }

  /** Every valid schedule cleans only after enough dirty days: the first
      clean no earlier than day MinGap, and consecutive cleans more than
      MinGap days apart. */
  lemma {:induction false} ValidPathsAreSpaced(f: Forecast, minDays: int, acts: seq<bool>)
    requires f.Valid() && |acts| <= f.Days() && ValidPath(f, minDays, acts)
    ensures Spaced(CleanDays(acts), MinGap(minDays))
  {
    if |acts| > 0 {
      var n := |acts| - 1;
      var front := acts[..n];
      ValidPathLast(f, minDays, acts);
      ValidPathsAreSpaced(f, minDays, front);
      DirtSinceLastClean(f, minDays, front);
      assert acts == front + [acts[n]];
      SpacedStep(front, acts[n], StateAfter(f, front), MinGap(minDays));
    }
  }

  /** The last action of a valid schedule is allowed from the state its
      valid front reaches. */
  lemma ValidPathLast(f: Forecast, minDays: int, acts: seq<bool>)
    requires f.Valid() && 0 < |acts| <= f.Days() && ValidPath(f, minDays, acts)
    ensures ValidPath(f, minDays, acts[..|acts| - 1])
    ensures Allowed(minDays, StateAfter(f, acts[..|acts| - 1]), acts[|acts| - 1])
  {
  }

  /** One more day keeps the cleaning days spaced when a clean on it comes
      after at least gap dirty days, and dirt has grown by at most one a day
      since the last clean. */
  lemma SpacedStep(front: seq<bool>, clean: bool, dirt: nat, gap: nat)
    requires Spaced(CleanDays(front), gap)
    requires clean ==> dirt >= gap
    requires var days := CleanDays(front);
             dirt <= |front| - (if days == [] then 0 else days[|days| - 1] + 1)
    ensures Spaced(CleanDays(front + [clean]), gap)
  {
    var acts := front + [clean];
    assert acts[..|front|] == front;
    if clean {
      SpacedSnoc(CleanDays(front), |front|, gap);
    }
  }

  /** Appending a day far enough after the last one keeps the days spaced. */
  lemma SpacedSnoc(days: seq<nat>, n: nat, gap: nat)
    requires Spaced(days, gap)
    requires days == [] ==> n >= gap
    requires days != [] ==> n >= days[|days| - 1] + 1 + gap
    ensures Spaced(days + [n], gap)
  {
    var r := days + [n];
    forall i | 0 <= i < |r| - 1
      ensures r[i + 1] >= r[i] + 1 + gap
    {
      if i + 1 < |days| {
        assert r[i + 1] == days[i + 1] && r[i] == days[i];
      }
    }
  }

  datatype ScheduleResult = ScheduleResult(cleaningDates: seq<nat>, totalNetValue: ExtReal, horizonDays: nat)

  /** optimize_cleaning_schedule: the first best final cell, the cleaning
      days on the backtrack from it, and its value. */
  function Schedule(e: Engine, f: Forecast, minDays: int): (r: ScheduleResult)
    requires f.Valid()
    ensures r.horizonDays == f.Days()
    ensures forall s :: 0 <= s <= MaxDaysDirty ==> !Less(r.totalNetValue, Table(e, f, minDays, f.Days())[s])
    ensures exists s :: 0 <= s <= MaxDaysDirty && r.totalNetValue == Table(e, f, minDays, f.Days())[s]
  {
    var row := Table(e, f, minDays, f.Days());
    var best := ArgMax(row, |row|);
    ScheduleResult(CleanDays(Backtrack(ParentRows(e, f, minDays, f.Days()), f.Days(), best)), row[best], f.Days())
  }

  /** No valid schedule over the horizon is worth more than the result, and
      when the result is finite its cleaning days are those of a valid
      schedule worth exactly that value; either way they increase strictly
      within the horizon. */
  lemma ScheduleIsOptimal(e: Engine, f: Forecast, minDays: int, acts: seq<bool>)
    requires f.Valid() && |acts| == f.Days() && ValidPath(f, minDays, acts)
    ensures var r := Schedule(e, f, minDays);
            r.totalNetValue.Fin? && r.totalNetValue.v >= PathValue(e, f, acts)
  {
    var row := Table(e, f, minDays, f.Days());
    TableBoundsPaths(e, f, minDays, acts);
    var best := ArgMax(row, |row|);
    assert !Less(row[best], row[StateAfter(f, acts)]);
  }

  lemma ScheduleIsRealized(e: Engine, f: Forecast, minDays: int)
    requires f.Valid()
    ensures var r := Schedule(e, f, minDays);
            StrictlyIncreasing(r.cleaningDates) &&
            (forall i :: 0 <= i < |r.cleaningDates| ==> r.cleaningDates[i] < f.Days()) &&
            (r.totalNetValue.Fin? ==>
               Spaced(r.cleaningDates, MinGap(minDays)) &&
               exists acts :: |acts| == f.Days() && ValidPath(f, minDays, acts) &&
                 CleanDays(acts) == r.cleaningDates && PathValue(e, f, acts) == r.totalNetValue.v)
  {
    var row := Table(e, f, minDays, f.Days());
    var best := ArgMax(row, |row|);
    var acts := Backtrack(ParentRows(e, f, minDays, f.Days()), f.Days(), best);
    CleanDaysIncrease(acts);
    if row[best].Fin? {
      BacktrackRealizes(e, f, minDays, f.Days(), best);
      ValidPathsAreSpaced(f, minDays, acts);
    }
  }
}
