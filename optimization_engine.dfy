/** OptimizationEngine (ml/optimization_engine.py) as imperative code: the
    forward DP over a (days+1) x 61 table with its parent dictionary, the
    backtrack that appends cleaning days and reverses them, and the
    evaluator that replays a schedule under the p10, p50 and p90 energy
    columns. Each method is proved against the functions of ScheduleSpec
    or against the replay defined here. */
module OptimizationEngine {
  import opened Util
  import opened ScheduleSpec

  /** The forecast frame's columns; absent optional columns are None. */
  datatype ForecastFrame = ForecastFrame(
    actualEnergy: seq<real>,
    hybridEnergy: Option<seq<real>>,
    recoverableEnergy: seq<real>,
    precipitation: Option<seq<real>>,
    uncertP10: Option<seq<real>>,
    uncertP90: Option<seq<real>>)
  {
    predicate Valid()
    {
      var n := |actualEnergy|;
      |recoverableEnergy| == n &&
      (hybridEnergy.Some? ==> |hybridEnergy.value| == n) &&
      (precipitation.Some? ==> |precipitation.value| == n) &&
      (uncertP10.Some? ==> |uncertP10.value| == n) &&
      (uncertP90.Some? ==> |uncertP90.value| == n)
    }

    function Days(): nat { |actualEnergy| }

    /** The hybrid energy when present, else the physics actual. */
    function EnergyColumn(): (col: seq<real>)
      requires Valid()
      ensures |col| == Days()
    {
      if hybridEnergy.Some? then hybridEnergy.value else actualEnergy
    }

    /** The precipitation, or zeros when the column is absent. */
    function RainColumn(): (col: seq<real>)
      requires Valid()
      ensures |col| == Days()
      ensures precipitation.None? ==> forall i :: 0 <= i < |col| ==> col[i] == 0.0
    {
      if precipitation.Some? then precipitation.value else seq(Days(), _ => 0.0)
    }

    function P10Column(): (col: seq<real>)
      requires Valid()
      ensures |col| == Days()
    {
      if uncertP10.Some? then uncertP10.value else EnergyColumn()
    }

    function P90Column(): (col: seq<real>)
      requires Valid()
      ensures |col| == Days()
    {
      if uncertP90.Some? then uncertP90.value else EnergyColumn()
    }
  }

  /** Element-wise sum of two columns: the clean-panel energy. */
  function AddColumns(a: seq<real>, b: seq<real>): (r: seq<real>)
    requires |a| == |b|
    ensures |r| == |a| && forall i :: 0 <= i < |r| ==> r[i] == a[i] + b[i]
  {
    seq(|a|, i requires 0 <= i < |a| => a[i] + b[i])
  }

  /** The forecast the DP plans over: energy column plus recoverable
      energy, and the rain column. */
  function PlanningForecast(fr: ForecastFrame): (f: Forecast)
    requires fr.Valid()
    ensures f.Valid() && f.Days() == fr.Days()
  {
    Forecast(AddColumns(fr.EnergyColumn(), fr.recoverableEnergy), fr.RainColumn())
  }

  // ---------------------------------------------------------------------
  // optimize_cleaning_schedule

  lemma KeyedUpdate(base: map<(nat, nat), Choice>, day: nat, par: map<nat, Choice>, target: nat, c: Choice)
    ensures (base + Keyed(day, par))[(day, target) := c] == base + Keyed(day, par[target := c])
  {
  }

  /** `if dp[n][target] < value: dp[n][target] = value; parent[(n, target)] = c` */
  method ImproveCell(dp: array2<ExtReal>, parent: map<(nat, nat), Choice>, n: nat, target: nat, value: real, c: Choice,
                     ghost row: Row, ghost base: map<(nat, nat), Choice>, ghost par: map<nat, Choice>)
    returns (parent': map<(nat, nat), Choice>)
    requires n < dp.Length0 && dp.Length1 == |row| && target < |row|
    requires forall s :: 0 <= s < |row| ==> dp[n, s] == row[s]
    requires parent == base + Keyed(n, par)
    modifies dp
    ensures var r := Improve(row, par, target, value, c);
            (forall s :: 0 <= s < |row| ==> dp[n, s] == r.0[s]) && parent' == base + Keyed(n, r.1)
    ensures forall d, s :: 0 <= d < dp.Length0 && 0 <= s < dp.Length1 && d != n ==> dp[d, s] == old(dp[d, s])
  {
    parent' := parent;
    if Less(dp[n, target], Fin(value)) {
      dp[n, target] := Fin(value);
      KeyedUpdate(base, n, par, target, c);
      parent' := parent'[(n, target) := c];
    }
  }

  /** The relaxation from dirt state p of row day into row day+1: skip an
      unreachable state, then WAIT, then CLEAN when allowed. */
  method RelaxState(dp: array2<ExtReal>, parent: map<(nat, nat), Choice>, e: Engine, f: Forecast, minDays: int,
                    day: nat, p: nat, ghost prev: Row, ghost row: Row, ghost base: map<(nat, nat), Choice>, ghost par: map<nat, Choice>)
    returns (parent': map<(nat, nat), Choice>)
    requires f.Valid() && day < f.Days() && p < MaxDaysDirty
    requires dp.Length0 == f.Days() + 1 && dp.Length1 == MaxDaysDirty + 1 && |prev| == |row| == MaxDaysDirty + 1
    requires forall s :: 0 <= s <= MaxDaysDirty ==> dp[day, s] == prev[s] && dp[day + 1, s] == row[s]
    requires parent == base + Keyed(day + 1, par)
    modifies dp
    ensures var r := Visit(e, f, minDays, prev, day, p, row, par);
            (forall s :: 0 <= s <= MaxDaysDirty ==> dp[day + 1, s] == r.0[s]) &&
            parent' == base + Keyed(day + 1, r.1)
    ensures forall d, s :: 0 <= d < dp.Length0 && 0 <= s < dp.Length1 && d != day + 1 ==> dp[d, s] == old(dp[d, s])
  {
    if dp[day, p] == NegInf {
      assert Visit(e, f, minDays, prev, day, p, row, par) == (row, par);
      return parent;
    }
    parent' := RelaxReachable(dp, parent, e, f, minDays, day, p, prev, row, base, par);
  }

  /** The relaxation from a reachable dirt state p: WAIT, then CLEAN when
      allowed. */
  method RelaxReachable(dp: array2<ExtReal>, parent: map<(nat, nat), Choice>, e: Engine, f: Forecast, minDays: int,
                        day: nat, p: nat, ghost prev: Row, ghost row: Row, ghost base: map<(nat, nat), Choice>, ghost par: map<nat, Choice>)
    returns (parent': map<(nat, nat), Choice>)
    requires f.Valid() && day < f.Days() && p < MaxDaysDirty
    requires dp.Length0 == f.Days() + 1 && dp.Length1 == MaxDaysDirty + 1 && |prev| == |row| == MaxDaysDirty + 1
    requires forall s :: 0 <= s <= MaxDaysDirty ==> dp[day, s] == prev[s] && dp[day + 1, s] == row[s]
    requires parent == base + Keyed(day + 1, par)
    requires prev[p].Fin?
    modifies dp
    ensures var r := Visit(e, f, minDays, prev, day, p, row, par);
            (forall s :: 0 <= s <= MaxDaysDirty ==> dp[day + 1, s] == r.0[s]) &&
            parent' == base + Keyed(day + 1, r.1)
    ensures forall d, s :: 0 <= d < dp.Length0 && 0 <= s < dp.Length1 && d != day + 1 ==> dp[d, s] == old(dp[d, s])
  {
    parent' := parent;
    var currentReward := dp[day, p].v;
    var nextDirtyDays := WaitNext(p, f.rain[day]);
    var rewardWait := WaitReward(e, f, day, p);
    var rewardClean := CleanReward(e, f, day, p);
    ghost var waited := Improve(row, par, nextDirtyDays, currentReward + rewardWait, Choice(p, false));
    ghost var cleaned := Improve(waited.0, waited.1, 0, currentReward + rewardClean, Choice(p, true));
    VisitComputed(e, f, minDays, prev, day, p, row, par, nextDirtyDays, currentReward, rewardWait, rewardClean);

    parent' := ImproveCell(dp, parent', day + 1, nextDirtyDays, currentReward + rewardWait, Choice(p, false), row, base, par);
    if CanClean(p, minDays) {
      parent' := ImproveCell(dp, parent', day + 1, 0, currentReward + rewardClean, Choice(p, true), waited.0, base, waited.1);
    }
  }

  /** Visit from a reachable state in the terms the relaxation computes:
      the next dirt state of a WAIT and the two rewards. */
  lemma VisitComputed(e: Engine, f: Forecast, minDays: int, prev: Row, day: nat, p: nat, row: Row, par: map<nat, Choice>,
                      next: nat, current: real, rewardWait: real, rewardClean: real)
    requires f.Valid() && day < f.Days() && |prev| == |row| == MaxDaysDirty + 1 && p < MaxDaysDirty && prev[p].Fin?
    requires next == WaitNext(p, f.rain[day]) && current == prev[p].v
    requires rewardWait == WaitReward(e, f, day, p) && rewardClean == CleanReward(e, f, day, p)
    ensures next < MaxDaysDirty + 1
    ensures var waited := Improve(row, par, next, current + rewardWait, Choice(p, false));
            Visit(e, f, minDays, prev, day, p, row, par) ==
              if CanClean(p, minDays) then Improve(waited.0, waited.1, 0, current + rewardClean, Choice(p, true)) else waited
  {
    VisitReachable(e, f, minDays, prev, day, p, row, par);
  }

  /** One pass of the day loop: relax every expanded dirt state of row day
      into row day+1, which holds exactly the table's next row afterwards,
      and add that row's parent entries to the dictionary. */
  method RelaxDay(dp: array2<ExtReal>, parent: map<(nat, nat), Choice>, e: Engine, f: Forecast, minDays: int, day: nat)
    returns (parent': map<(nat, nat), Choice>)
    requires f.Valid() && day < f.Days()
    requires dp.Length0 == f.Days() + 1 && dp.Length1 == MaxDaysDirty + 1
    requires forall s :: 0 <= s <= MaxDaysDirty ==> dp[day, s] == Table(e, f, minDays, day)[s]
    requires forall s :: 0 <= s <= MaxDaysDirty ==> dp[day + 1, s] == EmptyRow()[s]
    modifies dp
    ensures var next := Table(e, f, minDays, day + 1);
            forall s :: 0 <= s <= MaxDaysDirty ==> dp[day + 1, s] == next[s]
    ensures parent' == parent + Keyed(day + 1, Parents(e, f, minDays, day + 1))
    ensures forall d, s :: 0 <= d < dp.Length0 && 0 <= s < dp.Length1 && d != day + 1 ==> dp[d, s] == old(dp[d, s])
  {
    ghost var prev := Table(e, f, minDays, day);
    parent' := parent;
    assert parent + Keyed(day + 1, map[]) == parent;
    assert Relaxed(e, f, minDays, prev, day, 0) == (EmptyRow(), map[]);
    for dirtyDays := 0 to MaxDaysDirty
      invariant forall s :: 0 <= s <= MaxDaysDirty ==> dp[day + 1, s] == Relaxed(e, f, minDays, prev, day, dirtyDays).0[s]
      invariant parent' == parent + Keyed(day + 1, Relaxed(e, f, minDays, prev, day, dirtyDays).1)
      invariant forall d, s :: 0 <= d < dp.Length0 && 0 <= s < dp.Length1 && d != day + 1 ==> dp[d, s] == old(dp[d, s])
    {
      ghost var relaxed := Relaxed(e, f, minDays, prev, day, dirtyDays);
      parent' := RelaxState(dp, parent', e, f, minDays, day, dirtyDays, prev, relaxed.0, parent, relaxed.1);
      assert Relaxed(e, f, minDays, prev, day, dirtyDays + 1) == Visit(e, f, minDays, prev, day, dirtyDays, relaxed.0, relaxed.1);
    }
    assert Table(e, f, minDays, day + 1) == Relaxed(e, f, minDays, prev, day, MaxDaysDirty).0;
  }

  /** A CLEAN step of the backtrack records its day on the schedule. */
  lemma TraceClean(rows: seq<map<nat, Choice>>, whole: seq<nat>, day: nat, s: nat, schedule: seq<nat>)
    requires 1 <= day <= |rows| && s in rows[day - 1] && rows[day - 1][s].clean
    requires whole == CleanDays(Backtrack(rows, day, s)) + Reversed(schedule)
    ensures whole == CleanDays(Backtrack(rows, day - 1, rows[day - 1][s].prev)) + Reversed(schedule + [day - 1])
  {
    var c := rows[day - 1][s];
    var here := CleanDays(Backtrack(rows, day, s));
    var rest := CleanDays(Backtrack(rows, day - 1, c.prev));
    BacktrackStep(rows, day, s);
    assert here == rest + [day - 1];
    RecordCleanDay(whole, here, rest, day - 1, schedule);
    assert whole == rest + Reversed(schedule + [day - 1]);
  }

  /** A WAIT step of the backtrack only moves to the previous state. */
  lemma TraceWait(rows: seq<map<nat, Choice>>, whole: seq<nat>, day: nat, s: nat, schedule: seq<nat>)
    requires 1 <= day <= |rows| && s in rows[day - 1] && !rows[day - 1][s].clean
    requires whole == CleanDays(Backtrack(rows, day, s)) + Reversed(schedule)
    ensures whole == CleanDays(Backtrack(rows, day - 1, rows[day - 1][s].prev)) + Reversed(schedule)
  {
    BacktrackStep(rows, day, s);
    var rest := CleanDays(Backtrack(rows, day - 1, rows[day - 1][s].prev));
    assert rest + [] == rest;
  }

  /** A state without a parent entry keeps its dirt count one day back. */
  lemma TraceMissing(rows: seq<map<nat, Choice>>, whole: seq<nat>, day: nat, s: nat, schedule: seq<nat>)
    requires 1 <= day <= |rows| && s !in rows[day - 1]
    requires whole == CleanDays(Backtrack(rows, day, s)) + Reversed(schedule)
    ensures whole == CleanDays(Backtrack(rows, day - 1, s)) + Reversed(schedule)
  {
    BacktrackStep(rows, day, s);
    var rest := CleanDays(Backtrack(rows, day - 1, s));
    assert rest + [] == rest;
  }

  /** Recording a CLEAN day on the reversed schedule keeps it the tail of
      the backtracked clean days. */
  lemma RecordCleanDay(whole: seq<nat>, here: seq<nat>, rest: seq<nat>, d: nat, schedule: seq<nat>)
    requires whole == here + Reversed(schedule) && here == rest + [d]
    ensures whole == rest + Reversed(schedule + [d])
  {
    ReversedAppend(schedule, d);
    assert rest + [d] + Reversed(schedule) == rest + ([d] + Reversed(schedule));
  }

  /** The backtrack: from (days, best) follow the parent dictionary down to
      day 1, appending day-1 for every CLEAN step, then reverse. */
  method TraceSchedule(parent: map<(nat, nat), Choice>, days: nat, best: nat, ghost rows: seq<map<nat, Choice>>)
    returns (schedule: seq<nat>)
    requires parent == Stacked(rows) && |rows| == days
    ensures schedule == CleanDays(Backtrack(rows, |rows|, best))
  {
    schedule := [];
    var currDirty := best;
    var day: nat := days;
    ghost var whole := CleanDays(Backtrack(rows, |rows|, best));
    while day > 0
      invariant day <= |rows|
      invariant whole == CleanDays(Backtrack(rows, day, currDirty)) + Reversed(schedule)
    {
      StackedLookup(rows, day, currDirty);
      if (day, currDirty) in parent {
        var c := parent[(day, currDirty)];
        if c.clean {
          TraceClean(rows, whole, day, currDirty, schedule);
          schedule := schedule + [day - 1];
        } else {
          TraceWait(rows, whole, day, currDirty, schedule);
        }
        currDirty := c.prev;
      } else {
        TraceMissing(rows, whole, day, currDirty, schedule);
      }
      day := day - 1;
    }
    schedule := Reversed(schedule);
  }

  /** The parent dictionary of one more day adds that day's entries. */
  lemma StackedStep(e: Engine, f: Forecast, minDays: int, day: nat)
    requires f.Valid() && day < f.Days()
    ensures Stacked(ParentRows(e, f, minDays, day + 1)) ==
              Stacked(ParentRows(e, f, minDays, day)) + Keyed(day + 1, Parents(e, f, minDays, day + 1))
  {
    var rows := ParentRows(e, f, minDays, day + 1);
    assert rows[..day] == ParentRows(e, f, minDays, day);
  }

  /** The forward pass: the (days+1) x 61 table from (day 0, dirt 0) and the
      parent dictionary, filled day by day. */
  method FillTable(e: Engine, f: Forecast, minDays: int) returns (dp: array2<ExtReal>, parent: map<(nat, nat), Choice>)
    requires f.Valid()
    ensures dp.Length0 == f.Days() + 1 && dp.Length1 == MaxDaysDirty + 1
    ensures forall s :: 0 <= s <= MaxDaysDirty ==> dp[f.Days(), s] == Table(e, f, minDays, f.Days())[s]
    ensures parent == Stacked(ParentRows(e, f, minDays, f.Days()))
  {
    var days := f.Days();
    dp := new ExtReal[days + 1, MaxDaysDirty + 1]((_, _) => NegInf);
    dp[0, 0] := Fin(0.0);
    assert forall s :: 0 <= s <= MaxDaysDirty ==> dp[0, s] == Table(e, f, minDays, 0)[s];
    parent := FillDays(dp, e, f, minDays);
  }

  /** The day loop of the forward pass over a table whose row 0 is the
      start row and whose later rows are still empty. */
  method FillDays(dp: array2<ExtReal>, e: Engine, f: Forecast, minDays: int) returns (parent: map<(nat, nat), Choice>)
    requires f.Valid()
    requires dp.Length0 == f.Days() + 1 && dp.Length1 == MaxDaysDirty + 1
    requires forall s :: 0 <= s <= MaxDaysDirty ==> dp[0, s] == Table(e, f, minDays, 0)[s]
    requires forall d, s :: 0 < d <= f.Days() && 0 <= s <= MaxDaysDirty ==> dp[d, s] == NegInf
    modifies dp
    ensures forall s :: 0 <= s <= MaxDaysDirty ==> dp[f.Days(), s] == Table(e, f, minDays, f.Days())[s]
    ensures parent == Stacked(ParentRows(e, f, minDays, f.Days()))
  {
    parent := map[];
    for day := 0 to f.Days()
      invariant forall s :: 0 <= s <= MaxDaysDirty ==> dp[day, s] == Table(e, f, minDays, day)[s]
      invariant forall d, s :: day < d <= f.Days() && 0 <= s <= MaxDaysDirty ==> dp[d, s] == NegInf
      invariant parent == Stacked(ParentRows(e, f, minDays, day))
    {
      parent := AdvanceDay(dp, parent, e, f, minDays, day);
    }
  }

  /** One iteration of the day loop: the untouched row day+1 starts empty,
      is relaxed into the table's next row, and the dictionary grows by that
      row's parents; later rows stay untouched. */
  method AdvanceDay(dp: array2<ExtReal>, parent: map<(nat, nat), Choice>, e: Engine, f: Forecast, minDays: int, day: nat)
    returns (parent': map<(nat, nat), Choice>)
    requires f.Valid() && day < f.Days()
    requires dp.Length0 == f.Days() + 1 && dp.Length1 == MaxDaysDirty + 1
    requires forall s :: 0 <= s <= MaxDaysDirty ==> dp[day, s] == Table(e, f, minDays, day)[s]
    requires forall d, s :: day < d <= f.Days() && 0 <= s <= MaxDaysDirty ==> dp[d, s] == NegInf
    requires parent == Stacked(ParentRows(e, f, minDays, day))
    modifies dp
    ensures var next := Table(e, f, minDays, day + 1);
            forall s :: 0 <= s <= MaxDaysDirty ==> dp[day + 1, s] == next[s]
    ensures forall d, s :: day + 1 < d <= f.Days() && 0 <= s <= MaxDaysDirty ==> dp[d, s] == NegInf
    ensures parent' == Stacked(ParentRows(e, f, minDays, day + 1))
  {
    assert forall s :: 0 <= s <= MaxDaysDirty ==> dp[day + 1, s] == EmptyRow()[s];
    parent' := RelaxDay(dp, parent, e, f, minDays, day);
    StackedStep(e, f, minDays, day);
  }

  /** optimize_cleaning_schedule: a frame with a p90 column but no p10
      column fails on the spread p90 - p10 (KeyError); every other frame
      is solved. The spread only feeds a penalty that nothing reads, so
      it does not affect the schedule. */
  method OptimizeCleaningSchedule(e: Engine, fr: ForecastFrame, minDays: int) returns (r: Result<ScheduleResult>)
    requires fr.Valid()
    ensures r.Failure? <==> fr.uncertP90.Some? && fr.uncertP10.None?
    ensures r.Failure? ==> r.error == KeyError
    ensures r.Ok? ==> r.value == Schedule(e, PlanningForecast(fr), minDays)
    ensures r.Ok? ==> forall acts :: |acts| == fr.Days() && ValidPath(PlanningForecast(fr), minDays, acts) ==>
              r.value.totalNetValue.Fin? && r.value.totalNetValue.v >= PathValue(e, PlanningForecast(fr), acts)
  {
    if fr.uncertP90.Some? && fr.uncertP10.None? {
      return Failure(KeyError);
    }
    var schedule := SolveSchedule(e, fr, minDays);
    r := Ok(schedule);
  }

  /** The solving part of optimize_cleaning_schedule: fill the table, take
      the first best final cell (numpy.argmax) and backtrack from it. */
  method SolveSchedule(e: Engine, fr: ForecastFrame, minDays: int) returns (r: ScheduleResult)
    requires fr.Valid()
    ensures r == Schedule(e, PlanningForecast(fr), minDays)
    ensures forall acts :: |acts| == fr.Days() && ValidPath(PlanningForecast(fr), minDays, acts) ==>
              r.totalNetValue.Fin? && r.totalNetValue.v >= PathValue(e, PlanningForecast(fr), acts)
    ensures StrictlyIncreasing(r.cleaningDates) && forall i :: 0 <= i < |r.cleaningDates| ==> r.cleaningDates[i] < fr.Days()
    ensures r.totalNetValue.Fin? ==> Spaced(r.cleaningDates, MinGap(minDays))
  {
    var f := PlanningForecast(fr);
    forall acts | |acts| == fr.Days() && ValidPath(f, minDays, acts)
      ensures Schedule(e, f, minDays).totalNetValue.Fin? && Schedule(e, f, minDays).totalNetValue.v >= PathValue(e, f, acts)
    {
      ScheduleIsOptimal(e, f, minDays, acts);
    }
    ScheduleIsRealized(e, f, minDays);
    var days := fr.Days();
    var dp, parent := FillTable(e, f, minDays);
    var finalRow := seq(MaxDaysDirty + 1, s requires 0 <= s <= MaxDaysDirty reads dp => dp[days, s]);
    assert finalRow == Table(e, f, minDays, days);
    var best := ArgMax(finalRow, |finalRow|);
    var maxTotalReward := dp[days, best];
    var schedule := TraceSchedule(parent, days, best, ParentRows(e, f, minDays, days));
    r := ScheduleResult(schedule, maxTotalReward, days);
  }

  // ---------------------------------------------------------------------
  // calculate_confidence_intervals

  /** The replay's dirt after a day: reset on a scheduled day, cut to the
      whole days left after rain above 0.1 mm, else one more day. Unlike
      the DP, the replay adds no day after rain and has no cap. */
  function DirtAfter(isCleanDay: bool, dirtyDays: nat, rainMm: real): (r: nat)
    ensures isCleanDay ==> r == 0
    ensures !isCleanDay && rainMm <= 0.1 ==> r == dirtyDays + 1
    ensures !isCleanDay && rainMm > 0.1 ==> r <= dirtyDays
  {
    if isCleanDay then 0
    else if rainMm > 0.1 then DaysLeftAfterRain(dirtyDays, rainMm)
    else dirtyDays + 1
  }

  /** The replay's dirt after its first n days; it depends on the schedule
      and the rain only, never on the energy column. */
  function Dirt(dates: seq<int>, rain: seq<real>, n: nat): nat
    requires n <= |rain|
  {
    if n == 0 then 0 else DirtAfter(n - 1 in dates, Dirt(dates, rain, n - 1), rain[n - 1])
  }

  /** The dirt each day is scored at. */
  function DirtTrace(dates: seq<int>, rain: seq<real>): (t: seq<nat>)
    ensures |t| == |rain|
    ensures forall day :: 0 <= day < |rain| ==> t[day] == Dirt(dates, rain, day + 1)
  {
    seq(|rain|, day requires 0 <= day < |rain| => Dirt(dates, rain, day + 1))
  }

  /** One day's reward in the replay: the potential energy at the
      efficiency of the day's dirt, with no carbon value. */
  function DayValue(e: Engine, potential: real, dirt: nat, isCleanDay: bool): real
  {
    DayReward(e, potential * Efficiency(dirt), isCleanDay, 0.0)
  }

  /** The summed rewards of the first n days of a replay scored at the
      given dirt per day. */
  function Total(e: Engine, dates: seq<int>, potential: seq<real>, dirt: seq<nat>, n: nat): real
    requires |potential| == |dirt| && n <= |potential|
  {
    if n == 0 then 0.0
    else Total(e, dates, potential, dirt, n - 1) + DayValue(e, potential[n - 1], dirt[n - 1], n - 1 in dates)
  }

  /** One scenario's net value: the energy column plus the recoverable
      energy, replayed over the whole horizon. */
  function ScenarioTotal(e: Engine, dates: seq<int>, fr: ForecastFrame, energy: seq<real>): real
    requires fr.Valid() && |energy| == fr.Days()
  {
    var rain := fr.RainColumn();
    Total(e, dates, AddColumns(energy, fr.recoverableEnergy), DirtTrace(dates, rain), fr.Days())
  }

  datatype Intervals = Intervals(p10: real, p50: real, p90: real)

  function ConfidenceIntervals(e: Engine, dates: seq<int>, fr: ForecastFrame): Intervals
    requires fr.Valid()
  {
    Intervals(ScenarioTotal(e, dates, fr, fr.P10Column()),
              ScenarioTotal(e, dates, fr, fr.EnergyColumn()),
              ScenarioTotal(e, dates, fr, fr.P90Column()))
  }

  /** Steps 2 to 4 of a replayed day: efficiency, energy and reward. */
  method ReplayDayReward(e: Engine, potential: real, dirtyDays: nat, isCleanDay: bool) returns (reward: real)
    ensures reward == DayValue(e, potential, dirtyDays, isCleanDay)
  {
    var realizedEfficiency := Efficiency(dirtyDays);
    var dailyEnergy := potential * realizedEfficiency;
    reward := DayReward(e, dailyEnergy, isCleanDay, 0.0);
  }

  /** The replay loop of one scenario. */
  method ScenarioValue(e: Engine, dates: seq<int>, potential: seq<real>, rain: seq<real>) returns (totalValue: real)
    requires |potential| == |rain|
    ensures totalValue == Total(e, dates, potential, DirtTrace(dates, rain), |potential|)
  {
    ghost var trace := DirtTrace(dates, rain);
    totalValue := 0.0;
    var dirtyDays: nat := 0;
    for day := 0 to |potential|
      invariant totalValue == Total(e, dates, potential, trace, day)
      invariant dirtyDays == Dirt(dates, rain, day)
    {
      if day in dates {
        dirtyDays := 0;
      } else {
        var rainMm := rain[day];
        if rainMm > 0.1 {
          dirtyDays := DaysLeftAfterRain(dirtyDays, rainMm);
        } else {
          dirtyDays := dirtyDays + 1;
        }
      }
      assert dirtyDays == trace[day];
      var reward := ReplayDayReward(e, potential[day], dirtyDays, day in dates);
      totalValue := totalValue + reward;
    }
  }

  /** calculate_confidence_intervals: the replay under the p10, p50 and p90
      columns; a missing p10 or p90 column falls back to the p50 one, so
      its total is the p50 total. */
  method CalculateConfidenceIntervals(e: Engine, schedule: seq<int>, fr: ForecastFrame) returns (r: Intervals)
    requires fr.Valid()
    ensures r == ConfidenceIntervals(e, schedule, fr)
    ensures fr.uncertP10.None? ==> r.p10 == r.p50
    ensures fr.uncertP90.None? ==> r.p90 == r.p50
  {
    var recoverable := fr.recoverableEnergy;
    var rain := fr.RainColumn();
    var p10 := ScenarioValue(e, schedule, AddColumns(fr.P10Column(), recoverable), rain);
    var p50 := ScenarioValue(e, schedule, AddColumns(fr.EnergyColumn(), recoverable), rain);
    var p90 := ScenarioValue(e, schedule, AddColumns(fr.P90Column(), recoverable), rain);
    r := Intervals(p10, p50, p90);
  }

  /** The number of days before n that the schedule names (each once, as
      the schedule is read as a set). */
  function ScheduledDays(dates: seq<int>, n: nat): (count: nat)
    ensures count <= n
  {
    if n == 0 then 0 else ScheduledDays(dates, n - 1) + (if n - 1 in dates then 1 else 0)
  }

  /** A day's reward is its reward at zero cleaning cost, less the cost
      on a cleaning day. */
  lemma DayValueCharges(e: Engine, potential: real, dirt: nat, isCleanDay: bool)
    ensures DayValue(e, potential, dirt, isCleanDay) ==
              DayValue(e.(cleaningCost := 0.0), potential, dirt, isCleanDay) - (if isCleanDay then e.cleaningCost else 0.0)
  {
  }

  lemma ChargeStep(charged: real, free: real, day: real, freeDay: real, cost: real, k: real, next: real, clean: bool)
    requires charged == free - cost * k
    requires day == freeDay - (if clean then cost else 0.0)
    requires next == k + if clean then 1.0 else 0.0
    ensures charged + day == free + freeDay - cost * next
  {
    if clean {
      assert cost * (k + 1.0) == cost * k + cost;
    }
  }

  /** Each scheduled day within the horizon is charged the cleaning cost
      once and nothing else is: the replay's total is the total at zero
      cleaning cost less the cost per scheduled day. */
  lemma {:induction false} TotalChargesScheduledDays(e: Engine, dates: seq<int>, potential: seq<real>, dirt: seq<nat>, n: nat)
    requires |potential| == |dirt| && n <= |potential|
    ensures Total(e, dates, potential, dirt, n) ==
              Total(e.(cleaningCost := 0.0), dates, potential, dirt, n) - e.cleaningCost * ScheduledDays(dates, n) as real
  {
    if n > 0 {
      TotalChargesScheduledDays(e, dates, potential, dirt, n - 1);
      TotalChargesOneMoreDay(e, e.(cleaningCost := 0.0), dates, potential, dirt, n);
    }
  }

  lemma TotalChargesOneMoreDay(e: Engine, free: Engine, dates: seq<int>, potential: seq<real>, dirt: seq<nat>, n: nat)
    requires |potential| == |dirt| && 0 < n <= |potential| && free == e.(cleaningCost := 0.0)
    requires Total(e, dates, potential, dirt, n - 1) ==
               Total(free, dates, potential, dirt, n - 1) - e.cleaningCost * ScheduledDays(dates, n - 1) as real
    ensures Total(e, dates, potential, dirt, n) ==
              Total(free, dates, potential, dirt, n) - e.cleaningCost * ScheduledDays(dates, n) as real
  {
    var clean := n - 1 in dates;
    var day := DayValue(e, potential[n - 1], dirt[n - 1], clean);
    var freeDay := DayValue(free, potential[n - 1], dirt[n - 1], clean);
    DayValueCharges(e, potential[n - 1], dirt[n - 1], clean);
    ChargeStep(Total(e, dates, potential, dirt, n - 1), Total(free, dates, potential, dirt, n - 1), day, freeDay,
               e.cleaningCost, ScheduledDays(dates, n - 1) as real, ScheduledDays(dates, n) as real, clean);
  }

  /** A scheduled day leaves the panel clean, whatever came before, and
      that day earns the full potential energy less the cleaning cost. */
  lemma ScheduledDayResetsDirt(e: Engine, dates: seq<int>, potential: seq<real>, rain: seq<real>, day: nat)
    requires |potential| == |rain| && day < |potential| && day in dates
    ensures DirtTrace(dates, rain)[day] == 0
    ensures Total(e, dates, potential, DirtTrace(dates, rain), day + 1) ==
              Total(e, dates, potential, DirtTrace(dates, rain), day) + potential[day] * e.electricityPrice - e.cleaningCost
  {
  }

  /** A day's reward grows with its potential energy when the price of
      electricity is not negative. */
  lemma DayValueMonotone(e: Engine, lo: real, hi: real, dirt: nat, isCleanDay: bool)
    requires lo <= hi && e.electricityPrice >= 0.0
    ensures DayValue(e, lo, dirt, isCleanDay) <= DayValue(e, hi, dirt, isCleanDay)
  {
    var eff := Efficiency(dirt);
    assert lo * eff <= hi * eff;
    assert (lo * eff) * e.electricityPrice <= (hi * eff) * e.electricityPrice;
  }

  /** More energy on every day never lowers the replay's total when the
      electricity price is not negative. */
  lemma {:induction false} TotalMonotone(e: Engine, dates: seq<int>, lo: seq<real>, hi: seq<real>, dirt: seq<nat>, n: nat)
    requires |lo| == |hi| == |dirt| && n <= |lo|
    requires forall i :: 0 <= i < |lo| ==> lo[i] <= hi[i]
    requires e.electricityPrice >= 0.0
    ensures Total(e, dates, lo, dirt, n) <= Total(e, dates, hi, dirt, n)
  {
    if n > 0 {
      TotalMonotone(e, dates, lo, hi, dirt, n - 1);
      DayValueMonotone(e, lo[n - 1], hi[n - 1], dirt[n - 1], n - 1 in dates);
    }
  }

  /** Ordered energy columns (p10 <= p50 <= p90 on every day) and a price
      that is not negative give ordered totals. */
  lemma IntervalsOrdered(e: Engine, dates: seq<int>, fr: ForecastFrame)
    requires fr.Valid() && e.electricityPrice >= 0.0
    requires forall i :: 0 <= i < fr.Days() ==> fr.P10Column()[i] <= fr.EnergyColumn()[i] <= fr.P90Column()[i]
    ensures var r := ConfidenceIntervals(e, dates, fr);
            r.p10 <= r.p50 <= r.p90
  {
    var trace := DirtTrace(dates, fr.RainColumn());
    var p10 := AddColumns(fr.P10Column(), fr.recoverableEnergy);
    var p50 := AddColumns(fr.EnergyColumn(), fr.recoverableEnergy);
    var p90 := AddColumns(fr.P90Column(), fr.recoverableEnergy);
    TotalMonotone(e, dates, p10, p50, trace, fr.Days());
    TotalMonotone(e, dates, p50, p90, trace, fr.Days());
  }
}
