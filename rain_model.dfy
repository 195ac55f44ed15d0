/** Rain intelligence (ml/rain_model.py): the rain-wash rule applied to
    a dust level, and the WAIT/PROCEED advice from the rain forecast in
    a window of days. */
module RainModel {
  import opened Util
  import opened Weather

  const RainThresholdMm: real := 2.0
  const RainWindowDays: int := 2
  const CleaningGamma: real := 0.4

  /** Fraction of dust a rain amount washes off: gamma times the rain,
      at most 95%. */
  function RainReduction(rainMm: real): (r: real)
    ensures r <= 0.95
    ensures rainMm >= 0.0 ==> r >= 0.0
  {
    Min(CleaningGamma * rainMm, 0.95)
  }

  /** apply_rain_cleaning: dust times one minus the reduction. */
  function ApplyRainCleaning(dust: real, rainMm: real): (r: real)
    ensures dust >= 0.0 && rainMm >= 0.0 ==> 0.05 * dust <= r <= dust
  {
    var keep := 1.0 - RainReduction(rainMm);
    ScaleBetween(dust, keep, 0.05, 1.0);
    assert dust >= 0.0 && rainMm >= 0.0 ==> dust * 0.05 <= dust * keep <= dust;
    dust * keep
  }

  /** The two PROCEED messages and the plain-string reply when the frame
      has no precipitation column. */
  const NoPrecipitationMessage: string := "No precipitation data"
  const EmptyWindowMessage: string := "End of data or no forecast available for the window."
  const NoRainMessage: string := "No significant rain expected."

  /** The reason half of the (should_wait, reason) reply: a plain
      string, a PROCEED record, or a WAIT record with its estimates. */
  datatype Reason =
    | PlainText(text: string)
    | Proceed(message: string)
    | WaitAdvice(rainMm: real, dustReduction: real, waterSavedLiters: real, sustainabilityBoost: real)

  datatype RainAdvice = RainAdvice(shouldWait: bool, reason: Reason)

  /** The rows whose timestamps fall in [start, end): the pandas mask. */
  function WindowRows(rows: seq<HourRow>, start: int, end: int): (w: seq<HourRow>)
    ensures forall r :: r in w ==> r in rows && start <= r.time < end
    ensures forall r :: r in rows && start <= r.time < end ==> r in w
    ensures |w| <= |rows|
  {
    if |rows| == 0 then []
    else
      var rest := WindowRows(rows[..|rows| - 1], start, end);
      var last := rows[|rows| - 1];
      if start <= last.time < end then rest + [last] else rest
  }

  function Precipitations(rows: seq<HourRow>): (p: seq<real>)
    ensures |p| == |rows|
    ensures forall i :: 0 <= i < |rows| ==> p[i] == rows[i].precipitation
  {
    seq(|rows|, i requires 0 <= i < |rows| => rows[i].precipitation)
  }

  /** check_rain_forecast_wait. `current` is the start timestamp (None:
      the first row's); the window spans `windowDays` days from it, start
      included and end excluded. An empty frame without a start fails as
      `.iloc[0]` does. */
  function CheckRainForecastWait(f: Frame, current: Option<int>, windowDays: int, thresholdMm: real): (r: Result<RainAdvice>)
    ensures !f.hasPrecipitation ==> r == Ok(RainAdvice(false, PlainText(NoPrecipitationMessage)))
    ensures r.Failure? <==> f.hasPrecipitation && current.None? && |f.rows| == 0
    ensures r.Ok? ==> (r.value.shouldWait <==> r.value.reason.WaitAdvice?)
  {
    if !f.hasPrecipitation then Ok(RainAdvice(false, PlainText(NoPrecipitationMessage)))
    else if current.None? && |f.rows| == 0 then Failure(IndexError)
    else
      var start := if current.Some? then current.value else f.rows[0].time;
      var window := WindowRows(f.rows, start, start + windowDays * HoursPerDay);
      if |window| == 0 then Ok(RainAdvice(false, Proceed(EmptyWindowMessage)))
      else
        var upcoming := Sum(Precipitations(window));
        if upcoming >= thresholdMm then
          var reduction := RainReduction(upcoming);
          Ok(RainAdvice(true, WaitAdvice(upcoming, reduction, upcoming * 0.5, reduction * 100.0)))
        else Ok(RainAdvice(false, Proceed(NoRainMessage)))
  }

  /** The window's rain total, as the advice computes it. */
  function WindowRain(f: Frame, start: int, windowDays: int): real
  {
    Sum(Precipitations(WindowRows(f.rows, start, start + windowDays * HoursPerDay)))
  }

  /** WAIT holds exactly when the window is non-empty and its rain total
      reaches the threshold; the advice then carries the reduction
      min(0.4 rain, 0.95), 0.5 litres saved per mm and a boost of 100
      times the reduction. */
  lemma WaitIffRainReachesThreshold(f: Frame, start: int, windowDays: int, thresholdMm: real)
    requires f.hasPrecipitation
    ensures var r := CheckRainForecastWait(f, Some(start), windowDays, thresholdMm);
            var w := WindowRows(f.rows, start, start + windowDays * HoursPerDay);
            var rain := WindowRain(f, start, windowDays);
            r.Ok? &&
            (r.value.shouldWait <==> |w| > 0 && rain >= thresholdMm) &&
            (r.value.shouldWait ==> r.value.reason == WaitAdvice(rain, Min(0.4 * rain, 0.95), 0.5 * rain, 100.0 * Min(0.4 * rain, 0.95))) &&
            (|w| == 0 ==> r.value == RainAdvice(false, Proceed(EmptyWindowMessage)))
  {
    var w := WindowRows(f.rows, start, start + windowDays * HoursPerDay);
    var rain := WindowRain(f, start, windowDays);
    var r := CheckRainForecastWait(f, Some(start), windowDays, thresholdMm);
    if |w| > 0 {
      assert rain == Sum(Precipitations(w));
      if rain >= thresholdMm {
        assert r == Ok(RainAdvice(true, WaitAdvice(rain, RainReduction(rain), rain * 0.5, RainReduction(rain) * 100.0)));
      } else {
        assert r == Ok(RainAdvice(false, Proceed(NoRainMessage)));
      }
    }
  }

  /** With a positive threshold, every WAIT promises saved water. */
  lemma WaitSavesWater(f: Frame, current: Option<int>, windowDays: int, thresholdMm: real)
    requires thresholdMm > 0.0
    requires CheckRainForecastWait(f, current, windowDays, thresholdMm).Ok?
    requires CheckRainForecastWait(f, current, windowDays, thresholdMm).value.shouldWait
    ensures CheckRainForecastWait(f, current, windowDays, thresholdMm).value.reason.waterSavedLiters > 0.0
  {
  }

  lemma WindowRowsSnoc(rows: seq<HourRow>, last: HourRow, start: int, end: int)
    ensures WindowRows(rows + [last], start, end) ==
              if start <= last.time < end then WindowRows(rows, start, end) + [last] else WindowRows(rows, start, end)
  {
    assert (rows + [last])[..|rows + [last]| - 1] == rows;
  }
  /** The mask keeps every row in the window as often as it occurs and
      drops every other row. */
  lemma {:induction false} WindowRowsCounts(rows: seq<HourRow>, start: int, end: int)
    ensures forall r :: multiset(WindowRows(rows, start, end))[r] == if start <= r.time < end then multiset(rows)[r] else 0
    decreases |rows|
  {
    if |rows| > 0 {
      var front := rows[..|rows| - 1];
      var last := rows[|rows| - 1];
      assert rows == front + [last];
      WindowRowsCounts(front, start, end);
    }
  }

  /** The mask keeps the rows' order: masking a concatenation masks each
      part and joins the results. */
  lemma {:induction false} WindowRowsSplit(a: seq<HourRow>, b: seq<HourRow>, start: int, end: int)
    ensures WindowRows(a + b, start, end) == WindowRows(a, start, end) + WindowRows(b, start, end)
    decreases |b|
  {
    if |b| == 0 {
      assert a + b == a;
    } else {
      var front := b[..|b| - 1];
      var last := b[|b| - 1];
      assert b == front + [last];
      assert a + b == (a + front) + [last];
      WindowRowsSplit(a, front, start, end);
      WindowRowsSnoc(a + front, last, start, end);
      WindowRowsSnoc(front, last, start, end);
    }
  }


  /** The rows of a daily forecast with rain [0, 3.5, 0, 0, 0] from hour 0. */
  function DailyExampleRows(): (rows: seq<HourRow>)
    ensures |rows| == 5 && forall i :: 0 <= i < 5 ==> rows[i].time == 24 * i
  {
    [HourRow(0, 0.0, 0.0, 0.0), HourRow(24, 0.0, 0.0, 3.5), HourRow(48, 0.0, 0.0, 0.0),
     HourRow(72, 0.0, 0.0, 0.0), HourRow(96, 0.0, 0.0, 0.0)]
  }

  /** Its two-day window from hour 0 holds the first two days. */
  lemma DailyExampleWindow()
    ensures WindowRows(DailyExampleRows(), 0, 48) == DailyExampleRows()[..2]
  {
    var rows := DailyExampleRows();
    var a, b, c, d, e := rows[0], rows[1], rows[2], rows[3], rows[4];
    assert rows == [a, b, c, d, e];
    WindowRowsSnoc([], a, 0, 48);
    assert [] + [a] == [a];
    WindowRowsSnoc([a], b, 0, 48);
    assert [a] + [b] == [a, b];
    WindowRowsSnoc([a, b], c, 0, 48);
    assert [a, b] + [c] == [a, b, c];
    WindowRowsSnoc([a, b, c], d, 0, 48);
    assert [a, b, c] + [d] == [a, b, c, d];
    WindowRowsSnoc([a, b, c, d], e, 0, 48);
    assert [a, b, c, d] + [e] == [a, b, c, d, e];
    assert rows[..2] == [a, b];
  }

  /** With the default two-day window and 2 mm threshold, that forecast
      advises WAIT. */
  lemma DailyForecastExampleWaits()
    ensures var r := CheckRainForecastWait(Frame(DailyExampleRows(), true), Some(0), RainWindowDays, RainThresholdMm);
            r.Ok? && r.value.shouldWait
  {
    var f := Frame(DailyExampleRows(), true);
    DailyExampleWindow();
    var w := DailyExampleRows()[..2];
    assert Precipitations(w) == [0.0, 3.5];
    SumTwo(0.0, 3.5);
    assert WindowRain(f, 0, RainWindowDays) == 3.5;
    WaitIffRainReachesThreshold(f, 0, RainWindowDays, RainThresholdMm);
  }
}
