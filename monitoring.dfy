/** ModelMonitor (ml/monitoring.py): a bounded first-in first-out buffer
    of the energy predictions logged at inference time, and a drift check
    that compares the buffer's mean with a fixed baseline. The log file is
    modelled as the sequence of entries written to it; whether a write
    succeeds is a parameter. */
module Monitoring {
  import opened Util

  const BufferCapacity: nat := 1000
  const MinDriftSamples: nat := 10
  const BaselineMean: real := 1000.0
  const DriftThreshold: real := 0.15

  /** A log line: the timestamp is an opaque string, the latency is kept
      unrounded, and the input features map each name to its value's text. */
  datatype LogEntry = LogEntry(timestamp: string, requestId: string, latencyMs: real,
                               inputs: map<string, string>, p50Energy: real, action: string)

  datatype DriftMessage = InsufficientData | MeanShifted(deviationPercent: real) | Stable

  datatype DriftReport = DriftReport(driftDetected: bool, confidence: real, message: DriftMessage)

  /** The value logged for drift tracking: the energy gained, or 0 when the
      outputs do not carry one. */
  function Predicted(energyGained: Option<real>): real
  {
    if energyGained.Some? then energyGained.value else 0.0
  }

  /** The buffer after one append and at most one pop(0). */
  function Logged(buffer: seq<real>, value: real): (r: seq<real>)
    ensures |r| > 0 && r[|r| - 1] == value
    ensures |buffer| < BufferCapacity ==> r == buffer + [value]
    ensures |buffer| >= BufferCapacity ==> r == buffer[1..] + [value]
  {
    var appended := buffer + [value];
    if |appended| > BufferCapacity then appended[1..] else appended
  }

  /** The last (at most 1000) values of everything ever logged. */
  function Window(history: seq<real>): (w: seq<real>)
    ensures |w| <= BufferCapacity
    ensures |history| <= BufferCapacity ==> w == history
    ensures |history| > BufferCapacity ==> |w| == BufferCapacity
  {
    if |history| <= BufferCapacity then history else history[|history| - BufferCapacity..]
  }

  /** Logging one value into the window of a history gives the window of
      the longer history: the buffer drops exactly the oldest values. */
  lemma WindowStep(history: seq<real>, value: real)
    ensures Logged(Window(history), value) == Window(history + [value])
  {
    var h := history + [value];
    if |history| >= BufferCapacity {
      var w := Window(history);
      assert w == history[|history| - BufferCapacity..];
      assert w[1..] + [value] == h[|h| - BufferCapacity..];
    }
  }

  /** np.mean of a non-empty buffer. */
  function Mean(s: seq<real>): real
    requires |s| > 0
  {
    Sum(s) / |s| as real
  }

  /** A constant buffer has that constant as its mean. */
  lemma {:induction false} SumConstant(s: seq<real>, x: real)
    requires forall i :: 0 <= i < |s| ==> s[i] == x
    ensures Sum(s) == |s| as real * x
  {
    if |s| > 0 {
      SumConstant(s[..|s| - 1], x);
    }
  }

  lemma MeanConstant(s: seq<real>, x: real)
    requires |s| > 0 && forall i :: 0 <= i < |s| ==> s[i] == x
    ensures Mean(s) == x
  {
    SumConstant(s, x);
  }

  /** check_drift on a buffer. */
  function Drift(buffer: seq<real>): (r: DriftReport)
    ensures |buffer| < MinDriftSamples ==> r == DriftReport(false, 0.0, InsufficientData)
    ensures r.driftDetected <==> |buffer| >= MinDriftSamples && (Mean(buffer) < 850.0 || Mean(buffer) > 1150.0)
    ensures |buffer| >= MinDriftSamples && r.driftDetected ==> r.confidence == 0.95 && r.message.MeanShifted?
    ensures |buffer| >= MinDriftSamples && !r.driftDetected ==> r == DriftReport(false, 0.8, Stable)
  {
    if |buffer| < MinDriftSamples then DriftReport(false, 0.0, InsufficientData)
    else
      var deviation := Abs(Mean(buffer) - BaselineMean) / BaselineMean;
      if deviation > DriftThreshold then DriftReport(true, 0.95, MeanShifted(deviation * 100.0))
      else DriftReport(false, 0.8, Stable)
  }

  /** A buffer of at least ten values all at the baseline shows no drift. */
  lemma BaselineIsStable(buffer: seq<real>)
    requires |buffer| >= MinDriftSamples && forall i :: 0 <= i < |buffer| ==> buffer[i] == BaselineMean
    ensures !Drift(buffer).driftDetected
  {
    MeanConstant(buffer, BaselineMean);
  }

  class ModelMonitor {
    var logFile: string
    var recentPredictions: seq<real>
    /** The entries written to the log file, oldest first. */
    var written: seq<LogEntry>
    /** Every value ever logged, oldest first. */
    ghost var history: seq<real>

    /** The buffer holds the last (at most 1000) logged values. */
    ghost predicate Valid()
      reads this
    {
      recentPredictions == Window(history)
    }

    constructor (logFile: string)
      ensures Valid() && this.logFile == logFile
      ensures recentPredictions == [] && history == [] && written == []
    {
      this.logFile := logFile;
      recentPredictions := [];
      written := [];
      history := [];
    }

    /** log_inference: write a line (a failed write is swallowed) and
        push the energy gained into the buffer, dropping the oldest value
        past 1000. */
    method LogInference(timestamp: string, requestId: string, inputFeatures: map<string, string>,
                        energyGained: Option<real>, action: Option<string>,
                        executionTimeMs: real, writeSucceeds: bool)
      requires Valid()
      modifies this
      ensures Valid()
      ensures logFile == old(logFile)
      ensures history == old(history) + [Predicted(energyGained)]
      ensures recentPredictions == Logged(old(recentPredictions), Predicted(energyGained))
      ensures |recentPredictions| <= BufferCapacity
      ensures written == old(written) +
        (if writeSucceeds
         then [LogEntry(timestamp, requestId, executionTimeMs, inputFeatures, Predicted(energyGained),
                        if action.Some? then action.value else "UNKNOWN")]
         else [])
    {
      var entry := LogEntry(timestamp, requestId, executionTimeMs, inputFeatures, Predicted(energyGained),
                            if action.Some? then action.value else "UNKNOWN");
      if writeSucceeds {
        written := written + [entry];
      }
      var value := Predicted(energyGained);
      WindowStep(history, value);
      history := history + [value];
      recentPredictions := recentPredictions + [value];
      if |recentPredictions| > BufferCapacity {
        recentPredictions := recentPredictions[1..];
      }
    }

    /** check_drift only reads the buffer. */
    function CheckDrift(): (r: DriftReport)
      reads this
      ensures r == Drift(recentPredictions)
    {
      Drift(recentPredictions)
    }
  }
}
