/** AdaptiveLearner (ml/feedback_loop.py): ground-truth feedback is scored
    by its percentage error, and an error above 10% appends a retraining
    record with the next model version "v3.k". Timestamps are opaque
    strings passed in; console output is not modelled. */
module Feedback {
  import opened Util

  const RetrainThreshold: real := 10.0
  const StableStatus: string := "Model Stable (v3.0)"

  datatype FeedbackStatus = RetrainingTriggered | Accepted

  datatype FeedbackResult = FeedbackResult(status: FeedbackStatus, mape: real)

  /** Why a retraining ran: the error that triggered it and the cleaning
      date the feedback was about. */
  datatype Reason = HighError(mape: real, cleanDate: string)

  datatype RetrainingRecord = RetrainingRecord(date: string, reason: Reason, status: string, newVersion: string)

  /** The version name of the k-th retraining. */
  function Version(k: nat): (v: string)
    ensures |v| > 3 && v[..3] == "v3."
  {
    "v3." + NatToString(k)
  }

  /** Different retrainings get different version names. */
  lemma VersionInjective(k: nat, m: nat)
    requires Version(k) == Version(m)
    ensures k == m
  {
    assert Version(k)[3..] == NatToString(k);
    assert Version(m)[3..] == NatToString(m);
    NatToStringInjective(k, m);
  }

  /** The absolute percentage error, 0 when the actual energy is not
      positive. */
  function Mape(actual: real, predicted: real): (r: real)
    ensures r >= 0.0
    ensures actual > 0.0 ==> r * actual == Abs(actual - predicted) * 100.0
    ensures actual <= 0.0 ==> r == 0.0
  {
    if actual > 0.0 then Abs(actual - predicted) / actual * 100.0 else 0.0
  }

  /** Retraining fires exactly when the prediction misses a positive actual
      by more than a tenth of it. */
  lemma RetrainIffTenPercentMiss(actual: real, predicted: real)
    ensures Mape(actual, predicted) > RetrainThreshold <==>
              actual > 0.0 && Abs(actual - predicted) > actual / 10.0
  {
    if actual > 0.0 {
      var m := Mape(actual, predicted);
      var miss := Abs(actual - predicted);
      ScaleKeepsOrder(m, RetrainThreshold, actual);
      assert m * actual == miss * 100.0;
      assert m > RetrainThreshold <==> miss * 100.0 > 10.0 * actual;
    }
  }

  /** Multiplying by a positive amount keeps a strict order. */
  lemma ScaleKeepsOrder(x: real, y: real, a: real)
    requires a > 0.0
    ensures x > y <==> x * a > y * a
  {
    if x > y {
      assert (x - y) * a > 0.0;
    } else {
      assert (y - x) * a >= 0.0;
    }
  }

  /** The status line for a retraining history. */
  function StatusOf(history: seq<RetrainingRecord>): (s: string)
    ensures history == [] ==> s == StableStatus
    ensures history != [] ==>
              s == "Last Retrained: " + history[|history| - 1].date + " (" + history[|history| - 1].newVersion + ")"
  {
    if history == [] then StableStatus
    else
      var last := history[|history| - 1];
      "Last Retrained: " + last.date + " (" + last.newVersion + ")"
  }

  /** Record i (from 0) carries version v3.(i + 1). */
  ghost predicate Numbered(history: seq<RetrainingRecord>)
  {
    forall i :: 0 <= i < |history| ==> history[i].newVersion == Version(i + 1)
  }

  /** A consecutively numbered history never repeats a version. */
  lemma NumberedVersionsDistinct(history: seq<RetrainingRecord>, i: nat, j: nat)
    requires Numbered(history) && i < |history| && j < |history| && i != j
    ensures history[i].newVersion != history[j].newVersion
  {
    if history[i].newVersion == history[j].newVersion {
      VersionInjective(i + 1, j + 1);
    }
  }

  class AdaptiveLearner {
    var retrainingHistory: seq<RetrainingRecord>

    ghost predicate Valid()
      reads this
    {
      Numbered(retrainingHistory)
    }

    constructor ()
      ensures Valid() && retrainingHistory == []
    {
      retrainingHistory := [];
    }

    /** trigger_retraining: append one successful record numbered after
        the records already there. */
    method TriggerRetraining(reason: Reason, now: string)
      requires Valid()
      modifies this
      ensures Valid()
      ensures retrainingHistory ==
                old(retrainingHistory) + [RetrainingRecord(now, reason, "SUCCESS", Version(|old(retrainingHistory)| + 1))]
      ensures RetrainingStatus() == "Last Retrained: " + now + " (" + Version(|retrainingHistory|) + ")"
    {
      var record := RetrainingRecord(now, reason, "SUCCESS", Version(|retrainingHistory| + 1));
      retrainingHistory := retrainingHistory + [record];
    }

    /** submit_feedback: score the error; above 10% trigger a retraining,
        otherwise leave the history as it was. */
    method SubmitFeedback(cleanDate: string, actualEnergyKwh: real, predictedKwh: real, now: string)
      returns (r: FeedbackResult)
      requires Valid()
      modifies this
      ensures Valid()
      ensures r.mape == Mape(actualEnergyKwh, predictedKwh)
      ensures r.status == RetrainingTriggered <==> r.mape > RetrainThreshold
      ensures r.status == Accepted ==> retrainingHistory == old(retrainingHistory)
      ensures r.status == RetrainingTriggered ==>
                retrainingHistory == old(retrainingHistory) +
                  [RetrainingRecord(now, HighError(r.mape, cleanDate), "SUCCESS", Version(|old(retrainingHistory)| + 1))]
    {
      var error := Abs(actualEnergyKwh - predictedKwh);
      var mape := if actualEnergyKwh > 0.0 then error / actualEnergyKwh * 100.0 else 0.0;
      if mape > RetrainThreshold {
        TriggerRetraining(HighError(mape, cleanDate), now);
        return FeedbackResult(RetrainingTriggered, mape);
      }
      return FeedbackResult(Accepted, mape);
    }

    /** get_retraining_status. */
    function RetrainingStatus(): (s: string)
      reads this
      ensures s == StatusOf(retrainingHistory)
    {
      StatusOf(retrainingHistory)
    }
  }
}
