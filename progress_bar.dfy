/**
 * The base class of the progress bars (pi_ml/callbacks/progress/base.py):
 * the guard on the trainer reference, the batch totals the bars display,
 * the metrics shown next to the bar, and the standard metrics (loss, split
 * index, logger version).
 *
 * The trainer is seen through `BarTrainer`, a snapshot of the trainer
 * attributes these properties read.
 */
module ProgressBar {
  import opened Wrappers
  import Trainer
  import EvaluationLoop
  import LoggerConnector

  /** What the progress bar reads from the trainer. */
  datatype BarTrainer = BarTrainer(
    isGlobalZero: bool,
    fn: Trainer.TrainerFn,
    sanityChecking: bool,
    enableValidation: bool,
    currentEpoch: int,
    checkValEveryNEpoch: int,
    valCheckBatch: int,
    numTrainingBatches: Num,
    numSanityValBatches: seq<Num>,
    numValBatches: seq<Num>,
    numTestBatches: seq<Num>,
    numPredictBatches: seq<Num>,
    trainProcessed: nat,
    fitValCurrentProcessed: nat,
    fitValTotalProcessed: nat,
    validateProcessed: nat,
    testProcessed: nat,
    predictProcessed: nat)

  /** `val_batch_idx`: the batches of the validation run inside fitting, or of the stand-alone validation. */
  function ValBatchIdx(t: BarTrainer): (n: nat)
    ensures t.fn == Trainer.Fitting ==> n == t.fitValCurrentProcessed
    ensures t.fn != Trainer.Fitting ==> n == t.validateProcessed
  {
    if t.fn == Trainer.Fitting then t.fitValCurrentProcessed else t.validateProcessed
  }

  /**
   * `total_val_batches`: the sanity-check batches while sanity checking;
   * otherwise the validation batches in an epoch that validates (the
   * epoch's number plus one is a multiple of `check_val_every_n_epoch`),
   * and 0 in any other epoch or when validation is off.
   */
  function TotalValBatches(t: BarTrainer): (r: Result<Num>)
    ensures t.sanityChecking ==> r == Ok(EvaluationLoop.Sum(t.numSanityValBatches))
    ensures !t.sanityChecking && !t.enableValidation ==> r == Ok(Int(0))
    ensures !t.sanityChecking && t.enableValidation && t.checkValEveryNEpoch == 0 ==> r == Err(ZeroDivisionError)
    ensures !t.sanityChecking && t.enableValidation && t.checkValEveryNEpoch != 0 ==>
      r == Ok(if LoggerConnector.Divides(t.checkValEveryNEpoch, t.currentEpoch + 1) then EvaluationLoop.Sum(t.numValBatches) else Int(0))
  {
    if t.sanityChecking then Ok(EvaluationLoop.Sum(t.numSanityValBatches))
    else if !t.enableValidation then Ok(Int(0))
    else if t.checkValEveryNEpoch == 0 then Err(ZeroDivisionError)
    else
      LoggerConnector.ModZeroDivides(t.currentEpoch + 1, t.checkValEveryNEpoch);
      var isValEpoch := (t.currentEpoch + 1) % t.checkValEveryNEpoch == 0;
      Ok(if isValEpoch then EvaluationLoop.Sum(t.numValBatches) else Int(0))
  }

  /** Validation every epoch shows the validation batches in every epoch. */
  lemma ValidateEveryEpoch(t: BarTrainer)
    requires !t.sanityChecking && t.enableValidation && t.checkValEveryNEpoch == 1
    ensures TotalValBatches(t) == Ok(EvaluationLoop.Sum(t.numValBatches))
  {
    assert (t.currentEpoch + 1) * 1 == t.currentEpoch + 1;
  }

  /** An epoch shows validation batches exactly when the one `check_val_every_n_epoch` later does. */
  lemma {:induction false} ValEpochsPeriodic(t: BarTrainer)
    requires !t.sanityChecking && t.enableValidation && t.checkValEveryNEpoch > 0
    ensures TotalValBatches(t) == TotalValBatches(t.(currentEpoch := t.currentEpoch + t.checkValEveryNEpoch))
  {
    var n := t.checkValEveryNEpoch;
    var m := t.currentEpoch + 1;
    if LoggerConnector.Divides(n, m) {
      var k :| k * n == m;
      assert (k + 1) * n == m + n;
    }
    if LoggerConnector.Divides(n, m + n) {
      var k :| k * n == m + n;
      assert (k - 1) * n == m;
    }
  }

  /** `total_test_batches`: the test batches of all test dataloaders. */
  function TotalTestBatches(t: BarTrainer): (n: Num)
    ensures EvaluationLoop.Counts(t.numTestBatches) ==>
      (n.IsZero() <==> forall i :: 0 <= i < |t.numTestBatches| ==> t.numTestBatches[i] == Int(0))
    ensures EvaluationLoop.Counts(t.numTestBatches) ==>
      n == if exists i :: 0 <= i < |t.numTestBatches| && t.numTestBatches[i].Inf? then Inf
           else Int(EvaluationLoop.FiniteTotal(t.numTestBatches))
  {
    if EvaluationLoop.Counts(t.numTestBatches) then
      EvaluationLoop.SkipIffNoBatches(t.numTestBatches);
      EvaluationLoop.SumOfCounts(t.numTestBatches);
      EvaluationLoop.Sum(t.numTestBatches)
    else EvaluationLoop.Sum(t.numTestBatches)
  }

  /** `total_predict_batches`: the batches of all prediction dataloaders. */
  function TotalPredictBatches(t: BarTrainer): (n: Num)
    ensures EvaluationLoop.Counts(t.numPredictBatches) ==>
      (n.IsZero() <==> forall i :: 0 <= i < |t.numPredictBatches| ==> t.numPredictBatches[i] == Int(0))
    ensures EvaluationLoop.Counts(t.numPredictBatches) ==>
      n == if exists i :: 0 <= i < |t.numPredictBatches| && t.numPredictBatches[i].Inf? then Inf
           else Int(EvaluationLoop.FiniteTotal(t.numPredictBatches))
  {
    if EvaluationLoop.Counts(t.numPredictBatches) then
      EvaluationLoop.SkipIffNoBatches(t.numPredictBatches);
      EvaluationLoop.SumOfCounts(t.numPredictBatches);
      EvaluationLoop.Sum(t.numPredictBatches)
    else EvaluationLoop.Sum(t.numPredictBatches)
  }

  /** A value shown next to the bar. */
  datatype BarValue =
    | FormattedLoss(loss: Num)
    | SplitIndex(idx: int)
    | VersionText(text: string)
    | VersionNumber(number: int)
    | Metric(value: Num)

  /** A logger's version: a number or a string. */
  datatype Version = IntVersion(v: int) | StrVersion(s: string)

  /** `version[-4:]`: the last four characters, or the whole of a shorter string. */
  function LastFour(s: string): (r: string)
    ensures |r| == if |s| < 4 then |s| else 4
    ensures s == s[..|s| - |r|] + r
  {
    if |s| < 4 then s else s[|s| - 4..]
  }

  /**
   * `get_standard_metrics`: the mean running loss (NaN under automatic
   * optimization before there is one, absent under manual optimization),
   * the split index under truncated BPTT, and the logger's version, a
   * string one cut to its last four characters.
   */
  function StandardMetrics(runningLoss: Option<real>, automatic: bool, tbpttSteps: int, splitIdx: int, version: Option<Version>): (m: map<string, BarValue>)
    ensures "loss" in m <==> runningLoss.Some? || automatic
    ensures runningLoss.Some? ==> m["loss"] == FormattedLoss(Float(runningLoss.value))
    ensures runningLoss.None? && automatic ==> m["loss"] == FormattedLoss(NaN)
    ensures "split_idx" in m <==> tbpttSteps > 0
    ensures tbpttSteps > 0 ==> m["split_idx"] == SplitIndex(splitIdx)
    ensures "v_num" in m <==> version.Some?
    ensures version.Some? && version.value.StrVersion? ==> m["v_num"] == VersionText(LastFour(version.value.s))
    ensures version.Some? && version.value.IntVersion? ==> m["v_num"] == VersionNumber(version.value.v)
    ensures m.Keys <= {"loss", "split_idx", "v_num"}
  {
    var avgLoss: Option<Num> :=
      if runningLoss.Some? then Some(Float(runningLoss.value))
      else if automatic then Some(NaN)
      else None;
    var withLoss: map<string, BarValue> := if avgLoss.Some? then map["loss" := FormattedLoss(avgLoss.value)] else map[];
    var withSplit := if tbpttSteps > 0 then withLoss["split_idx" := SplitIndex(splitIdx)] else withLoss;
    if version.None? then withSplit
    else
      match version.value
      case StrVersion(s) => withSplit["v_num" := VersionText(LastFour(s))]
      case IntVersion(v) => withSplit["v_num" := VersionNumber(v)]
  }

  /**
   * `get_metrics`: the standard metrics overridden by the metrics logged
   * for the progress bar, and the names they share (which draw a warning).
   */
  function GetMetrics(standard: map<string, BarValue>, pbar: map<string, BarValue>): (r: (map<string, BarValue>, set<string>))
    ensures r.0.Keys == standard.Keys + pbar.Keys
    ensures forall k :: k in pbar ==> r.0[k] == pbar[k]
    ensures forall k :: k in standard && k !in pbar ==> r.0[k] == standard[k]
    ensures forall k :: k in r.1 <==> k in standard && k in pbar
  {
    (standard + pbar, standard.Keys * pbar.Keys)
  }

  class ProgressBarBase {
    var trainerRef: Option<BarTrainer>

    constructor()
      ensures trainerRef == None
    {
      trainerRef := None;
    }

    /** `trainer`: refused with a TypeError until `setup` has stored one. */
    function GetTrainer(): (r: Result<BarTrainer>)
      reads this
      ensures r.Err? <==> trainerRef.None?
      ensures r.Err? ==> r.error == TypeError
      ensures r.Ok? ==> r.value == trainerRef.value
    {
      if trainerRef.None? then Err(TypeError) else Ok(trainerRef.value)
    }

    /** `total_val_batches` through the guarded trainer reference. */
    function TotalValBatchesOf(): (r: Result<Num>)
      reads this
      ensures trainerRef.None? ==> r == Err(TypeError)
      ensures trainerRef.Some? ==> r == TotalValBatches(trainerRef.value)
    {
      var t :- GetTrainer();
      TotalValBatches(t)
    }

    /**
     * `setup`: stores the trainer; off global rank zero it disables the bar,
     * which the base class leaves to subclasses (its `disable` raises).
     */
    method Setup(t: BarTrainer) returns (r: Result<()>)
      modifies this
      ensures trainerRef == Some(t)
      ensures r.Err? <==> !t.isGlobalZero
      ensures r.Err? ==> r.error == NotImplementedError
    {
      trainerRef := Some(t);
      if !t.isGlobalZero {
        return Err(NotImplementedError);
      }
      r := Ok(());
    }
  }
}
