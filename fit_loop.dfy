/**
 * The outer loop of `Trainer.fit` (pi_ml/loops/fit_loop.py): its limits, the
 * rule that decides when fitting ends, and the adjustments it makes to the
 * epoch counter and the global step. The epoch loop it drives is reduced to
 * the two fields the fit loop forwards to it (global step and step limits).
 */
module FitLoop {
  import opened Wrappers
  import opened Progress
  import LoopUtilities

  /** The trainer attributes the fit loop reads, plus `should_stop`, which it also writes. */
  class TrainerFlags {
    var shouldStop: bool
    var numTrainingBatches: Num
    var limitTrainBatches: Num

    constructor(shouldStop: bool, numTrainingBatches: Num, limitTrainBatches: Num)
      ensures this.shouldStop == shouldStop
      ensures this.numTrainingBatches == numTrainingBatches
      ensures this.limitTrainBatches == limitTrainBatches
    {
      this.shouldStop := shouldStop;
      this.numTrainingBatches := numTrainingBatches;
      this.limitTrainBatches := limitTrainBatches;
    }
  }

  /** Python `if minimum` on an `Optional[int]`: None and 0 switch the minimum off. */
  predicate MetMinimum(count: int, minimum: Option<int>)
  {
    minimum.None? || minimum.value == 0 || count >= minimum.value
  }

  /**
   * Whether a stop request is honoured: it must have been made, and both
   * minimums (epochs completed, global steps) must have been met.
   */
  function StopHonoured(requested: bool, completed: int, minEpochs: Option<int>, globalStep: int, minSteps: Option<int>): (r: bool)
    ensures r ==> requested
    ensures r ==> (minEpochs.Some? && minEpochs.value != 0 ==> completed >= minEpochs.value)
    ensures r ==> (minSteps.Some? && minSteps.value != 0 ==> globalStep >= minSteps.value)
    ensures requested && MetMinimum(completed, minEpochs) && MetMinimum(globalStep, minSteps) ==> r
  {
    requested && MetMinimum(completed, minEpochs) && MetMinimum(globalStep, minSteps)
  }

  /** The `done` rule, over the values it reads. */
  predicate IsDone(globalStep: int, maxSteps: int, completed: int, maxEpochs: int, honoured: bool, numTrainingBatches: Num)
    ensures maxSteps != -1 && globalStep >= maxSteps ==> IsDone(globalStep, maxSteps, completed, maxEpochs, honoured, numTrainingBatches)
    ensures maxEpochs != -1 && completed >= maxEpochs ==> IsDone(globalStep, maxSteps, completed, maxEpochs, honoured, numTrainingBatches)
    ensures honoured || numTrainingBatches.IsZero() ==> IsDone(globalStep, maxSteps, completed, maxEpochs, honoured, numTrainingBatches)
    ensures maxSteps == -1 && maxEpochs == -1 && !honoured && !numTrainingBatches.IsZero() ==>
      !IsDone(globalStep, maxSteps, completed, maxEpochs, honoured, numTrainingBatches)
    ensures IsDone(globalStep, maxSteps, completed, maxEpochs, honoured, numTrainingBatches) && !honoured && !numTrainingBatches.IsZero() ==>
      (maxSteps != -1 && globalStep >= maxSteps) || (maxEpochs != -1 && completed >= maxEpochs)
  {
    || LoopUtilities.IsMaxLimitReached(globalStep, maxSteps)
    || honoured
    || LoopUtilities.IsMaxLimitReached(completed, maxEpochs)
    || numTrainingBatches.IsZero()
  }

  /** `max_epochs` below -1 is refused; 0 is allowed and ends fitting at once. */
  function CheckMaxEpochs(maxEpochs: int): (r: Result<int>)
    ensures r.Ok? <==> maxEpochs >= -1
    ensures r.Ok? ==> r.value == maxEpochs
  {
    if maxEpochs < -1 then Err(Misconfiguration("`max_epochs` must be a non-negative integer or -1."))
    else Ok(maxEpochs)
  }

  /** The `max_steps` setter's rule: None means -1, values below -1 are refused. */
  function NormalizeMaxSteps(value: Option<int>): (r: Result<int>)
    ensures value.None? ==> r == Ok(-1)
    ensures value.Some? ==> (r.Ok? <==> value.value >= -1)
    ensures value.Some? && r.Ok? ==> r.value == value.value
    ensures r.Ok? ==> r.value >= -1
  {
    if value.None? then Ok(-1)
    else if value.value < -1 then Err(Misconfiguration("`max_steps` must be a non-negative integer or -1 (infinite steps)."))
    else Ok(value.value)
  }

  class FitLoop {
    var maxEpochs: int
    var minEpochs: Option<int>
    /** Forwarded to the epoch loop. */
    var globalStep: int
    var minSteps: Option<int>
    var maxSteps: int
    var epochProgress: Progress
    var restarting: bool
    var outputs: seq<Obj>
    const trainer: TrainerFlags

    /** The limits stay in their documented ranges. */
    predicate Valid()
      reads this
    {
      maxEpochs >= -1 && maxSteps >= -1
    }

    /**
     * `FitLoop.__init__` after its `max_epochs` check (see `CheckMaxEpochs`);
     * the epoch loop starts with no step limits and global step 0.
     */
    constructor(minEpochs: Option<int>, maxEpochs: int, trainer: TrainerFlags)
      requires CheckMaxEpochs(maxEpochs).Ok?
      ensures Valid()
      ensures this.minEpochs == minEpochs && this.maxEpochs == maxEpochs && this.trainer == trainer
      ensures globalStep == 0 && minSteps.None? && maxSteps == -1
      ensures epochProgress == ZeroProgress && !restarting && outputs == []
    {
      this.maxEpochs := maxEpochs;
      this.minEpochs := minEpochs;
      this.trainer := trainer;
      globalStep := 0;
      minSteps := None;
      maxSteps := -1;
      epochProgress := ZeroProgress;
      restarting := false;
      outputs := [];
    }

    /** The `max_steps` setter: stores the normalised value or refuses it, changing nothing. */
    method SetMaxSteps(value: Option<int>) returns (r: Result<int>)
      requires Valid()
      modifies this
      ensures Valid()
      ensures r == NormalizeMaxSteps(value)
      ensures r.Ok? ==> maxSteps == r.value
      ensures r.Err? ==> maxSteps == old(maxSteps)
      ensures maxEpochs == old(maxEpochs) && minEpochs == old(minEpochs) && globalStep == old(globalStep)
      ensures minSteps == old(minSteps) && epochProgress == old(epochProgress)
      ensures restarting == old(restarting) && outputs == old(outputs)
    {
      if value.None? {
        maxSteps := -1;
        return Ok(-1);
      } else if value.value < -1 {
        return Err(Misconfiguration("`max_steps` must be a non-negative integer or -1 (infinite steps)."));
      }
      maxSteps := value.value;
      r := Ok(value.value);
    }

    /**
     * `done`: reports whether fitting should end and, as a side effect,
     * replaces the trainer's stop request by whether it was honoured.
     */
    method Done() returns (d: bool)
      modifies trainer
      ensures trainer.shouldStop == StopHonoured(old(trainer.shouldStop), epochProgress.current.completed, minEpochs, globalStep, minSteps)
      ensures d == IsDone(globalStep, maxSteps, epochProgress.current.completed, maxEpochs, trainer.shouldStop, trainer.numTrainingBatches)
      ensures trainer.numTrainingBatches == old(trainer.numTrainingBatches)
      ensures trainer.limitTrainBatches == old(trainer.limitTrainBatches)
    {
      var stopSteps := LoopUtilities.IsMaxLimitReached(globalStep, maxSteps);
      var stopEpochs := LoopUtilities.IsMaxLimitReached(epochProgress.current.completed, maxEpochs);
      var shouldStop := false;
      if trainer.shouldStop {
        var metMinEpochs := if minEpochs.Some? && minEpochs.value != 0 then epochProgress.current.completed >= minEpochs.value else true;
        var metMinSteps := if minSteps.Some? && minSteps.value != 0 then globalStep >= minSteps.value else true;
        if metMinEpochs && metMinSteps {
          shouldStop := true;
        }
      }
      trainer.shouldStop := shouldStop;
      d := stopSteps || shouldStop || stopEpochs || trainer.numTrainingBatches.IsZero();
    }

    /** `skip`: done, or no training batches are allowed at all. */
    method Skip() returns (s: bool)
      modifies trainer
      ensures trainer.shouldStop == StopHonoured(old(trainer.shouldStop), epochProgress.current.completed, minEpochs, globalStep, minSteps)
      ensures s == (IsDone(globalStep, maxSteps, epochProgress.current.completed, maxEpochs, trainer.shouldStop, trainer.numTrainingBatches)
                    || trainer.limitTrainBatches.IsZero())
      ensures trainer.numTrainingBatches == old(trainer.numTrainingBatches)
      ensures trainer.limitTrainBatches == old(trainer.limitTrainBatches)
    {
      var d := Done();
      s := d || trainer.limitTrainBatches.IsZero();
    }

    /** `reset`: on a restart, the epoch counters drop the epoch that did not complete. */
    method Reset()
      modifies this
      ensures epochProgress == if old(restarting) then old(epochProgress).ResetOnRestart() else old(epochProgress)
      ensures maxEpochs == old(maxEpochs) && minEpochs == old(minEpochs) && globalStep == old(globalStep)
      ensures minSteps == old(minSteps) && maxSteps == old(maxSteps)
      ensures restarting == old(restarting) && outputs == old(outputs)
    {
      if restarting {
        epochProgress := epochProgress.ResetOnRestart();
      }
    }

    /**
     * `on_advance_end`: refuses a `training_epoch_end` that returns a value
     * (when the hook is overridden and there are outputs), otherwise frees
     * the outputs, counts the epoch as processed and completed, and logs the
     * epoch metrics at the step before the current one. The returned value
     * is that logging step.
     */
    method OnAdvanceEnd(epochEndOverridden: bool, epochEndReturnsValue: bool) returns (r: Result<int>)
      modifies this
      ensures r.Err? <==> epochEndOverridden && old(outputs) != [] && epochEndReturnsValue
      ensures r.Err? ==> outputs == old(outputs) && epochProgress == old(epochProgress)
      ensures r.Ok? ==> r.value == old(globalStep) - 1
      ensures r.Ok? ==> outputs == [] && epochProgress == old(epochProgress).IncrementProcessed().IncrementCompleted()
      ensures globalStep == old(globalStep)
      ensures maxEpochs == old(maxEpochs) && minEpochs == old(minEpochs)
      ensures minSteps == old(minSteps) && maxSteps == old(maxSteps) && restarting == old(restarting)
    {
      if epochEndOverridden && outputs != [] && epochEndReturnsValue {
        return Err(Misconfiguration("`training_epoch_end` expects a return of None."));
      }
      outputs := [];
      epochProgress := epochProgress.IncrementProcessed();
      epochProgress := epochProgress.IncrementCompleted();
      globalStep := globalStep - 1;
      var loggedAt := globalStep;
      globalStep := globalStep + 1;
      r := Ok(loggedAt);
    }

    /** `on_run_end`: the completed-epoch counter is decremented, but never below 0. */
    method OnRunEnd()
      modifies this
      ensures epochProgress.current.completed == if old(epochProgress.current.completed) == 0 then 0 else old(epochProgress.current.completed) - 1
      ensures epochProgress.total == old(epochProgress.total)
      ensures epochProgress.current == old(epochProgress.current).(completed := epochProgress.current.completed)
      ensures maxEpochs == old(maxEpochs) && minEpochs == old(minEpochs) && globalStep == old(globalStep)
      ensures minSteps == old(minSteps) && maxSteps == old(maxSteps)
      ensures restarting == old(restarting) && outputs == old(outputs)
    {
      var c: int := epochProgress.current.completed - 1;
      var m: nat := if c > 0 then c else 0;
      epochProgress := epochProgress.(current := epochProgress.current.(completed := m));
    }
  }

  /** `FitLoop(min_epochs, max_epochs)`: refuses `max_epochs` below -1, otherwise builds the loop. */
  method NewFitLoop(minEpochs: Option<int>, maxEpochs: int, trainer: TrainerFlags) returns (r: Result<FitLoop>)
    ensures r.Err? <==> maxEpochs < -1
    ensures r.Err? ==> r.error.Misconfiguration?
    ensures r.Ok? ==> fresh(r.value) && r.value.Valid() && r.value.maxEpochs == maxEpochs && r.value.minEpochs == minEpochs
    ensures r.Ok? ==> r.value.globalStep == 0 && r.value.maxSteps == -1 && r.value.epochProgress == ZeroProgress
  {
    var checked := CheckMaxEpochs(maxEpochs);
    if checked.Err? {
      return Err(checked.error);
    }
    var loop := new FitLoop(minEpochs, maxEpochs, trainer);
    r := Ok(loop);
  }

  /**
   * On a fresh trainer (no step taken, no epoch completed, no stop request,
   * a non-empty training set) fitting is done at once exactly when one of
   * the limits is 0.
   */
  lemma FreshTrainerDone(maxSteps: int, maxEpochs: int, numTrainingBatches: Num, minEpochs: Option<int>, minSteps: Option<int>)
    requires maxSteps >= -1 && maxEpochs >= -1 && !numTrainingBatches.IsZero()
    ensures !StopHonoured(false, 0, minEpochs, 0, minSteps)
    ensures IsDone(0, maxSteps, 0, maxEpochs, StopHonoured(false, 0, minEpochs, 0, minSteps), numTrainingBatches)
        <==> maxSteps == 0 || maxEpochs == 0
  {
  }

  /**
   * A stop request made before the minimum number of epochs is reached is
   * withdrawn, and fitting goes on unless another limit ends it.
   */
  lemma EarlyStopWaitsForMinEpochs(completed: int, minEpochs: int, globalStep: int, minSteps: Option<int>)
    requires minEpochs != 0 && completed < minEpochs
    ensures !StopHonoured(true, completed, Some(minEpochs), globalStep, minSteps)
  {
  }

  /** Once both minimums are met, a stop request ends fitting. */
  lemma EarlyStopHonoured(globalStep: int, maxSteps: int, completed: int, maxEpochs: int, minEpochs: Option<int>, minSteps: Option<int>, numTrainingBatches: Num)
    requires MetMinimum(completed, minEpochs) && MetMinimum(globalStep, minSteps)
    ensures IsDone(globalStep, maxSteps, completed, maxEpochs, StopHonoured(true, completed, minEpochs, globalStep, minSteps), numTrainingBatches)
  {
  }
}
