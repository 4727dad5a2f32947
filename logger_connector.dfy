/**
 * The trainer's logging bookkeeping
 * (pi_ml/trainer/connectors/logger_connector/logger_connector.py): when logs
 * are written and flushed, which logger the trainer gets, which step a metric
 * dict is logged at, the per-stage evaluation log-step counters, the
 * epoch-end flag and the three metric dicts the trainer exposes.
 *
 * Metric values are `Num`s (tensors are turned into scalars before they are
 * logged). The result collection, which produces the metrics of the current
 * batch or epoch, is not part of this model: its output is a parameter of
 * the methods that read it. A call to the logger is returned as a `Sent`
 * record instead of being performed.
 */
module LoggerConnector {
  import opened Wrappers
  import LoopUtilities
  import Trainer

  // ------------------------------------------------------------ cadence

  /** `n` divides `m`. */
  ghost predicate Divides(n: int, m: int)
  {
    exists k: int :: k * n == m
  }

  /** `m % n == 0` with Python's `%` is divisibility (for either sign of `n`). */
  lemma ModZeroDivides(m: int, n: int)
    requires n != 0
    ensures m % n == 0 <==> Divides(n, m)
  {
    if m % n == 0 {
      assert (m / n) * n == m;
    }
    if Divides(n, m) {
      var k :| k * n == m;
      if n > 0 {
        LoopUtilities.ModUnique(m, n, k, 0);
      } else {
        assert m == (-k) * (-n);
        LoopUtilities.ModUnique(m, -n, -k, 0);
        assert m == (-(m / n)) * (-n) + m % n;
        LoopUtilities.ModUnique(m, -n, -(m / n), m % n);
      }
    }
  }

  /**
   * `should_update_logs` and `should_flush_logs`: every `every`-th step
   * (counting from 1), and whenever the trainer is stopping. An interval of
   * 0 makes Python's `%` raise.
   */
  function EveryNSteps(globalStep: int, every: int, shouldStop: bool): (r: Result<bool>)
    ensures r.Err? <==> every == 0
    ensures r.Err? ==> r.error == ZeroDivisionError
    ensures r.Ok? ==> (r.value <==> shouldStop || Divides(every, globalStep + 1))
  {
    if every == 0 then Err(ZeroDivisionError)
    else
      ModZeroDivides(globalStep + 1, every);
      Ok((globalStep + 1) % every == 0 || shouldStop)
  }

  /** Logging every `n` steps is periodic: step `g` logs exactly when step `g + n` does. */
  lemma {:induction false} EveryNStepsPeriodic(globalStep: int, every: int, shouldStop: bool)
    requires every != 0
    ensures EveryNSteps(globalStep, every, shouldStop) == EveryNSteps(globalStep + every, every, shouldStop)
  {
    var m := globalStep + 1;
    if Divides(every, m) {
      var k :| k * every == m;
      assert (k + 1) * every == m + every;
    }
    if Divides(every, m + every) {
      var k :| k * every == m + every;
      assert (k - 1) * every == m;
    }
  }

  // -------------------------------------------------------------- loggers

  /** What the `logger` argument of the trainer can be. */
  datatype LoggerArg = LoggerFlag(on: bool) | LoggerIterable(loggers: seq<Obj>) | LoggerObject(logger: Obj)

  /** The logger `configure_logger` installs. */
  datatype Logger =
    | TensorBoard(saveDir: string, version: Option<string>, name: string)
    | Collection(loggers: seq<Obj>)
    | Given(logger: Obj)

  /**
   * `configure_logger`: True gives the default TensorBoard logger in the
   * root directory, versioned by the SLURM job id; False gives none; an
   * iterable of loggers a collection of them; anything else is kept as is.
   */
  function ConfigureLogger(arg: LoggerArg, defaultRootDir: string, slurmJobId: Option<string>): (r: Option<Logger>)
    ensures arg == LoggerFlag(false) <==> r.None?
    ensures arg == LoggerFlag(true) ==> r == Some(TensorBoard(defaultRootDir, slurmJobId, "lightning_logs"))
    ensures arg.LoggerIterable? ==> r == Some(Collection(arg.loggers))
    ensures arg.LoggerObject? ==> r == Some(Given(arg.logger))
  {
    match arg
    case LoggerFlag(on) => if on then Some(TensorBoard(defaultRootDir, slurmJobId, "lightning_logs")) else None
    case LoggerIterable(loggers) => Some(Collection(loggers))
    case LoggerObject(logger) => Some(Given(logger))
  }

  // ------------------------------------------------------- logging a dict

  type Metrics = map<string, Num>

  /** One `agg_and_log_metrics` call: the scalars and the step they are logged at. */
  datatype Sent = Sent(metrics: Metrics, step: Num)

  /**
   * The call `log_metrics` makes: at the explicit step if there is one, else
   * at the dict's own "step" entry (taken out of the dict), else at the
   * global step with the current epoch added under "epoch" unless the dict
   * has one.
   */
  function LogCall(metrics: Metrics, step: Option<int>, currentEpoch: int, globalStep: int): (s: Sent)
    ensures step.Some? ==> s == Sent(metrics, Int(step.value))
    ensures step.None? && "step" in metrics ==>
      s.step == metrics["step"] && "step" !in s.metrics && s.metrics.Keys == metrics.Keys - {"step"}
    ensures step.None? && "step" !in metrics ==>
      s.step == Int(globalStep) && s.metrics.Keys == metrics.Keys + {"epoch"}
      && s.metrics["epoch"] == (if "epoch" in metrics then metrics["epoch"] else Int(currentEpoch))
    ensures forall k :: k in s.metrics && k != "epoch" && k != "step" ==> k in metrics && s.metrics[k] == metrics[k]
  {
    if step.Some? then Sent(metrics, Int(step.value))
    else if "step" in metrics then Sent(metrics - {"step"}, metrics["step"])
    else if "epoch" in metrics then Sent(metrics, Int(globalStep))
    else Sent(metrics["epoch" := Int(currentEpoch)], Int(globalStep))
  }

  /** The logged metrics after `log_metrics(metrics)`: the dict joins them only when there is a logger and something to log. */
  function AfterLog(logger: Option<Logger>, before: Metrics, metrics: Metrics): (r: Metrics)
    ensures logger.None? || metrics == map[] ==> r == before
    ensures forall k :: k in r <==> k in before || (logger.Some? && k in metrics)
    ensures forall k :: k in r ==> r[k] == if logger.Some? && k in metrics then metrics[k] else before[k]
  {
    if logger.None? || metrics == map[] then before else before + metrics
  }

  /** The metrics the result collection reports for the current batch or epoch. */
  datatype Collected = Collected(pbar: Metrics, callback: Metrics, log: Metrics)

  class LoggerConnector {
    var valLogStep: nat
    var testLogStep: nat
    var progressBarMetrics: Metrics
    var loggedMetrics: Metrics
    var callbackMetrics: Metrics
    var epochEndReached: bool
    var currentFx: Option<string>
    var batchIdx: Option<int>
    var splitIdx: Option<int>
    // Settings the source stores on the trainer.
    var logger: Option<Logger>
    var flushLogsEveryNSteps: int
    var logEveryNSteps: int

    constructor()
      ensures valLogStep == 0 && testLogStep == 0
      ensures progressBarMetrics == map[] && loggedMetrics == map[] && callbackMetrics == map[]
      ensures !epochEndReached && currentFx.None? && batchIdx.None? && splitIdx.None?
      ensures logger.None?
    {
      valLogStep, testLogStep := 0, 0;
      progressBarMetrics, loggedMetrics, callbackMetrics := map[], map[], map[];
      epochEndReached := false;
      currentFx, batchIdx, splitIdx := None, None, None;
      logger := None;
      flushLogsEveryNSteps, logEveryNSteps := 100, 50;
    }

    /** `on_trainer_init`: installs the logger and the intervals; flushing defaults to every 100 steps. */
    method OnTrainerInit(arg: LoggerArg, defaultRootDir: string, slurmJobId: Option<string>,
                         flushEvery: Option<int>, logEvery: int)
      modifies this
      ensures logger == ConfigureLogger(arg, defaultRootDir, slurmJobId)
      ensures flushLogsEveryNSteps == OrElse(flushEvery, 100) && logEveryNSteps == logEvery
      ensures valLogStep == old(valLogStep) && testLogStep == old(testLogStep)
      ensures loggedMetrics == old(loggedMetrics) && epochEndReached == old(epochEndReached)
      ensures progressBarMetrics == old(progressBarMetrics) && callbackMetrics == old(callbackMetrics)
      ensures currentFx == old(currentFx) && batchIdx == old(batchIdx) && splitIdx == old(splitIdx)
    {
      logger := ConfigureLogger(arg, defaultRootDir, slurmJobId);
      flushLogsEveryNSteps := if flushEvery.Some? then flushEvery.value else 100;
      logEveryNSteps := logEvery;
    }

    function ShouldFlushLogs(globalStep: int, shouldStop: bool): (r: Result<bool>)
      reads this
      ensures r == EveryNSteps(globalStep, flushLogsEveryNSteps, shouldStop)
    {
      EveryNSteps(globalStep, flushLogsEveryNSteps, shouldStop)
    }

    function ShouldUpdateLogs(globalStep: int, shouldStop: bool): (r: Result<bool>)
      reads this
      ensures r == EveryNSteps(globalStep, logEveryNSteps, shouldStop)
    {
      EveryNSteps(globalStep, logEveryNSteps, shouldStop)
    }

    /**
     * `log_metrics`: nothing without a logger or with an empty dict;
     * otherwise the dict joins the logged metrics and is sent as `LogCall`
     * describes.
     */
    method LogMetrics(metrics: Metrics, step: Option<int>, currentEpoch: int, globalStep: int) returns (sent: Option<Sent>)
      modifies this
      ensures logger.None? || metrics == map[] ==> sent.None? && loggedMetrics == old(loggedMetrics)
      ensures logger.Some? && metrics != map[] ==>
        sent == Some(LogCall(metrics, step, currentEpoch, globalStep)) && loggedMetrics == old(loggedMetrics) + metrics
      ensures loggedMetrics == AfterLog(logger, old(loggedMetrics), metrics)
      ensures valLogStep == old(valLogStep) && testLogStep == old(testLogStep)
      ensures progressBarMetrics == old(progressBarMetrics) && callbackMetrics == old(callbackMetrics)
      ensures epochEndReached == old(epochEndReached) && logger == old(logger)
      ensures logEveryNSteps == old(logEveryNSteps) && flushLogsEveryNSteps == old(flushLogsEveryNSteps)
      ensures currentFx == old(currentFx) && batchIdx == old(batchIdx) && splitIdx == old(splitIdx)
    {
      if logger.None? || metrics == map[] {
        return None;
      }
      loggedMetrics := loggedMetrics + metrics;
      sent := Some(LogCall(metrics, step, currentEpoch, globalStep));
    }

    /** `_eval_log_step`: the counter of the evaluation stage running, if any. */
    function EvalLogStep(stage: Option<Trainer.RunningStage>): (r: Option<int>)
      reads this
      ensures stage == Some(Trainer.Validating) ==> r == Some(valLogStep)
      ensures stage == Some(Trainer.Testing) ==> r == Some(testLogStep)
      ensures r.Some? <==> stage == Some(Trainer.Validating) || stage == Some(Trainer.Testing)
    {
      if stage == Some(Trainer.Validating) then Some(valLogStep)
      else if stage == Some(Trainer.Testing) then Some(testLogStep)
      else None
    }

    /** `_increment_eval_log_step`: advances only the counter of the running evaluation stage. */
    method IncrementEvalLogStep(stage: Option<Trainer.RunningStage>)
      modifies this
      ensures valLogStep == old(valLogStep) + (if stage == Some(Trainer.Validating) then 1 else 0)
      ensures testLogStep == old(testLogStep) + (if stage == Some(Trainer.Testing) then 1 else 0)
      ensures EvalLogStep(stage).Some? ==> EvalLogStep(stage).value == old(EvalLogStep(stage)).value + 1
      ensures loggedMetrics == old(loggedMetrics) && epochEndReached == old(epochEndReached) && logger == old(logger)
      ensures progressBarMetrics == old(progressBarMetrics) && callbackMetrics == old(callbackMetrics)
      ensures flushLogsEveryNSteps == old(flushLogsEveryNSteps) && logEveryNSteps == old(logEveryNSteps)
      ensures currentFx == old(currentFx) && batchIdx == old(batchIdx) && splitIdx == old(splitIdx)
    {
      if stage == Some(Trainer.Validating) {
        valLogStep := valLogStep + 1;
      } else if stage == Some(Trainer.Testing) {
        testLogStep := testLogStep + 1;
      }
    }

    /** The metrics of the current batch (`on_step`) or of the epoch once its end is reached. */
    predicate OnStep()
      reads this
      ensures OnStep() <==> !epochEndReached
    {
      !epochEndReached
    }

    /**
     * `update_eval_step_metrics`: outside sanity checking, logs the batch's
     * metrics at the evaluation log step and then advances it, whether or
     * not anything was logged. Refused once the epoch end is reached.
     */
    method UpdateEvalStepMetrics(stage: Option<Trainer.RunningStage>, collected: Collected,
                                 currentEpoch: int, globalStep: int) returns (r: Result<Option<Sent>>)
      modifies this
      ensures r.Err? <==> old(epochEndReached)
      ensures r.Err? ==> r.error == AssertionError && valLogStep == old(valLogStep) && testLogStep == old(testLogStep)
      ensures r.Ok? && stage == Some(Trainer.SanityChecking) ==>
        r.value.None? && valLogStep == old(valLogStep) && testLogStep == old(testLogStep) && loggedMetrics == old(loggedMetrics)
      ensures r.Ok? && stage != Some(Trainer.SanityChecking) ==>
        && r.value == (if logger.None? || collected.log == map[] then None
                       else Some(LogCall(collected.log, old(EvalLogStep(stage)), currentEpoch, globalStep)))
        && valLogStep == old(valLogStep) + (if stage == Some(Trainer.Validating) then 1 else 0)
        && testLogStep == old(testLogStep) + (if stage == Some(Trainer.Testing) then 1 else 0)
        && loggedMetrics == AfterLog(logger, old(loggedMetrics), collected.log)
      ensures r.Err? ==> loggedMetrics == old(loggedMetrics)
      ensures progressBarMetrics == old(progressBarMetrics) && callbackMetrics == old(callbackMetrics)
      ensures epochEndReached == old(epochEndReached) && logger == old(logger)
      ensures flushLogsEveryNSteps == old(flushLogsEveryNSteps) && logEveryNSteps == old(logEveryNSteps)
      ensures currentFx == old(currentFx) && batchIdx == old(batchIdx) && splitIdx == old(splitIdx)
    {
      if epochEndReached {
        return Err(AssertionError);
      }
      if stage == Some(Trainer.SanityChecking) {
        return Ok(None);
      }
      var sent := LogMetrics(collected.log, EvalLogStep(stage), currentEpoch, globalStep);
      IncrementEvalLogStep(stage);
      r := Ok(sent);
    }

    /**
     * `update_eval_epoch_metrics`: outside sanity checking, merges the
     * epoch's metrics into the three dicts and returns the callback metrics;
     * during sanity checking returns {}. Refused before the epoch end.
     */
    method UpdateEvalEpochMetrics(stage: Option<Trainer.RunningStage>, collected: Collected) returns (r: Result<Metrics>)
      modifies this
      ensures r.Err? <==> !old(epochEndReached)
      ensures r.Err? ==> r.error == AssertionError
      ensures r.Ok? && stage == Some(Trainer.SanityChecking) ==> r.value == map[]
      ensures r.Ok? && stage != Some(Trainer.SanityChecking) ==> r.value == collected.callback
      ensures r.Ok? && stage != Some(Trainer.SanityChecking) ==>
        && progressBarMetrics == old(progressBarMetrics) + collected.pbar
        && callbackMetrics == old(callbackMetrics) + collected.callback
        && loggedMetrics == old(loggedMetrics) + collected.log
      ensures r.Err? || stage == Some(Trainer.SanityChecking) ==>
        progressBarMetrics == old(progressBarMetrics) && callbackMetrics == old(callbackMetrics) && loggedMetrics == old(loggedMetrics)
      ensures valLogStep == old(valLogStep) && testLogStep == old(testLogStep) && epochEndReached == old(epochEndReached)
      ensures logger == old(logger) && flushLogsEveryNSteps == old(flushLogsEveryNSteps) && logEveryNSteps == old(logEveryNSteps)
      ensures currentFx == old(currentFx) && batchIdx == old(batchIdx) && splitIdx == old(splitIdx)
    {
      if !epochEndReached {
        return Err(AssertionError);
      }
      if stage == Some(Trainer.SanityChecking) {
        return Ok(map[]);
      }
      MergeCollected(collected);
      r := Ok(collected.callback);
    }

    /** `log_eval_end_metrics`: outside sanity checking, logs the epoch's metrics at the default step. */
    method LogEvalEndMetrics(stage: Option<Trainer.RunningStage>, collected: Collected,
                             currentEpoch: int, globalStep: int) returns (r: Result<Option<Sent>>)
      modifies this
      ensures r.Err? <==> !old(epochEndReached)
      ensures r.Err? ==> r.error == AssertionError
      ensures r.Ok? && stage == Some(Trainer.SanityChecking) ==> r.value.None?
      ensures r.Ok? && stage != Some(Trainer.SanityChecking) ==>
        r.value == (if logger.None? || collected.log == map[] then None else Some(LogCall(collected.log, None, currentEpoch, globalStep)))
      ensures loggedMetrics == if r.Ok? && stage != Some(Trainer.SanityChecking) then AfterLog(logger, old(loggedMetrics), collected.log)
                               else old(loggedMetrics)
      ensures progressBarMetrics == old(progressBarMetrics) && callbackMetrics == old(callbackMetrics)
      ensures valLogStep == old(valLogStep) && testLogStep == old(testLogStep)
      ensures epochEndReached == old(epochEndReached) && logger == old(logger)
      ensures flushLogsEveryNSteps == old(flushLogsEveryNSteps) && logEveryNSteps == old(logEveryNSteps)
      ensures currentFx == old(currentFx) && batchIdx == old(batchIdx) && splitIdx == old(splitIdx)
    {
      if !epochEndReached {
        return Err(AssertionError);
      }
      if stage == Some(Trainer.SanityChecking) {
        return Ok(None);
      }
      var sent := LogMetrics(collected.log, None, currentEpoch, globalStep);
      r := Ok(sent);
    }

    method OnTrainSplitStart(split: int)
      modifies this
      ensures splitIdx == Some(split)
      ensures batchIdx == old(batchIdx) && currentFx == old(currentFx) && epochEndReached == old(epochEndReached)
      ensures valLogStep == old(valLogStep) && testLogStep == old(testLogStep)
      ensures progressBarMetrics == old(progressBarMetrics) && loggedMetrics == old(loggedMetrics) && callbackMetrics == old(callbackMetrics)
      ensures logger == old(logger) && flushLogsEveryNSteps == old(flushLogsEveryNSteps) && logEveryNSteps == old(logEveryNSteps)
    {
      splitIdx := Some(split);
    }

    /**
     * `update_train_step_metrics`: skipped while gradients accumulate under
     * automatic optimization; otherwise logs the batch's metrics when logs
     * are due or under `fast_dev_run`. The log interval is consulted first,
     * so an interval of 0 fails even under `fast_dev_run`. The deprecated GPU-memory logging is
     * not part of this model.
     */
    method UpdateTrainStepMetrics(accumulating: bool, automatic: bool, fastDevRun: bool, collected: Collected,
                                  currentEpoch: int, globalStep: int, shouldStop: bool) returns (r: Result<Option<Sent>>)
      modifies this
      ensures accumulating && automatic ==> r == Ok(None) && loggedMetrics == old(loggedMetrics)
      ensures !(accumulating && automatic) && old(epochEndReached) ==> r == Err(AssertionError)
      ensures !(accumulating && automatic) && !old(epochEndReached) ==>
        var due := ShouldUpdateLogs(globalStep, shouldStop);
        && (due.Err? ==> r == Err(ZeroDivisionError))
        && (due.Ok? ==> r.Ok? && r.value == (if due.value || fastDevRun then
                                               (if logger.None? || collected.log == map[] then None
                                                else Some(LogCall(collected.log, None, currentEpoch, globalStep)))
                                             else None))
        && (due.Ok? && (due.value || fastDevRun) ==> loggedMetrics == AfterLog(logger, old(loggedMetrics), collected.log))
      ensures r.Err? || r == Ok(None) ==> loggedMetrics == old(loggedMetrics)
      ensures progressBarMetrics == old(progressBarMetrics) && callbackMetrics == old(callbackMetrics)
      ensures valLogStep == old(valLogStep) && testLogStep == old(testLogStep)
      ensures epochEndReached == old(epochEndReached) && logger == old(logger)
      ensures logEveryNSteps == old(logEveryNSteps)
      ensures flushLogsEveryNSteps == old(flushLogsEveryNSteps)
      ensures currentFx == old(currentFx) && batchIdx == old(batchIdx) && splitIdx == old(splitIdx)
    {
      if accumulating && automatic {
        return Ok(None);
      }
      if epochEndReached {
        return Err(AssertionError);
      }
      var due := ShouldUpdateLogs(globalStep, shouldStop);
      if due.Err? {
        return Err(ZeroDivisionError);
      }
      if due.value || fastDevRun {
        var sent := LogMetrics(collected.log, None, currentEpoch, globalStep);
        return Ok(sent);
      }
      r := Ok(None);
    }

    /** `update_train_epoch_metrics`: logs the epoch's metrics; refused before the epoch end. */
    method UpdateTrainEpochMetrics(collected: Collected, currentEpoch: int, globalStep: int) returns (r: Result<Option<Sent>>)
      modifies this
      ensures r.Err? <==> !old(epochEndReached)
      ensures r.Err? ==> r.error == AssertionError
      ensures r.Ok? ==> r.value == (if logger.None? || collected.log == map[] then None
                                    else Some(LogCall(collected.log, None, currentEpoch, globalStep)))
      ensures loggedMetrics == if r.Ok? then AfterLog(logger, old(loggedMetrics), collected.log) else old(loggedMetrics)
      ensures progressBarMetrics == old(progressBarMetrics) && callbackMetrics == old(callbackMetrics)
      ensures valLogStep == old(valLogStep) && testLogStep == old(testLogStep) && epochEndReached == old(epochEndReached)
      ensures logger == old(logger) && flushLogsEveryNSteps == old(flushLogsEveryNSteps) && logEveryNSteps == old(logEveryNSteps)
      ensures currentFx == old(currentFx) && batchIdx == old(batchIdx) && splitIdx == old(splitIdx)
    {
      if !epochEndReached {
        return Err(AssertionError);
      }
      var sent := LogMetrics(collected.log, None, currentEpoch, globalStep);
      r := Ok(sent);
    }

    method OnEpochStart()
      modifies this
      ensures !epochEndReached && OnStep()
      ensures batchIdx == old(batchIdx) && splitIdx == old(splitIdx) && currentFx == old(currentFx)
      ensures valLogStep == old(valLogStep) && testLogStep == old(testLogStep)
      ensures progressBarMetrics == old(progressBarMetrics) && loggedMetrics == old(loggedMetrics) && callbackMetrics == old(callbackMetrics)
      ensures logger == old(logger) && flushLogsEveryNSteps == old(flushLogsEveryNSteps) && logEveryNSteps == old(logEveryNSteps)
    {
      epochEndReached := false;
    }

    method OnBatchStart(batch: int)
      modifies this
      ensures !epochEndReached && batchIdx == Some(batch)
      ensures splitIdx == old(splitIdx) && currentFx == old(currentFx)
      ensures valLogStep == old(valLogStep) && testLogStep == old(testLogStep)
      ensures progressBarMetrics == old(progressBarMetrics) && loggedMetrics == old(loggedMetrics) && callbackMetrics == old(callbackMetrics)
      ensures logger == old(logger) && flushLogsEveryNSteps == old(flushLogsEveryNSteps) && logEveryNSteps == old(logEveryNSteps)
    {
      batchIdx := Some(batch);
      epochEndReached := false;
    }

    /** `epoch_end_reached`: from now on the epoch's metrics are reported, with no batch or split. */
    method EpochEndReached()
      modifies this
      ensures epochEndReached && !OnStep() && batchIdx.None? && splitIdx.None?
      ensures currentFx == old(currentFx) && valLogStep == old(valLogStep) && testLogStep == old(testLogStep)
      ensures progressBarMetrics == old(progressBarMetrics) && loggedMetrics == old(loggedMetrics) && callbackMetrics == old(callbackMetrics)
      ensures logger == old(logger) && flushLogsEveryNSteps == old(flushLogsEveryNSteps) && logEveryNSteps == old(logEveryNSteps)
    {
      epochEndReached := true;
      batchIdx := None;
      splitIdx := None;
    }

    /** Merges reported metrics into the three dicts, as `dict.update` does. */
    method MergeCollected(collected: Collected)
      modifies this
      ensures progressBarMetrics == old(progressBarMetrics) + collected.pbar
      ensures callbackMetrics == old(callbackMetrics) + collected.callback
      ensures loggedMetrics == old(loggedMetrics) + collected.log
      ensures epochEndReached == old(epochEndReached) && currentFx == old(currentFx)
      ensures batchIdx == old(batchIdx) && splitIdx == old(splitIdx)
      ensures valLogStep == old(valLogStep) && testLogStep == old(testLogStep) && logger == old(logger)
      ensures flushLogsEveryNSteps == old(flushLogsEveryNSteps) && logEveryNSteps == old(logEveryNSteps)
    {
      progressBarMetrics := progressBarMetrics + collected.pbar;
      callbackMetrics := callbackMetrics + collected.callback;
      loggedMetrics := loggedMetrics + collected.log;
    }

    /** `on_epoch_end`: merges the epoch's metrics and forgets the current hook name. */
    method OnEpochEnd(collected: Collected) returns (r: Result<()>)
      modifies this
      ensures r.Err? <==> !old(epochEndReached)
      ensures r.Err? ==> r.error == AssertionError
      ensures r.Ok? ==>
        && progressBarMetrics == old(progressBarMetrics) + collected.pbar
        && callbackMetrics == old(callbackMetrics) + collected.callback
        && loggedMetrics == old(loggedMetrics) + collected.log
        && currentFx.None?
      ensures epochEndReached == old(epochEndReached)
      ensures valLogStep == old(valLogStep) && testLogStep == old(testLogStep)
      ensures r.Err? ==> progressBarMetrics == old(progressBarMetrics) && loggedMetrics == old(loggedMetrics) && callbackMetrics == old(callbackMetrics) && currentFx == old(currentFx)
      ensures batchIdx == old(batchIdx) && splitIdx == old(splitIdx)
      ensures logger == old(logger) && flushLogsEveryNSteps == old(flushLogsEveryNSteps) && logEveryNSteps == old(logEveryNSteps)
    {
      if !epochEndReached {
        return Err(AssertionError);
      }
      MergeCollected(collected);
      currentFx := None;
      r := Ok(());
    }

    /** `on_batch_end`: merges the batch's metrics. */
    method OnBatchEnd(collected: Collected) returns (r: Result<()>)
      modifies this
      ensures r.Err? <==> old(epochEndReached)
      ensures r.Err? ==> r.error == AssertionError
      ensures r.Ok? ==>
        && progressBarMetrics == old(progressBarMetrics) + collected.pbar
        && callbackMetrics == old(callbackMetrics) + collected.callback
        && loggedMetrics == old(loggedMetrics) + collected.log
      ensures epochEndReached == old(epochEndReached) && currentFx == old(currentFx)
      ensures valLogStep == old(valLogStep) && testLogStep == old(testLogStep)
      ensures r.Err? ==> progressBarMetrics == old(progressBarMetrics) && loggedMetrics == old(loggedMetrics) && callbackMetrics == old(callbackMetrics)
      ensures batchIdx == old(batchIdx) && splitIdx == old(splitIdx)
      ensures logger == old(logger) && flushLogsEveryNSteps == old(flushLogsEveryNSteps) && logEveryNSteps == old(logEveryNSteps)
    {
      if epochEndReached {
        return Err(AssertionError);
      }
      MergeCollected(collected);
      r := Ok(());
    }

    /**
     * `should_reset_tensors`: a new hook on the first batch (of the first
     * split, when there are splits). Split indices are never negative.
     */
    function ShouldResetTensors(fx: string): (r: bool)
      reads this
      ensures splitIdx.None? || splitIdx.value >= 0 ==>
        (r <==> currentFx != Some(fx) && batchIdx in {None, Some(0)} && splitIdx in {None, Some(0)})
    {
      var differentFx := currentFx != Some(fx);
      var firstBatch :=
        if splitIdx.None? then batchIdx in {None, Some(0)}
        else (if batchIdx in {None, Some(0)} then 0 else 1) + splitIdx.value == 0;
      differentFx && firstBatch
    }

    method ResetMetrics()
      modifies this
      ensures progressBarMetrics == map[] && loggedMetrics == map[] && callbackMetrics == map[]
      ensures epochEndReached == old(epochEndReached) && currentFx == old(currentFx)
      ensures batchIdx == old(batchIdx) && splitIdx == old(splitIdx)
      ensures valLogStep == old(valLogStep) && testLogStep == old(testLogStep)
      ensures logger == old(logger) && flushLogsEveryNSteps == old(flushLogsEveryNSteps) && logEveryNSteps == old(logEveryNSteps)
    {
      progressBarMetrics, loggedMetrics, callbackMetrics := map[], map[], map[];
    }

    /** `reset_results`: forgets the batch, the split and the hook name (the result collection's reset is not modelled). */
    method ResetResults()
      modifies this
      ensures batchIdx.None? && splitIdx.None? && currentFx.None?
      ensures progressBarMetrics == old(progressBarMetrics) && loggedMetrics == old(loggedMetrics)
      ensures callbackMetrics == old(callbackMetrics) && epochEndReached == old(epochEndReached)
      ensures valLogStep == old(valLogStep) && testLogStep == old(testLogStep)
      ensures logger == old(logger) && flushLogsEveryNSteps == old(flushLogsEveryNSteps) && logEveryNSteps == old(logEveryNSteps)
    {
      batchIdx, splitIdx, currentFx := None, None, None;
    }
  }

  /** After `reset_results`, any hook other than none starts with fresh tensors. */
  lemma ResetResultsThenReset(c: LoggerConnector, fx: string)
    requires c.batchIdx.None? && c.splitIdx.None? && c.currentFx.None?
    ensures c.ShouldResetTensors(fx)
  {
  }

  /** A split other than the first never resets tensors. */
  lemma LaterSplitKeepsTensors(c: LoggerConnector, fx: string)
    requires c.splitIdx.Some? && c.splitIdx.value > 0
    ensures !c.ShouldResetTensors(fx)
  {
  }

  /** Without an explicit step, every metric other than "step" is sent unchanged. */
  lemma {:induction false} LogCallKeepsMetrics(metrics: Metrics, currentEpoch: int, globalStep: int, k: string)
    requires k in metrics && k != "step"
    ensures var s := LogCall(metrics, None, currentEpoch, globalStep);
      k in s.metrics && s.metrics[k] == metrics[k]
  {
  }
}
