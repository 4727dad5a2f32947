/**
 * The configuration logic of `Trainer` (pi_ml/trainer/trainer.py): batch
 * limits, the `fast_dev_run` and `overfit_batches` overrides, init-time
 * validation, the running-stage flags, checkpoint-path resolution, and how
 * callback states and hyper-parameters are merged. Hook dispatch, hardware
 * and the training run itself are not part of this module.
 */
module Trainer {
  import opened Wrappers
  import opened PyText
  import FitLoop

  // ---------------------------------------------------------- batch limits

  /** `0 <= x <= 1` on a Python number. */
  predicate InUnitRange(x: Num)
  {
    (x.Int? && 0 <= x.i <= 1) || (x.Float? && 0.0 <= x.r <= 1.0)
  }

  /** `x > 1 and x % 1.0 == 0`: a whole number above one (infinity gives NaN and fails). */
  predicate WholeAboveOne(x: Num)
  {
    (x.Int? && x.i > 1) || (x.Float? && x.r > 1.0 && x.r == x.r.Floor as real)
  }

  /** Python `x > 0`. */
  predicate Positive(x: Num)
  {
    (x.Int? && x.i > 0) || (x.Float? && x.r > 0.0) || x.Inf?
  }

  /** The exact value of a finite number. */
  function Value(x: Num): real
    requires x.Int? || x.Float?
  {
    if x.Int? then x.i as real else x.r
  }

  /**
   * `_determine_batch_limits`: a fraction in [0, 1] is kept as given, a
   * whole number above one becomes an `int`, anything else is refused.
   */
  function DetermineBatchLimits(x: Num): (r: Result<Num>)
    ensures r.Ok? <==> InUnitRange(x) || WholeAboveOne(x)
    ensures r.Ok? && InUnitRange(x) ==> r.value == x
    ensures r.Ok? && !InUnitRange(x) ==> r.value.Int? && r.value.i > 1 && Value(r.value) == Value(x)
    ensures r.Err? ==> r.error.Misconfiguration?
  {
    if InUnitRange(x) then Ok(x)
    else if WholeAboveOne(x) then Ok(Int(if x.Int? then x.i else x.r.Floor))
    else Err(Misconfiguration("it has to be in [0.0, 1.0] or an int"))
  }

  /** A limit that was already determined is accepted and kept. */
  lemma DetermineBatchLimitsIdempotent(x: Num)
    requires DetermineBatchLimits(x).Ok?
    ensures DetermineBatchLimits(DetermineBatchLimits(x).value) == DetermineBatchLimits(x)
  {
  }

  /** The six limits that go through `_determine_batch_limits`. */
  datatype Limits = Limits(train: Num, val: Num, test: Num, predict: Num, valCheckInterval: Num, overfit: Num)

  /** `_determine_batch_limits` applied to every limit, in the order the trainer applies it. */
  function NormalizeLimits(l: Limits): (r: Result<Limits>)
    ensures r.Ok? <==>
      && DetermineBatchLimits(l.train).Ok? && DetermineBatchLimits(l.val).Ok?
      && DetermineBatchLimits(l.test).Ok? && DetermineBatchLimits(l.predict).Ok?
      && DetermineBatchLimits(l.valCheckInterval).Ok? && DetermineBatchLimits(l.overfit).Ok?
    ensures r.Ok? ==> r.value == Limits(
      DetermineBatchLimits(l.train).value, DetermineBatchLimits(l.val).value,
      DetermineBatchLimits(l.test).value, DetermineBatchLimits(l.predict).value,
      DetermineBatchLimits(l.valCheckInterval).value, DetermineBatchLimits(l.overfit).value)
  {
    var train :- DetermineBatchLimits(l.train);
    var val :- DetermineBatchLimits(l.val);
    var test :- DetermineBatchLimits(l.test);
    var predict :- DetermineBatchLimits(l.predict);
    var interval :- DetermineBatchLimits(l.valCheckInterval);
    var overfit :- DetermineBatchLimits(l.overfit);
    Ok(Limits(train, val, test, predict, interval, overfit))
  }

  /** `_determine_data_use_amount`: overfitting trains on that many batches and skips validation. */
  function DataUseAmount(l: Limits): (r: Limits)
    ensures Positive(l.overfit) ==> r == l.(train := l.overfit, val := Int(0))
    ensures !Positive(l.overfit) ==> r == l
  {
    if Positive(l.overfit) then l.(train := l.overfit, val := Int(0)) else l
  }

  // ------------------------------------------------------- fast_dev_run

  /** `fast_dev_run` is a bool or an int. */
  datatype DevRun = DevBool(b: bool) | DevInt(n: int)
  {
    predicate Truthy() { if DevBool? then b else n != 0 }
    /** `fast_dev_run == 1` (True == 1 in Python). */
    predicate IsOne() { if DevBool? then b else n == 1 }
    /** `int(fast_dev_run)`. */
    function Batches(): int { if DevBool? then (if b then 1 else 0) else n }
  }

  /** Only negative ints are refused (`isinstance(True, int)` holds, but True is not negative). */
  predicate DevRunInvalid(f: DevRun)
  {
    f.DevInt? && f.n < 0
  }

  /** The value kept in `trainer.fast_dev_run`: 1 is normalised to True. */
  function StoredDevRun(f: DevRun): (r: DevRun)
    ensures r.Truthy() == f.Truthy() && r.Batches() == f.Batches()
    ensures f.IsOne() ==> r == DevBool(true)
  {
    if f.IsOne() then DevBool(true) else f
  }

  /** The limits a fast dev run of `n` batches imposes. */
  function FastDevRunLimits(l: Limits, n: int): Limits
  {
    l.(train := Int(n), val := Int(n), test := Int(n), predict := Int(n), valCheckInterval := Float(1.0))
  }

  /** The limits handed to `_determine_batch_limits`. */
  function DebugLimits(l: Limits, f: DevRun): Limits
  {
    if f.Truthy() then FastDevRunLimits(l, f.Batches()) else l
  }

  /** The logger a trainer holds. */
  datatype LoggerRef = NoLogger | DummyLogger | UserLogger(logger: Obj)

  /** `RunningStage` values the stage setters use. */
  datatype RunningStage = Training | SanityChecking | Validating | Testing | Predicting | Tuning

  /** `TrainerFn`: which entry point is running. */
  datatype TrainerFn = Fitting | ValidatingFn | TestingFn | PredictingFn | TuningFn

  class Trainer {
    var fastDevRun: DevRun
    var limits: Limits
    var numSanityValSteps: Num
    var checkValEveryNEpoch: int
    var logger: LoggerRef
    var stage: Option<RunningStage>
    const fitLoop: FitLoop.FitLoop
    const flags: FitLoop.TrainerFlags

    constructor(fitLoop: FitLoop.FitLoop, flags: FitLoop.TrainerFlags, logger: LoggerRef, checkValEveryNEpoch: int)
      ensures this.fitLoop == fitLoop && this.flags == flags
      ensures this.logger == logger && this.checkValEveryNEpoch == checkValEveryNEpoch
      ensures fastDevRun == DevBool(false) && stage.None? && numSanityValSteps == Int(2)
      ensures limits == Limits(Float(1.0), Float(1.0), Float(1.0), Float(1.0), Float(1.0), Float(0.0))
    {
      this.fitLoop := fitLoop;
      this.flags := flags;
      this.logger := logger;
      this.checkValEveryNEpoch := checkValEveryNEpoch;
      fastDevRun := DevBool(false);
      stage := None;
      numSanityValSteps := Int(2);
      limits := Limits(Float(1.0), Float(1.0), Float(1.0), Float(1.0), Float(1.0), Float(0.0));
    }

    /**
     * `_init_debugging_flags`: refuses a negative `fast_dev_run`, changing
     * nothing; a truthy one runs `n` batches of every stage in one epoch
     * without sanity checking and with a dummy logger; then every limit is
     * validated and the `overfit_batches` override applied. When a limit
     * fails validation, the `fast_dev_run` settings already made stay made.
     */
    method InitDebuggingFlags(given: Limits, f: DevRun) returns (r: Result<()>)
      requires fitLoop.Valid()
      modifies this, fitLoop, flags
      ensures fitLoop.Valid()
      ensures r.Err? <==> DevRunInvalid(f) || NormalizeLimits(DebugLimits(given, f)).Err?
      ensures DevRunInvalid(f) ==>
        && fastDevRun == old(fastDevRun) && limits == old(limits)
        && fitLoop.maxSteps == old(fitLoop.maxSteps) && fitLoop.maxEpochs == old(fitLoop.maxEpochs)
        && numSanityValSteps == old(numSanityValSteps) && checkValEveryNEpoch == old(checkValEveryNEpoch)
        && logger == old(logger)
      ensures !DevRunInvalid(f) ==> fastDevRun == StoredDevRun(f)
      ensures r.Ok? ==> limits == DataUseAmount(NormalizeLimits(DebugLimits(given, f)).value)
      ensures r.Ok? ==> flags.limitTrainBatches == limits.train
      ensures r.Err? ==> flags.limitTrainBatches == old(flags.limitTrainBatches)
      ensures flags.shouldStop == old(flags.shouldStop) && flags.numTrainingBatches == old(flags.numTrainingBatches)
      ensures !DevRunInvalid(f) && f.Truthy() ==>
        && fitLoop.maxSteps == f.Batches() && fitLoop.maxEpochs == 1
        && numSanityValSteps == Int(0) && checkValEveryNEpoch == 1
        && logger == (if old(logger).NoLogger? then NoLogger else DummyLogger)
      ensures !f.Truthy() ==>
        && fitLoop.maxSteps == old(fitLoop.maxSteps) && fitLoop.maxEpochs == old(fitLoop.maxEpochs)
        && numSanityValSteps == old(numSanityValSteps) && checkValEveryNEpoch == old(checkValEveryNEpoch)
        && logger == old(logger)
      ensures fitLoop.minEpochs == old(fitLoop.minEpochs) && fitLoop.minSteps == old(fitLoop.minSteps)
      ensures fitLoop.globalStep == old(fitLoop.globalStep) && fitLoop.epochProgress == old(fitLoop.epochProgress)
      ensures fitLoop.restarting == old(fitLoop.restarting) && fitLoop.outputs == old(fitLoop.outputs)
      ensures stage == old(stage)
    {
      if f.DevInt? && f.n < 0 {
        return Err(Misconfiguration("fast_dev_run is not a valid configuration. It should be >= 0."));
      }
      fastDevRun := f;
      if f.IsOne() {
        fastDevRun := DevBool(true);
      }
      if f.Truthy() {
        ShortenForDevRun(f.Batches());
      }
      var normalized :- NormalizeLimits(DebugLimits(given, f));
      limits := DataUseAmount(normalized);
      flags.limitTrainBatches := limits.train;
      r := Ok(());
    }

    /**
     * The fast-dev-run settings for `n` batches: `n` steps in one epoch, no
     * sanity check, validation every epoch and a dummy logger.
     */
    method ShortenForDevRun(n: int)
      requires fitLoop.Valid() && n >= 1
      modifies this, fitLoop
      ensures fitLoop.Valid()
      ensures fitLoop.maxSteps == n && fitLoop.maxEpochs == 1
      ensures numSanityValSteps == Int(0) && checkValEveryNEpoch == 1
      ensures logger == (if old(logger).NoLogger? then NoLogger else DummyLogger)
      ensures fastDevRun == old(fastDevRun) && limits == old(limits) && stage == old(stage)
      ensures fitLoop.minEpochs == old(fitLoop.minEpochs) && fitLoop.minSteps == old(fitLoop.minSteps)
      ensures fitLoop.globalStep == old(fitLoop.globalStep) && fitLoop.epochProgress == old(fitLoop.epochProgress)
      ensures fitLoop.restarting == old(fitLoop.restarting) && fitLoop.outputs == old(fitLoop.outputs)
    {
      var stepsSet := fitLoop.SetMaxSteps(Some(n));
      assert stepsSet.Ok?;
      numSanityValSteps := Int(0);
      fitLoop.maxEpochs := 1;
      checkValEveryNEpoch := 1;
      logger := if logger.NoLogger? then NoLogger else DummyLogger;
    }

    /** `_setup_on_init`: clears the stop request and sets the sanity-step count, -1 meaning all. */
    method SetupOnInit(numSanity: int)
      modifies this, flags
      ensures numSanityValSteps == if numSanity == -1 then Inf else Int(numSanity)
      ensures !flags.shouldStop && flags.numTrainingBatches == Inf && stage.None?
      ensures flags.limitTrainBatches == old(flags.limitTrainBatches)
      ensures fastDevRun == old(fastDevRun) && limits == old(limits)
      ensures checkValEveryNEpoch == old(checkValEveryNEpoch) && logger == old(logger)
    {
      flags.shouldStop := false;
      stage := None;
      flags.numTrainingBatches := Inf;
      if numSanity == -1 {
        numSanityValSteps := Inf;
      } else {
        numSanityValSteps := Int(numSanity);
      }
    }

    /** The stage getters (`trainer.training`, `trainer.testing`, ...). */
    predicate InStage(s: RunningStage)
      reads this
    {
      stage == Some(s)
    }

    /**
     * The stage setters: assigning True enters the stage; assigning False
     * leaves it only when it is the current stage.
     */
    method SetStage(s: RunningStage, val: bool)
      modifies this
      ensures InStage(s) == val
      ensures val ==> stage == Some(s)
      ensures !val ==> stage == if old(stage) == Some(s) then None else old(stage)
      ensures fastDevRun == old(fastDevRun) && limits == old(limits) && numSanityValSteps == old(numSanityValSteps)
      ensures checkValEveryNEpoch == old(checkValEveryNEpoch) && logger == old(logger)
    {
      if val {
        stage := Some(s);
      } else if InStage(s) {
        stage := None;
      }
    }
  }

  /**
   * A fast dev run of `n` batches, without `overfit_batches`, limits every
   * stage to exactly `n` batches and validates after every training batch.
   */
  lemma FastDevRunLimitsAll(given: Limits, f: DevRun)
    requires f.Truthy() && !DevRunInvalid(f)
    requires given.overfit.IsZero()
    ensures NormalizeLimits(DebugLimits(given, f)).Ok?
    ensures
      var l := DataUseAmount(NormalizeLimits(DebugLimits(given, f)).value);
      var n := Int(f.Batches());
      l.train == n && l.val == n && l.test == n && l.predict == n && l.valCheckInterval == Float(1.0)
  {
    assert f.Batches() >= 1;
  }

  /** `overfit_batches` > 0 replaces the training limit and disables validation. */
  lemma OverfitOverridesLimits(given: Limits)
    requires NormalizeLimits(given).Ok? && Positive(given.overfit)
    ensures DataUseAmount(NormalizeLimits(given).value).train == NormalizeLimits(given).value.overfit
    ensures DataUseAmount(NormalizeLimits(given).value).val == Int(0)
  {
    var o := given.overfit;
    assert Positive(DetermineBatchLimits(o).value);
  }

  // ------------------------------------------------------ init validation

  /** `GradClipAlgorithmType.supported_type` (its values are "value" and "norm"). */
  function CheckGradientClipAlgorithm(alg: Option<string>): (r: Result<()>)
    ensures r.Ok? <==> alg.None? || Lower(alg.value) == "value" || Lower(alg.value) == "norm"
  {
    if alg.None? || Lower(alg.value) == "value" || Lower(alg.value) == "norm" then Ok(())
    else Err(Misconfiguration("`gradient_clip_algorithm` is invalid"))
  }

  /** `track_grad_norm` is a number or a string. */
  datatype NormOrder = NormNum(x: Num) | NormStr(s: string)

  /** `track_grad_norm` is -1 (off), a positive number, or the string "inf". */
  function CheckTrackGradNorm(t: NormOrder): (r: Result<()>)
    ensures r.Ok? <==>
      || (t.NormNum? && (Positive(t.x) || (t.x.Int? && t.x.i == -1) || (t.x.Float? && t.x.r == -1.0)))
      || t == NormStr("inf")
  {
    match t
    case NormNum(x) =>
      if (x.Int? && x.i == -1) || (x.Float? && x.r == -1.0) || Positive(x) then Ok(())
      else Err(Misconfiguration("`track_grad_norm` must be a positive number or 'inf' (infinity norm)."))
    case NormStr(s) =>
      if s == "inf" then Ok(())
      else Err(Misconfiguration("`track_grad_norm` must be a positive number or 'inf' (infinity norm)."))
  }

  /** The `profiler` argument: None, a name, or a profiler object. */
  datatype ProfilerArg = NoProfilerArg | ProfilerName(name: string) | ProfilerGiven(p: Obj)

  datatype Profiler = SimpleProfiler | AdvancedProfiler | PyTorchProfiler | XlaProfiler | PassThroughProfiler | GivenProfiler(p: Obj)

  /** The four registered profiler names, in lower case. */
  function ProfilerOfName(name: string): (r: Option<Profiler>)
    ensures r.Some? <==> name in {"simple", "advanced", "pytorch", "xla"}
  {
    if name == "simple" then Some(SimpleProfiler)
    else if name == "advanced" then Some(AdvancedProfiler)
    else if name == "pytorch" then Some(PyTorchProfiler)
    else if name == "xla" then Some(XlaProfiler)
    else None
  }

  const UnknownProfiler := "profiler name must be one of simple, advanced, pytorch, xla"

  /**
   * `__init_profiler`: a name is looked up case-insensitively and refused
   * when unknown; None gives the pass-through profiler; an object is kept.
   */
  function InitProfiler(arg: ProfilerArg): (r: Result<Profiler>)
    ensures arg.NoProfilerArg? ==> r == Ok(PassThroughProfiler)
    ensures arg.ProfilerGiven? ==> r == Ok(GivenProfiler(arg.p))
    ensures arg.ProfilerName? ==> (r.Ok? <==> ProfilerOfName(Lower(arg.name)).Some?)
    ensures arg.ProfilerName? && r.Ok? ==> Some(r.value) == ProfilerOfName(Lower(arg.name))
  {
    match arg
    case NoProfilerArg => Ok(PassThroughProfiler)
    case ProfilerGiven(p) => Ok(GivenProfiler(p))
    case ProfilerName(name) =>
      var known := ProfilerOfName(Lower(name));
      if known.None? then Err(Misconfiguration(UnknownProfiler))
      else Ok(known.value)
  }

  /** Profiler names differing only in case select the same profiler. */
  lemma ProfilerNameCaseInsensitive(a: string, b: string)
    requires Lower(a) == Lower(b)
    ensures InitProfiler(ProfilerName(a)) == InitProfiler(ProfilerName(b))
  {
  }

  /** "Simple" selects the simple profiler. */
  lemma CapitalisedSimpleProfiler(name: string)
    requires name == ['S', 'i', 'm', 'p', 'l', 'e']
    ensures InitProfiler(ProfilerName(name)) == Ok(SimpleProfiler)
  {
    assert Lower(name) == "simple";
  }

  // ---------------------------------------------------- evaluation loop

  datatype EvaluationLoopRef = FitValLoop | ValidateLoop | TestLoop

  /**
   * `_evaluation_loop`: the loop that runs evaluation for the current entry
   * point. Outside fitting, tuning, validating and testing (while
   * predicting, or before any entry point has run) there is none.
   */
  function EvaluationLoopOf(fn: Option<TrainerFn>): (r: Result<EvaluationLoopRef>)
    ensures r.Ok? <==> fn.Some? && fn.value != PredictingFn
    ensures r.Err? ==> r.error == RuntimeError
    ensures r == Ok(FitValLoop) <==> fn == Some(Fitting) || fn == Some(TuningFn)
    ensures r == Ok(ValidateLoop) <==> fn == Some(ValidatingFn)
    ensures r == Ok(TestLoop) <==> fn == Some(TestingFn)
  {
    match fn
    case None => Err(RuntimeError)
    case Some(Fitting) => Ok(FitValLoop)
    case Some(TuningFn) => Ok(FitValLoop)
    case Some(ValidatingFn) => Ok(ValidateLoop)
    case Some(TestingFn) => Ok(TestLoop)
    case Some(PredictingFn) => Err(RuntimeError)
  }

  // ---------------------------------------------- checkpoint path resolution

  const BestNotConfigured := "`ckpt_path=\"best\"` is set but `ModelCheckpoint` is not configured."
  const BestUnderFastDevRun := "You cannot execute `ckpt_path=\"best\"` with `fast_dev_run=True`."
  const BestNotSaved := "`ckpt_path=\"best\"` is set but `ModelCheckpoint` is not configured to save the best model."
  const NoPathFound := "found no path for the best weights"

  /** An explicit "best", or no path for a connected model (which then means "best"). */
  predicate RequestsBest(ckptPath: Option<string>, modelProvided: bool, modelConnected: bool)
  {
    ckptPath == Some("best") || (!modelProvided && modelConnected && ckptPath.None?)
  }

  /**
   * `__set_ckpt_path`. `bestModelPath` is the first checkpoint callback's
   * `best_model_path`, or None when there is no checkpoint callback.
   */
  function ResolveCkptPath(ckptPath: Option<string>, modelProvided: bool, modelConnected: bool,
                           bestModelPath: Option<string>, fastDevRun: bool): (r: Result<Option<string>>)
    ensures modelProvided && ckptPath.None? ==> r == Ok(None)
    ensures r == Ok(None) ==> modelProvided && ckptPath.None?
    ensures r.Ok? && r.value.Some? ==> r.value.value != []
    ensures RequestsBest(ckptPath, modelProvided, modelConnected) ==>
      (r.Ok? <==> bestModelPath.Some? && bestModelPath.value != [])
      && (r.Ok? ==> r.value == bestModelPath)
      && (bestModelPath.None? ==> r == Err(Misconfiguration(BestNotConfigured)))
      && (bestModelPath == Some([]) ==> r == Err(Misconfiguration(if fastDevRun then BestUnderFastDevRun else BestNotSaved)))
    ensures ckptPath.Some? && ckptPath.value != "best" ==> (r.Ok? <==> ckptPath.value != []) && (r.Ok? ==> r.value == ckptPath)
    ensures !modelProvided && !modelConnected && ckptPath.None? ==> r == Err(Misconfiguration(NoPathFound))
  {
    if modelProvided && ckptPath.None? then Ok(None)
    else
      var path := if modelConnected && ckptPath.None? then Some("best") else ckptPath;
      if path == Some("best") then
        if bestModelPath.None? then Err(Misconfiguration(BestNotConfigured))
        else if bestModelPath.value == [] then
          Err(Misconfiguration(if fastDevRun then BestUnderFastDevRun else BestNotSaved))
        else Ok(bestModelPath)
      else if path.None? || path.value == [] then Err(Misconfiguration(NoPathFound))
      else Ok(path)
  }

  // --------------------------------------------------- callback states

  /** A callback as checkpointing sees it; `saved` is what its `on_save_checkpoint` returns. */
  datatype Callback = Callback(stateKey: string, legacyKey: string, saved: Option<map<string, Obj>>)

  /** A callback state is kept only when it is truthy: not None and not an empty dict. */
  predicate Truthy(state: Option<map<string, Obj>>)
  {
    state.Some? && |state.value| > 0
  }

  /** Whether a later callback overwrites the state saved for `cbs[i]`. */
  predicate OverwrittenLater(cbs: seq<Callback>, i: nat)
    requires i < |cbs|
  {
    exists j :: i < j < |cbs| && cbs[j].stateKey == cbs[i].stateKey && Truthy(cbs[j].saved)
  }

  /**
   * The dict `_call_callbacks_on_save_checkpoint` builds: each truthy state
   * under its callback's state key, a later callback winning on a shared key.
   */
  function SavedStates(cbs: seq<Callback>): (r: map<string, map<string, Obj>>)
    ensures forall k :: k in r <==> exists i :: 0 <= i < |cbs| && cbs[i].stateKey == k && Truthy(cbs[i].saved)
    ensures forall i :: 0 <= i < |cbs| && Truthy(cbs[i].saved) && !OverwrittenLater(cbs, i) ==>
      cbs[i].stateKey in r && r[cbs[i].stateKey] == cbs[i].saved.value
  {
    if cbs == [] then map[]
    else
      var prefix := cbs[..|cbs| - 1];
      var last := cbs[|cbs| - 1];
      var before := SavedStates(prefix);
      var r := if Truthy(last.saved) then before[last.stateKey := last.saved.value] else before;
      SavedKeysStep(cbs, before, r);
      SavedValuesStep(cbs, before, r);
      r
  }

  /** The keys after one more callback: the earlier keys, and its own when its state is truthy. */
  lemma SavedKeysStep(cbs: seq<Callback>, before: map<string, map<string, Obj>>, r: map<string, map<string, Obj>>)
    requires |cbs| > 0
    requires forall k :: k in before <==> exists i :: 0 <= i < |cbs| - 1 && cbs[i].stateKey == k && Truthy(cbs[i].saved)
    requires r == if Truthy(cbs[|cbs| - 1].saved) then before[cbs[|cbs| - 1].stateKey := cbs[|cbs| - 1].saved.value] else before
    ensures forall k :: k in r <==> exists i :: 0 <= i < |cbs| && cbs[i].stateKey == k && Truthy(cbs[i].saved)
  {
    forall k | exists i :: 0 <= i < |cbs| && cbs[i].stateKey == k && Truthy(cbs[i].saved)
      ensures k in r
    {
      var i :| 0 <= i < |cbs| && cbs[i].stateKey == k && Truthy(cbs[i].saved);
      if i < |cbs| - 1 {
        assert k in before;
      }
    }
  }

  lemma NotOverwrittenInPrefix(cbs: seq<Callback>, i: nat)
    requires i < |cbs| - 1 && !OverwrittenLater(cbs, i)
    ensures !OverwrittenLater(cbs[..|cbs| - 1], i)
  {
    var prefix := cbs[..|cbs| - 1];
    forall j | i < j < |prefix| && prefix[j].stateKey == prefix[i].stateKey
      ensures !Truthy(prefix[j].saved)
    {
      assert cbs[j] == prefix[j] && cbs[i] == prefix[i];
    }
  }

  /** The value kept for a callback nobody overwrites survives one more callback. */
  lemma SavedValuesStep(cbs: seq<Callback>, before: map<string, map<string, Obj>>, r: map<string, map<string, Obj>>)
    requires |cbs| > 0
    requires forall i :: 0 <= i < |cbs| - 1 && Truthy(cbs[i].saved) && !OverwrittenLater(cbs[..|cbs| - 1], i) ==>
      cbs[i].stateKey in before && before[cbs[i].stateKey] == cbs[i].saved.value
    requires r == if Truthy(cbs[|cbs| - 1].saved) then before[cbs[|cbs| - 1].stateKey := cbs[|cbs| - 1].saved.value] else before
    ensures forall i :: 0 <= i < |cbs| && Truthy(cbs[i].saved) && !OverwrittenLater(cbs, i) ==>
      cbs[i].stateKey in r && r[cbs[i].stateKey] == cbs[i].saved.value
  {
    var prefix := cbs[..|cbs| - 1];
    forall i | 0 <= i < |cbs| - 1 && Truthy(cbs[i].saved) && !OverwrittenLater(cbs, i)
      ensures cbs[i].stateKey in r && r[cbs[i].stateKey] == cbs[i].saved.value
    {
      NotOverwrittenInPrefix(cbs, i);
      assert cbs[i].stateKey != cbs[|cbs| - 1].stateKey || !Truthy(cbs[|cbs| - 1].saved);
    }
  }

  /** `_call_callbacks_on_save_checkpoint`, as the loop that fills the dict. */
  method CallbacksOnSaveCheckpoint(cbs: seq<Callback>) returns (states: map<string, map<string, Obj>>)
    ensures states == SavedStates(cbs)
  {
    states := map[];
    var i := 0;
    while i < |cbs|
      invariant 0 <= i <= |cbs|
      invariant states == SavedStates(cbs[..i])
    {
      SavedStatesNext(cbs, i);
      if Truthy(cbs[i].saved) {
        states := states[cbs[i].stateKey := cbs[i].saved.value];
      }
      i := i + 1;
    }
    assert cbs[..|cbs|] == cbs;
  }

  /** One more callback adds its truthy state under its key, replacing any earlier one. */
  lemma SavedStatesNext(cbs: seq<Callback>, i: nat)
    requires i < |cbs|
    ensures var before := SavedStates(cbs[..i]);
      SavedStates(cbs[..i + 1]) == if Truthy(cbs[i].saved) then before[cbs[i].stateKey := cbs[i].saved.value] else before
  {
    assert cbs[..i + 1][..i] == cbs[..i];
  }

  /** The key a callback is known under in a checkpoint of the given age. */
  function CurrentKey(cb: Callback, isLegacy: bool): string
  {
    if isLegacy then cb.legacyKey else cb.stateKey
  }

  /** `callback_states.get(state_key, callback_states.get(legacy_key))`, delivered only when truthy. */
  function DeliveredState(states: map<string, map<string, Obj>>, cb: Callback): (r: Option<map<string, Obj>>)
    ensures r.Some? ==> |r.value| > 0
    ensures cb.stateKey in states ==> r == if |states[cb.stateKey]| > 0 then Some(states[cb.stateKey]) else None
    ensures cb.stateKey !in states && cb.legacyKey in states ==> r == if |states[cb.legacyKey]| > 0 then Some(states[cb.legacyKey]) else None
    ensures cb.stateKey !in states && cb.legacyKey !in states ==> r.None?
  {
    var state := if cb.stateKey in states then Some(states[cb.stateKey])
                 else if cb.legacyKey in states then Some(states[cb.legacyKey]) else None;
    if Truthy(state) then state else None
  }

  /**
   * `_call_callbacks_on_load_checkpoint`: without saved callback states it
   * does nothing; otherwise it reports the saved keys no current callback
   * claims (the warning) and gives each callback its state, if any.
   */
  method CallbacksOnLoadCheckpoint(saved: Option<map<string, map<string, Obj>>>, cbs: seq<Callback>, isLegacy: bool)
    returns (unknown: set<string>, delivered: seq<Option<map<string, Obj>>>)
    ensures |delivered| == |cbs|
    ensures saved.None? ==> unknown == {} && forall i :: 0 <= i < |cbs| ==> delivered[i].None?
    ensures saved.Some? ==> unknown == saved.value.Keys - (set cb | cb in cbs :: CurrentKey(cb, isLegacy))
    ensures saved.Some? ==> forall i :: 0 <= i < |cbs| ==> delivered[i] == DeliveredState(saved.value, cbs[i])
  {
    if saved.None? {
      return {}, seq(|cbs|, _ => None);
    }
    var states := saved.value;
    unknown := states.Keys - (set cb | cb in cbs :: CurrentKey(cb, isLegacy));
    delivered := [];
    var i := 0;
    while i < |cbs|
      invariant 0 <= i <= |cbs|
      invariant |delivered| == i
      invariant forall k :: 0 <= k < i ==> delivered[k] == DeliveredState(states, cbs[k])
    {
      delivered := delivered + [DeliveredState(states, cbs[i])];
      i := i + 1;
    }
  }

  /**
   * Saving and then loading with the same callbacks (distinct state keys, a
   * current checkpoint) gives every callback back the state it saved, and
   * raises no unknown-key warning.
   */
  lemma SaveLoadRoundTrip(cbs: seq<Callback>)
    requires forall i, j :: 0 <= i < j < |cbs| ==> cbs[i].stateKey != cbs[j].stateKey
    ensures SavedStates(cbs).Keys - (set cb | cb in cbs :: CurrentKey(cb, false)) == {}
    ensures forall i :: 0 <= i < |cbs| && Truthy(cbs[i].saved) ==> DeliveredState(SavedStates(cbs), cbs[i]) == cbs[i].saved
  {
    var states := SavedStates(cbs);
    forall k | k in states
      ensures k in set cb | cb in cbs :: CurrentKey(cb, false)
    {
      var i :| 0 <= i < |cbs| && cbs[i].stateKey == k && Truthy(cbs[i].saved);
      assert CurrentKey(cbs[i], false) == k;
    }
    forall i | 0 <= i < |cbs| && Truthy(cbs[i].saved)
      ensures DeliveredState(states, cbs[i]) == cbs[i].saved
    {
      assert !OverwrittenLater(cbs, i);
    }
  }

  // ------------------------------------------------------ hyper-parameters

  /** A hyper-parameter value: its Python type and the value (identity for tensors). */
  datatype HParam = HParam(typeName: string, value: Obj)

  /** A shared key whose two values differ in type or value. */
  predicate Inconsistent(lm: map<string, HParam>, dm: map<string, HParam>, k: string)
  {
    k in lm && k in dm && (lm[k].typeName != dm[k].typeName || lm[k].value != dm[k].value)
  }

  /**
   * The hyper-parameters `_log_hyperparams` hands to the logger. Both sets
   * are used when the model and the datamodule both log theirs; then a
   * shared key with different values is refused, and otherwise the union is
   * taken with the datamodule's values winning. None when nothing is logged.
   */
  function MergeHparams(loggerPresent: bool, lmLogs: bool, lm: map<string, HParam>, dmLogs: bool, dm: map<string, HParam>)
    : (r: Result<Option<map<string, HParam>>>)
    ensures r.Err? <==> loggerPresent && lmLogs && dmLogs && exists k :: k in lm && Inconsistent(lm, dm, k)
    ensures r.Ok? && r.value.Some? ==> loggerPresent && (lmLogs || dmLogs)
    ensures r.Ok? && loggerPresent && lmLogs && dmLogs ==> r.value == Some(lm + dm)
    ensures r.Ok? && loggerPresent && lmLogs && !dmLogs ==> r.value == Some(lm)
    ensures r.Ok? && loggerPresent && !lmLogs && dmLogs ==> r.value == Some(dm)
  {
    if !loggerPresent then Ok(None)
    else if lmLogs && dmLogs then
      if exists k :: k in lm && Inconsistent(lm, dm, k) then Err(Misconfiguration("Error while merging hparams"))
      else Ok(Some(lm + dm))
    else if lmLogs then Ok(Some(lm))
    else if dmLogs then Ok(Some(dm))
    else Ok(None)
  }

  /**
   * When the merge succeeds it loses nothing and contradicts neither side:
   * every key of either set is present with that set's value.
   */
  lemma MergeHparamsAgrees(lm: map<string, HParam>, dm: map<string, HParam>)
    requires MergeHparams(true, true, lm, true, dm).Ok?
    ensures
      var merged := MergeHparams(true, true, lm, true, dm).value.value;
      && merged.Keys == lm.Keys + dm.Keys
      && (forall k :: k in lm ==> merged[k] == lm[k])
      && (forall k :: k in dm ==> merged[k] == dm[k])
  {
    var merged := lm + dm;
    forall k | k in lm
      ensures merged[k] == lm[k]
    {
      assert !Inconsistent(lm, dm, k);
    }
  }
}
