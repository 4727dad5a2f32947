/**
 * The trainer's dataloader bookkeeping
 * (pi_ml/trainer/connectors/data_connector.py): validation of the data
 * flags, when dataloaders are reloaded, where each stage's dataloaders come
 * from, how many batches each evaluation dataloader contributes, the
 * distributed sampler's arguments and the teardown of the data fetchers.
 *
 * Dataloaders, modules and fetchers are opaque values. Whether a dataloader
 * has a length (`has_len_all_ranks`, in pi_ml/utilities/data.py, which is not
 * part of this model) is an input: a `LoaderLen`.
 */
module DataConnector {
  import opened Wrappers
  import opened PyText
  import Trainer

  // ------------------------------------------------------------ flags

  /** A configuration value as `isinstance` sees it; a bool is an int in Python. */
  datatype Arg = ArgInt(n: int) | ArgBool(b: bool) | ArgFloat(x: real) | ArgOther
  {
    predicate IsInt() { ArgInt? || ArgBool? }

    function AsInt(): int
      requires IsInt()
    {
      if ArgInt? then n else if b then 1 else 0
    }
  }

  const CheckValNotInt := "check_val_every_n_epoch should be an integer."
  const ReloadNotNatural := "`reload_dataloaders_every_n_epochs` should be an int >= 0."

  /**
   * When the dataloaders of a stage are due for a reload: with a non-zero
   * interval, once that many epochs have passed since the last reload.
   * `lastReload` is None before the first load (the source's `-inf`).
   */
  predicate ShouldReload(every: int, currentEpoch: int, lastReload: Option<int>)
    ensures every == 0 ==> !ShouldReload(every, currentEpoch, lastReload)
    ensures every != 0 && lastReload.None? ==> ShouldReload(every, currentEpoch, lastReload)
    ensures every != 0 && lastReload.Some? ==>
      (ShouldReload(every, currentEpoch, lastReload) <==> currentEpoch >= lastReload.value + every)
  {
    every != 0 && (lastReload.None? || currentEpoch - lastReload.value >= every)
  }

  /** With a positive interval, the dataloaders reloaded at epoch `e` are next due at epoch `e + every` and not before. */
  lemma ReloadPeriod(every: int, e: int, k: int)
    requires every > 0
    ensures ShouldReload(every, e + k, Some(e)) <==> k >= every
  {
  }

  /** An interval of 0 never reloads, not even before the first load. */
  lemma NeverReload(currentEpoch: int, lastReload: Option<int>)
    ensures !ShouldReload(0, currentEpoch, lastReload)
  {
  }

  // ------------------------------------------------------ sources

  /** What a dataloader source holds: nothing, dataloaders, or a module whose hook provides them. */
  datatype Instance =
    | NoInstance
    | Loaders(loaders: Obj)
    | LightningModule(model: Obj, overridden: set<string>)
    | DataModule(datamodule: Obj, overridden: set<string>)
  {
    predicate IsModule() { LightningModule? || DataModule? }
  }

  /** How `dataloader()` obtains the dataloaders: as they are, or by calling a module's hook. */
  datatype Fetch = Direct(instance: Instance) | CallHook(owner: Instance, hook: string)

  /** `_DataLoaderSource`: where a stage's dataloaders come from. */
  datatype DataLoaderSource = DataLoaderSource(instance: Instance, name: string)
  {
    /** `dataloader()`: without a name, or for a non-module, the instance itself; else the module's hook. */
    function Dataloader(): (f: Fetch)
      ensures f.CallHook? <==> name != [] && instance.IsModule()
      ensures f.Direct? ==> f.instance == instance
      ensures f.CallHook? ==> f.owner == instance && f.hook == name
    {
      if name == [] then Direct(instance)
      else if instance.IsModule() then CallHook(instance, name)
      else Direct(instance)
    }

    /** `is_defined`: dataloaders are available unless the source is a module that does not override the hook. */
    predicate IsDefined()
      ensures !instance.IsModule() ==> IsDefined()
      ensures instance.IsModule() ==> (IsDefined() <==> name in instance.overridden)
    {
      !instance.IsModule() || name in instance.overridden
    }
  }

  /** A module whose hook is not overridden is not a defined source; anything else is. */
  lemma IsDefinedCases(s: DataLoaderSource)
    ensures !s.IsDefined() <==> s.instance.IsModule() && s.name !in s.instance.overridden
    ensures s.name == [] ==> s.Dataloader() == Direct(s.instance)
  {
  }

  const EmptySource := DataLoaderSource(NoInstance, "")

  /** The hooks a datamodule can take over from the model. */
  const BatchTransferHooks: seq<string> := ["on_before_batch_transfer", "transfer_batch_to_device", "on_after_batch_transfer"]

  /** The model and datamodule hooks that provide each stage's dataloaders. */
  const TrainHook := "train_dataloader"
  const ValHook := "val_dataloader"
  const TestHook := "test_dataloader"
  const PredictHook := "predict_dataloader"

  /** `x if x is not None else model`. */
  function LoaderOrModel(given: Option<Obj>, model: Instance): (i: Instance)
    ensures given.Some? ==> i == Loaders(given.value)
    ensures given.None? ==> i == model
  {
    if given.Some? then Loaders(given.value) else model
  }

  class DataConnector {
    var trainSource: DataLoaderSource
    var valSource: DataLoaderSource
    var testSource: DataLoaderSource
    var predictSource: DataLoaderSource
    var trainFetcher: Option<Obj>
    var validateFetcher: Option<Obj>
    var testFetcher: Option<Obj>
    var sanityCheckFetcher: Option<Obj>
    // Fields the source stores on the trainer.
    var trainDataloader: Option<Obj>
    var valDataloaders: Option<Obj>
    var testDataloaders: Option<Obj>
    var predictDataloaders: Option<Obj>
    var datamodule: Option<Obj>
    var prepareDataPerNode: Option<bool>
    var checkValEveryNEpoch: int
    var reloadEveryNEpochs: nat
    var isDataPrepared: bool

    constructor(trainFetcher: Option<Obj>, validateFetcher: Option<Obj>, testFetcher: Option<Obj>)
      ensures trainSource == EmptySource && valSource == EmptySource
      ensures testSource == EmptySource && predictSource == EmptySource
      ensures this.trainFetcher == trainFetcher && this.validateFetcher == validateFetcher
      ensures this.testFetcher == testFetcher && sanityCheckFetcher.None?
    {
      trainSource, valSource, testSource, predictSource := EmptySource, EmptySource, EmptySource, EmptySource;
      this.trainFetcher, this.validateFetcher, this.testFetcher := trainFetcher, validateFetcher, testFetcher;
      sanityCheckFetcher := None;
      trainDataloader, valDataloaders, testDataloaders, predictDataloaders := None, None, None, None;
      datamodule := None;
      prepareDataPerNode := None;
      checkValEveryNEpoch, reloadEveryNEpochs := 1, 0;
      isDataPrepared := false;
    }

    /**
     * `on_trainer_init`: forgets the datamodule and stores the flags,
     * refusing a validation interval that is not an int and a reload
     * interval that is not an int >= 0 (in that order; what was stored
     * before the failing check stays stored).
     */
    method OnTrainerInit(checkValEvery: Arg, reloadEvery: Arg, prepare: Option<bool>) returns (r: Result<()>)
      modifies this
      ensures datamodule.None? && prepareDataPerNode == prepare
      ensures r.Err? <==> !checkValEvery.IsInt() || !reloadEvery.IsInt() || reloadEvery.AsInt() < 0
      ensures r.Err? ==> r.error.Misconfiguration?
      ensures checkValEvery.IsInt() ==> checkValEveryNEpoch == checkValEvery.AsInt()
      ensures !checkValEvery.IsInt() ==> checkValEveryNEpoch == old(checkValEveryNEpoch)
      ensures r.Ok? ==> reloadEveryNEpochs == reloadEvery.AsInt() && !isDataPrepared
      ensures r.Err? ==> reloadEveryNEpochs == old(reloadEveryNEpochs) && isDataPrepared == old(isDataPrepared)
      ensures trainSource == old(trainSource) && valSource == old(valSource)
      ensures testSource == old(testSource) && predictSource == old(predictSource)
      ensures trainFetcher == old(trainFetcher) && validateFetcher == old(validateFetcher)
      ensures testFetcher == old(testFetcher) && sanityCheckFetcher == old(sanityCheckFetcher)
      ensures trainDataloader == old(trainDataloader) && valDataloaders == old(valDataloaders)
      ensures testDataloaders == old(testDataloaders) && predictDataloaders == old(predictDataloaders)
    {
      datamodule := None;
      prepareDataPerNode := prepare;
      if !checkValEvery.IsInt() {
        return Err(Misconfiguration(CheckValNotInt));
      }
      checkValEveryNEpoch := checkValEvery.AsInt();
      if !reloadEvery.IsInt() || reloadEvery.AsInt() < 0 {
        return Err(Misconfiguration(ReloadNotNatural));
      }
      reloadEveryNEpochs := reloadEvery.AsInt();
      isDataPrepared := false;
      r := Ok(());
    }

    /** `evaluation_data_fetcher`: the sanity-check fetcher, else the test one while testing, else the validation one. */
    function EvaluationDataFetcher(stage: Option<Trainer.RunningStage>): (f: Option<Obj>)
      reads this
      ensures stage == Some(Trainer.SanityChecking) ==> f == sanityCheckFetcher
      ensures stage == Some(Trainer.Testing) ==> f == testFetcher
      ensures stage != Some(Trainer.SanityChecking) && stage != Some(Trainer.Testing) ==> f == validateFetcher
    {
      if stage == Some(Trainer.SanityChecking) then sanityCheckFetcher
      else if stage == Some(Trainer.Testing) then testFetcher
      else validateFetcher
    }

    /**
     * `attach_dataloaders`: the trainer forgets its dataloaders, and every
     * stage's source becomes the dataloaders passed for it or, failing that,
     * the model's hook.
     */
    method AttachDataloaders(model: Instance, train: Option<Obj>, val: Option<Obj>, test: Option<Obj>, predict: Option<Obj>)
      modifies this
      ensures trainDataloader.None? && valDataloaders.None? && testDataloaders.None? && predictDataloaders.None?
      ensures trainSource == DataLoaderSource(LoaderOrModel(train, model), TrainHook)
      ensures valSource == DataLoaderSource(LoaderOrModel(val, model), ValHook)
      ensures testSource == DataLoaderSource(LoaderOrModel(test, model), TestHook)
      ensures predictSource == DataLoaderSource(LoaderOrModel(predict, model), PredictHook)
      ensures trainFetcher == old(trainFetcher) && validateFetcher == old(validateFetcher)
      ensures testFetcher == old(testFetcher) && sanityCheckFetcher == old(sanityCheckFetcher)
      ensures datamodule == old(datamodule)
      ensures prepareDataPerNode == old(prepareDataPerNode) && checkValEveryNEpoch == old(checkValEveryNEpoch)
      ensures reloadEveryNEpochs == old(reloadEveryNEpochs) && isDataPrepared == old(isDataPrepared)
    {
      trainDataloader, valDataloaders, testDataloaders, predictDataloaders := None, None, None, None;
      SetSources(LoaderOrModel(train, model), LoaderOrModel(val, model), LoaderOrModel(test, model), LoaderOrModel(predict, model));
    }

    /** Every stage's source becomes the given instance with that stage's hook; nothing else changes. */
    method SetSources(train: Instance, val: Instance, test: Instance, predict: Instance)
      modifies this
      ensures trainSource == DataLoaderSource(train, TrainHook) && valSource == DataLoaderSource(val, ValHook)
      ensures testSource == DataLoaderSource(test, TestHook) && predictSource == DataLoaderSource(predict, PredictHook)
      ensures trainFetcher == old(trainFetcher) && validateFetcher == old(validateFetcher)
      ensures testFetcher == old(testFetcher) && sanityCheckFetcher == old(sanityCheckFetcher)
      ensures trainDataloader == old(trainDataloader) && valDataloaders == old(valDataloaders)
      ensures testDataloaders == old(testDataloaders) && predictDataloaders == old(predictDataloaders)
      ensures datamodule == old(datamodule)
      ensures prepareDataPerNode == old(prepareDataPerNode) && checkValEveryNEpoch == old(checkValEveryNEpoch)
      ensures reloadEveryNEpochs == old(reloadEveryNEpochs) && isDataPrepared == old(isDataPrepared)
    {
      trainSource := DataLoaderSource(train, TrainHook);
      valSource := DataLoaderSource(val, ValHook);
      testSource := DataLoaderSource(test, TestHook);
      predictSource := DataLoaderSource(predict, PredictHook);
    }

    /**
     * `attach_datamodule`: with a datamodule, every stage's source becomes
     * its hook, the trainer keeps the datamodule, and the model takes over
     * the batch-transfer hooks the datamodule overrides (returned, each once).
     */
    method AttachDatamodule(dm: Option<Instance>) returns (taken: seq<string>)
      requires dm.Some? ==> dm.value.DataModule?
      modifies this
      ensures dm.None? ==>
        && taken == [] && trainSource == old(trainSource) && valSource == old(valSource)
        && testSource == old(testSource) && predictSource == old(predictSource)
      ensures dm.Some? ==>
        && trainSource == DataLoaderSource(dm.value, TrainHook)
        && valSource == DataLoaderSource(dm.value, ValHook)
        && testSource == DataLoaderSource(dm.value, TestHook)
        && predictSource == DataLoaderSource(dm.value, PredictHook)
      ensures dm.Some? ==> forall h :: h in taken <==> h in BatchTransferHooks && h in dm.value.overridden
      ensures forall i, j :: 0 <= i < j < |taken| ==> taken[i] != taken[j]
      ensures datamodule == if dm.Some? then Some(dm.value.datamodule) else old(datamodule)
      ensures trainFetcher == old(trainFetcher) && validateFetcher == old(validateFetcher)
      ensures testFetcher == old(testFetcher) && sanityCheckFetcher == old(sanityCheckFetcher)
      ensures trainDataloader == old(trainDataloader) && valDataloaders == old(valDataloaders)
      ensures testDataloaders == old(testDataloaders) && predictDataloaders == old(predictDataloaders)
      ensures prepareDataPerNode == old(prepareDataPerNode) && checkValEveryNEpoch == old(checkValEveryNEpoch)
      ensures reloadEveryNEpochs == old(reloadEveryNEpochs) && isDataPrepared == old(isDataPrepared)
    {
      taken := [];
      if dm.None? {
        return;
      }
      var d := dm.value;
      SetSources(d, d, d, d);
      datamodule := Some(d.datamodule);
      taken := TakenHooks(d.overridden);
    }

    /** The batch-transfer hooks, each once, that a datamodule overriding `overridden` hands to the model. */
    static method TakenHooks(overridden: set<string>) returns (taken: seq<string>)
      ensures forall h :: h in taken <==> h in BatchTransferHooks && h in overridden
      ensures forall i, j :: 0 <= i < j < |taken| ==> taken[i] != taken[j]
    {
      taken := [];
      var i := 0;
      while i < |BatchTransferHooks|
        invariant 0 <= i <= |BatchTransferHooks|
        invariant forall h :: h in taken <==> h in BatchTransferHooks[..i] && h in overridden
        invariant forall a, b :: 0 <= a < b < |taken| ==> taken[a] != taken[b]
      {
        var hook := BatchTransferHooks[i];
        assert BatchTransferHooks[..i + 1] == BatchTransferHooks[..i] + [hook];
        assert hook !in BatchTransferHooks[..i];
        if hook in overridden {
          taken := taken + [hook];
        }
        i := i + 1;
      }
      assert BatchTransferHooks[..i] == BatchTransferHooks;
    }

    /** `teardown`: tears down every fetcher that is set (returned, in order) and forgets all four. */
    method Teardown() returns (tornDown: seq<Obj>)
      modifies this
      ensures trainFetcher.None? && validateFetcher.None? && testFetcher.None? && sanityCheckFetcher.None?
      ensures tornDown == Present([old(trainFetcher), old(validateFetcher), old(testFetcher), old(sanityCheckFetcher)])
      ensures trainSource == old(trainSource) && valSource == old(valSource)
      ensures testSource == old(testSource) && predictSource == old(predictSource)
      ensures trainDataloader == old(trainDataloader) && valDataloaders == old(valDataloaders)
      ensures testDataloaders == old(testDataloaders) && predictDataloaders == old(predictDataloaders)
      ensures datamodule == old(datamodule)
      ensures prepareDataPerNode == old(prepareDataPerNode) && checkValEveryNEpoch == old(checkValEveryNEpoch)
      ensures reloadEveryNEpochs == old(reloadEveryNEpochs) && isDataPrepared == old(isDataPrepared)
    {
      tornDown := TornDown(trainFetcher, validateFetcher, testFetcher, sanityCheckFetcher);
      trainFetcher, validateFetcher, testFetcher, sanityCheckFetcher := None, None, None, None;
    }
  }

  /** The values that are not None, in order. */
  function Present<T(!new)>(xs: seq<Option<T>>): (r: seq<T>)
    ensures |r| <= |xs|
    ensures forall x :: x in r <==> Some(x) in xs
  {
    if xs == [] then []
    else
      var rest := Present(xs[..|xs| - 1]);
      assert forall x :: Some(x) in xs <==> Some(x) in xs[..|xs| - 1] || xs[|xs| - 1] == Some(x);
      match xs[|xs| - 1]
      case None => rest
      case Some(x) => rest + [x]
  }

  /** The fetchers `teardown` tears down: each one that is set, in the order train, validate, test, sanity check. */
  method TornDown(train: Option<Obj>, validate: Option<Obj>, test: Option<Obj>, sanityCheck: Option<Obj>)
    returns (torn: seq<Obj>)
    ensures torn == Present([train, validate, test, sanityCheck])
  {
    ghost var all := [train, validate, test, sanityCheck];
    assert all[..0] == [];
    torn := [];
    if train.Some? {
      torn := torn + [train.value];
    }
    assert all[..1][..0] == all[..0];
    assert torn == Present(all[..1]);
    if validate.Some? {
      torn := torn + [validate.value];
    }
    assert all[..2][..1] == all[..1];
    assert torn == Present(all[..2]);
    if test.Some? {
      torn := torn + [test.value];
    }
    assert all[..3][..2] == all[..2];
    assert torn == Present(all[..3]);
    if sanityCheck.Some? {
      torn := torn + [sanityCheck.value];
    }
    assert all[..4][..3] == all[..3];
    assert all[..4] == all;
  }

  // ------------------------------------------------ the distributed sampler

  /** The arguments `_get_distributed_sampler` adds. */
  datatype SamplerArgs = SamplerArgs(shuffle: bool, seed: int, unrepeated: bool)

  /**
   * `_get_distributed_sampler`: shuffles only when asked to and not
   * overfitting; PL_GLOBAL_SEED is read (0 when unset, `int()` of it
   * otherwise) before the given seed is consulted, so an unparsable value
   * fails even when a seed is given; the seed is the given one, else the
   * variable's; predicting uses the sampler that does not repeat samples.
   */
  function DistributedSamplerArgs(shuffle: bool, overfitBatches: Num, seed: Option<int>,
                                  env: map<string, string>, stage: Option<Trainer.RunningStage>): (r: Result<SamplerArgs>)
    ensures r.Ok? ==> (r.value.shuffle <==> shuffle && overfitBatches.IsZero())
    ensures r.Ok? ==> (r.value.unrepeated <==> stage == Some(Trainer.Predicting))
    ensures r.Err? <==> "PL_GLOBAL_SEED" in env && ParseInt(env["PL_GLOBAL_SEED"]).None?
    ensures r.Err? ==> r.error == ValueError
    ensures r.Ok? && seed.Some? ==> r.value.seed == seed.value
    ensures r.Ok? && seed.None? && "PL_GLOBAL_SEED" !in env ==> r.value.seed == 0
    ensures r.Ok? && seed.None? && "PL_GLOBAL_SEED" in env ==> r.value.seed == ParseInt(env["PL_GLOBAL_SEED"]).value
  {
    var s := shuffle && overfitBatches.IsZero();
    var unrepeated := stage == Some(Trainer.Predicting);
    var envSeed := if "PL_GLOBAL_SEED" in env then ParseInt(env["PL_GLOBAL_SEED"]) else Some(0);
    match envSeed
    case None => Err(ValueError)
    case Some(n) => Ok(SamplerArgs(s, if seed.Some? then seed.value else n, unrepeated))
  }

  // ------------------------------------------------ evaluation batch counts

  /** The length of a dataloader: finite, or infinite when it has none. */
  datatype LoaderLen = Finite(n: nat) | Infinite
  {
    function AsNum(): Num
    {
      if Finite? then Int(n) else Inf
    }
  }

  lemma ScaleAtMost(a: real, f: real)
    requires a >= 0.0 && 0.0 <= f <= 1.0
    ensures 0.0 <= a * f <= a
  {
    assert a * (1.0 - f) >= 0.0;
  }

  const IterableNeedsWholeLimit := "an IterableDataset needs limit_batches of 0.0, 1.0 or an int"
  const LimitBelowOneBatch := "the limit_batches fraction selects fewer than one batch"

  /**
   * The limited batch count before the check for a fraction that selects
   * no batch: an int limit (or 0.0) caps the length; a fraction takes that
   * share of a finite length, truncated, and is refused for an infinite one
   * unless it is 1.0.
   */
  function LimitedCount(len: LoaderLen, limit: Num): (r: Result<Num>)
    requires limit.Int? || limit.Float?
    ensures r.Err? <==> len.Infinite? && limit.Float? && limit.r != 0.0 && limit.r != 1.0
    ensures r.Err? ==> r.error.Misconfiguration?
  {
    if limit.Int? || limit == Float(0.0) then
      var k := if limit.Int? then limit.i else 0;
      Ok(if len.Infinite? then Int(k) else Int(if len.n <= k then len.n else k))
    else if len.Finite? then
      Ok(Int(Trunc(len.n as real * limit.r)))
    else if limit.r != 1.0 then
      Err(Misconfiguration(IterableNeedsWholeLimit))
    else
      Ok(Inf)
  }

  /**
   * The batch count `_reset_eval_dataloader` gives one evaluation dataloader
   * under the stage's limit: the limited count, except that a positive
   * fraction that selects no batch is refused (with a ZeroDivisionError when
   * the length itself is 0, as the error message divides by it).
   */
  function CountBatches(len: LoaderLen, limit: Num): (r: Result<Num>)
    requires limit.Int? || limit.Float?
    ensures limit.Int? ==> r.Ok?
    ensures r.Ok? && limit.Float? && limit.r > 0.0 ==> r.value != Int(0)
    ensures r.Err? ==> r.error.Misconfiguration? || (r.error == ZeroDivisionError && len == Finite(0))
  {
    var num :- LimitedCount(len, limit);
    if num == Int(0) && limit.Float? && limit.r > 0.0 then
      if len == Finite(0) then Err(ZeroDivisionError) else Err(Misconfiguration(LimitBelowOneBatch))
    else Ok(num)
  }

  /** An int limit caps the number of batches: the smaller of the length and the limit. */
  lemma CountBatchesIntLimit(len: LoaderLen, k: int)
    ensures CountBatches(len, Int(k)) == Ok(Int(if len.Finite? && len.n <= k then len.n else k))
  {
  }

  /** A fraction of a finite dataloader is that share of its batches, rounded down. */
  lemma CountBatchesFraction(n: nat, f: real)
    requires 0.0 < f <= 1.0
    ensures var r := CountBatches(Finite(n), Float(f));
      && (r.Ok? <==> n as real * f >= 1.0)
      && (r.Ok? ==> r.value.Int? && 1 <= r.value.i <= n
                    && r.value.i as real <= n as real * f < r.value.i as real + 1.0)
  {
    var x := n as real * f;
    ScaleAtMost(n as real, f);
    FloorInRange(x, n);
    var len, limit := Finite(n), Float(f);
    LimitedFraction(len, limit);
    assert len.n as real * limit.r == x;
    CountBatchesOfLimited(len, limit, x.Floor);
  }

  lemma LimitedFraction(len: LoaderLen, limit: Num)
    requires len.Finite? && limit.Float? && limit.r > 0.0
    ensures LimitedCount(len, limit) == Ok(Int(Trunc(len.n as real * limit.r)))
  {
  }

  /** A positive fraction whose limited count is `k` gives `k` batches, unless `k` is 0. */
  lemma CountBatchesOfLimited(len: LoaderLen, limit: Num, k: int)
    requires limit.Float? && limit.r > 0.0 && LimitedCount(len, limit) == Ok(Int(k))
    ensures k != 0 ==> CountBatches(len, limit) == Ok(Int(k))
    ensures k == 0 ==> CountBatches(len, limit).Err?
  {
  }

  lemma FloorInRange(x: real, n: nat)
    requires 0.0 <= x <= n as real
    ensures 0 <= x.Floor <= n && (x.Floor >= 1 <==> x >= 1.0)
    ensures x.Floor as real <= x < x.Floor as real + 1.0
  {
  }

  /** The full fraction keeps every batch, finite or not (only an empty dataloader is refused). */
  lemma CountBatchesFull(len: LoaderLen)
    ensures CountBatches(len, Float(1.0)) == if len == Finite(0) then Err(ZeroDivisionError) else Ok(len.AsNum())
  {
  }

  /** On an infinite dataloader only 0.0, 1.0 and int limits are accepted. */
  lemma CountBatchesInfinite(f: real)
    ensures CountBatches(Infinite, Float(f)).Err? <==> f != 0.0 && f != 1.0
  {
  }

  /** The batch counts of the dataloaders, in order, or the first refusal. */
  function BatchCounts(lens: seq<LoaderLen>, limit: Num): (r: Result<seq<Num>>)
    requires limit.Int? || limit.Float?
    ensures r.Ok? ==> |r.value| == |lens| && forall i :: 0 <= i < |lens| ==> CountBatches(lens[i], limit) == Ok(r.value[i])
    ensures r.Err? <==> exists i :: 0 <= i < |lens| && CountBatches(lens[i], limit).Err?
  {
    if lens == [] then Ok([])
    else
      var init := lens[..|lens| - 1];
      var counts := BatchCounts(init, limit);
      assert forall i :: 0 <= i < |init| ==> init[i] == lens[i];
      if counts.Err? then
        var i :| 0 <= i < |init| && CountBatches(init[i], limit).Err?;
        Err(counts.error)
      else
        match CountBatches(lens[|lens| - 1], limit)
        case Err(e) => Err(e)
        case Ok(n) => Ok(counts.value + [n])
  }

  /**
   * The counting part of `_reset_eval_dataloader`: dataloaders that are
   * None are skipped, and every other one contributes its batch count.
   */
  method ResetEvalBatchCounts(loaders: seq<Option<LoaderLen>>, limit: Num) returns (r: Result<seq<Num>>)
    requires limit.Int? || limit.Float?
    ensures r == BatchCounts(Present(loaders), limit)
  {
    var lens := Present(loaders);
    var counts: seq<Num> := [];
    var i := 0;
    while i < |lens|
      invariant 0 <= i <= |lens|
      invariant BatchCounts(lens[..i], limit) == Ok(counts)
    {
      assert lens[..i + 1][..i] == lens[..i];
      var n := CountBatches(lens[i], limit);
      if n.Err? {
        BatchCountsErrPersists(lens, limit, i + 1);
        return Err(n.error);
      }
      counts := counts + [n.value];
      i := i + 1;
    }
    assert lens[..i] == lens;
    r := Ok(counts);
  }

  /** Once a prefix of the dataloaders is refused, so is the whole list, with the same error. */
  lemma {:induction false} BatchCountsErrPersists(lens: seq<LoaderLen>, limit: Num, i: nat)
    requires limit.Int? || limit.Float?
    requires i <= |lens| && BatchCounts(lens[..i], limit).Err?
    ensures BatchCounts(lens, limit) == BatchCounts(lens[..i], limit)
  {
    if i < |lens| {
      var init := lens[..|lens| - 1];
      assert init[..i] == lens[..i];
      BatchCountsErrPersists(init, limit, i);
    } else {
      assert lens[..i] == lens;
    }
  }
}
