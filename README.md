# pi_ml training-loop bookkeeping, modelled in Dafny

pi_ml is a fork of the PyTorch Lightning training framework. Around the calls
into torch, its trainer makes a long series of plain decisions. This project
models those decisions and proves what they promise:

- how GPU ids and TPU core counts given by the user are parsed and checked;
- how batch limits, `fast_dev_run` and `overfit_batches` are normalised;
- when the fit loop and the evaluation loops stop, and how their progress
  counters move;
- how checkpoint versions are read from file names, which resume path wins,
  and what a saved checkpoint holds;
- when metrics are logged or flushed, and how the logger connector's
  counters, flags and metric maps change;
- where each dataloader comes from and how many batches each one yields;
- the progress-bar totals, the refresh rule and the `format_num` padding;
- the layout of the printed results table;
- the spawn strategy's queue and rank arithmetic, greedy GPU selection, the
  torchelastic environment variables, and the prefixing of device
  statistics.

Torch modules, dataloaders, optimizers and loggers are opaque values (`Obj`).
A directory is a list of file names. The process environment is a
`map<string, string>`. Device counts, "a TPU is available", "allocating on
GPU i succeeds" and what a function signature accepts are all inputs.
Fractional limits are exact `real`s. Python's `%`, floor division, negative
list indices, `range` of a negative number and `int()` truncation are written
out explicitly.

Code that changes objects in place is modelled as classes: the fit loop,
the checkpoint, logger and data connectors, the evaluation loops, the manual
optimization loop, the progress bars, the spawn strategy, its queue and the
torchelastic environment. Each method that may change its object says, field
by field, what every field it may change holds afterwards, including the
fields it leaves as they were. Code that only computes a value is modelled
as functions with lemmas. Loops in the source (the callback-state merge, the
checkpoint version scan, the eval batch counting, name wrapping, GPU
picking) are methods with loop invariants, each proved equal to a
specification function.

Modules follow the source files: `DeviceParser`, `LoopUtilities`, `FitLoop`,
`Trainer`, `CheckpointConnector`, `LoggerConnector`, `DataConnector`,
`EvaluationLoop`, `EvaluationEpochLoop`, `ManualLoop`, `ProgressBar`,
`TqdmProgress`, `DdpSpawn`, `Parallel`, `AutoGpuSelect`, `TorchElastic`,
`DeviceStatsMonitor` and `GpuAccelerator`. Three support modules sit beside
them:

- `Wrappers` holds `Option`, `Result` and the exception kinds.
- `PyText` holds ASCII versions of Python's `strip`, `split`, `join`,
  `int()`, `str()` and `lower()`: whitespace is the six ASCII space
  characters, digits are `0`-`9`, and only `A`-`Z` are lowered. It also
  holds `int()` of a float, which truncates toward zero.
- `Progress` holds the ready/started/processed/completed counters. Their
  source file (`pi_ml/trainer/progress.py`) is not part of this model.

Where the source and its documentation disagree, the model follows the
source:

- `num_dataloaders` has a branch for "no dataloaders" that returns 0. That
  branch cannot run, because the `dataloaders` property raises
  `RuntimeError` first. `EvaluationLoop.NumDataloaders` returns that error.
- The per-loader batch count with a fractional limit on a loader of length
  0 raises `ZeroDivisionError` when it builds its error message. It does not
  raise the intended `MisconfigurationException`.
- `_get_max_batches` may return a bare int. `skip` then fails with
  `TypeError`, because `sum()` of an int fails.

Two source defects are corrected rather than followed (see Findings):

- `_tpu_cores_valid` indexes the list before checking its length, so an
  empty list or tuple raises `IndexError`. `DeviceParser.TpuCoresValidAsWritten`
  reproduces that, and `DeviceParser.ParseTpuCores` and
  `DeviceParser.CheckedTpuCores` use the corrected `DeviceParser.TpuCoresValid`,
  which refuses those values with the `tpu_cores` configuration error.
- The plain-text results table formats the last piece of a wrapped metric
  name with a single blank, against one field per column. With two or more
  result columns, `str.format` raises `IndexError`.
  `EvaluationLoop.WrapMetric` and `EvaluationLoop.PrintLayoutAsWritten`
  reproduce that. `EvaluationLoop.PrintLayout` uses the corrected wrap,
  which leaves every column blank beside that piece.

## Model

| member | source | states |
|---|---|---|
| DeviceParser.Range | pi_ml/utilities/device_parser.py:183 | `list(range(n))` has max(n, 0) entries and entry i is i |
| DeviceParser.CheckDataType | pi_ml/utilities/device_parser.py:208-222 | accepted exactly for None, int, str, list and tuple (bool is not an int here); otherwise the fixed type error |
| DeviceParser.ParseIntPieces | pi_ml/utilities/device_parser.py:145 | the non-empty comma pieces parse as ints exactly when every piece does; otherwise ValueError |
| DeviceParser.NormalizeGpuString | pi_ml/utilities/device_parser.py:139-146 | non-strings pass through; a string becomes an int or a list of ints; only a string can fail, with ValueError |
| DeviceParser.IdsTextNormalizes | pi_ml/utilities/device_parser.py:139-146 | the comma-joined text of two or more ids normalises back to exactly that list |
| DeviceParser.ParseIdTexts | pi_ml/utilities/device_parser.py:145 | parsing the decimal texts of a list of ints gives the list back |
| DeviceParser.NormalizeToList | pi_ml/utilities/device_parser.py:172-183 | a sequence is copied; 0 gives None; -1 gives every device index; n > 0 gives [0..n-1]; other negatives give [] |
| DeviceParser.ElementsBound | pi_ml/utilities/device_parser.py:204 | a list has at most as many distinct elements as entries, and exactly as many iff it has no duplicates |
| DeviceParser.CheckUnique | pi_ml/utilities/device_parser.py:194-205 | a failure is the "must be unique" error |
| DeviceParser.CheckUniqueDistinct | pi_ml/utilities/device_parser.py:194-205 | the uniqueness check passes iff the ids are pairwise distinct |
| DeviceParser.SanitizeGpuIds | pi_ml/utilities/device_parser.py:149-169 | succeeds iff every id is in [0, device count), and then returns the list unchanged |
| DeviceParser.ParseGpuIds | pi_ml/utilities/device_parser.py:66-104 | None, 0, "0", "[]" and empty lists give None, and only they do; any list returned is non-empty |
| DeviceParser.CheckedGpuIds | pi_ml/utilities/device_parser.py:94-104 | a returned list is non-empty; outside the elastic single-device case its ids are distinct and below the device count |
| DeviceParser.ParseGpuIdsOfNormalized | pi_ml/utilities/device_parser.py:85-104 | for an argument that asks for GPUs, parsing is normalization followed by the list checks |
| DeviceParser.CheckedGpuIdsAccepts | pi_ml/utilities/device_parser.py:94-104 | a non-empty list of distinct ids present on the machine passes the checks unchanged |
| DeviceParser.MinusOneText | pi_ml/utilities/device_parser.py:142-143 | the text "-1" asks for GPUs and normalizes to the int -1 |
| DeviceParser.CommaRequestsGpus | pi_ml/utilities/device_parser.py:88 | a text with a comma in it never counts as asking for no GPUs |
| DeviceParser.ParseGpuIdsValid | pi_ml/utilities/device_parser.py:95-104 | outside the elastic single-GPU case, every returned id is distinct and below the device count |
| DeviceParser.ParseGpuIdsCount | pi_ml/utilities/device_parser.py:80-96 | for every device count and launch kind, a positive n gives [0..n-1] when n devices exist and the "not all available" error otherwise, except under torchelastic with one visible device and n != 1, where [0..n-1] is returned unchecked |
| DeviceParser.ParseGpuIdsAll | pi_ml/utilities/device_parser.py:172-183 | -1 and "-1" give every device index, or the "none available" error when there are no devices |
| DeviceParser.IdsTextRequestsGpus | pi_ml/utilities/device_parser.py:88-89 | a comma-joined id text of two or more ids never counts as "no GPUs" |
| DeviceParser.ParseGpuIdsText | pi_ml/utilities/device_parser.py:139-169 | the text "a,b,..." of distinct in-range ids parses to exactly those ids |
| DeviceParser.DetermineRootGpuDevice | pi_ml/utilities/device_parser.py:24-49 | None gives None; a non-empty list gives its first id; an empty list fails the assertion; any other type is a TypeError |
| DeviceParser.RootOfParsedGpus | pi_ml/utilities/device_parser.py:38-49 | the root device of a parsed GPU list is its first id, and that id exists on the machine |
| DeviceParser.ParseTpuCoresStr | pi_ml/utilities/device_parser.py:241-244 | "1" and "8" parse to ints |
| DeviceParser.LoneCommaPieces | pi_ml/utilities/device_parser.py:244 | the string "," parses to the empty list |
| DeviceParser.TpuCoresValidAsWritten | pi_ml/utilities/device_parser.py:225-238 | the check as written: an empty list or tuple raises IndexError; otherwise it agrees with the corrected check |
| DeviceParser.EmptyTpuListIndexError | pi_ml/utilities/device_parser.py:231-233 | `[]`, `()` and the string "," all reach the IndexError |
| DeviceParser.TpuCoresValid | pi_ml/utilities/device_parser.py:225-238 | valid iff None, 1, 8, True, or a one-element list or tuple holding a value in 1..8 |
| DeviceParser.ParseTpuCores | pi_ml/utilities/device_parser.py:107-136 | with the corrected validity check (see Findings): a result is valid and not a bool; a non-None result needs an available TPU; for non-strings, success iff the type, value and TPU checks pass, and the value is returned unchanged |
| DeviceParser.CheckedTpuCores | pi_ml/utilities/device_parser.py:130-136 | with the corrected validity check (see Findings): success iff the value is a valid choice and is None or a TPU is present, returning the value unchanged; an invalid value is the tpu_cores error, a missing TPU the no-TPU error |
| DeviceParser.TpuCoresOfString | pi_ml/utilities/device_parser.py:127-136 | a string that parses after stripping gets the same validity and TPU checks as any other value |
| DeviceParser.TpuStringOne | pi_ml/utilities/device_parser.py:241-244 | any text that strips to "1" asks for 1 core |
| DeviceParser.TpuStringOneComma | pi_ml/utilities/device_parser.py:241-244 | any text that strips to "1," asks for core 1, as the list [1] |
| DeviceParser.TpuStringNineComma | pi_ml/utilities/device_parser.py:225-244 | any text that strips to "9," is refused with the tpu_cores error |
| DeviceParser.TpuStringNineCommaSpace | pi_ml/utilities/device_parser.py:225-244 | "9, " is refused with the TPU-cores error |
| DeviceParser.TpuChoicesAccepted | pi_ml/utilities/device_parser.py:225-238 | 1, 8, [1] and [8] are accepted and returned unchanged |
| DeviceParser.TpuChoicesRejected | pi_ml/utilities/device_parser.py:225-244 | [9], [0], 2 and 10 are refused with the TPU-cores error |
| LoopUtilities.ExtractHiddens | pi_ml/loops/utilities.py:46-65 | without tbptt, a dict holding "hiddens" is an error and anything else gives None; with tbptt, the hiddens entry is required and returned |
| LoopUtilities.ExtractHiddensCases | pi_ml/loops/utilities.py:46-65 | the four cases: tensor without tbptt, dict with tbptt, dict without tbptt, no output with tbptt |
| LoopUtilities.ParseLoopLimits | pi_ml/loops/utilities.py:68-99 | max_epochs None becomes 1000 when max_steps is -1 and max_time is unset, else -1; min_epochs defaults to 1 only when nothing else bounds the run; the rest pass through |
| LoopUtilities.ParseLoopLimitsIdempotent | pi_ml/loops/utilities.py:68-99 | defaulting the limits twice is the same as once |
| LoopUtilities.IsMaxLimitReached | pi_ml/loops/utilities.py:200-210 | never reached when the maximum is -1; otherwise reached iff current >= maximum |
| LoopUtilities.MaxLimitMonotone | pi_ml/loops/utilities.py:200-210 | once a limit is reached, any larger count also reaches it |
| LoopUtilities.BuildTrainingStepKwargs | pi_ml/loops/utilities.py:102-151 | batch comes first; batch_idx, optimizer_idx and hiddens appear exactly under their conditions; an optimizer_idx mismatch is ValueError |
| LoopUtilities.LookupAppend | pi_ml/loops/utilities.py:124-149 | looking a key up in two kwarg lists joined finds the first list's entry first |
| LoopUtilities.CumSum | pi_ml/loops/utilities.py:173-175 | entry i is the sum of the first i+1 frequencies |
| LoopUtilities.SumPrefixMonotone | pi_ml/loops/utilities.py:173-175 | with non-negative frequencies the prefix sums never decrease |
| LoopUtilities.SearchSortedRight | pi_ml/loops/utilities.py:196 | the result is the first index whose cumulative sum exceeds x |
| LoopUtilities.LoopPlace | pi_ml/loops/utilities.py:193-194 | the place in the cycle is batch_idx mod the total frequency, in [0, total), and 0 when the total is 0 |
| LoopUtilities.ActiveBlock | pi_ml/loops/utilities.py:196-197 | the block found starts at or before the place and, unless it is past the last block, ends after it |
| LoopUtilities.GetActiveOptimizers | pi_ml/loops/utilities.py:178-197 | no frequencies gives every (index, optimizer) pair in order; otherwise IndexError exactly when the blocks of the first len(optimizers) frequencies all end at or before the place (for instance, all frequencies 0), and else exactly one pair, the optimizer of the block holding the place |
| LoopUtilities.OptimizerAtPlace | pi_ml/loops/utilities.py:196-197 | IndexError exactly when the blocks of the first len(optimizers) frequencies all end at or before the place; otherwise the one optimizer whose block holds the place, paired with its index |
| LoopUtilities.ValidFrequenciesChoose | pi_ml/loops/utilities.py:178-197 | with one frequency per optimizer and a positive total, some optimizer is always chosen |
| LoopUtilities.ZeroFrequenciesIndexError | pi_ml/loops/utilities.py:191-197 | frequencies that are all 0, one per optimizer, give an IndexError for every batch |
| LoopUtilities.Enumerate | pi_ml/loops/utilities.py:189 | pairs each optimizer with its index |
| LoopUtilities.ActiveOptimizerUnique | pi_ml/loops/utilities.py:191-197 | the active optimizer is the j whose frequency window holds batch_idx mod total |
| LoopUtilities.ActiveOptimizersByPlace | pi_ml/loops/utilities.py:191-197 | two batch indices with the same remainder pick the same optimizer |
| LoopUtilities.ActiveOptimizersPeriodic | pi_ml/loops/utilities.py:191-197 | the choice repeats every total-frequency batches |
| LoopUtilities.ResetProgress | pi_ml/loops/utilities.py:213-218 | every progress field of the loop is zeroed and everything else is kept |
| LoopUtilities.ResetProgressResetsAll | pi_ml/loops/utilities.py:213-218 | after the reset, every progress field of the loop and of all child loops is zero and the shape is unchanged |
| LoopUtilities.ResetProgressIdempotent | pi_ml/loops/utilities.py:213-218 | resetting twice is the same as once |
| FitLoop.StopHonoured | pi_ml/loops/fit_loop.py:149-162 | a stop request is kept iff it was made and min_epochs and min_steps (when set and non-zero) are met |
| FitLoop.CheckMaxEpochs | pi_ml/loops/fit_loop.py:47-51 | max_epochs is accepted iff it is at least -1 |
| FitLoop.NormalizeMaxSteps | pi_ml/loops/fit_loop.py:103-117 | None gives -1; a value is accepted iff it is at least -1 and is then kept |
| FitLoop.FitLoop.constructor | pi_ml/loops/fit_loop.py:41-57 | a new loop stores its limits, step 0, max_steps -1 and zero progress |
| FitLoop.NewFitLoop | pi_ml/loops/fit_loop.py:41-57 | construction fails iff max_epochs < -1; otherwise a fresh loop with the given limits |
| FitLoop.FitLoop.SetMaxSteps | pi_ml/loops/fit_loop.py:103-117 | stores the normalised value, or keeps the old one on error; nothing else changes |
| FitLoop.IsDone | pi_ml/loops/fit_loop.py:143-164 | a reached step or epoch limit, an honoured stop or zero training batches each end fitting; with neither limit set, nothing else does; done without an honoured stop or empty epoch means a limit was reached |
| FitLoop.FitLoop.Done | pi_ml/loops/fit_loop.py:143-164 | rewrites should_stop to whether the request is honoured, then is done iff a step or epoch limit is reached, the stop is honoured, or there are no training batches |
| FitLoop.FitLoop.Skip | pi_ml/loops/fit_loop.py:166-171 | skip iff done or limit_train_batches is 0 |
| FitLoop.FitLoop.Reset | pi_ml/loops/fit_loop.py:177-180 | the epoch progress is reset for a restart only when restarting |
| FitLoop.FitLoop.OnAdvanceEnd | pi_ml/loops/fit_loop.py:258-307 | epoch-end outputs with a return value are an error; otherwise logging sees global_step - 1, the outputs are cleared, the epoch is processed and completed, and global_step ends unchanged |
| FitLoop.FitLoop.OnRunEnd | pi_ml/loops/fit_loop.py:309-316 | the completed-epoch count drops by one but never below 0 |
| FitLoop.FreshTrainerDone | pi_ml/loops/fit_loop.py:146-164 | on a fresh trainer with training batches, fitting is done at once iff max_steps or max_epochs is 0 |
| FitLoop.EarlyStopWaitsForMinEpochs | pi_ml/loops/fit_loop.py:149-162 | a stop request before min_epochs is withdrawn |
| FitLoop.EarlyStopHonoured | pi_ml/loops/fit_loop.py:149-162 | a stop request after both minimums ends fitting |
| Trainer.DetermineBatchLimits | pi_ml/trainer/trainer.py:2612-2619 | values in [0, 1] are kept; whole values above 1 become ints of the same value; anything else is refused |
| Trainer.DetermineBatchLimitsIdempotent | pi_ml/trainer/trainer.py:2612-2619 | normalising an accepted limit again changes nothing |
| Trainer.NormalizeLimits | pi_ml/trainer/trainer.py:624-629 | all six limits are normalised, and the whole succeeds iff each one does |
| Trainer.DataUseAmount | pi_ml/trainer/trainer.py:632-636 | a positive overfit_batches replaces the train limit and sets the val limit to 0; otherwise nothing changes |
| Trainer.OverfitOverridesLimits | pi_ml/trainer/trainer.py:632-636 | after normalisation, a positive overfit value drives the train limit and zeroes the val limit |
| Trainer.StoredDevRun | pi_ml/trainer/trainer.py:602-604 | 1 is stored as True, and the stored value is truthy and counts batches like the given one |
| Trainer.Trainer.constructor | pi_ml/trainer/trainer.py:585-649 | starting values of the debugging flags, limits and stage |
| Trainer.Trainer.InitDebuggingFlags | pi_ml/trainer/trainer.py:585-630 | a negative fast_dev_run is refused with nothing changed; bad limits are refused after the fast_dev_run settings are made; a truthy fast_dev_run n sets every batch limit and max_steps to n, max_epochs to 1, sanity steps to 0, the val cadence to 1 and the logger to a dummy; otherwise those fields are kept; the fit loop's other fields never change; on success the fit loop's limit_train_batches is the stored training limit |
| Trainer.Trainer.ShortenForDevRun | pi_ml/trainer/trainer.py:606-617 | a fast_dev_run of n sets max_steps to n, max_epochs to 1, sanity steps to 0, the val cadence to 1 and the logger to a dummy, leaving the batch limits alone |
| Trainer.FastDevRunLimitsAll | pi_ml/trainer/trainer.py:606-617 | under fast_dev_run n all four batch limits are n and val_check_interval is 1.0 |
| Trainer.Trainer.SetupOnInit | pi_ml/trainer/trainer.py:638-649 | num_sanity_val_steps -1 becomes infinity; should_stop is cleared, the batch count is infinite and no stage is set |
| Trainer.Trainer.SetStage | pi_ml/trainer/trainer.py:2355-2422 | setting a stage true makes it current; setting it false clears the stage only if it is current |
| Trainer.CheckGradientClipAlgorithm | pi_ml/trainer/trainer.py:533-547 | accepted iff unset or "value"/"norm" ignoring case |
| Trainer.CheckTrackGradNorm | pi_ml/trainer/trainer.py:533-547 | accepted iff -1, a positive number, or "inf" |
| Trainer.ProfilerOfName | pi_ml/trainer/trainer.py:1701-1717 | exactly the four names "simple", "advanced", "pytorch" and "xla" are known |
| Trainer.InitProfiler | pi_ml/trainer/trainer.py:1701-1717 | no profiler gives the pass-through one; an object is kept; a name is matched in lower case and unknown names are refused |
| Trainer.ProfilerNameCaseInsensitive | pi_ml/trainer/trainer.py:1701-1717 | names equal up to case pick the same profiler |
| Trainer.CapitalisedSimpleProfiler | pi_ml/trainer/trainer.py:1701-1717 | "Simple" picks the simple profiler |
| Trainer.EvaluationLoopOf | pi_ml/trainer/trainer.py:2535-2541 | fitting and tuning use the fit loop's val loop, validate and test use their own; predicting, or no entry point yet (`state.fn` is None), is a RuntimeError |
| Trainer.ResolveCkptPath | pi_ml/trainer/trainer.py:1383-1429 | a provided model with no path gives None and only it does; "best" needs a non-empty best_model_path, with distinct errors when unconfigured or under fast_dev_run; any other path must be non-empty; no model and no path is an error |
| Trainer.SavedStates | pi_ml/trainer/trainer.py:1625-1637 | the saved keys are exactly the state keys of callbacks with a truthy state, each mapped to the last such state |
| Trainer.CallbacksOnSaveCheckpoint | pi_ml/trainer/trainer.py:1625-1637 | the loop builds exactly that map |
| Trainer.SavedStatesNext | pi_ml/trainer/trainer.py:1625-1637 | one more callback adds its truthy state under its key, replacing any earlier one, and adds nothing otherwise |
| Trainer.DeliveredState | pi_ml/trainer/trainer.py:1639-1665 | a callback receives the state under its key, else under its legacy key, and only a non-empty one |
| Trainer.CallbacksOnLoadCheckpoint | pi_ml/trainer/trainer.py:1639-1665 | no saved states is a no-op; otherwise the unknown keys are the saved keys no callback claims, and each callback gets its delivered state |
| Trainer.SaveLoadRoundTrip | pi_ml/trainer/trainer.py:1625-1665 | with distinct state keys, loading what was saved leaves no unknown keys and hands each callback back its own truthy state |
| Trainer.MergeHparams | pi_ml/trainer/trainer.py:1209-1235 | a shared key whose type or value differs is an error; otherwise the merge is the union with datamodule values winning, or the one side that logs |
| Trainer.MergeHparamsAgrees | pi_ml/trainer/trainer.py:1217-1235 | a successful merge has both key sets and agrees with each side on its keys |
| CheckpointConnector.KeepDigits | pi_ml/trainer/connectors/checkpoint_connector.py:465 | keeps only digits, and leaves an all-digit text unchanged |
| CheckpointConnector.KeepDigitsAppend | pi_ml/trainer/connectors/checkpoint_connector.py:465 | filtering digits distributes over concatenation |
| CheckpointConnector.VersionOf | pi_ml/trainer/connectors/checkpoint_connector.py:463-466 | the version is the digits after the last occurrence of the key; it is non-negative; a failure is ValueError |
| CheckpointConnector.ScanVersions | pi_ml/trainer/connectors/checkpoint_connector.py:457-469 | the scan over file names fails only with ValueError |
| CheckpointConnector.ScanVersionsErr | pi_ml/trainer/connectors/checkpoint_connector.py:457-469 | the scan fails iff some matching name has no digits |
| CheckpointConnector.ScanVersionsNone | pi_ml/trainer/connectors/checkpoint_connector.py:457-469 | the scan finds nothing iff no name contains the key |
| CheckpointConnector.ScanVersionsBound | pi_ml/trainer/connectors/checkpoint_connector.py:457-469 | every matching name's version is at most the result |
| CheckpointConnector.ScanVersionsWitness | pi_ml/trainer/connectors/checkpoint_connector.py:457-469 | the result is the version of some matching name |
| CheckpointConnector.ScanVersionsNonNegative | pi_ml/trainer/connectors/checkpoint_connector.py:457-469 | a found version is non-negative |
| CheckpointConnector.ScanErrorPersists | pi_ml/trainer/connectors/checkpoint_connector.py:464-469 | once the scan fails on a prefix of the names, it fails on the whole list |
| CheckpointConnector.ScanAppendNewer | pi_ml/trainer/connectors/checkpoint_connector.py:457-469 | adding a name with a larger version makes that version the maximum |
| CheckpointConnector.MaxCkptVersion | pi_ml/trainer/connectors/checkpoint_connector.py:441-469 | a missing folder gives None |
| CheckpointConnector.MaxCkptVersionInFolder | pi_ml/trainer/connectors/checkpoint_connector.py:441-469 | the loop over the folder computes the maximum version |
| CheckpointConnector.ReadVersion | pi_ml/trainer/connectors/checkpoint_connector.py:464-467 | reading one more file name gives the scan of the names up to and including it |
| CheckpointConnector.PathJoin | pi_ml/trainer/connectors/checkpoint_connector.py:483 | joining onto an empty directory gives the name |
| CheckpointConnector.HpcSavePath | pi_ml/trainer/connectors/checkpoint_connector.py:480-484 | the save path is `hpc_ckpt_<max+1>.ckpt` in the folder, failing iff the scan fails |
| CheckpointConnector.NextHpcVersion | pi_ml/trainer/connectors/checkpoint_connector.py:480-484 | the next version is 1 with no checkpoint, else the maximum plus 1 |
| CheckpointConnector.MaxCkptPathFromFolder | pi_ml/trainer/connectors/checkpoint_connector.py:472-477 | the path of the newest checkpoint, version 0 when none exists |
| CheckpointConnector.HpcResumePath | pi_ml/trainer/connectors/checkpoint_connector.py:57-65 | there is an HPC resume path iff an `hpc_ckpt_` file exists, and it names the newest one |
| CheckpointConnector.HpcNameVersion | pi_ml/trainer/connectors/checkpoint_connector.py:463-466 | `hpc_ckpt_<digits>.ckpt` matches the key and has those digits as its version |
| CheckpointConnector.HpcFileNameVersion | pi_ml/trainer/connectors/checkpoint_connector.py:480-484 | the file name written for version n is read back as version n |
| CheckpointConnector.HpcSavePathIsNewest | pi_ml/trainer/connectors/checkpoint_connector.py:480-484 | after saving under the next version, the scan finds that version as the maximum |
| CheckpointConnector.DatamoduleKey | pi_ml/trainer/connectors/checkpoint_connector.py:383-388 | a datamodule entry is written iff there is a datamodule with a non-empty state |
| CheckpointConnector.DumpCheckpoint | pi_ml/trainer/connectors/checkpoint_connector.py:333-350 | epoch, global_step, version, state_dict and loops are always present; unless the datamodule's class name takes its key, global_step is stored plus one, epoch plus one unless max_steps was reached, and loops holds the four loops' states |
| CheckpointConnector.DumpTrainingState | pi_ml/trainer/connectors/checkpoint_connector.py:352-368 | callbacks, optimizer_states and lr_schedulers are present iff the checkpoint is not weights-only, and callbacks holds the saved callback states |
| CheckpointConnector.DumpHparams | pi_ml/trainer/connectors/checkpoint_connector.py:372-381 | the hyper-parameters key is present iff the model has hyper-parameters |
| CheckpointConnector.DumpDatamodule | pi_ml/trainer/connectors/checkpoint_connector.py:383-388 | a datamodule with a non-empty state has it stored under its class name, overriding any earlier entry |
| CheckpointConnector.DumpRecordsCounters | pi_ml/trainer/connectors/checkpoint_connector.py:333-345 | the stored global_step is global_step+1, and the stored epoch is epoch+1 unless max_steps was reached |
| CheckpointConnector.PathOr | pi_ml/trainer/connectors/checkpoint_connector.py:81 | a non-empty first path wins, else the second |
| CheckpointConnector.RestoreOptimizersAndSchedulers | pi_ml/trainer/connectors/checkpoint_connector.py:256-275 | no loaded checkpoint is a no-op; a missing optimizer or scheduler entry is KeyError |
| CheckpointConnector.DumpRestoreOptimizers | pi_ml/trainer/connectors/checkpoint_connector.py:342-358 | a full checkpoint just dumped restores its optimizers and schedulers |
| CheckpointConnector.CheckpointConnector.constructor | pi_ml/trainer/connectors/checkpoint_connector.py:44-54 | no resume path and no loaded checkpoint at start |
| CheckpointConnector.CheckpointConnector.ResumeStart | pi_ml/trainer/connectors/checkpoint_connector.py:73-100 | the resume path is the HPC path, else the auto-save, else the given path; a checkpoint with deprecated keys is refused |
| CheckpointConnector.ResumePrefersHpc | pi_ml/trainer/connectors/checkpoint_connector.py:73-88 | an HPC checkpoint always wins |
| CheckpointConnector.ResumeFallsBackToGiven | pi_ml/trainer/connectors/checkpoint_connector.py:73-88 | without HPC or auto-save, the given path is used |
| CheckpointConnector.CheckpointConnector.ResumeEnd | pi_ml/trainer/connectors/checkpoint_connector.py:102-118 | clears the resume path and the loaded checkpoint, and while fitting clears the deprecated path when it equals the resumed one |
| CheckpointConnector.CheckpointConnector.RestoreLoops | pi_ml/trainer/connectors/checkpoint_connector.py:217-254 | no checkpoint is a no-op; missing counters are KeyError; the global step and epoch are restored; when loop states were saved, the running function's entry must be there (else KeyError) and while fitting the fit loop's saved epoch progress replaces the counted one; while fitting, the resulting current epoch past max_epochs is refused unless max_epochs is -1; the fit loop is marked restarting exactly when its saved state is reloaded; its limits and outputs are kept |
| CheckpointConnector.LoopStateKey | pi_ml/trainer/connectors/checkpoint_connector.py:231-240 | fitting, validating, testing and predicting each reload their own loop's entry; tuning reloads none |
| LoggerConnector.ModZeroDivides | pi_ml/trainer/connectors/logger_connector/logger_connector.py:68-76 | a zero remainder means divisibility |
| LoggerConnector.EveryNSteps | pi_ml/trainer/connectors/logger_connector/logger_connector.py:68-76 | an interval of 0 is ZeroDivisionError; otherwise true iff should_stop or the interval divides global_step + 1 |
| LoggerConnector.EveryNStepsPeriodic | pi_ml/trainer/connectors/logger_connector/logger_connector.py:68-76 | the decision repeats every interval steps |
| LoggerConnector.ConfigureLogger | pi_ml/trainer/connectors/logger_connector/logger_connector.py:78-91 | True gives the default TensorBoard logger, False gives none, an iterable a collection, and any other object is kept |
| LoggerConnector.LogCall | pi_ml/trainer/connectors/logger_connector/logger_connector.py:102-116 | the step is the explicit step, else the popped "step" entry, else global_step with "epoch" added; other metrics are passed unchanged |
| LoggerConnector.LogCallKeepsMetrics | pi_ml/trainer/connectors/logger_connector/logger_connector.py:102-116 | every metric other than "step" and "epoch" reaches the logger unchanged |
| LoggerConnector.LoggerConnector.constructor | pi_ml/trainer/connectors/logger_connector/logger_connector.py:30-47 | zero counters, empty metric maps, cleared flags and no logger |
| LoggerConnector.LoggerConnector.OnTrainerInit | pi_ml/trainer/connectors/logger_connector/logger_connector.py:49-66 | stores the configured logger, the flush interval (default 100) and the log interval; counters, metric maps, flags and indices are kept |
| LoggerConnector.LoggerConnector.ShouldFlushLogs | pi_ml/trainer/connectors/logger_connector/logger_connector.py:68-71 | the every-n rule with the flush interval |
| LoggerConnector.LoggerConnector.ShouldUpdateLogs | pi_ml/trainer/connectors/logger_connector/logger_connector.py:73-76 | the every-n rule with the log interval |
| LoggerConnector.LoggerConnector.LogMetrics | pi_ml/trainer/connectors/logger_connector/logger_connector.py:93-120 | no logger or no metrics sends nothing; otherwise the resolved call is sent and the logged metrics updated; every other field is kept |
| LoggerConnector.LoggerConnector.EvalLogStep | pi_ml/trainer/connectors/logger_connector/logger_connector.py:126-132 | the val counter while validating, the test counter while testing, None otherwise |
| LoggerConnector.LoggerConnector.IncrementEvalLogStep | pi_ml/trainer/connectors/logger_connector/logger_connector.py:134-138 | only the active stage's counter goes up, by one; every other field is kept |
| LoggerConnector.LoggerConnector.UpdateEvalStepMetrics | pi_ml/trainer/connectors/logger_connector/logger_connector.py:145-154 | refused after epoch end; during sanity checking nothing is logged or counted; otherwise the step metrics are sent at the eval step and join logged_metrics when there is a logger, and the counter advances; the progress-bar and callback metrics never change; the batch and split indices, the current hook, the logger and the intervals are kept |
| LoggerConnector.LoggerConnector.UpdateEvalEpochMetrics | pi_ml/trainer/connectors/logger_connector/logger_connector.py:156-164 | refused before epoch end; sanity checking returns {}; otherwise the callback metrics; counters, flag, indices, current hook, logger and intervals are kept, and on error or while sanity checking the metric maps too |
| LoggerConnector.LoggerConnector.LogEvalEndMetrics | pi_ml/trainer/connectors/logger_connector/logger_connector.py:166-172 | refused before epoch end; nothing is logged while sanity checking; otherwise the epoch metrics are sent at the default step and join logged_metrics when there is a logger; the progress-bar and callback metrics never change; every other field is kept |
| LoggerConnector.LoggerConnector.OnTrainSplitStart | pi_ml/trainer/connectors/logger_connector/logger_connector.py:178-179 | records the split index; every other field is kept |
| LoggerConnector.LoggerConnector.UpdateTrainStepMetrics | pi_ml/trainer/connectors/logger_connector/logger_connector.py:181-191 | nothing while accumulating under automatic optimization; refused after epoch end; a log interval of 0 is ZeroDivisionError even under fast_dev_run; otherwise the metrics are sent and join logged_metrics when logs are due or under fast_dev_run; the progress-bar and callback metrics never change; every other field is kept |
| LoggerConnector.LoggerConnector.UpdateTrainEpochMetrics | pi_ml/trainer/connectors/logger_connector/logger_connector.py:193-200 | refused before epoch end with an AssertionError; otherwise sends the epoch metrics and adds them to logged_metrics when there is a logger and something to log; the progress-bar and callback metrics never change; every other field, the logger included, is kept |
| LoggerConnector.LoggerConnector.OnEpochStart | pi_ml/trainer/connectors/logger_connector/logger_connector.py:222-223 | clears the epoch-end flag; every other field is kept |
| LoggerConnector.LoggerConnector.OnBatchStart | pi_ml/trainer/connectors/logger_connector/logger_connector.py:225-234 | clears the flag and records the batch index; every other field is kept |
| LoggerConnector.LoggerConnector.EpochEndReached | pi_ml/trainer/connectors/logger_connector/logger_connector.py:236-239 | sets the flag and clears batch and split indices; every other field is kept |
| LoggerConnector.LoggerConnector.OnStep | pi_ml/trainer/connectors/logger_connector/logger_connector.py:283-288 | batch (step) metrics are reported exactly while the epoch end has not been reached |
| LoggerConnector.LoggerConnector.MergeCollected | pi_ml/trainer/connectors/logger_connector/logger_connector.py:243-246 | the three metric maps are updated with the collected ones, later values winning; every other field is kept |
| LoggerConnector.LoggerConnector.OnEpochEnd | pi_ml/trainer/connectors/logger_connector/logger_connector.py:241-247 | refused before epoch end with an AssertionError, changing nothing; otherwise merges the collected metrics and forgets the current hook; the flag, counters, batch and split indices, logger and intervals are kept |
| LoggerConnector.LoggerConnector.OnBatchEnd | pi_ml/trainer/connectors/logger_connector/logger_connector.py:249-259 | refused after epoch end with an AssertionError, changing nothing; otherwise merges the collected metrics; every other field is kept |
| LoggerConnector.LoggerConnector.ShouldResetTensors | pi_ml/trainer/connectors/logger_connector/logger_connector.py:261-267 | true iff fx differs from the current hook and both the batch index and the split index are unset or 0 |
| LoggerConnector.ResetResultsThenReset | pi_ml/trainer/connectors/logger_connector/logger_connector.py:261-281 | with batch index, split index and current hook cleared (as a results reset leaves them), tensors are reset for any hook |
| LoggerConnector.LaterSplitKeepsTensors | pi_ml/trainer/connectors/logger_connector/logger_connector.py:261-267 | a later split keeps the tensors |
| LoggerConnector.LoggerConnector.ResetMetrics | pi_ml/trainer/connectors/logger_connector/logger_connector.py:269-272 | empties all three metric maps; every other field is kept |
| LoggerConnector.LoggerConnector.ResetResults | pi_ml/trainer/connectors/logger_connector/logger_connector.py:274-281 | clears batch index, split index and current hook; every other field is kept |
| DataConnector.ShouldReload | pi_ml/trainer/connectors/data_connector.py:86-96 | never with an interval of 0; always before the first load; otherwise once the interval has passed since the last reload |
| DataConnector.ReloadPeriod | pi_ml/trainer/connectors/data_connector.py:86-96 | k epochs after a reload, another reload is due iff k >= n |
| DataConnector.NeverReload | pi_ml/trainer/connectors/data_connector.py:86-96 | an interval of 0 never reloads |
| DataConnector.DataConnector.constructor | pi_ml/trainer/connectors/data_connector.py:59-78 | empty sources and the given fetchers |
| DataConnector.DataConnector.OnTrainerInit | pi_ml/trainer/connectors/data_connector.py:98-127 | a non-int val cadence or a reload interval that is not an int >= 0 is refused; otherwise both are stored; each store made before a failing check stays made, and sources, fetchers and the trainer's loaders are kept |
| DataConnector.DataConnector.EvaluationDataFetcher | pi_ml/trainer/connectors/data_connector.py:80-84 | the sanity fetcher while sanity checking, the test fetcher while testing, else the validate fetcher |
| DataConnector.LoaderOrModel | pi_ml/trainer/connectors/data_connector.py:223-247 | a passed loader is used, else the model |
| DataConnector.DataConnector.AttachDataloaders | pi_ml/trainer/connectors/data_connector.py:223-247 | the trainer's loaders are reset and each source points at the passed loader or the model under its hook name; fetchers, datamodule and flags are kept |
| DataConnector.DataConnector.SetSources | pi_ml/trainer/connectors/data_connector.py:236-247 | each stage's source becomes the given instance under that stage's hook name; every other field is kept |
| DataConnector.DataConnector.AttachDatamodule | pi_ml/trainer/connectors/data_connector.py:249-272 | a datamodule redirects all four sources to itself, becomes the trainer's datamodule and lends each batch-transfer hook it overrides, once; without one nothing changes; fetchers, the trainer's loaders and flags are always kept |
| DataConnector.DataConnector.TakenHooks | pi_ml/trainer/connectors/data_connector.py:261-265 | a batch-transfer hook is taken exactly when the datamodule overrides it, and none twice |
| DataConnector.DataConnector.Teardown | pi_ml/trainer/connectors/data_connector.py:562-575 | clears all four fetchers and tears down the ones that were set, in order; every other field is kept |
| DataConnector.TornDown | pi_ml/trainer/connectors/data_connector.py:562-574 | the fetchers torn down are exactly the ones set, in the order train, validate, test, sanity check |
| DataConnector.Present | pi_ml/trainer/connectors/data_connector.py:463 | keeps exactly the non-None entries |
| DataConnector.DistributedSamplerArgs | pi_ml/trainer/connectors/data_connector.py:413-425 | shuffles iff requested and overfit_batches is 0; unrepeated iff predicting; fails with ValueError exactly when PL_GLOBAL_SEED is set and not an integer, even if a seed is given; otherwise the seed is the argument, else the variable, else 0 |
| PyText.Trunc | pi_ml/trainer/connectors/data_connector.py:481 | Python's `int()` on a real truncates toward zero |
| DataConnector.ScaleAtMost | pi_ml/trainer/connectors/data_connector.py:481 | a fraction in [0, 1] of a length is at most the length |
| DataConnector.LimitedCount | pi_ml/trainer/connectors/data_connector.py:477-488 | an infinite loader with a fraction other than 0 and 1 is refused |
| DataConnector.CountBatches | pi_ml/trainer/connectors/data_connector.py:477-499 | an int limit always succeeds; a positive fraction never gives 0 batches; errors are the configuration error or the division by a zero length |
| DataConnector.CountBatchesIntLimit | pi_ml/trainer/connectors/data_connector.py:477-499 | an int limit gives min(length, limit) |
| DataConnector.CountBatchesFraction | pi_ml/trainer/connectors/data_connector.py:477-499 | a fraction of a finite length gives the truncated product, and 0 from a positive fraction is refused |
| DataConnector.CountBatchesFull | pi_ml/trainer/connectors/data_connector.py:477-499 | a limit of 1.0 gives the full length |
| DataConnector.CountBatchesInfinite | pi_ml/trainer/connectors/data_connector.py:477-499 | an infinite loader fails iff the fraction is neither 0 nor 1 |
| DataConnector.BatchCounts | pi_ml/trainer/connectors/data_connector.py:471-500 | one count per loader, each as if counted alone, failing iff some loader fails |
| DataConnector.BatchCountsErrPersists | pi_ml/trainer/connectors/data_connector.py:471-500 | once some prefix of the loaders fails, the whole list fails with the same error |
| DataConnector.ResetEvalBatchCounts | pi_ml/trainer/connectors/data_connector.py:427-504 | the loop computes the counts of the non-None loaders |
| DataConnector.Dataloader | pi_ml/trainer/connectors/data_connector.py:596-614 | an empty name gives the instance itself; a module calls its hook; anything else is returned directly |
| DataConnector.DataLoaderSource.IsDefined | pi_ml/trainer/connectors/data_connector.py:616-621 | dataloaders and empty sources are always defined; a module source is defined iff it overrides the hook |
| DataConnector.IsDefinedCases | pi_ml/trainer/connectors/data_connector.py:604-628 | a source is undefined iff it is a module that does not override its hook |
| EvaluationLoop.NumDataloaders | pi_ml/loops/dataloader/evaluation_loop.py:50-69 | the list length, or the inner length when the first element is a list; no dataloaders is a RuntimeError |
| EvaluationLoop.GetMaxBatches | pi_ml/loops/dataloader/evaluation_loop.py:183-192 | the test, sanity or val counts by stage |
| EvaluationLoop.Add | pi_ml/loops/dataloader/evaluation_loop.py:83 | ints add and infinity absorbs |
| EvaluationLoop.Skip | pi_ml/loops/dataloader/evaluation_loop.py:80-84 | summing a bare int is a TypeError |
| EvaluationLoop.SumCounts | pi_ml/loops/dataloader/evaluation_loop.py:80-84 | a sum of counts is infinite or a non-negative int bounding each count |
| EvaluationLoop.SkipIffNoBatches | pi_ml/loops/dataloader/evaluation_loop.py:80-84 | skip iff every loader has 0 batches |
| EvaluationLoop.AllZeroSum | pi_ml/loops/dataloader/evaluation_loop.py:80-84 | zero counts sum to 0 |
| EvaluationLoop.Repeat | pi_ml/loops/dataloader/evaluation_loop.py:94-95 | n copies of the value |
| EvaluationLoop.EpochEndArgument | pi_ml/loops/dataloader/evaluation_loop.py:256-269 | one dataloader passes its only output, otherwise the list |
| EvaluationLoop.AdvanceKwargs | pi_ml/loops/dataloader/evaluation_loop.py:116-137 | dataloader_idx is passed only with several dataloaders |
| EvaluationLoop.EvaluationLoop.constructor | pi_ml/loops/dataloader/evaluation_loop.py:39-48 | empty outputs and zero progress |
| EvaluationLoop.EvaluationLoop.Reset | pi_ml/loops/dataloader/evaluation_loop.py:86-100 | outputs are cleared; an int maximum is repeated per loader, failing with RuntimeError (progress untouched) when there are no dataloaders; the progress is what the base reset left, reset again for the run when the loop is done outside fitting; an int maximum that is not already done fails with TypeError when summed |
| EvaluationLoop.EvaluationLoop.Advance | pi_ml/loops/dataloader/evaluation_loop.py:116-137 | appends the loader's outputs and records a real run; every other field is kept |
| EvaluationLoop.EvaluationLoop.OnAdvanceEnd | pi_ml/loops/dataloader/evaluation_loop.py:139-144 | appends the logged metrics; the dataloader progress is what the base hook leaves; the outputs, the run flag and the limits are kept |
| EvaluationLoop.EvaluationLoop.OnRunEnd | pi_ml/loops/dataloader/evaluation_loop.py:146-177 | each loader's logged metrics are updated with the epoch-end metrics and the buffers emptied; every other field is kept |
| EvaluationLoop.EpochEndWins | pi_ml/loops/dataloader/evaluation_loop.py:146-177 | on clashing keys the epoch-end value wins |
| EvaluationLoop.FindValueFinds | pi_ml/loops/dataloader/evaluation_loop.py:289-295 | the search finds something iff the target key occurs at some depth |
| EvaluationLoop.FindValueTopLevel | pi_ml/loops/dataloader/evaluation_loop.py:289-295 | a top-level entry with the target key is found |
| EvaluationLoop.Keys | pi_ml/loops/dataloader/evaluation_loop.py:281-287 | the keys in order |
| EvaluationLoop.GetKeys | pi_ml/loops/dataloader/evaluation_loop.py:281-287 | a flat dict gives its keys; nesting needs every value to be a dict, else TypeError |
| EvaluationLoop.NestedKeys | pi_ml/loops/dataloader/evaluation_loop.py:281-287 | recursion succeeds iff every later value is a dict |
| EvaluationLoop.StripSuffix | pi_ml/loops/dataloader/evaluation_loop.py:300 | the stripped key has no dataloader suffix |
| EvaluationLoop.StripSuffixUnchanged | pi_ml/loops/dataloader/evaluation_loop.py:300 | a key without the suffix is unchanged |
| EvaluationLoop.KeysOf | pi_ml/loops/dataloader/evaluation_loop.py:300 | the keys of an entry list in order |
| EvaluationLoop.IndexOf | pi_ml/loops/dataloader/evaluation_loop.py:300 | the position of a key, or absent |
| EvaluationLoop.Put | pi_ml/loops/dataloader/evaluation_loop.py:300 | dict assignment: the key is added or replaced and keys stay distinct |
| EvaluationLoop.StrippedKeys | pi_ml/loops/dataloader/evaluation_loop.py:300 | each key with its suffix removed |
| EvaluationLoop.StripEntries | pi_ml/loops/dataloader/evaluation_loop.py:300 | the stripped dict has distinct keys, exactly the stripped keys |
| EvaluationLoop.StripEntriesLastWins | pi_ml/loops/dataloader/evaluation_loop.py:300 | the last entry's value survives |
| EvaluationLoop.StripEntriesNoSuffix | pi_ml/loops/dataloader/evaluation_loop.py:300 | no key keeps the suffix |
| EvaluationLoop.BelowIrreflexive | pi_ml/loops/dataloader/evaluation_loop.py:301 | string order is irreflexive |
| EvaluationLoop.BelowTotal | pi_ml/loops/dataloader/evaluation_loop.py:301 | string order is total and antisymmetric |
| EvaluationLoop.BelowTrans | pi_ml/loops/dataloader/evaluation_loop.py:301 | string order is transitive |
| EvaluationLoop.Insert | pi_ml/loops/dataloader/evaluation_loop.py:301 | inserting keeps the list strictly increasing with the same elements plus one |
| EvaluationLoop.InsertFront | pi_ml/loops/dataloader/evaluation_loop.py:301 | a smaller head keeps the list increasing |
| EvaluationLoop.SortedDistinct | pi_ml/loops/dataloader/evaluation_loop.py:301 | `sorted(set(...))`: strictly increasing with the same elements |
| EvaluationLoop.IncreasingDistinct | pi_ml/loops/dataloader/evaluation_loop.py:301 | an increasing list has no duplicates |
| EvaluationLoop.AllKeys | pi_ml/loops/dataloader/evaluation_loop.py:301 | the keys of all results, failing with TypeError on bad nesting |
| EvaluationLoop.MetricNames | pi_ml/loops/dataloader/evaluation_loop.py:301 | the sorted distinct metric names of all results |
| EvaluationLoop.Headers | pi_ml/loops/dataloader/evaluation_loop.py:302 | one "DataLoader i" header per result |
| EvaluationLoop.Capitalize | pi_ml/loops/dataloader/evaluation_loop.py:328 | first letter upper-cased, the rest lower-cased |
| EvaluationLoop.MaxLen | pi_ml/loops/dataloader/evaluation_loop.py:306 | the length of the longest name |
| EvaluationLoop.TermSize | pi_ml/loops/dataloader/evaluation_loop.py:305 | the terminal width, or the fallback when it is 0 |
| EvaluationLoop.MaxLength | pi_ml/loops/dataloader/evaluation_loop.py:306 | no names is ValueError; the column width fits twice in the terminal; it is at least the longest name when that fits |
| EvaluationLoop.NumCols | pi_ml/loops/dataloader/evaluation_loop.py:321-322 | a zero width is ZeroDivisionError; otherwise floor((term - width) / width) columns, at least one when two widths fit |
| EvaluationLoop.Chunks | pi_ml/loops/dataloader/evaluation_loop.py:324-326 | every chunk holds between 1 and n items, and no more than the list |
| EvaluationLoop.ChunksSameCount | pi_ml/loops/dataloader/evaluation_loop.py:324-326 | equally long lists split into equally many chunks, chunk for chunk equally wide |
| EvaluationLoop.ChunksWide | pi_ml/loops/dataloader/evaluation_loop.py:324-326 | some chunk holds two or more items iff n >= 2 and the list has two or more |
| EvaluationLoop.ChunksConcat | pi_ml/loops/dataloader/evaluation_loop.py:324-326 | the chunks concatenate back to the list |
| EvaluationLoop.RowChunksCount | pi_ml/loops/dataloader/evaluation_loop.py:324-326 | each row splits into as many chunks as the headers |
| EvaluationLoop.CellOf | pi_ml/loops/dataloader/evaluation_loop.py:308-319 | a missing metric gives a blank cell; a shown value is one the search finds |
| EvaluationLoop.Rows | pi_ml/loops/dataloader/evaluation_loop.py:308-319 | one row per metric and one cell per result |
| EvaluationLoop.FormatRow | pi_ml/loops/dataloader/evaluation_loop.py:342 | `str.format` with one field per column: fewer arguments than fields is IndexError; surplus arguments are dropped |
| EvaluationLoop.WrapLinesSpec | pi_ml/loops/dataloader/evaluation_loop.py:349-354 | corrected wrap: the pieces concatenate to the name; full pieces of exactly half the width carry the row's cells; the last, non-empty piece has every column blank; every line has one cell per column |
| EvaluationLoop.WrapLinesAsWrittenAgrees | pi_ml/loops/dataloader/evaluation_loop.py:349-354 | the wrap as written fails with IndexError iff the table has two or more columns, and otherwise gives the corrected lines |
| EvaluationLoop.MetricLinesAsWritten | pi_ml/loops/dataloader/evaluation_loop.py:347-356 | one metric's lines as written: IndexError iff the name is longer than half the width beside two or more columns; otherwise the corrected lines |
| EvaluationLoop.WrapMetric | pi_ml/loops/dataloader/evaluation_loop.py:347-356 | the wrapping loop as written computes exactly one metric's as-written lines, IndexError included |
| EvaluationLoop.BodyLinesAsWritten | pi_ml/loops/dataloader/evaluation_loop.py:347-357 | a table body as written: IndexError iff some metric wraps beside two or more cells; otherwise the corrected body |
| EvaluationLoop.TableLines | pi_ml/loops/dataloader/evaluation_loop.py:344-356 | bar, header, bar, body, closing bar |
| EvaluationLoop.Tables | pi_ml/loops/dataloader/evaluation_loop.py:324-326 | one table per header chunk, each headed by its chunk |
| EvaluationLoop.Column | pi_ml/loops/dataloader/evaluation_loop.py:326 | the k-th chunk of every row, one per metric |
| EvaluationLoop.TablesFrom | pi_ml/loops/dataloader/evaluation_loop.py:324-358 | the tables from chunk k on are chunk k's table followed by the later ones |
| EvaluationLoop.TablesAsWritten | pi_ml/loops/dataloader/evaluation_loop.py:324-358 | the tables from chunk k on, as written: IndexError iff some metric wraps in a table chunk of two or more cells; otherwise the corrected tables |
| EvaluationLoop.Stripped | pi_ml/loops/dataloader/evaluation_loop.py:300 | every result with its keys stripped |
| EvaluationLoop.Layout | pi_ml/loops/dataloader/evaluation_loop.py:298-322 | no results is ValueError; the width and column count are positive |
| EvaluationLoop.PrintLayout | pi_ml/loops/dataloader/evaluation_loop.py:298-358 | with the corrected wrap: fails exactly when the layout cannot be computed; no results is ValueError |
| EvaluationLoop.PrintLayoutAsWritten | pi_ml/loops/dataloader/evaluation_loop.py:298-358 | the tables as written; no results is ValueError |
| EvaluationLoop.PrintLayoutAsWrittenFails | pi_ml/loops/dataloader/evaluation_loop.py:298-358 | as written, printing fails with IndexError iff some metric name is longer than half the terminal, num_cols >= 2 and there are two or more results; otherwise it equals the corrected layout, errors included |
| EvaluationLoop.NarrowTerminalIndexError | pi_ml/loops/dataloader/evaluation_loop.py:342-354 | two results logging "ab" on a 3-column terminal: IndexError as written, tables after correction |
| EvaluationLoop.ShortNameUnstripped | pi_ml/loops/dataloader/evaluation_loop.py:300 | a key shorter than the dataloader suffix is kept as it is |
| EvaluationLoop.StripSingle | pi_ml/loops/dataloader/evaluation_loop.py:300 | one entry with nothing to strip is kept as it is |
| EvaluationLoop.PrintLayoutColumns | pi_ml/loops/dataloader/evaluation_loop.py:298-356 | the tables' headers together are the "DataLoader i" headers in order |
| EvaluationEpochLoop.Remove | pi_ml/loops/epoch/evaluation_epoch_loop.py:281-283 | removing a key leaves no entry for it |
| EvaluationEpochLoop.LookupUpdate | pi_ml/loops/epoch/evaluation_epoch_loop.py:281-283 | a key reads back its assigned value |
| EvaluationEpochLoop.RemoveUpdate | pi_ml/loops/epoch/evaluation_epoch_loop.py:281-283 | assigning then removing is removing |
| EvaluationEpochLoop.LookupRemoveOther | pi_ml/loops/epoch/evaluation_epoch_loop.py:281-283 | removing another key keeps this one |
| EvaluationEpochLoop.RemoveCommutes | pi_ml/loops/epoch/evaluation_epoch_loop.py:281-283 | removal order does not matter |
| EvaluationEpochLoop.BuildKwargs | pi_ml/loops/epoch/evaluation_epoch_loop.py:271-284 | batch first, then batch_idx equal to the ready count, then the earlier kwargs without those two keys |
| EvaluationEpochLoop.EqualsAtLeast | pi_ml/loops/epoch/evaluation_epoch_loop.py:203-209 | reaching the maximum exactly implies done |
| EvaluationEpochLoop.NeverDoneUnlimited | pi_ml/loops/epoch/evaluation_epoch_loop.py:56-59 | an infinite maximum is never reached |
| EvaluationEpochLoop.EvaluationEpochLoop.constructor | pi_ml/loops/epoch/evaluation_epoch_loop.py:46-54 | zero progress, no outputs, max batches 0, no cached dataloader state |
| EvaluationEpochLoop.EvaluationEpochLoop.Reset | pi_ml/loops/epoch/evaluation_epoch_loop.py:61-74 | max batches 0, fetcher and outputs cleared; progress reset for a run unless restarting while fitting; the iterator, restarting flag and cached dataloader state are kept |
| EvaluationEpochLoop.EvaluationEpochLoop.OnRunStart | pi_ml/loops/epoch/evaluation_epoch_loop.py:76-91 | stores the maximum and the fetcher; outside sanity checking a cached dataloader state is reloaded and the cache emptied, a CombinedLoader being a configuration error and any other non-DataLoader an assertion error (the iterator then not started); otherwise the iterator is stored; progress, outputs and restarting flag are kept |
| EvaluationEpochLoop.EvaluationEpochLoop.OnLoadCheckpoint | pi_ml/loops/epoch/evaluation_epoch_loop.py:182-188 | with fault tolerance and a saved dataloader state, caches this rank's entry (KeyError when missing); otherwise the cache is kept; every other field is kept |
| EvaluationEpochLoop.EvaluationEpochLoop.Advance | pi_ml/loops/epoch/evaluation_epoch_loop.py:93-151 | no iterator is an assertion error; an exhausted fetcher is StopIteration; otherwise all four counters go up by one and the output is kept when tracked; the maximum, the iterator, the fetcher, the restarting flag and the cached dataloader state are kept |
| EvaluationEpochLoop.AdvanceKeepsCompleted | pi_ml/loops/epoch/evaluation_epoch_loop.py:119-135 | after one step ready equals completed when it did before |
| EvaluationEpochLoop.AdvancesFromReset | pi_ml/loops/epoch/evaluation_epoch_loop.py:119-135 | k steps from zeroed counters leave all four counters at k, and the maximum is reached iff k >= it |
| EvaluationEpochLoop.EvaluationEpochLoop.OnRunEnd | pi_ml/loops/epoch/evaluation_epoch_loop.py:153-158 | returns the outputs and empties the buffer, iterator and fetcher; progress, maximum, restarting flag and cached dataloader state are kept |
| EvaluationEpochLoop.EvaluationEpochLoop.IteratorStateToSave | pi_ml/loops/epoch/evaluation_epoch_loop.py:164-180 | no state without a fetcher, when finished or before the first batch; the current state only when the batch completed |
| ManualLoop.FromTrainingStepOutput | pi_ml/loops/optimization/manual_loop.py:39-55 | a dict gives all entries but "hiddens", a tensor gives {"loss": t}, None gives {}, anything else is refused |
| ManualLoop.AsDict | pi_ml/loops/optimization/manual_loop.py:57-58 | returns the extra entries unchanged |
| ManualLoop.DictRoundTrip | pi_ml/loops/optimization/manual_loop.py:39-58 | a dict without "hiddens" comes back unchanged |
| ManualLoop.NoHiddensPassedOn | pi_ml/loops/optimization/manual_loop.py:39-58 | "hiddens" never reaches the output |
| ManualLoop.StepEndOutput | pi_ml/loops/optimization/manual_loop.py:110-112 | the model's step-end output, falling back to the strategy's |
| ManualLoop.ManualOptimization.constructor | pi_ml/loops/optimization/manual_loop.py:75-79 | not done, no hiddens, empty output |
| ManualLoop.ManualOptimization.Reset | pi_ml/loops/optimization/manual_loop.py:85-86 | done becomes false and nothing else changes |
| ManualLoop.ManualOptimization.Advance | pi_ml/loops/optimization/manual_loop.py:88-124 | an optimizer_idx mismatch or a bad output is refused; otherwise done, hiddens and output are stored |
| ManualLoop.ManualOptimization.OnRunEnd | pi_ml/loops/optimization/manual_loop.py:126-129 | returns the output and replaces it with {} |
| ProgressBar.ValBatchIdx | pi_ml/callbacks/progress/base.py:66-74 | the fit loop's val counter while fitting, else the validate loop's |
| ProgressBar.TotalValBatches | pi_ml/callbacks/progress/base.py:101-116 | sanity batches while sanity checking; 0 without validation; ZeroDivisionError for a cadence of 0; the val sum on a validation epoch |
| ProgressBar.ValidateEveryEpoch | pi_ml/callbacks/progress/base.py:101-116 | with a cadence of 1 every epoch counts the val batches |
| ProgressBar.ValEpochsPeriodic | pi_ml/callbacks/progress/base.py:101-116 | the total repeats every cadence epochs |
| ProgressBar.TotalTestBatches | pi_ml/callbacks/progress/base.py:118-125 | over batch counts: infinite iff some test loader is infinite, otherwise the total of the per-loader counts; 0 iff every loader has 0 batches |
| ProgressBar.TotalPredictBatches | pi_ml/callbacks/progress/base.py:127-134 | over batch counts: infinite iff some predict loader is infinite, otherwise the total of the per-loader counts; 0 iff every loader has 0 batches |
| EvaluationLoop.SumOfCounts | pi_ml/callbacks/progress/base.py:118-134 | `sum` of batch counts is infinite iff some count is, and otherwise equals the first-to-last total of the counts |
| ProgressBar.LastFour | pi_ml/callbacks/progress/base.py:216-221 | the last four characters, or the whole text when shorter |
| ProgressBar.StandardMetrics | pi_ml/callbacks/progress/base.py:189-223 | loss, split_idx and v_num appear exactly under their conditions, a string version shown by its last four characters |
| ProgressBar.GetMetrics | pi_ml/callbacks/progress/base.py:158-186 | the union with progress-bar metrics winning, and the duplicate keys reported |
| ProgressBar.ProgressBarBase.constructor | pi_ml/callbacks/progress/base.py:49-50 | no trainer yet |
| ProgressBar.ProgressBarBase.GetTrainer | pi_ml/callbacks/progress/base.py:52-56 | TypeError before setup, the trainer after |
| ProgressBar.ProgressBarBase.TotalValBatchesOf | pi_ml/callbacks/progress/base.py:101-116 | the total for the attached trainer, TypeError before setup |
| ProgressBar.ProgressBarBase.Setup | pi_ml/callbacks/progress/base.py:136-156 | stores the trainer; on a non-zero rank the base `disable` raises NotImplementedError |
| TqdmProgress.Zeros | pi_ml/callbacks/progress/tqdm_progress.py:42-57 | k zero characters |
| TqdmProgress.FormatNum | pi_ml/callbacks/progress/tqdm_progress.py:42-57 | output starts with the input; "e" leaves it unchanged; otherwise it is zero-padded to at least 5 characters, with a "." first only for short numeric text without one |
| TqdmProgress.PadZeros | pi_ml/callbacks/progress/tqdm_progress.py:56 | the text is kept as a prefix and followed by zeros up to 5 characters; longer text is unchanged |
| TqdmProgress.IntToStringIsFloat | pi_ml/callbacks/progress/tqdm_progress.py:50-55 | the text of any int is numeric |
| TqdmProgress.ConvertInf | pi_ml/callbacks/progress/tqdm_progress.py:362-369 | None, infinity and NaN become None; other values are kept |
| TqdmProgress.ResolveRefreshRate | pi_ml/callbacks/progress/tqdm_progress.py:353-359 | a rate of 1 becomes 20 on Colab; any other rate is kept |
| TqdmProgress.FloorDiv | pi_ml/callbacks/progress/tqdm_progress.py:269 | Python's `//` rounds toward minus infinity |
| TqdmProgress.EpochTotal | pi_ml/callbacks/progress/tqdm_progress.py:264-272 | infinite when either count is; a zero val-check batch is ZeroDivisionError; else train + val * (train // val_check_batch) |
| TqdmProgress.UpdateN | pi_ml/callbacks/progress/tqdm_progress.py:372-375 | the position changes only when the bar is enabled |
| TqdmProgress.TQDMProgressBar.constructor | pi_ml/callbacks/progress/tqdm_progress.py:104-112 | the refresh rate is resolved; enabled; no bars and no trainer |
| TqdmProgress.TQDMProgressBar.Disable | pi_ml/callbacks/progress/tqdm_progress.py:181-185 | only the flag changes, and the bar is then disabled |
| TqdmProgress.TQDMProgressBar.Enable | pi_ml/callbacks/progress/tqdm_progress.py:166-185 | only the flag changes; the bar is enabled iff the refresh rate is positive |
| TqdmProgress.TQDMProgressBar.ShouldUpdate | pi_ml/callbacks/progress/tqdm_progress.py:350-351 | true iff the rate is positive and divides the index |
| TqdmProgress.ShouldUpdatePeriodic | pi_ml/callbacks/progress/tqdm_progress.py:350-351 | index 0 always updates, and the rule repeats every refresh-rate batches |
| TqdmProgress.TQDMProgressBar.Setup | pi_ml/callbacks/progress/base.py:153-156 | stores the trainer and disables the bar on non-zero ranks |
| TqdmProgress.TQDMProgressBar.GetState | pi_ml/callbacks/progress/tqdm_progress.py:114-116 | the pickled state drops every bar object and keeps the rest |
| TqdmProgress.TQDMProgressBar.ValProcessed | pi_ml/callbacks/progress/tqdm_progress.py:174-179 | the fit loop's total while fitting, else the validate loop's; TypeError before setup |
| TqdmProgress.TQDMProgressBar.OnTrainEpochStart | pi_ml/callbacks/progress/tqdm_progress.py:264-273 | the main bar's total becomes the epoch total (its position and disable flag are kept, and its total too on error); TypeError before setup; only the main bar may change |
| TqdmProgress.TQDMProgressBar.OnTrainBatchEnd | pi_ml/callbacks/progress/tqdm_progress.py:275-278 | moves the main bar to the processed count when the refresh rule allows |
| TqdmProgress.TQDMProgressBar.OnValidationBatchEnd | pi_ml/callbacks/progress/tqdm_progress.py:295-299 | with no trainer it fails with TypeError before anything else; when `val_batch_idx` (fit-time current count while fitting, else the validate loop's) is due, the val bar moves to it and while fitting the main bar moves to training plus total validation batches; fails with TypeError exactly when a bar it needs is missing; otherwise no bar moves |
| DdpSpawn.FakeQueue.constructor | pi_ml/strategies/ddp_spawn.py:386-396 | starts empty |
| DdpSpawn.FakeQueue.Put | pi_ml/strategies/ddp_spawn.py:386-396 | appends at the back |
| DdpSpawn.FakeQueue.Get | pi_ml/strategies/ddp_spawn.py:386-396 | removes and returns the front, IndexError when empty |
| DdpSpawn.FakeQueue.Empty | pi_ml/strategies/ddp_spawn.py:386-396 | true iff no items |
| DdpSpawn.FifoOrder | pi_ml/strategies/ddp_spawn.py:386-396 | any sequence of puts on an empty queue comes back, get by get, in the same order, leaving the queue empty so that one more get is an IndexError |
| DdpSpawn.RankInWorld | pi_ml/strategies/ddp_spawn.py:136-142 | every global rank lies in [0, world size) |
| DdpSpawn.RanksDistinct | pi_ml/strategies/ddp_spawn.py:136-142 | distinct (node, local) pairs get distinct global ranks |
| DdpSpawn.DDPSpawnStrategy.constructor | pi_ml/strategies/ddp_spawn.py:58-84 | one node, local rank 0, the given devices and cluster |
| DdpSpawn.DDPSpawnStrategy.NumProcesses | pi_ml/strategies/ddp_spawn.py:104-106 | the number of devices, 0 without devices |
| DdpSpawn.DDPSpawnStrategy.DistributedSamplerKwargs | pi_ml/strategies/ddp_spawn.py:108-111 | num_replicas = nodes * processes and rank = global rank |
| DdpSpawn.DDPSpawnStrategy.SetWorldRanks | pi_ml/strategies/ddp_spawn.py:136-142 | local rank := process index; global rank = node * processes + local; world size = nodes * processes |
| DdpSpawn.DDPSpawnStrategy.SetNumNodes | pi_ml/strategies/ddp_spawn.py:86-94 | stores the node count and recomputes the ranks |
| DdpSpawn.DDPSpawnStrategy.CollectRankZeroResults | pi_ml/strategies/ddp_spawn.py:219-243 | nothing on non-zero ranks; otherwise the best model path, the temporary weights path only when fitting, the entry point, the results, and a fresh queue holding the module's own items (when it overrides `add_to_queue`) followed by the callback metrics |
| DdpSpawn.PathJoin | pi_ml/strategies/ddp_spawn.py:233 | the joined path ends with the name |
| DdpSpawn.AddToQueue | pi_ml/strategies/ddp_spawn.py:337-348 | the callback metrics are put on the queue |
| DdpSpawn.GetFromQueue | pi_ml/strategies/ddp_spawn.py:350-360 | the front metrics update the callback metrics; an empty queue is IndexError |
| DdpSpawn.MetricsRoundTrip | pi_ml/strategies/ddp_spawn.py:337-360 | the worker's metrics reach the main process, overriding on shared keys |
| Parallel.NoClusterDefaults | pi_ml/strategies/parallel.py:55-73 | without a cluster the ranks are 0, the world size 1, and the process is global zero |
| Parallel.ClusterRanksUsed | pi_ml/strategies/parallel.py:55-73 | with a cluster its ranks are used; global zero iff global rank 0 |
| Parallel.CountTrue | pi_ml/strategies/parallel.py:95-99 | the count of true decisions is at most their number |
| Parallel.ReduceBooleanDecision | pi_ml/strategies/parallel.py:95-99 | true iff the summed decisions equal the world size |
| Parallel.CountTrueAll | pi_ml/strategies/parallel.py:95-99 | the count equals the number of ranks iff all decided true |
| Parallel.ReduceIsUnanimity | pi_ml/strategies/parallel.py:95-99 | one decision per rank reduces to "all ranks agree" |
| Parallel.TorchDistributedBackend | pi_ml/strategies/parallel.py:101-106 | the environment override, else nccl on cuda, else gloo |
| Parallel.DistributedSamplerKwargs | pi_ml/strategies/parallel.py:83-86 | num_replicas = number of devices and rank = global rank; no device list is a TypeError |
| AutoGpuSelect.UsableFrom | pi_ml/tuner/auto_gpu_select.py:48-58 | lists only indices whose allocation succeeds |
| AutoGpuSelect.UsableFromIncreasing | pi_ml/tuner/auto_gpu_select.py:48-58 | the usable indices come in increasing order |
| AutoGpuSelect.UsableFromComplete | pi_ml/tuner/auto_gpu_select.py:48-58 | every usable index from the start point is listed |
| AutoGpuSelect.NextUsable | pi_ml/tuner/auto_gpu_select.py:48-58 | excluding the first i usable indices, the next pick is the (i+1)-th |
| AutoGpuSelect.AllUsableListed | pi_ml/tuner/auto_gpu_select.py:48-58 | every usable GPU is listed |
| AutoGpuSelect.PickSingleGpu | pi_ml/tuner/auto_gpu_select.py:42-58 | the smallest non-excluded index whose allocation succeeds, else RuntimeError when none is left |
| AutoGpuSelect.PickMultipleGpus | pi_ml/tuner/auto_gpu_select.py:21-39 | 0 is refused; -1 means the device count; the result is the first nb usable GPUs, or RuntimeError when too few |
| AutoGpuSelect.PickedDistinctUsable | pi_ml/tuner/auto_gpu_select.py:35-39 | the first n usable GPUs are n distinct indices, each one usable |
| TorchElastic.IntVar | pi_ml/plugins/environments/torchelastic_environment.py:64-82 | a missing variable is KeyError, a non-integer one ValueError, otherwise its value |
| TorchElastic.DefaultPortValue | pi_ml/plugins/environments/torchelastic_environment.py:53 | the default port text is the digits of 12910 |
| TorchElastic.DefaultPortParses | pi_ml/plugins/environments/torchelastic_environment.py:53 | the default port text parses to 12910 |
| TorchElastic.TorchElasticEnvironment.constructor | pi_ml/plugins/environments/torchelastic_environment.py:37-62 | reads the given environment |
| TorchElastic.TorchElasticEnvironment.MainAddress | pi_ml/plugins/environments/torchelastic_environment.py:41-47 | unset MASTER_ADDR is written as 127.0.0.1 and returned; a set one is returned unchanged |
| TorchElastic.TorchElasticEnvironment.MainPort | pi_ml/plugins/environments/torchelastic_environment.py:49-56 | unset MASTER_PORT is written as 12910 and returned; a set one is read as an int |
| TorchElastic.TorchElasticEnvironment.WorldSize | pi_ml/plugins/environments/torchelastic_environment.py:64-65 | read from WORLD_SIZE |
| TorchElastic.TorchElasticEnvironment.GlobalRank | pi_ml/plugins/environments/torchelastic_environment.py:70-71 | read from RANK |
| TorchElastic.TorchElasticEnvironment.LocalRank | pi_ml/plugins/environments/torchelastic_environment.py:78-79 | read from LOCAL_RANK |
| TorchElastic.TorchElasticEnvironment.NodeRank | pi_ml/plugins/environments/torchelastic_environment.py:81-82 | GROUP_RANK, defaulting to 0 |
| TorchElastic.TorchElasticEnvironment.SetWorldSize | pi_ml/plugins/environments/torchelastic_environment.py:67-68 | changes nothing |
| TorchElastic.TorchElasticEnvironment.SetGlobalRank | pi_ml/plugins/environments/torchelastic_environment.py:73-76 | changes nothing |
| TorchElastic.MainAddressAndPortStable | pi_ml/plugins/environments/torchelastic_environment.py:41-56 | asking twice gives the same address and port, and both are then set |
| TorchElastic.NodeRankDetected | pi_ml/plugins/environments/torchelastic_environment.py:58-82 | in a detected torchelastic environment the node rank is GROUP_RANK |
| DeviceStatsMonitor.PrefixInjective | pi_ml/callbacks/device_stats_monitor.py:92-93 | prefixing is injective |
| DeviceStatsMonitor.PrefixMetricKeys | pi_ml/callbacks/device_stats_monitor.py:92-93 | each key k becomes prefix + separator + k with its value, and no other key appears |
| DeviceStatsMonitor.PrefixedCard | pi_ml/callbacks/device_stats_monitor.py:92-93 | the prefixed key set is as large as the original |
| DeviceStatsMonitor.PrefixKeepsCount | pi_ml/callbacks/device_stats_monitor.py:92-93 | prefixing keeps the number of entries |
| DeviceStatsMonitor.PrefixMetricKeysNoSeparator | pi_ml/callbacks/device_stats_monitor.py:96-102 | the public variant uses an empty separator and keeps the count |
| DeviceStatsMonitor.Setup | pi_ml/callbacks/device_stats_monitor.py:46-48 | refused iff there is no logger |
| DeviceStatsMonitor.OnTrainBatch | pi_ml/callbacks/device_stats_monitor.py:50-88 | refused without a logger; then the log-interval decision's error (ZeroDivisionError for an interval of 0) is passed on; nothing when logs should not update; otherwise the prefixed stats at the global step |
| GpuAccelerator.SetupEnvironment | pi_ml/accelerators/gpu.py:36-44 | refused iff the device type is not "cuda" |
| GpuAccelerator.IndexNames | pi_ml/accelerators/gpu.py:136 | the decimal texts of 0..n-1 |
| GpuAccelerator.PyIndex | pi_ml/accelerators/gpu.py:138 | Python list indexing, negative indices from the end, IndexError out of range |
| GpuAccelerator.GetGpuId | pi_ml/accelerators/gpu.py:133-138 | the only failure is IndexError, and an id that is found has no surrounding whitespace |
| GpuAccelerator.GetGpuIdSet | pi_ml/accelerators/gpu.py:137-138 | the device_id-th comma-separated entry of CUDA_VISIBLE_DEVICES, stripped |
| GpuAccelerator.GetGpuIdUnset | pi_ml/accelerators/gpu.py:133-138 | with the variable unset, id i maps to "i" |
| GpuAccelerator.GetGpuIdUnsetPast | pi_ml/accelerators/gpu.py:133-138 | with the variable unset, an id past the device count is IndexError (except id 0 with no devices, which gives "") |

## Left out

- Process spawning, distributed communication, barriers and broadcasts. The ranks, the world size and "allocating on GPU i succeeds" are inputs.
- Torch tensors, autograd, `detach`, device moves and finite-loss checks. Tensors, modules, optimizers, dataloaders and loggers are opaque values.
- Directory listing, `torch.load`/`torch.save`, the process environment and terminal size. They become a list of file names, a map and a column count.
- Rich and console printing of the results table. Only the headers, rows, column chunking and name wrapping of the plain-text branch are modelled, and lines are values, not padded text.
- Numeric `format_num`, loss formatting and nvidia-smi parsing, which are floating-point formatting.
- Profilers and loggers themselves, and `getattr`-based hook dispatch. Hooks that a signature accepts or a module overrides are boolean inputs.
- `has_len_all_ranks` and the sampler replacement in the data connector. Loader lengths are inputs, and `pi_ml/utilities/data.py` is not part of this model.
- `pi_ml/trainer/progress.py` is not part of this model. Its counters are restated in `Progress` from how the loops use them.
- The generic cluster environment that `DdpSpawn.ClusterEnvironment` stands for (the one storing ranks set by the strategy) is not part of this model.
- EvaluationLoop.EvaluationLoop.Reset: `DataLoaderLoop.done` and `DataLoaderLoop.reset` are not part of this model, so it takes the base loop's `done` and the dataloader progress its reset leaves as inputs. That `done` goes through `num_dataloaders`, which raises `RuntimeError` when there are no dataloaders (evaluation_loop.py:63-68, 99); a boolean input cannot carry that error, so for a list-valued maximum with no dataloaders the model returns `Ok` where the source raises.
- EvaluationLoop.EvaluationLoop.OnAdvanceEnd: `DataLoaderLoop.on_advance_end` is not part of this model, so the dataloader progress it leaves is an input.
- EvaluationEpochLoop.EvaluationEpochLoop.OnRunStart: loading the cached state into the dataloader (`_reload_dataloader_state_dict` of `pi_ml/utilities/auto_restart.py`) is not part of this model; the kind of dataloader the fetcher wraps is an input. How the per-rank states were collected at save time is not modelled either; `OnLoadCheckpoint` takes them as a map from rank to state.
- Warnings (unknown callback keys, duplicate progress-bar keys, deprecations) are returned as values or not modelled.
- EvaluationEpochLoop.EvaluationEpochLoop.Done, HasCompleted and NumCompletedBatchesReached: predicates without a contract of their own. Their meaning is proved in AdvancesFromReset, EqualsAtLeast and IteratorStateToSave.
- TorchElastic.TorchElasticEnvironment.Detect and CreatesProcessesExternally: plain predicates with no contract.
- FitLoop.FitLoop.constructor: requires a valid max_epochs. The error path is FitLoop.NewFitLoop.
- DeviceParser.ParseGpuIds: its own contract covers only the "no GPUs" cases. Its other properties are proved as separate lemmas (ParseGpuIdsValid, ParseGpuIdsCount, ParseGpuIdsAll, ParseGpuIdsText). ParseGpuIdsValid excludes the torchelastic single-GPU case, where the source skips the device-count check.
- CheckpointConnector.CheckpointConnector.RestoreLoops: the loop's `load_state_dict` is not part of this model; for fitting, what it restores is a parameter (`restoredProgress`, the epoch progress read from the saved state) and it marks the fit loop as restarting, and its effect on the validate, test and predict loops, which this model does not hold, is not captured beyond the KeyError for a missing entry.
- Trainer.Trainer.InitDebuggingFlags: when one limit fails validation, the source has already stored the limits validated before it; the model says nothing of the limits on that error path.
- LoopUtilities.GetActiveOptimizers: requires non-negative frequencies. `np.searchsorted` assumes its array is sorted, and what its binary search returns on the unsorted cumulative sums of negative frequencies is not modelled. A `batch_idx` of None is not modelled either.
- PyText: Unicode whitespace beyond the six ASCII space characters (for `strip` and `int()`), non-ASCII decimal digits (for `int()`) and non-ASCII case mapping (for `lower()`) are not modelled. The strings these functions see here are device ids, environment values, metric names and file names.
- CheckpointConnector.DumpCheckpoint: its own contract covers the counters and the keys every checkpoint has. The training state, hyper-parameter and datamodule entries are stated in DumpTrainingState, DumpHparams and DumpDatamodule.
- CheckpointConnector.DumpCheckpoint: the hooks that receive the checkpoint dict and may change it are not modelled: the callbacks' `on_save_checkpoint` (checkpoint_connector.py:354), `precision_plugin.on_save_checkpoint` (:370), the model's and the datamodule's `on_save_checkpoint` (:391-393) and `on_hpc_save` under SLURM auto-requeue (:396-398). Its contract and those of DumpTrainingState, DumpHparams and DumpDatamodule describe the dict as the connector builds it, which is what is returned when these hooks leave it alone.
- CheckpointConnector.DumpHparams: the omegaconf branch (checkpoint_connector.py:376-379), which stores the hyper-parameter container itself and its type under `CHECKPOINT_HYPER_PARAMS_TYPE`, is not modelled; hyper-parameters are saved as the plain-dict branch saves them.
- The trainer's `limit_train_batches` is held twice: in the trainer's `limits` and in the fit loop's `TrainerFlags`, where the fit loop reads it. `Trainer.Trainer.InitDebuggingFlags` stores both on success; the trainer's constructor takes the two from its caller without tying them.
- CheckpointConnector.MaxCkptVersion: its own contract covers only the missing folder. The scan's properties are the ScanVersions lemmas.

## Findings

| source | as written | input that shows it | evidently intended | confidence | as-written member | corrected member |
|---|---|---|---|---|---|---|
| pi_ml/utilities/device_parser.py:231-233 | `_tpu_cores_valid` reads `list(tpu_cores)[0]` before checking that the collection has exactly one element | `tpu_cores=[]`, `()`, or the string `","` (which parses to `[]`) | refuse the value with the "`tpu_cores` can only be 1, 8 or [<1-8>]" configuration error | not executed | DeviceParser.TpuCoresValidAsWritten | DeviceParser.TpuCoresValid |
| pi_ml/loops/dataloader/evaluation_loop.py:354 | the last piece of a wrapped metric name is formatted as `row_format.format(metric, " ")`, two arguments against one field per column plus the name | two results that both log "ab", on a terminal 3 columns wide: the width is 1, `num_cols` is 2, half the terminal is 1, and `"{:^1}" * 3` gets two arguments | print the last piece with every result column blank | not executed | EvaluationLoop.PrintLayoutAsWrittenFails | EvaluationLoop.WrapLinesSpec |
