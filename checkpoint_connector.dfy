/**
 * Checkpoint bookkeeping of the trainer
 * (pi_ml/trainer/connectors/checkpoint_connector.py): the HPC checkpoint
 * version taken from file names, which checkpoint a run resumes from, what a
 * saved checkpoint records, and the checks made when it is restored.
 *
 * A folder is the list of its file names (or missing); a checkpoint is a
 * dict from keys to entries. Loading files, the model's weights and the
 * loops' own state dicts are not part of this module.
 */
module CheckpointConnector {
  import opened Wrappers
  import opened PyText
  import opened Progress
  import LoopUtilities
  import Trainer
  import FitLoop

  // ------------------------------------------------------ version numbers

  /** `re.sub("[^0-9]", "", s)`: the ASCII digits of `s`, in order. */
  function KeepDigits(s: string): (r: string)
    ensures AllDigits(r) && |r| <= |s|
    ensures AllDigits(s) ==> r == s
  {
    if s == [] then []
    else if IsDigit(s[0]) then [s[0]] + KeepDigits(s[1..])
    else KeepDigits(s[1..])
  }

  lemma {:induction false} KeepDigitsAppend(a: string, b: string)
    ensures KeepDigits(a + b) == KeepDigits(a) + KeepDigits(b)
  {
    if a == [] {
      assert a + b == b;
    } else {
      assert (a + b)[0] == a[0];
      assert (a + b)[1..] == a[1..] + b;
      KeepDigitsAppend(a[1..], b);
    }
  }

  /**
   * The version a matching file name carries: the digits of the text after
   * the last occurrence of the key, read by `int()` (a ValueError when there
   * are none).
   */
  function VersionOf(name: string, key: string): (r: Result<int>)
    requires key != []
    ensures var pieces := Split(name, key);
      var ds := KeepDigits(pieces[|pieces| - 1]);
      (r.Ok? <==> ds != []) && (r.Ok? ==> r.value == DigitsValue(ds))
    ensures r.Ok? ==> r.value >= 0
    ensures r.Err? ==> r.error == ValueError
  {
    var pieces := Split(name, key);
    var ds := KeepDigits(pieces[|pieces| - 1]);
    if ds == [] then
      assert Strip(ds) == [];
      Err(ValueError)
    else
      ParseIntDigits(ds);
      Ok(ParseInt(ds).value)
  }

  /** A folder as `fs.exists` and `fs.listdir` see it. */
  datatype Folder = Missing | Listing(names: seq<string>)

  /** `key in name`, decided by a left-to-right scan. */
  predicate Matches(name: string, key: string)
    requires key != []
  {
    FindFrom(name, key, 0).Some?
  }

  /**
   * The largest version among the names containing the key, None when no
   * name does, or the ValueError of a matching name without digits.
   */
  function ScanVersions(names: seq<string>, key: string): (r: Result<Option<int>>)
    requires key != []
    ensures r.Err? ==> r.error == ValueError
  {
    if names == [] then Ok(None)
    else
      var before :- ScanVersions(names[..|names| - 1], key);
      var last := names[|names| - 1];
      if !Matches(last, key) then Ok(before)
      else
        var v :- VersionOf(last, key);
        Ok(Some(if before.Some? && before.value > v then before.value else v))
  }

  /** The scan fails exactly when some matching name carries no digits. */
  lemma {:induction false} ScanVersionsErr(names: seq<string>, key: string)
    requires key != []
    ensures ScanVersions(names, key).Err? <==>
      exists i :: 0 <= i < |names| && Matches(names[i], key) && VersionOf(names[i], key).Err?
  {
    if names != [] {
      var init := names[..|names| - 1];
      ScanVersionsErr(init, key);
      assert forall i :: 0 <= i < |init| ==> init[i] == names[i];
    }
  }

  /** A successful scan finds nothing exactly when no name matches. */
  lemma {:induction false} ScanVersionsNone(names: seq<string>, key: string)
    requires key != [] && ScanVersions(names, key).Ok?
    ensures ScanVersions(names, key).value.None? <==> forall i :: 0 <= i < |names| ==> !Matches(names[i], key)
  {
    if names != [] {
      var init := names[..|names| - 1];
      ScanVersionsNone(init, key);
      assert forall i :: 0 <= i < |init| ==> init[i] == names[i];
    }
  }

  /** Every matching name's version is at most the one the scan returns. */
  lemma {:induction false} ScanVersionsBound(names: seq<string>, key: string, i: nat)
    requires key != [] && ScanVersions(names, key).Ok?
    requires i < |names| && Matches(names[i], key)
    ensures var m := ScanVersions(names, key).value;
      m.Some? && VersionOf(names[i], key).Ok? && VersionOf(names[i], key).value <= m.value
  {
    var init := names[..|names| - 1];
    if i < |init| {
      assert init[i] == names[i];
      ScanVersionsBound(init, key, i);
    }
  }

  /** The version the scan returns is that of some matching name. */
  lemma {:induction false} ScanVersionsWitness(names: seq<string>, key: string) returns (i: nat)
    requires key != [] && ScanVersions(names, key).Ok? && ScanVersions(names, key).value.Some?
    ensures i < |names| && Matches(names[i], key)
    ensures VersionOf(names[i], key) == Ok(ScanVersions(names, key).value.value)
  {
    var init := names[..|names| - 1];
    var m := ScanVersions(names, key).value.value;
    var before := ScanVersions(init, key).value;
    if before.Some? && m == before.value {
      i := ScanVersionsWitness(init, key);
      assert init[i] == names[i];
    } else {
      i := |names| - 1;
    }
  }

  /** `__max_ckpt_version_in_folder`, over the values it reads. */
  function MaxCkptVersion(folder: Folder, key: string): (r: Result<Option<int>>)
    requires key != []
    ensures folder.Missing? ==> r == Ok(None)
  {
    if folder.Missing? then Ok(None) else ScanVersions(folder.names, key)
  }

  /**
   * `__max_ckpt_version_in_folder`: keeps the names that contain the key,
   * then reads each one's version and returns the largest.
   */
  method MaxCkptVersionInFolder(folder: Folder, key: string) returns (r: Result<Option<int>>)
    requires key != []
    ensures r == MaxCkptVersion(folder, key)
  {
    if folder.Missing? {
      return Ok(None);
    }
    var names := folder.names;
    var best: Option<int> := None;
    var i := 0;
    while i < |names|
      invariant 0 <= i <= |names|
      invariant ScanVersions(names[..i], key) == Ok(best)
    {
      var next := ReadVersion(names, key, i, best);
      if next.Err? {
        ScanErrorPersists(names, key, i + 1);
        return Err(ValueError);
      }
      best := next.value;
      i := i + 1;
    }
    assert names[..|names|] == names;
    r := Ok(best);
  }

  /**
   * One pass of the loop: a name containing the key has its version read
   * and kept when it is at least the best so far; other names are skipped.
   */
  method ReadVersion(names: seq<string>, key: string, i: nat, best: Option<int>) returns (next: Result<Option<int>>)
    requires key != [] && i < |names| && ScanVersions(names[..i], key) == Ok(best)
    ensures next == ScanVersions(names[..i + 1], key)
  {
    assert names[..i + 1][..i] == names[..i];
    if !Matches(names[i], key) {
      return Ok(best);
    }
    var v := VersionOf(names[i], key);
    if v.Err? {
      return Err(ValueError);
    }
    if best.None? || best.value <= v.value {
      return Ok(Some(v.value));
    }
    return Ok(best);
  }

  /** A scan that fails on a prefix fails on the whole list. */
  lemma ScanErrorPersists(names: seq<string>, key: string, i: nat)
    requires key != [] && 0 < i <= |names|
    requires ScanVersions(names[..i], key).Err?
    ensures ScanVersions(names, key) == Err(ValueError)
  {
    ScanVersionsErr(names[..i], key);
    var j :| 0 <= j < i && Matches(names[..i][j], key) && VersionOf(names[..i][j], key).Err?;
    assert names[..i][j] == names[j];
    ScanVersionsErr(names, key);
  }

  /** `os.path.join(a, b)` for a relative `b`. */
  function PathJoin(a: string, b: string): (r: string)
    ensures a == [] ==> r == b
    ensures a != [] ==> |r| > |a| || b == []
  {
    if a == [] then b
    else if a[|a| - 1] == '/' then a + b
    else a + "/" + b
  }

  /** The file name of HPC checkpoint version `n`. */
  function HpcFileName(n: int): string
  {
    "hpc_ckpt_" + IntToString(n) + ".ckpt"
  }

  /** `hpc_save_path`: one version past the newest in the folder (version 1 when there is none). */
  function HpcSavePath(folder: Folder, folderPath: string): (r: Result<string>)
    ensures r.Err? <==> MaxCkptVersion(folder, "ckpt_").Err?
    ensures r.Ok? ==> r.value == PathJoin(folderPath, HpcFileName(NextHpcVersion(MaxCkptVersion(folder, "ckpt_").value)))
  {
    var m :- MaxCkptVersion(folder, "ckpt_");
    Ok(PathJoin(folderPath, HpcFileName(NextHpcVersion(m))))
  }

  function NextHpcVersion(m: Option<int>): (v: int)
    ensures m.None? ==> v == 1
    ensures m.Some? ==> v == m.value + 1
  {
    OrElse(m, 0) + 1
  }

  /** `__get_max_ckpt_path_from_folder`: the newest version, or version 0 when there is none. */
  function MaxCkptPathFromFolder(folder: Folder, folderPath: string): (r: Result<string>)
    ensures r.Err? <==> MaxCkptVersion(folder, "ckpt_").Err?
    ensures r.Ok? ==> r.value == folderPath + "/" + HpcFileName(OrElse(MaxCkptVersion(folder, "ckpt_").value, 0))
  {
    var m :- MaxCkptVersion(folder, "ckpt_");
    Ok(folderPath + "/" + HpcFileName(OrElse(m, 0)))
  }

  /**
   * `_hpc_resume_path`: the newest "hpc_ckpt_" version in the weights
   * folder, or None when the folder is missing or holds none.
   */
  function HpcResumePath(folder: Folder, folderPath: string): (r: Result<Option<string>>)
    ensures r.Err? <==> MaxCkptVersion(folder, "hpc_ckpt_").Err?
    ensures r.Ok? ==> (r.value.None? <==> MaxCkptVersion(folder, "hpc_ckpt_").value.None?)
    ensures r.Ok? && r.value.Some? ==> r.value.value == PathJoin(folderPath, HpcFileName(MaxCkptVersion(folder, "hpc_ckpt_").value.value))
  {
    if folder.Missing? then Ok(None)
    else
      var m :- MaxCkptVersion(folder, "hpc_ckpt_");
      if m.None? then Ok(None) else Ok(Some(PathJoin(folderPath, HpcFileName(m.value))))
  }

  // ------------------------------------------- reading back the file name

  lemma OccursAtIndex(s: string, sep: string, k: int, j: nat)
    requires OccursAt(s, sep, k) && j < |sep|
    ensures k + j < |s| && s[k + j] == sep[j]
  {
    assert s[k..k + |sep|][j] == s[k + j];
  }

  lemma MissingCharNoOccurrence(p: string, sep: string, j: nat)
    requires j < |sep| && sep[j] !in p
    ensures !Contains(p, sep)
  {
    forall k | OccursAt(p, sep, k)
      ensures false
    {
      OccursAtIndex(p, sep, k, j);
    }
  }

  /** `"ckpt_"` first occurs in an HPC file name right after `"hpc_"`. */
  lemma HpcNameFirstKey(f: string)
    requires |f| >= 9 && f[..9] == "hpc_ckpt_"
    ensures FindFrom(f, "ckpt_", 0) == Some(4)
  {
    var key := "ckpt_";
    assert f[4..9] == key;
    assert FindFrom(f, key, 4) == Some(4);
    assert f[3..8][0] != key[0];
    assert FindFrom(f, key, 3) == Some(4);
    assert f[2..7][1] != key[1];
    assert FindFrom(f, key, 2) == Some(4);
    assert f[1..6][0] != key[0];
    assert FindFrom(f, key, 1) == Some(4);
    assert f[0..5][0] != key[0];
  }

  /** Splitting at the first occurrence of the key, when the rest holds none. */
  lemma SplitOnce(f: string, key: string, i: nat)
    requires key != [] && FindFrom(f, key, 0) == Some(i)
    requires !Contains(f[i + |key|..], key)
    ensures var pieces := Split(f, key); pieces[|pieces| - 1] == f[i + |key|..]
  {
    SplitAt(f, key, i);
    SplitNoSeparator(f[i + |key|..], key);
  }

  /** The digits kept from a version followed by the ".ckpt" extension. */
  lemma KeepDigitsOfVersion(ds: string)
    requires AllDigits(ds)
    ensures KeepDigits(ds + ".ckpt") == ds
  {
    KeepDigitsAppend(ds, ".ckpt");
    assert KeepDigits(".ckpt") == [];
  }

  /** The version written into an HPC file name is the one read back from it. */
  lemma HpcNameVersion(f: string, ds: string)
    requires ds != [] && AllDigits(ds)
    requires f == "hpc_ckpt_" + ds + ".ckpt"
    ensures Matches(f, "ckpt_")
    ensures VersionOf(f, "ckpt_") == Ok(DigitsValue(ds))
  {
    var key := "ckpt_";
    assert f[..9] == "hpc_ckpt_";
    HpcNameFirstKey(f);
    var rest := ds + ".ckpt";
    assert f[4 + |key|..] == rest;
    assert key[4] !in rest by {
      forall i | 0 <= i < |rest|
        ensures rest[i] != '_'
      {
        if i < |ds| { assert rest[i] == ds[i]; }
      }
    }
    MissingCharNoOccurrence(rest, key, 4);
    SplitOnce(f, key, 4);
    KeepDigitsOfVersion(ds);
  }

  /** The version written into an HPC file name is the one read back from it. */
  lemma HpcFileNameVersion(n: nat)
    ensures Matches(HpcFileName(n), "ckpt_")
    ensures VersionOf(HpcFileName(n), "ckpt_") == Ok(n)
  {
    var ds := NatToString(n);
    assert IntToString(n) == ds;
    HpcNameVersion(HpcFileName(n), ds);
    NatToStringValue(n);
  }

  /**
   * The checkpoint `hpc_save_path` names is the newest one: once it is
   * written, the folder's maximum version is exactly its version.
   */
  lemma HpcSavePathIsNewest(names: seq<string>, m: Option<int>)
    requires MaxCkptVersion(Listing(names), "ckpt_") == Ok(m)
    ensures NextHpcVersion(m) >= 1
    ensures MaxCkptVersion(Listing(names + [HpcFileName(NextHpcVersion(m))]), "ckpt_") == Ok(Some(NextHpcVersion(m)))
  {
    ScanVersionsNonNegative(names, "ckpt_");
    var v := NextHpcVersion(m);
    HpcFileNameVersion(v);
    ScanAppendNewer(names, "ckpt_", HpcFileName(v), v);
  }

  lemma {:induction false} ScanVersionsNonNegative(names: seq<string>, key: string)
    requires key != [] && ScanVersions(names, key).Ok?
    ensures var m := ScanVersions(names, key).value; m.Some? ==> m.value >= 0
  {
    if names != [] {
      ScanVersionsNonNegative(names[..|names| - 1], key);
    }
  }

  /** A matching name with a version above every earlier one becomes the maximum. */
  lemma ScanAppendNewer(names: seq<string>, key: string, f: string, v: int)
    requires key != [] && ScanVersions(names, key).Ok?
    requires Matches(f, key) && VersionOf(f, key) == Ok(v)
    requires var m := ScanVersions(names, key).value; m.None? || m.value < v
    ensures ScanVersions(names + [f], key) == Ok(Some(v))
  {
    var all := names + [f];
    assert all[..|all| - 1] == names;
    assert all[|all| - 1] == f;
  }

  // --------------------------------------------------------- checkpoints

  /** A checkpoint entry: a count, the saved callback states, a state dict, or anything else. */
  datatype Entry =
    | Count(n: int)
    | CallbackStates(states: map<string, map<string, Obj>>)
    | StateDict(state: map<string, Obj>)
    | Opaque(o: Obj)

  type Checkpoint = map<string, Entry>

  const HyperParamsKey := "hyper_parameters"
  const HyperParamsNameKey := "hparams_name"

  /** What `dump_checkpoint` reads besides the trainer's counters. */
  datatype SaveInputs = SaveInputs(
    callbacks: seq<Trainer.Callback>,
    optimizerStates: Obj,
    lrSchedulers: Obj,
    hparams: Option<Obj>,
    hparamsName: Option<Obj>,
    datamodule: Option<(string, map<string, Obj>)>)

  /** The key a datamodule's state is saved under: its class name, when the state is non-empty. */
  function DatamoduleKey(inputs: SaveInputs): (k: Option<string>)
    ensures k.Some? <==> inputs.datamodule.Some? && inputs.datamodule.value.1 != map[]
  {
    if inputs.datamodule.Some? && inputs.datamodule.value.1 != map[] then Some(inputs.datamodule.value.0) else None
  }

  /** The datamodule's entry, written last, leaves key `k` as the trainer wrote it. */
  predicate Keeps(inputs: SaveInputs, k: string)
  {
    DatamoduleKey(inputs) != Some(k)
  }

  /**
   * `dump_checkpoint`. The global step is saved one past the current one; the
   * epoch likewise, unless the step limit has been reached. A weights-only
   * checkpoint has no callback, optimizer or scheduler states. A stateful
   * datamodule's state goes under its class name, written last.
   */
  function DumpCheckpoint(currentEpoch: int, globalStep: int, maxSteps: int, weightsOnly: bool,
                          version: Obj, weights: Obj, loops: map<string, Obj>, inputs: SaveInputs): (c: Checkpoint)
    ensures "epoch" in c && "global_step" in c
    ensures "pytorch-lightning_version" in c && "state_dict" in c && "loops" in c
    ensures Keeps(inputs, "global_step") ==> c["global_step"] == Count(globalStep + 1)
    ensures Keeps(inputs, "epoch") ==>
      c["epoch"] == Count(if LoopUtilities.IsMaxLimitReached(globalStep, maxSteps) then currentEpoch else currentEpoch + 1)
    ensures Keeps(inputs, "loops") ==> c["loops"] == StateDict(loops)
  {
    var base := Counters(currentEpoch, globalStep, maxSteps, version, weights, loops);
    var c := WithDatamodule(WithHparams(WithTrainingState(base, weightsOnly, inputs), inputs), inputs);
    CountersKept(base, weightsOnly, inputs, "epoch");
    CountersKept(base, weightsOnly, inputs, "global_step");
    CountersKept(base, weightsOnly, inputs, "loops");
    c
  }

  /** An entry the later writes do not name keeps the value the counters gave it. */
  lemma CountersKept(base: Checkpoint, weightsOnly: bool, inputs: SaveInputs, k: string)
    requires k in base && k != "callbacks" && k != "optimizer_states" && k != "lr_schedulers"
    requires k != HyperParamsKey && k != HyperParamsNameKey
    ensures var c := WithDatamodule(WithHparams(WithTrainingState(base, weightsOnly, inputs), inputs), inputs);
      k in c && (Keeps(inputs, k) ==> c[k] == base[k])
  {
  }

  /** A full checkpoint holds the callback, optimizer and scheduler states; a weights-only one none of them. */
  lemma DumpTrainingState(currentEpoch: int, globalStep: int, maxSteps: int, weightsOnly: bool,
                          version: Obj, weights: Obj, loops: map<string, Obj>, inputs: SaveInputs)
    ensures var c := DumpCheckpoint(currentEpoch, globalStep, maxSteps, weightsOnly, version, weights, loops, inputs);
      && (Keeps(inputs, "callbacks") ==> (!weightsOnly <==> "callbacks" in c))
      && (Keeps(inputs, "optimizer_states") ==> (!weightsOnly <==> "optimizer_states" in c))
      && (Keeps(inputs, "lr_schedulers") ==> (!weightsOnly <==> "lr_schedulers" in c))
      && (Keeps(inputs, "callbacks") && !weightsOnly ==>
            c["callbacks"] == CallbackStates(Trainer.SavedStates(inputs.callbacks)))
  {
  }

  /** The hyperparameters are saved exactly when the model has some. */
  lemma DumpHparams(currentEpoch: int, globalStep: int, maxSteps: int, weightsOnly: bool,
                    version: Obj, weights: Obj, loops: map<string, Obj>, inputs: SaveInputs)
    ensures var c := DumpCheckpoint(currentEpoch, globalStep, maxSteps, weightsOnly, version, weights, loops, inputs);
      Keeps(inputs, HyperParamsKey) ==> (HyperParamsKey in c <==> inputs.hparams.Some?)
  {
  }

  /** A stateful datamodule's state is saved under its class name, whatever else is there. */
  lemma DumpDatamodule(currentEpoch: int, globalStep: int, maxSteps: int, weightsOnly: bool,
                       version: Obj, weights: Obj, loops: map<string, Obj>, inputs: SaveInputs)
    ensures var c := DumpCheckpoint(currentEpoch, globalStep, maxSteps, weightsOnly, version, weights, loops, inputs);
      DatamoduleKey(inputs).Some? ==>
        DatamoduleKey(inputs).value in c && c[DatamoduleKey(inputs).value] == StateDict(inputs.datamodule.value.1)
  {
  }

  /** The entries every checkpoint has: the counters, the version, the weights and the loops. */
  function Counters(currentEpoch: int, globalStep: int, maxSteps: int, version: Obj, weights: Obj, loops: map<string, Obj>): (c: Checkpoint)
    ensures "epoch" in c && "global_step" in c
    ensures "pytorch-lightning_version" in c && "state_dict" in c && "loops" in c
    ensures "callbacks" !in c && "optimizer_states" !in c && "lr_schedulers" !in c
    ensures HyperParamsKey !in c && HyperParamsNameKey !in c
    ensures c["global_step"] == Count(globalStep + 1) && c["loops"] == StateDict(loops)
    ensures c["epoch"] == Count(if LoopUtilities.IsMaxLimitReached(globalStep, maxSteps) then currentEpoch else currentEpoch + 1)
  {
    var epoch := if LoopUtilities.IsMaxLimitReached(globalStep, maxSteps) then currentEpoch else currentEpoch + 1;
    map[
      "epoch" := Count(epoch),
      "global_step" := Count(globalStep + 1),
      "pytorch-lightning_version" := Opaque(version),
      "state_dict" := Opaque(weights),
      "loops" := StateDict(loops)]
  }

  /** Unless only the weights are saved: the callback, optimizer and scheduler states. */
  function WithTrainingState(c: Checkpoint, weightsOnly: bool, inputs: SaveInputs): (r: Checkpoint)
    ensures weightsOnly ==> r == c
    ensures !weightsOnly ==> "callbacks" in r && "optimizer_states" in r && "lr_schedulers" in r
    ensures !weightsOnly ==> r["callbacks"] == CallbackStates(Trainer.SavedStates(inputs.callbacks))
    ensures forall k :: k in c ==> k in r
    ensures forall k :: k in r && k != "callbacks" && k != "optimizer_states" && k != "lr_schedulers" ==> k in c && r[k] == c[k]
  {
    if weightsOnly then c
    else c["callbacks" := CallbackStates(Trainer.SavedStates(inputs.callbacks))]
          ["optimizer_states" := Opaque(inputs.optimizerStates)]
          ["lr_schedulers" := Opaque(inputs.lrSchedulers)]
  }

  /** The hyperparameters, and their name when it is known, when the model has any. */
  function WithHparams(c: Checkpoint, inputs: SaveInputs): (r: Checkpoint)
    ensures inputs.hparams.Some? ==> HyperParamsKey in r
    ensures forall k :: k in c ==> k in r
    ensures forall k :: k in r && k != HyperParamsKey && k != HyperParamsNameKey ==> k in c && r[k] == c[k]
    ensures inputs.hparams.None? ==> r == c
  {
    if inputs.hparams.None? then c
    else
      var named := if inputs.hparamsName.Some? then c[HyperParamsNameKey := Opaque(inputs.hparamsName.value)] else c;
      named[HyperParamsKey := Opaque(inputs.hparams.value)]
  }

  /** A stateful datamodule's state, under its class name. */
  function WithDatamodule(c: Checkpoint, inputs: SaveInputs): (r: Checkpoint)
    ensures forall k :: k in c ==> k in r
    ensures forall k :: k in r && Keeps(inputs, k) ==> k in c && r[k] == c[k]
    ensures DatamoduleKey(inputs).Some? ==>
      DatamoduleKey(inputs).value in r && r[DatamoduleKey(inputs).value] == StateDict(inputs.datamodule.value.1)
  {
    match DatamoduleKey(inputs)
    case Some(k) => c[k := StateDict(inputs.datamodule.value.1)]
    case None => c
  }

  // -------------------------------------------------------- the connector

  /** `a or b` on optional paths: `a` when it is a non-empty string, otherwise `b`. */
  function PathOr(a: Option<string>, b: Option<string>): (r: Option<string>)
    ensures a.Some? && a.value != [] ==> r == a
    ensures (a.None? || a.value == []) ==> r == b
  {
    if a.Some? && a.value != [] then a else b
  }

  /** The checkpoint `resume_start` resumes from: HPC, then fault-tolerant auto-save, then the given path. */
  function ResumePath(hpcPath: Option<string>, autoSavePath: Option<string>, given: Option<string>): Option<string>
  {
    PathOr(PathOr(hpcPath, autoSavePath), given)
  }

  /** What the optimizer-restoring step loaded. */
  datatype Restored = Restored(optimizers: bool, schedulers: bool)

  const NoOptimizerStates := "Trying to restore optimizer state but checkpoint contains only the model."
  const NoSchedulerStates := "Trying to restore learning rate scheduler state but checkpoint contains only the model."

  /**
   * `restore_optimizers_and_schedulers`: nothing without a loaded
   * checkpoint; otherwise optimizer states (when the strategy restores them)
   * and scheduler states must both be present.
   */
  function RestoreOptimizersAndSchedulers(loaded: Checkpoint, strategyRestoresOptimizers: bool): (r: Result<Restored>)
    ensures loaded == map[] ==> r == Ok(Restored(false, false))
    ensures loaded != map[] ==>
      (r.Ok? <==> (strategyRestoresOptimizers ==> "optimizer_states" in loaded) && "lr_schedulers" in loaded)
    ensures loaded != map[] && r.Ok? ==> r.value == Restored(strategyRestoresOptimizers, true)
    ensures r.Err? ==> r.error == KeyError
  {
    if loaded == map[] then Ok(Restored(false, false))
    else if strategyRestoresOptimizers && "optimizer_states" !in loaded then Err(KeyError)
    else if "lr_schedulers" !in loaded then Err(KeyError)
    else Ok(Restored(strategyRestoresOptimizers, true))
  }

  /** A weights-only checkpoint cannot restore schedulers; a full one restores everything. */
  lemma DumpRestoreOptimizers(currentEpoch: int, globalStep: int, maxSteps: int, weightsOnly: bool,
                              version: Obj, weights: Obj, loops: map<string, Obj>, inputs: SaveInputs, strategyRestoresOptimizers: bool)
    requires Keeps(inputs, "optimizer_states") && Keeps(inputs, "lr_schedulers")
    ensures var c := DumpCheckpoint(currentEpoch, globalStep, maxSteps, weightsOnly, version, weights, loops, inputs);
      RestoreOptimizersAndSchedulers(c, strategyRestoresOptimizers)
        == if weightsOnly then Err(KeyError) else Ok(Restored(strategyRestoresOptimizers, true))
  {
  }

  /** A checkpoint whose counters and loop states have the types `dump_checkpoint` writes. */
  predicate WellTyped(c: Checkpoint)
  {
    && ("global_step" in c ==> c["global_step"].Count?)
    && ("epoch" in c ==> c["epoch"].Count? && c["epoch"].n >= 0)
    && ("loops" in c ==> c["loops"].StateDict?)
  }

  /** The entry of the saved loop states that `restore_loops` reloads for a trainer function, if any. */
  function LoopStateKey(fn: Trainer.TrainerFn): (k: Option<string>)
    ensures k.Some? <==> fn != Trainer.TuningFn
  {
    match fn
    case Fitting => Some("fit_loop")
    case ValidatingFn => Some("validate_loop")
    case TestingFn => Some("test_loop")
    case PredictingFn => Some("predict_loop")
    case TuningFn => None
  }

  class CheckpointConnector {
    var resumeCheckpointPath: Option<string>
    var resumeFromCheckpointFitPath: Option<string>
    var loaded: Checkpoint
    const fitLoop: FitLoop.FitLoop

    constructor(fitLoop: FitLoop.FitLoop, resumeFromCheckpoint: Option<string>)
      ensures this.fitLoop == fitLoop
      ensures resumeCheckpointPath.None? && resumeFromCheckpointFitPath == resumeFromCheckpoint && loaded == map[]
    {
      this.fitLoop := fitLoop;
      resumeCheckpointPath := None;
      resumeFromCheckpointFitPath := resumeFromCheckpoint;
      loaded := map[];
    }

    /**
     * `resume_start`: picks the path by priority and, when there is one,
     * loads it, refusing a checkpoint in the outdated schema. `content` is
     * what loading that path yields.
     */
    method ResumeStart(given: Option<string>, hpcPath: Option<string>, autoSavePath: Option<string>,
                       content: Checkpoint, deprecatedKeys: set<string>) returns (r: Result<()>)
      modifies this
      ensures resumeCheckpointPath == ResumePath(hpcPath, autoSavePath, given)
      ensures var p := resumeCheckpointPath;
        && (r.Err? <==> p.Some? && p.value != [] && exists k :: k in deprecatedKeys && k in content)
        && (r.Err? ==> r.error == ValueError)
        && (r.Ok? && p.Some? && p.value != [] ==> loaded == content)
        && (p.None? || p.value == [] ==> loaded == old(loaded))
        && (r.Err? ==> loaded == old(loaded))
      ensures resumeFromCheckpointFitPath == old(resumeFromCheckpointFitPath)
    {
      resumeCheckpointPath := ResumePath(hpcPath, autoSavePath, given);
      var path := resumeCheckpointPath;
      if path.None? || path.value == [] {
        return Ok(());
      }
      if exists k :: k in deprecatedKeys && k in content {
        return Err(ValueError);
      }
      loaded := content;
      r := Ok(());
    }

    /**
     * `resume_end`: forgets the resume path and the loaded checkpoint; while
     * fitting, also the deprecated `resume_from_checkpoint` path when that is
     * the one that was resumed.
     */
    method ResumeEnd(fn: Trainer.TrainerFn)
      modifies this
      ensures resumeCheckpointPath.None? && loaded == map[]
      ensures resumeFromCheckpointFitPath ==
        if fn == Trainer.Fitting && old(resumeCheckpointPath) == old(resumeFromCheckpointFitPath) then None
        else old(resumeFromCheckpointFitPath)
    {
      if fn == Trainer.Fitting && resumeCheckpointPath == resumeFromCheckpointFitPath {
        resumeFromCheckpointFitPath := None;
      }
      resumeCheckpointPath := None;
      loaded := map[];
    }

    /**
     * `restore_loops`: sets the global step and the completed-epoch count
     * from the checkpoint's counters; when it also saved the loops' states,
     * the running function's loop reloads its own (a missing one is a
     * KeyError), and for fitting that replaces the epoch progress, so the
     * reloaded count is what the `max_epochs` check sees: a current epoch
     * past `max_epochs` is refused unless there is no epoch limit. Nothing
     * happens without a loaded checkpoint. `restoredProgress` is the epoch
     * progress the fit loop's `load_state_dict` reads from its saved state;
     * that reload also marks the fit loop as restarting.
     */
    method RestoreLoops(fn: Trainer.TrainerFn, restoredProgress: Obj -> Progress) returns (r: Result<()>)
      requires WellTyped(loaded)
      modifies fitLoop
      ensures loaded == map[] ==> r.Ok? && fitLoop.globalStep == old(fitLoop.globalStep) && fitLoop.epochProgress == old(fitLoop.epochProgress)
      ensures loaded != map[] && ("global_step" !in loaded || "epoch" !in loaded) ==> r == Err(KeyError)
      ensures loaded != map[] && "global_step" in loaded ==> fitLoop.globalStep == loaded["global_step"].n
      ensures loaded != map[] && "global_step" in loaded && "epoch" in loaded ==>
        var counted := old(fitLoop.epochProgress).(current := old(fitLoop.epochProgress).current.(completed := loaded["epoch"].n));
        var key := LoopStateKey(fn);
        var missing := "loops" in loaded && key.Some? && key.value !in loaded["loops"].state;
        && (missing ==> r == Err(KeyError) && fitLoop.epochProgress == counted)
        && (!missing && "loops" in loaded && fn == Trainer.Fitting ==>
              fitLoop.epochProgress == restoredProgress(loaded["loops"].state["fit_loop"]))
        && (!missing && ("loops" !in loaded || fn != Trainer.Fitting) ==> fitLoop.epochProgress == counted)
        && (!missing ==> (r.Err? <==>
              fn == Trainer.Fitting && fitLoop.maxEpochs != -1 && fitLoop.epochProgress.current.completed > fitLoop.maxEpochs))
        && (!missing && r.Err? ==> r.error.Misconfiguration?)
      ensures "global_step" !in loaded ==> fitLoop.globalStep == old(fitLoop.globalStep)
      ensures "epoch" !in loaded ==> fitLoop.epochProgress == old(fitLoop.epochProgress)
      ensures fitLoop.maxEpochs == old(fitLoop.maxEpochs) && fitLoop.maxSteps == old(fitLoop.maxSteps)
      ensures fitLoop.minEpochs == old(fitLoop.minEpochs) && fitLoop.minSteps == old(fitLoop.minSteps)
      ensures var reloaded := loaded != map[] && "global_step" in loaded && "epoch" in loaded && "loops" in loaded
          && fn == Trainer.Fitting && "fit_loop" in loaded["loops"].state;
        fitLoop.restarting == (old(fitLoop.restarting) || reloaded)
      ensures fitLoop.outputs == old(fitLoop.outputs)
    {
      if loaded == map[] {
        return Ok(());
      }
      if "global_step" !in loaded {
        return Err(KeyError);
      }
      fitLoop.globalStep := loaded["global_step"].n;
      if "epoch" !in loaded {
        return Err(KeyError);
      }
      var epoch: nat := loaded["epoch"].n;
      fitLoop.epochProgress := fitLoop.epochProgress.(current := fitLoop.epochProgress.current.(completed := epoch));
      if "loops" in loaded {
        var states := loaded["loops"].state;
        var key := LoopStateKey(fn);
        if key.Some? {
          if key.value !in states {
            return Err(KeyError);
          }
          if fn == Trainer.Fitting {
            fitLoop.epochProgress := restoredProgress(states[key.value]);
            fitLoop.restarting := true;
          }
        }
      }
      if fn != Trainer.Fitting {
        return Ok(());
      }
      if fitLoop.maxEpochs != -1 && fitLoop.epochProgress.current.completed > fitLoop.maxEpochs {
        return Err(Misconfiguration("You restored a checkpoint with a current_epoch past max_epochs."));
      }
      r := Ok(());
    }
  }

  /**
   * Restoring a saved checkpoint gives the loops the counters it recorded:
   * the step after the saved one and, unless the step limit was reached, the
   * epoch after the saved one.
   */
  lemma DumpRecordsCounters(currentEpoch: nat, globalStep: int, maxSteps: int, weightsOnly: bool,
                            version: Obj, weights: Obj, loops: map<string, Obj>, inputs: SaveInputs)
    requires Keeps(inputs, "global_step") && Keeps(inputs, "epoch")
    ensures var c := DumpCheckpoint(currentEpoch, globalStep, maxSteps, weightsOnly, version, weights, loops, inputs);
      && WellTyped(c) && c != map[]
      && c["global_step"].n == globalStep + 1
      && c["epoch"].n == (if maxSteps != -1 && globalStep >= maxSteps then currentEpoch else currentEpoch + 1)
  {
  }

  /** Resuming prefers the HPC checkpoint whenever there is one. */
  lemma ResumePrefersHpc(hpcPath: string, autoSavePath: Option<string>, given: Option<string>)
    requires hpcPath != []
    ensures ResumePath(Some(hpcPath), autoSavePath, given) == Some(hpcPath)
  {
  }

  /** Without an HPC or auto-saved checkpoint, the given path is used as is. */
  lemma ResumeFallsBackToGiven(given: Option<string>)
    ensures ResumePath(None, None, given) == given
  {
  }
}
