/**
 * The loop over the evaluation dataloaders
 * (pi_ml/loops/dataloader/evaluation_loop.py): how many dataloaders there
 * are, when evaluation is skipped, what `reset`, `advance` and `on_run_end`
 * keep, the search for a metric in nested result dicts, and the layout of
 * the printed results table.
 *
 * The base class (pi_ml/loops/dataloader/dataloader_loop.py) is not part of
 * this model: whether it considers all dataloaders processed is an input.
 * Hooks, devices and the rich console are left out; the plain-text table is
 * modelled as a sequence of lines whose cells are not yet formatted.
 */
module EvaluationLoop {
  import opened Wrappers
  import opened PyText
  import opened Progress
  import Trainer

  type Metrics = map<string, Num>

  // ------------------------------------------------------- dataloaders

  /** An element of the dataloaders the trainer holds: one dataloader, or a list or tuple of them. */
  datatype Item = One(loader: Obj) | Group(loaders: seq<Obj>)

  /**
   * `num_dataloaders`: the length of the stage's dataloaders, or of their
   * first element when that is a list or tuple. The `dataloaders` property
   * raises a RuntimeError when the trainer holds none, so the `None` branch
   * of `num_dataloaders` is never taken.
   */
  function NumDataloaders(testing: bool, testLoaders: Option<seq<Item>>, valLoaders: Option<seq<Item>>): (r: Result<nat>)
    ensures var d := if testing then testLoaders else valLoaders;
      && (r.Err? <==> d.None?)
      && (r.Err? ==> r.error == RuntimeError)
      && (r.Ok? && d.value != [] && d.value[0].Group? ==> r.value == |d.value[0].loaders|)
      && (r.Ok? && (d.value == [] || d.value[0].One?) ==> r.value == |d.value|)
  {
    var d := if testing then testLoaders else valLoaders;
    if d.None? then Err(RuntimeError)
    else if |d.value| > 0 && d.value[0].Group? then Ok(|d.value[0].loaders|)
    else Ok(|d.value|)
  }

  /** The per-dataloader batch limits the trainer holds: a list, or (in principle) one int for all. */
  datatype MaxBatches = Each(counts: seq<Num>) | Same(count: Num)

  /** `_get_max_batches`: the test counts while testing, else the sanity-check counts while sanity checking, else the validation counts. */
  function GetMaxBatches(stage: Option<Trainer.RunningStage>, numTest: MaxBatches, numSanity: MaxBatches, numVal: MaxBatches): (m: MaxBatches)
    ensures stage == Some(Trainer.Testing) ==> m == numTest
    ensures stage == Some(Trainer.SanityChecking) ==> m == numSanity
    ensures stage != Some(Trainer.Testing) && stage != Some(Trainer.SanityChecking) ==> m == numVal
  {
    if stage == Some(Trainer.Testing) then numTest
    else if stage == Some(Trainer.SanityChecking) then numSanity
    else numVal
  }

  /** Python `a + b` on the numbers a batch count can be. */
  function Add(a: Num, b: Num): (c: Num)
    ensures a.Int? && b.Int? ==> c == Int(a.i + b.i)
    ensures (a.Inf? && !b.NaN?) || (b.Inf? && !a.NaN?) ==> c.Inf?
  {
    if a.NaN? || b.NaN? then NaN
    else if a.Inf? || b.Inf? then Inf
    else if a.Int? && b.Int? then Int(a.i + b.i)
    else Float((if a.Int? then a.i as real else a.r) + (if b.Int? then b.i as real else b.r))
  }

  /** Python `sum(xs)`, which starts from the int 0. */
  function Sum(xs: seq<Num>): Num
  {
    if xs == [] then Int(0) else Add(Sum(xs[..|xs| - 1]), xs[|xs| - 1])
  }

  /** `skip`: evaluation is skipped when the limits sum to 0; an int limit cannot be summed. */
  function Skip(m: MaxBatches): (r: Result<bool>)
    ensures r.Err? <==> m.Same?
    ensures r.Err? ==> r.error == TypeError
  {
    if m.Same? then Err(TypeError) else Ok(Sum(m.counts).IsZero())
  }

  /** Batch counts as `_reset_eval_dataloader` produces them: non-negative ints or infinity. */
  predicate Counts(xs: seq<Num>)
  {
    forall i :: 0 <= i < |xs| ==> (xs[i].Int? && xs[i].i >= 0) || xs[i].Inf?
  }

  /** Summing batch counts gives a batch count. */
  lemma {:induction false} SumCounts(xs: seq<Num>)
    requires Counts(xs)
    ensures Sum(xs).Inf? || (Sum(xs).Int? && Sum(xs).i >= 0)
    ensures Sum(xs).Int? ==> forall i :: 0 <= i < |xs| ==> xs[i].Int? && xs[i].i <= Sum(xs).i
  {
    if xs != [] {
      var init := xs[..|xs| - 1];
      assert Counts(init) by {
        assert forall i :: 0 <= i < |init| ==> init[i] == xs[i];
      }
      SumCounts(init);
      var last := xs[|xs| - 1];
      assert last.Inf? || (last.Int? && last.i >= 0);
      assert Sum(xs) == Add(Sum(init), last);
      if Sum(xs).Int? {
        assert Sum(init).Int? && last.Int?;
        assert forall i :: 0 <= i < |init| ==> init[i] == xs[i];
      }
    }
  }

  /** Over batch counts, the sum is 0 exactly when every dataloader has no batch to run. */
  lemma SkipIffNoBatches(xs: seq<Num>)
    requires Counts(xs)
    ensures Sum(xs).IsZero() <==> forall i :: 0 <= i < |xs| ==> xs[i] == Int(0)
  {
    SumCounts(xs);
    if forall i :: 0 <= i < |xs| ==> xs[i] == Int(0) {
      AllZeroSum(xs);
    }
  }

  /** The total of the finite counts, added from the first dataloader on. */
  function FiniteTotal(xs: seq<Num>): int
  {
    if xs == [] then 0 else (if xs[0].Int? then xs[0].i else 0) + FiniteTotal(xs[1..])
  }

  lemma {:induction false} FiniteTotalSnoc(xs: seq<Num>, x: Num)
    ensures FiniteTotal(xs + [x]) == FiniteTotal(xs) + (if x.Int? then x.i else 0)
  {
    if xs == [] {
      assert (xs + [x])[1..] == [];
    } else {
      assert (xs + [x])[1..] == xs[1..] + [x];
      FiniteTotalSnoc(xs[1..], x);
    }
  }

  /**
   * Over batch counts, `sum` is infinite exactly when some dataloader is
   * infinite, and otherwise the total of the per-dataloader counts.
   */
  lemma {:induction false} SumOfCounts(xs: seq<Num>)
    requires Counts(xs)
    ensures (exists i :: 0 <= i < |xs| && xs[i].Inf?) ==> Sum(xs) == Inf
    ensures (forall i :: 0 <= i < |xs| ==> !xs[i].Inf?) ==> Sum(xs) == Int(FiniteTotal(xs))
  {
    if xs != [] {
      var init := xs[..|xs| - 1];
      var last := xs[|xs| - 1];
      assert forall i :: 0 <= i < |init| ==> init[i] == xs[i];
      assert Counts(init);
      SumOfCounts(init);
      assert init + [last] == xs;
      FiniteTotalSnoc(init, last);
      if exists i :: 0 <= i < |xs| && xs[i].Inf? {
        var i :| 0 <= i < |xs| && xs[i].Inf?;
        if i < |init| {
          assert init[i].Inf?;
        }
      }
    }
  }

  lemma {:induction false} AllZeroSum(xs: seq<Num>)
    requires forall i :: 0 <= i < |xs| ==> xs[i] == Int(0)
    ensures Sum(xs) == Int(0)
  {
    if xs != [] {
      var init := xs[..|xs| - 1];
      assert forall i :: 0 <= i < |init| ==> init[i] == xs[i];
      AllZeroSum(init);
    }
  }

  /** `[x] * n`. */
  function Repeat<T>(x: T, n: nat): (r: seq<T>)
    ensures |r| == n && forall i :: 0 <= i < n ==> r[i] == x
  {
    seq(n, _ => x)
  }

  /** What `_evaluation_epoch_end` hands to the epoch-end hook. */
  datatype EpochEndArg = SingleOutput(output: Obj) | AllOutputs(outputs: seq<Obj>)

  /** With a single dataloader the hook gets its outputs, not a list of one. */
  function EpochEndArgument(outputs: seq<Obj>, numDataloaders: nat): (a: EpochEndArg)
    ensures a.SingleOutput? <==> |outputs| > 0 && numDataloaders == 1
    ensures a.SingleOutput? ==> a.output == outputs[0]
    ensures a.AllOutputs? ==> a.outputs == outputs
  {
    if |outputs| > 0 && numDataloaders == 1 then SingleOutput(outputs[0]) else AllOutputs(outputs)
  }

  /** The keyword arguments `advance` passes to the epoch loop: the dataloader index when there are several. */
  function AdvanceKwargs(numDataloaders: nat, dataloaderIdx: nat): (kw: seq<(string, nat)>)
    ensures numDataloaders > 1 ==> kw == [("dataloader_idx", dataloaderIdx)]
    ensures numDataloaders <= 1 ==> kw == []
  {
    if numDataloaders > 1 then [("dataloader_idx", dataloaderIdx)] else []
  }

  class EvaluationLoop {
    var outputs: seq<Obj>
    var loggedOutputs: seq<Metrics>
    var maxBatches: MaxBatches
    var hasRun: bool
    var dataloaderProgress: Progress
    const verbose: bool

    constructor(verbose: bool)
      ensures this.verbose == verbose
      ensures outputs == [] && loggedOutputs == [] && maxBatches == Each([]) && !hasRun
      ensures dataloaderProgress == ZeroProgress
    {
      this.verbose := verbose;
      outputs, loggedOutputs := [], [];
      maxBatches := Each([]);
      hasRun := false;
      dataloaderProgress := ZeroProgress;
    }

    /**
     * `reset`: takes the current batch limits (an int one expanded to one
     * per dataloader, which fails with RuntimeError when the trainer has no
     * dataloaders) and clears the outputs; the base loop then resets its
     * dataloader progress (`afterBaseReset` is what that leaves), and
     * outside fitting a loop that is already done resets that progress for
     * the new run. Deciding `done` sums the limits afresh, which fails for
     * an int limit. `numDataloaders` is None when the trainer has none.
     */
    method Reset(current: MaxBatches, numDataloaders: Option<nat>, afterBaseReset: Progress,
                 baseDone: bool, fn: Trainer.TrainerFn) returns (r: Result<()>)
      modifies this
      ensures outputs == [] && loggedOutputs == []
      ensures current.Each? || numDataloaders.None? ==> maxBatches == current
      ensures current.Same? && numDataloaders.Some? ==> maxBatches == Each(Repeat(current.count, numDataloaders.value))
      ensures current.Same? && numDataloaders.None? ==> r == Err(RuntimeError) && dataloaderProgress == old(dataloaderProgress)
      ensures current.Same? && numDataloaders.Some? && !baseDone ==> r == Err(TypeError) && dataloaderProgress == afterBaseReset
      ensures r.Err? <==> current.Same? && (numDataloaders.None? || !baseDone)
      ensures r.Ok? && (baseDone || Skip(current).value) && fn != Trainer.Fitting ==>
        dataloaderProgress == afterBaseReset.ResetOnRun()
      ensures r.Ok? && !((baseDone || Skip(current).value) && fn != Trainer.Fitting) ==>
        dataloaderProgress == afterBaseReset
      ensures hasRun == old(hasRun)
    {
      maxBatches := current;
      outputs := [];
      loggedOutputs := [];
      if current.Same? {
        if numDataloaders.None? {
          return Err(RuntimeError);
        }
        maxBatches := Each(Repeat(current.count, numDataloaders.value));
      }
      dataloaderProgress := afterBaseReset;
      var done := baseDone;
      if !done {
        var skip :- Skip(current);
        done := skip;
      }
      if done && fn != Trainer.Fitting {
        dataloaderProgress := dataloaderProgress.ResetOnRun();
      }
      r := Ok(());
    }

    /** `advance`, after the epoch loop has run: keeps its outputs and, outside sanity checking, notes that evaluation ran. */
    method Advance(dlOutputs: Obj, sanityChecking: bool)
      modifies this
      ensures outputs == old(outputs) + [dlOutputs]
      ensures hasRun == (old(hasRun) || !sanityChecking)
      ensures loggedOutputs == old(loggedOutputs) && maxBatches == old(maxBatches)
      ensures dataloaderProgress == old(dataloaderProgress)
    {
      outputs := outputs + [dlOutputs];
      if !sanityChecking {
        hasRun := true;
      }
    }

    /**
     * `on_advance_end`: keeps the metrics logged at the end of this
     * dataloader; the base loop then counts the dataloader in its progress
     * (`afterBaseAdvanceEnd` is what that leaves).
     */
    method OnAdvanceEnd(logged: Metrics, afterBaseAdvanceEnd: Progress)
      modifies this
      ensures loggedOutputs == old(loggedOutputs) + [logged]
      ensures dataloaderProgress == afterBaseAdvanceEnd
      ensures outputs == old(outputs) && hasRun == old(hasRun) && maxBatches == old(maxBatches)
    {
      loggedOutputs := loggedOutputs + [logged];
      dataloaderProgress := afterBaseAdvanceEnd;
    }

    /**
     * `on_run_end`: every dataloader's logged metrics take in the metrics
     * logged at epoch end (which win on shared keys); the buffers are emptied
     * and the merged list returned.
     */
    method OnRunEnd(epochEnd: Metrics) returns (logged: seq<Metrics>)
      modifies this
      ensures |logged| == |old(loggedOutputs)|
      ensures forall i :: 0 <= i < |logged| ==> logged[i] == old(loggedOutputs)[i] + epochEnd
      ensures outputs == [] && loggedOutputs == []
      ensures hasRun == old(hasRun)
      ensures maxBatches == old(maxBatches) && dataloaderProgress == old(dataloaderProgress)
    {
      var pending := loggedOutputs;
      outputs := [];
      loggedOutputs := [];
      logged := [];
      for i := 0 to |pending|
        invariant |logged| == i
        invariant forall j :: 0 <= j < i ==> logged[j] == pending[j] + epochEnd
      {
        logged := logged + [pending[i] + epochEnd];
      }
    }
  }

  /** After merging, each dataloader reports every epoch-end metric with its epoch-end value, and keeps its own other metrics. */
  lemma EpochEndWins(d: Metrics, epochEnd: Metrics, k: string)
    ensures k in epochEnd ==> k in d + epochEnd && (d + epochEnd)[k] == epochEnd[k]
    ensures k in d && k !in epochEnd ==> k in d + epochEnd && (d + epochEnd)[k] == d[k]
    ensures k in d + epochEnd <==> k in d || k in epochEnd
  {
  }

  // ------------------------------------------------------ result dicts

  /** A logged value: a scalar, or a nested dict with its keys in insertion order. */
  datatype Value = Scalar(x: Num) | Dict(entries: seq<(string, Value)>)

  /**
   * `_find_value` on the entries of `d` from index `i`: every value stored
   * under the target key, in order, descending into nested dicts stored
   * under other keys.
   */
  function FindValue(d: Value, i: nat, target: string): seq<Value>
    requires d.Dict? && i <= |d.entries|
    decreases d, |d.entries| - i
  {
    if i == |d.entries| then []
    else
      var v := d.entries[i].1;
      var here := if d.entries[i].0 == target then [v] else if v.Dict? then FindValue(v, 0, target) else [];
      here + FindValue(d, i + 1, target)
  }

  /** The target key occurs from entry `i` on, at the top level or inside a nested dict. */
  predicate Occurs(d: Value, i: nat, target: string)
    requires d.Dict? && i <= |d.entries|
    decreases d, 1
  {
    exists j :: i <= j < |d.entries| && OccursIn(d, j, target)
  }

  predicate OccursIn(d: Value, j: nat, target: string)
    requires d.Dict? && j < |d.entries|
    decreases d, 0
  {
    d.entries[j].0 == target || (d.entries[j].1.Dict? && Occurs(d.entries[j].1, 0, target))
  }

  /** `_find_value` yields something exactly when the key occurs somewhere. */
  lemma {:induction false} FindValueFinds(d: Value, i: nat, target: string)
    requires d.Dict? && i <= |d.entries|
    ensures FindValue(d, i, target) != [] <==> Occurs(d, i, target)
    decreases d, |d.entries| - i
  {
    if i < |d.entries| {
      var v := d.entries[i].1;
      FindValueFinds(d, i + 1, target);
      if v.Dict? {
        FindValueFinds(v, 0, target);
      }
      if Occurs(d, i, target) {
        var j :| i <= j < |d.entries| && OccursIn(d, j, target);
        if j > i {
          assert Occurs(d, i + 1, target);
        }
      }
      if Occurs(d, i + 1, target) {
        var j :| i + 1 <= j < |d.entries| && OccursIn(d, j, target);
        assert i <= j;
      }
      if OccursIn(d, i, target) {
        assert Occurs(d, i, target);
      }
    }
  }

  /** A value stored directly under the target key is among the values found. */
  lemma {:induction false} FindValueTopLevel(d: Value, i: nat, j: nat, target: string)
    requires d.Dict? && i <= j < |d.entries| && d.entries[j].0 == target
    ensures d.entries[j].1 in FindValue(d, i, target)
    decreases |d.entries| - i
  {
    if i < j {
      FindValueTopLevel(d, i + 1, j, target);
    }
  }

  /** The keys of a dict, in order. */
  function Keys(d: Value): (ks: seq<string>)
    requires d.Dict?
    ensures |ks| == |d.entries| && forall j :: 0 <= j < |ks| ==> ks[j] == d.entries[j].0
  {
    seq(|d.entries|, j requires 0 <= j < |d.entries| => d.entries[j].0)
  }

  /**
   * `_get_keys`: the top-level keys, unless some value is a dict; then the
   * keys of every value, which fails on a value that is not a dict.
   */
  function GetKeys(d: Value): (r: Result<seq<string>>)
    requires d.Dict?
    ensures (forall j :: 0 <= j < |d.entries| ==> d.entries[j].1.Scalar?) ==> r == Ok(Keys(d))
    ensures (exists j :: 0 <= j < |d.entries| && d.entries[j].1.Dict?) ==>
      (r.Ok? <==> forall j :: 0 <= j < |d.entries| ==> d.entries[j].1.Dict?)
    ensures r.Err? ==> r.error == TypeError
  {
    if exists j :: 0 <= j < |d.entries| && d.entries[j].1.Dict? then NestedKeys(d, 0)
    else Ok(Keys(d))
  }

  /** The keys of the nested dicts from entry `i` on, in order. */
  function NestedKeys(d: Value, i: nat): (r: Result<seq<string>>)
    requires d.Dict? && i <= |d.entries|
    ensures r.Ok? <==> forall j :: i <= j < |d.entries| ==> d.entries[j].1.Dict?
    ensures r.Err? ==> r.error == TypeError
    decreases |d.entries| - i
  {
    if i == |d.entries| then Ok([])
    else
      var v := d.entries[i].1;
      if v.Scalar? then Err(TypeError)
      else
        var rest :- NestedKeys(d, i + 1);
        Ok(Keys(v) + rest)
  }

  // --------------------------------------------------- the printed table

  const DataloaderSuffix := "/dataloader_idx_"

  /** `k.split("/dataloader_idx_")[0]`: the key without the dataloader suffix. */
  function StripSuffix(k: string): (r: string)
    ensures !Contains(r, DataloaderSuffix)
  {
    SplitPiecesFree(k, DataloaderSuffix);
    Split(k, DataloaderSuffix)[0]
  }

  /** A key without the suffix is kept as is. */
  lemma StripSuffixUnchanged(k: string)
    requires !Contains(k, DataloaderSuffix)
    ensures StripSuffix(k) == k
  {
    SplitNoSeparator(k, DataloaderSuffix);
  }

  /** The keys of some entries, in order. */
  function KeysOf(es: seq<(string, Value)>): (ks: seq<string>)
    ensures |ks| == |es| && forall j :: 0 <= j < |es| ==> ks[j] == es[j].0
  {
    seq(|es|, j requires 0 <= j < |es| => es[j].0)
  }

  /** No key appears twice. */
  predicate Distinct(es: seq<(string, Value)>)
  {
    forall i, j :: 0 <= i < j < |es| ==> es[i].0 != es[j].0
  }

  /** The position of key `k` among the entries, if present. */
  function IndexOf(es: seq<(string, Value)>, k: string): (r: Option<nat>)
    ensures r.Some? ==> r.value < |es| && es[r.value].0 == k
    ensures r.None? ==> k !in KeysOf(es)
  {
    if es == [] then None
    else if es[|es| - 1].0 == k then Some(|es| - 1)
    else
      var r := IndexOf(es[..|es| - 1], k);
      assert KeysOf(es) == KeysOf(es[..|es| - 1]) + [es[|es| - 1].0];
      r
  }

  /** `d[k] = v` on an insertion-ordered dict: replaces the value in place, or appends the entry. */
  function Put(es: seq<(string, Value)>, k: string, v: Value): (r: seq<(string, Value)>)
    ensures forall x :: x in KeysOf(r) <==> x == k || x in KeysOf(es)
    ensures (k, v) in r
    ensures Distinct(es) ==> Distinct(r)
  {
    match IndexOf(es, k)
    case Some(j) =>
      var r := es[j := (k, v)];
      assert KeysOf(r) == KeysOf(es);
      assert r[j] == (k, v);
      r
    case None =>
      var r := es + [(k, v)];
      assert KeysOf(r) == KeysOf(es) + [k];
      assert r[|es|] == (k, v);
      r
  }

  /** The keys with their dataloader suffix removed. */
  function StrippedKeys(es: seq<(string, Value)>): (ks: seq<string>)
    ensures |ks| == |es| && forall j :: 0 <= j < |es| ==> ks[j] == StripSuffix(es[j].0)
  {
    seq(|es|, j requires 0 <= j < |es| => StripSuffix(es[j].0))
  }

  /**
   * `{k.split("/dataloader_idx_")[0]: v for k, v in result.items()}`: one
   * entry per stripped key, the value of its last source entry winning.
   */
  function StripEntries(es: seq<(string, Value)>): (r: seq<(string, Value)>)
    ensures Distinct(r)
    ensures forall x :: x in KeysOf(r) <==> x in StrippedKeys(es)
  {
    if es == [] then []
    else
      var init := es[..|es| - 1];
      var last := es[|es| - 1];
      assert StrippedKeys(es) == StrippedKeys(init) + [StripSuffix(last.0)];
      Put(StripEntries(init), StripSuffix(last.0), last.1)
  }

  /** The last entry of a stripped key is the one kept. */
  lemma StripEntriesLastWins(es: seq<(string, Value)>)
    requires es != []
    ensures (StripSuffix(es[|es| - 1].0), es[|es| - 1].1) in StripEntries(es)
  {
  }

  /** No key of a stripped result carries the dataloader suffix. */
  lemma StripEntriesNoSuffix(es: seq<(string, Value)>, x: string)
    requires x in KeysOf(StripEntries(es))
    ensures !Contains(x, DataloaderSuffix)
  {
    var j :| 0 <= j < |es| && StrippedKeys(es)[j] == x;
  }

  // ---------------------------------------------------- sorting names

  /** Python's `<` on strings: lexicographic by code point. */
  predicate Below(a: string, b: string)
  {
    if a == [] then b != []
    else if b == [] then false
    else a[0] < b[0] || (a[0] == b[0] && Below(a[1..], b[1..]))
  }

  lemma {:induction false} BelowIrreflexive(a: string)
    ensures !Below(a, a)
  {
    if a != [] {
      BelowIrreflexive(a[1..]);
    }
  }

  /** Python's `<` on strings is a strict total order. */
  lemma {:induction false} BelowTotal(a: string, b: string)
    ensures a == b || Below(a, b) || Below(b, a)
    ensures !(Below(a, b) && Below(b, a))
  {
    if a != [] && b != [] {
      BelowTotal(a[1..], b[1..]);
      if a[0] == b[0] && a[1..] == b[1..] {
        assert a == [a[0]] + a[1..] && b == [b[0]] + b[1..];
      }
    }
  }

  lemma {:induction false} BelowTrans(a: string, b: string, c: string)
    requires Below(a, b) && Below(b, c)
    ensures Below(a, c)
  {
    if a != [] && b != [] && c != [] && a[0] == b[0] == c[0] {
      BelowTrans(a[1..], b[1..], c[1..]);
    }
  }

  predicate Increasing(s: seq<string>)
  {
    forall i, j :: 0 <= i < j < |s| ==> Below(s[i], s[j])
  }

  /** Inserts `x` into an increasing list, once. */
  function Insert(x: string, s: seq<string>): (r: seq<string>)
    requires Increasing(s)
    ensures Increasing(r)
    ensures forall y :: y in r <==> y == x || y in s
  {
    if s == [] then [x]
    else if x == s[0] then s
    else if Below(x, s[0]) then
      InsertFront(x, s);
      [x] + s
    else
      BelowTotal(x, s[0]);
      var rest := Insert(x, s[1..]);
      assert forall y :: y in rest ==> Below(s[0], y);
      [s[0]] + rest
  }

  lemma InsertFront(x: string, s: seq<string>)
    requires Increasing(s) && s != [] && Below(x, s[0])
    ensures Increasing([x] + s)
  {
    forall j | 0 < j < |s|
      ensures Below(x, s[j])
    {
      BelowTrans(x, s[0], s[j]);
    }
  }

  /** `sorted(set(xs))`: the distinct strings of `xs` in increasing order. */
  function SortedDistinct(xs: seq<string>): (r: seq<string>)
    ensures Increasing(r)
    ensures forall y :: y in r <==> y in xs
  {
    if xs == [] then []
    else
      var init := xs[..|xs| - 1];
      assert xs == init + [xs[|xs| - 1]];
      Insert(xs[|xs| - 1], SortedDistinct(init))
  }

  /** An increasing list has no duplicates. */
  lemma IncreasingDistinct(s: seq<string>, i: nat, j: nat)
    requires Increasing(s) && i < j < |s|
    ensures s[i] != s[j]
  {
    BelowIrreflexive(s[i]);
  }

  // ---------------------------------------------------- table layout

  /** The column titles: "DataLoader 0", "DataLoader 1", ... */
  function Headers(n: nat): (hs: seq<string>)
    ensures |hs| == n && forall i :: 0 <= i < n ==> hs[i] == "DataLoader " + IntToString(i)
  {
    seq(n, i => "DataLoader " + IntToString(i))
  }

  function UpperChar(c: char): char
  {
    if 'a' <= c <= 'z' then (c as int - 'a' as int + 'A' as int) as char else c
  }

  /** `s.capitalize()` on ASCII letters: the first upper-cased, the rest lower-cased. */
  function Capitalize(s: string): (r: string)
    ensures |r| == |s|
    ensures s != [] ==> r[0] == UpperChar(s[0]) && r[1..] == Lower(s[1..])
  {
    if s == [] then [] else [UpperChar(s[0])] + Lower(s[1..])
  }

  /** The length of the longest string. */
  function MaxLen(xs: seq<string>): (m: nat)
    ensures forall i :: 0 <= i < |xs| ==> |xs[i]| <= m
    ensures xs != [] ==> exists i :: 0 <= i < |xs| && |xs[i]| == m
  {
    if xs == [] then 0
    else
      var m := MaxLen(xs[..|xs| - 1]);
      assert forall i :: 0 <= i < |xs| - 1 ==> xs[..|xs| - 1][i] == xs[i];
      if |xs[|xs| - 1]| > m then |xs[|xs| - 1]| else m
  }

  /** The terminal width: the reported columns, or 120 when that is 0. */
  function TermSize(columns: nat): (t: nat)
    ensures t >= 1
    ensures columns != 0 ==> t == columns
  {
    if columns == 0 then 120 else columns
  }

  /**
   * `max_length`: the longest name or header, at least 25, at most half
   * the terminal (rounded down); a ValueError when there is nothing to
   * measure.
   */
  function MaxLength(names: seq<string>, termSize: nat): (r: Result<nat>)
    ensures r.Err? <==> names == []
    ensures r.Err? ==> r.error == ValueError
    ensures r.Ok? ==> 2 * r.value <= termSize
    ensures r.Ok? && MaxLen(names) <= 25 && 50 <= termSize ==> r.value == 25
    ensures r.Ok? && 2 * MaxLen(names) <= termSize ==> r.value >= MaxLen(names)
  {
    if names == [] then Err(ValueError)
    else
      var m := if MaxLen(names) > 25 then MaxLen(names) else 25;
      Ok(if 2 * m <= termSize then m else termSize / 2)
  }

  /** `num_cols`: how many dataloader columns fit beside the metric column. */
  function NumCols(termSize: nat, maxLength: nat): (r: Result<int>)
    ensures r.Err? <==> maxLength == 0
    ensures r.Err? ==> r.error == ZeroDivisionError
    ensures r.Ok? && 2 * maxLength <= termSize ==> r.value >= 1
    ensures r.Ok? && maxLength <= termSize ==> r.value * maxLength <= termSize - maxLength < (r.value + 1) * maxLength
  {
    if maxLength == 0 then Err(ZeroDivisionError)
    else if termSize >= maxLength then
      var q := (termSize - maxLength) / maxLength;
      assert q * maxLength <= termSize - maxLength;
      Ok(q)
    else
      Ok(Trunc((termSize as real - maxLength as real) / maxLength as real))
  }

  /** The column groups `range(0, len(headers), num_cols)` cuts a row into. */
  function Chunks<T>(xs: seq<T>, n: nat): (r: seq<seq<T>>)
    requires n >= 1
    ensures forall k :: 0 <= k < |r| ==> 1 <= |r[k]| <= n && |r[k]| <= |xs|
    decreases |xs|
  {
    if xs == [] then []
    else if |xs| <= n then [xs]
    else [xs[..n]] + Chunks(xs[n..], n)
  }

  /** Rows of the same width are cut into the same number of groups, group for group of the same width. */
  lemma {:induction false} ChunksSameCount<T, U>(xs: seq<T>, ys: seq<U>, n: nat)
    requires n >= 1 && |xs| == |ys|
    ensures |Chunks(xs, n)| == |Chunks(ys, n)|
    ensures forall k :: 0 <= k < |Chunks(xs, n)| ==> |Chunks(xs, n)[k]| == |Chunks(ys, n)[k]|
    decreases |xs|
  {
    if |xs| > n {
      ChunksSameCount(xs[n..], ys[n..], n);
      assert Chunks(xs, n)[1..] == Chunks(xs[n..], n);
      assert Chunks(ys, n)[1..] == Chunks(ys[n..], n);
      forall k | 1 <= k < |Chunks(xs, n)|
        ensures |Chunks(xs, n)[k]| == |Chunks(ys, n)[k]|
      {
        assert Chunks(xs, n)[k] == Chunks(xs[n..], n)[k - 1];
        assert Chunks(ys, n)[k] == Chunks(ys[n..], n)[k - 1];
      }
    }
  }

  /** Some group holds two or more columns exactly when groups may and there are two columns to put in one. */
  lemma ChunksWide<T>(xs: seq<T>, n: nat)
    requires n >= 1
    ensures (exists k :: 0 <= k < |Chunks(xs, n)| && |Chunks(xs, n)[k]| >= 2) <==> n >= 2 && |xs| >= 2
  {
    if n >= 2 && |xs| >= 2 {
      assert |Chunks(xs, n)[0]| >= 2;
    }
  }

  function Concat<T>(xss: seq<seq<T>>): seq<T>
  {
    if xss == [] then [] else xss[0] + Concat(xss[1..])
  }

  /** The column groups together are all the columns, in order. */
  lemma {:induction false} ChunksConcat<T>(xs: seq<T>, n: nat)
    requires n >= 1
    ensures Concat(Chunks(xs, n)) == xs
    decreases |xs|
  {
    if |xs| > n {
      ChunksConcat(xs[n..], n);
      assert xs == xs[..n] + xs[n..];
      assert Chunks(xs, n)[1..] == Chunks(xs[n..], n);
    } else if xs != [] {
      assert Concat(Chunks(xs, n)) == xs + Concat<T>([]);
    }
  }

  /** A table cell: a found value (printed with `str`), or blank. */
  datatype Cell = Shown(v: Value) | Blank

  /** The cell for one metric of one result: the first value found, or blank. */
  function CellOf(result: Value, metric: string): (c: Cell)
    requires result.Dict?
    ensures c.Blank? <==> !Occurs(result, 0, metric)
    ensures c.Shown? ==> c.v in FindValue(result, 0, metric)
  {
    FindValueFinds(result, 0, metric);
    var found := FindValue(result, 0, metric);
    if found != [] then Shown(found[0]) else Blank
  }

  /** A line of the plain-text table. */
  datatype Line = Bar | Header(title: string, columns: seq<string>) | Row(name: string, cells: seq<Cell>)

  /** The names printed in the metric column, joined. */
  function Names(ls: seq<Line>): string
  {
    if ls == [] then [] else (if ls[0].Row? then ls[0].name else []) + Names(ls[1..])
  }

  /**
   * `row_format.format(name, *args)` with `fields` centred fields: a field
   * left without an argument is an IndexError, and arguments beyond the
   * last field are ignored.
   */
  function FormatRow(name: string, args: seq<Cell>, fields: nat): (r: Result<Line>)
    requires fields >= 1
    ensures r.Err? <==> |args| + 1 < fields
    ensures r.Err? ==> r.error == IndexError
    ensures r.Ok? ==> r.value.Row? && r.value.name == name && |r.value.cells| == fields - 1
    ensures r.Ok? ==> r.value.cells == args[..fields - 1]
  {
    if |args| + 1 < fields then Err(IndexError) else Ok(Row(name, args[..fields - 1]))
  }

  /**
   * The overflow lines of a metric name longer than `half`: full-width
   * pieces beside the row's cells, then the rest with every column blank.
   */
  function WrapLines(m: string, cells: seq<Cell>, half: nat): seq<Line>
    requires half >= 1
    decreases |m|
  {
    if |m| <= half then [Row(m, Repeat(Blank, |cells|))]
    else [Row(m[..half], cells)] + WrapLines(m[half..], cells, half)
  }

  /** The lines of one metric: a name longer than half the terminal wraps. */
  function MetricLines(metric: string, cells: seq<Cell>, half: nat): seq<Line>
    requires half >= 1
  {
    if |metric| <= half then [Row(metric, cells)] else WrapLines(metric, cells, half)
  }

  /**
   * Wrapping keeps the whole name, cut into pieces of exactly `half`
   * characters that carry the row's cells, and a last, non-empty piece of
   * at most `half` characters whose cells are all blank; every line has as
   * many cells as the row.
   */
  lemma {:induction false} WrapLinesSpec(m: string, cells: seq<Cell>, half: nat)
    requires half >= 1
    ensures var ls := WrapLines(m, cells, half);
      && Names(ls) == m
      && |ls| >= 1
      && ls[|ls| - 1].Row? && ls[|ls| - 1].cells == Repeat(Blank, |cells|) && |ls[|ls| - 1].name| <= half
      && (m != [] ==> ls[|ls| - 1].name != [])
      && (forall i :: 0 <= i < |ls| - 1 ==> ls[i].Row? && ls[i].cells == cells && |ls[i].name| == half)
      && forall i :: 0 <= i < |ls| ==> ls[i].Row? && |ls[i].cells| == |cells|
    decreases |m|
  {
    var ls := WrapLines(m, cells, half);
    if |m| > half {
      var rest := WrapLines(m[half..], cells, half);
      WrapLinesSpec(m[half..], cells, half);
      assert ls[1..] == rest;
      assert m == m[..half] + m[half..];
      forall i | 1 <= i < |ls|
        ensures ls[i].Row? && |ls[i].cells| == |cells|
        ensures i < |ls| - 1 ==> ls[i].cells == cells && |ls[i].name| == half
      {
        assert ls[i] == rest[i - 1];
      }
    } else {
      assert Names(ls) == m + Names([]);
    }
  }

  /**
   * The overflow lines as `_print_results` writes them: the last piece is
   * formatted with the name and a single blank, against one field per
   * column of the table.
   */
  function WrapLinesAsWritten(m: string, cells: seq<Cell>, half: nat): (r: Result<seq<Line>>)
    requires half >= 1
    decreases |m|
  {
    if |m| <= half then
      var last :- FormatRow(m, [Blank], |cells| + 1);
      Ok([last])
    else
      // a full-width piece has an argument for every field
      var piece := FormatRow(m[..half], cells, |cells| + 1).value;
      var rest :- WrapLinesAsWritten(m[half..], cells, half);
      Ok([piece] + rest)
  }

  /**
   * As written, wrapping fails with IndexError exactly when the table has
   * two or more result columns; with at most one it gives the corrected
   * lines.
   */
  lemma {:induction false} WrapLinesAsWrittenAgrees(m: string, cells: seq<Cell>, half: nat)
    requires half >= 1
    ensures var r := WrapLinesAsWritten(m, cells, half);
      && (r.Err? <==> |cells| >= 2)
      && (r.Err? ==> r.error == IndexError)
      && (r.Ok? ==> r.value == WrapLines(m, cells, half))
    decreases |m|
  {
    if |m| > half {
      WrapLinesAsWrittenAgrees(m[half..], cells, half);
      assert cells[..|cells|] == cells;
    } else if |cells| <= 1 {
      assert [Blank][..|cells|] == Repeat(Blank, |cells|);
    }
  }

  /** The lines of one metric as written: a wrapped name beside two or more columns is an IndexError. */
  function MetricLinesAsWritten(metric: string, cells: seq<Cell>, half: nat): (r: Result<seq<Line>>)
    requires half >= 1
    ensures r.Err? <==> |metric| > half && |cells| >= 2
    ensures r.Err? ==> r.error == IndexError
    ensures r.Ok? ==> r.value == MetricLines(metric, cells, half)
  {
    if |metric| <= half then
      var line := FormatRow(metric, cells, |cells| + 1).value;
      assert cells[..|cells|] == cells;
      Ok([line])
    else
      WrapLinesAsWrittenAgrees(metric, cells, half);
      WrapLinesAsWritten(metric, cells, half)
  }

  /** The wrapping loop of `_print_results` for one metric, as written. */
  method WrapMetric(metric: string, cells: seq<Cell>, half: nat) returns (r: Result<seq<Line>>)
    requires half >= 1
    ensures r == MetricLinesAsWritten(metric, cells, half)
  {
    if |metric| <= half {
      var line := FormatRow(metric, cells, |cells| + 1).value;
      return Ok([line]);
    }
    var m := metric;
    var ls := [];
    assert WrapLinesAsWritten(m, cells, half).Ok? ==> ls + WrapLinesAsWritten(m, cells, half).value == WrapLinesAsWritten(m, cells, half).value;
    while |m| > half
      invariant var rest := WrapLinesAsWritten(m, cells, half);
        WrapLinesAsWritten(metric, cells, half) == if rest.Ok? then Ok(ls + rest.value) else rest
      decreases |m|
    {
      var line := FormatRow(m[..half], cells, |cells| + 1).value;
      var rest := WrapLinesAsWritten(m[half..], cells, half);
      assert WrapLinesAsWritten(m, cells, half) == if rest.Ok? then Ok([line] + rest.value) else rest;
      assert rest.Ok? ==> ls + ([line] + rest.value) == (ls + [line]) + rest.value;
      ls := ls + [line];
      m := m[half..];
    }
    var last :- FormatRow(m, [Blank], |cells| + 1);
    r := Ok(ls + [last]);
  }

  /** One table: the title and column headers between bars, the metric lines, and a closing bar. */
  function TableLines(title: string, columns: seq<string>, metrics: seq<string>, rows: seq<seq<Cell>>, half: nat): (ls: seq<Line>)
    requires half >= 1 && |rows| == |metrics|
    ensures |ls| >= 4 && ls[0] == Bar && ls[1] == Header(title, columns) && ls[2] == Bar && ls[|ls| - 1] == Bar
  {
    [Bar, Header(title, columns), Bar] + BodyLines(metrics, rows, half) + [Bar]
  }

  function BodyLines(metrics: seq<string>, rows: seq<seq<Cell>>, half: nat): seq<Line>
    requires half >= 1 && |rows| == |metrics|
  {
    if metrics == [] then [] else MetricLines(metrics[0], rows[0], half) + BodyLines(metrics[1..], rows[1..], half)
  }

  /** Some metric name is longer than `half` in a row of two or more cells. */
  predicate WrapsBeside(metrics: seq<string>, rows: seq<seq<Cell>>, half: nat)
    requires |rows| == |metrics|
  {
    exists m :: 0 <= m < |metrics| && |metrics[m]| > half && |rows[m]| >= 2
  }

  /** The metric lines of one table as written: the first metric whose wrapping fails stops the table. */
  function BodyLinesAsWritten(metrics: seq<string>, rows: seq<seq<Cell>>, half: nat): (r: Result<seq<Line>>)
    requires half >= 1 && |rows| == |metrics|
    ensures r.Err? <==> WrapsBeside(metrics, rows, half)
    ensures r.Err? ==> r.error == IndexError
    ensures r.Ok? ==> r.value == BodyLines(metrics, rows, half)
  {
    if metrics == [] then Ok([])
    else
      var first :- MetricLinesAsWritten(metrics[0], rows[0], half);
      var rest :- BodyLinesAsWritten(metrics[1..], rows[1..], half);
      assert forall m :: 0 < m < |metrics| ==> metrics[m] == metrics[1..][m - 1] && rows[m] == rows[1..][m - 1];
      Ok(first + rest)
  }

  /** Every metric's cells, one per result. */
  function Rows(results: seq<Value>, metrics: seq<string>): (rows: seq<seq<Cell>>)
    requires forall r :: r in results ==> r.Dict?
    ensures |rows| == |metrics| && forall m :: 0 <= m < |metrics| ==> |rows[m]| == |results|
    ensures forall m, r :: 0 <= m < |metrics| && 0 <= r < |results| ==> rows[m][r] == CellOf(results[r], metrics[m])
  {
    seq(|metrics|, m requires 0 <= m < |metrics| =>
      seq(|results|, r requires 0 <= r < |results| => CellOf(results[r], metrics[m])))
  }

  /** The keys of every result, in order. */
  function AllKeys(results: seq<Value>): (r: Result<seq<string>>)
    requires forall x :: x in results ==> x.Dict?
    ensures r.Err? ==> r.error == TypeError
    ensures (forall x :: x in results ==> forall j :: 0 <= j < |x.entries| ==> x.entries[j].1.Scalar?) ==>
      r.Ok? && forall i, j :: 0 <= i < |results| && 0 <= j < |results[i].entries| ==> results[i].entries[j].0 in r.value
  {
    if results == [] then Ok([])
    else
      var first :- GetKeys(results[0]);
      var rest :- AllKeys(results[1..]);
      assert forall i :: 0 < i < |results| ==> results[i] == results[1..][i - 1];
      Ok(first + rest)
  }

  /** The metric names of the results, sorted and without repeats. */
  function MetricNames(results: seq<Value>): (r: Result<seq<string>>)
    requires forall x :: x in results ==> x.Dict?
    ensures r.Ok? ==> Increasing(r.value)
    ensures r.Err? ==> r.error == TypeError
    ensures r.Ok? ==> forall y :: AllKeys(results).Ok? && (y in r.value <==> y in AllKeys(results).value)
  {
    var all :- AllKeys(results);
    Ok(SortedDistinct(all))
  }

  /** The `k`-th group of every row: `table_rows` for the `k`-th table. */
  function Column(rowChunks: seq<seq<seq<Cell>>>, k: nat): (c: seq<seq<Cell>>)
    requires forall m :: 0 <= m < |rowChunks| ==> k < |rowChunks[m]|
    ensures |c| == |rowChunks| && forall m :: 0 <= m < |c| ==> c[m] == rowChunks[m][k]
  {
    seq(|rowChunks|, m requires 0 <= m < |rowChunks| => rowChunks[m][k])
  }

  /** The plain-text tables, one per group of columns. */
  function Tables(title: string, hChunks: seq<seq<string>>, metrics: seq<string>, rowChunks: seq<seq<seq<Cell>>>, half: nat): (ts: seq<seq<Line>>)
    requires half >= 1 && |rowChunks| == |metrics|
    requires forall m :: 0 <= m < |rowChunks| ==> |rowChunks[m]| == |hChunks|
    ensures |ts| == |hChunks|
    ensures forall k :: 0 <= k < |ts| ==> |ts[k]| >= 4 && ts[k][1] == Header(title, hChunks[k])
  {
    seq(|hChunks|, k requires 0 <= k < |hChunks| => TableLines(title, hChunks[k], metrics, Column(rowChunks, k), half))
  }

  /** The tables from the `k`-th group on are its table, then those after it. */
  lemma TablesFrom(title: string, hChunks: seq<seq<string>>, metrics: seq<string>, rowChunks: seq<seq<seq<Cell>>>,
                   half: nat, k: nat)
    requires half >= 1 && |rowChunks| == |metrics| && k < |hChunks|
    requires forall m :: 0 <= m < |rowChunks| ==> |rowChunks[m]| == |hChunks|
    ensures var ts := Tables(title, hChunks, metrics, rowChunks, half);
      ts[k..] == [[Bar, Header(title, hChunks[k]), Bar] + BodyLines(metrics, Column(rowChunks, k), half) + [Bar]] + ts[k + 1..]
  {
    var ts := Tables(title, hChunks, metrics, rowChunks, half);
    assert ts[k..] == [ts[k]] + ts[k + 1..];
  }

  /**
   * The tables from the `k`-th group on, as written: they are built and
   * printed one after another, and the first that fails stops the rest.
   */
  function TablesAsWritten(title: string, hChunks: seq<seq<string>>, metrics: seq<string>, rowChunks: seq<seq<seq<Cell>>>,
                           half: nat, k: nat): (r: Result<seq<seq<Line>>>)
    requires half >= 1 && |rowChunks| == |metrics| && k <= |hChunks|
    requires forall m :: 0 <= m < |rowChunks| ==> |rowChunks[m]| == |hChunks|
    ensures r.Err? <==> exists j :: k <= j < |hChunks| && WrapsBeside(metrics, Column(rowChunks, j), half)
    ensures r.Err? ==> r.error == IndexError
    ensures r.Ok? ==> r.value == Tables(title, hChunks, metrics, rowChunks, half)[k..]
    decreases |hChunks| - k
  {
    if k == |hChunks| then Ok([])
    else
      var body :- BodyLinesAsWritten(metrics, Column(rowChunks, k), half);
      var rest :- TablesAsWritten(title, hChunks, metrics, rowChunks, half, k + 1);
      TablesFrom(title, hChunks, metrics, rowChunks, half, k);
      Ok([[Bar, Header(title, hChunks[k]), Bar] + body + [Bar]] + rest)
  }

  lemma RowChunksCount(rows: seq<seq<Cell>>, headers: seq<string>, n: nat)
    requires n >= 1 && forall m :: 0 <= m < |rows| ==> |rows[m]| == |headers|
    ensures forall m :: 0 <= m < |rows| ==> |Chunks(rows[m], n)| == |Chunks(headers, n)|
  {
    forall m | 0 <= m < |rows|
      ensures |Chunks(rows[m], n)| == |Chunks(headers, n)|
    {
      ChunksSameCount(rows[m], headers, n);
    }
  }

  /** The results with the dataloader suffix removed from their keys. */
  function Stripped(results: seq<seq<(string, Value)>>): (rs: seq<Value>)
    ensures |rs| == |results| && forall i :: 0 <= i < |rs| ==> rs[i] == Dict(StripEntries(results[i]))
  {
    seq(|results|, i requires 0 <= i < |results| => Dict(StripEntries(results[i])))
  }

  /** The number of column groups a table gets, when the layout can be computed. */
  function Layout(results: seq<seq<(string, Value)>>, columns: nat): (r: Result<(seq<string>, nat, nat)>)
    ensures r.Ok? ==> r.value.1 >= 1 && r.value.2 >= 1
    ensures results == [] ==> r == Err(ValueError)
  {
    var metrics :- MetricNames(Stripped(results));
    var term := TermSize(columns);
    var maxLength :- MaxLength(metrics + Headers(|results|), term);
    var numCols :- NumCols(term, maxLength);
    Ok((metrics, numCols, term / 2))
  }

  /**
   * The tables `_print_results` prints in plain text: the results' keys
   * without the dataloader suffix, the sorted metric names, one column per
   * result, cut into groups of `num_cols` columns.
   */
  function PrintLayout(results: seq<seq<(string, Value)>>, stage: string, columns: nat): (r: Result<seq<seq<Line>>>)
    ensures results == [] ==> r == Err(ValueError)
    ensures r.Err? <==> Layout(results, columns).Err?
  {
    var (metrics, numCols, half) :- Layout(results, columns);
    var headers := Headers(|results|);
    var rows := Rows(Stripped(results), metrics);
    RowChunksCount(rows, headers, numCols);
    Ok(Tables(Capitalize(stage + " Metric"), Chunks(headers, numCols), metrics,
      seq(|rows|, m requires 0 <= m < |rows| => Chunks(rows[m], numCols)), half))
  }

  /**
   * The tables as `_print_results` writes them: the same layout, but a
   * wrapped metric name in a table of two or more columns is an
   * IndexError.
   */
  function PrintLayoutAsWritten(results: seq<seq<(string, Value)>>, stage: string, columns: nat): (r: Result<seq<seq<Line>>>)
    ensures results == [] ==> r == Err(ValueError)
  {
    var (metrics, numCols, half) :- Layout(results, columns);
    var headers := Headers(|results|);
    var rows := Rows(Stripped(results), metrics);
    RowChunksCount(rows, headers, numCols);
    TablesAsWritten(Capitalize(stage + " Metric"), Chunks(headers, numCols), metrics,
      seq(|rows|, m requires 0 <= m < |rows| => Chunks(rows[m], numCols)), half, 0)
  }

  /**
   * As written, printing fails with IndexError exactly when some metric
   * name is longer than half the terminal and a table has room for two or
   * more of at least two results; otherwise it prints the corrected tables.
   */
  lemma PrintLayoutAsWrittenFails(results: seq<seq<(string, Value)>>, stage: string, columns: nat)
    ensures Layout(results, columns).Err? ==> PrintLayoutAsWritten(results, stage, columns) == PrintLayout(results, stage, columns)
    ensures Layout(results, columns).Ok? ==>
      var (metrics, numCols, half) := Layout(results, columns).value;
      var w := PrintLayoutAsWritten(results, stage, columns);
      && (w.Err? <==> (exists m :: 0 <= m < |metrics| && |metrics[m]| > half) && numCols >= 2 && |results| >= 2)
      && (w.Err? ==> w.error == IndexError)
      && (w.Ok? ==> w == PrintLayout(results, stage, columns))
  {
    if Layout(results, columns).Ok? {
      var (metrics, numCols, half) := Layout(results, columns).value;
      var headers := Headers(|results|);
      var rows := Rows(Stripped(results), metrics);
      RowChunksCount(rows, headers, numCols);
      var hChunks := Chunks(headers, numCols);
      var rowChunks := seq(|rows|, m requires 0 <= m < |rows| => Chunks(rows[m], numCols));
      var title := Capitalize(stage + " Metric");
      assert PrintLayoutAsWritten(results, stage, columns) == TablesAsWritten(title, hChunks, metrics, rowChunks, half, 0);
      forall m | 0 <= m < |rows|
        ensures forall j :: 0 <= j < |hChunks| ==> |rowChunks[m][j]| == |hChunks[j]|
      {
        ChunksSameCount(rows[m], headers, numCols);
      }
      ChunksWide(headers, numCols);
    }
  }

  /** A name shorter than the dataloader suffix has none to strip. */
  lemma ShortNameUnstripped(k: string)
    requires |k| < |DataloaderSuffix|
    ensures StripSuffix(k) == k
  {
    assert !Contains(k, DataloaderSuffix);
    StripSuffixUnchanged(k);
  }

  /** A single entry whose key has no suffix is kept as it is. */
  lemma StripSingle(k: string, v: Value)
    requires StripSuffix(k) == k
    ensures StripEntries([(k, v)]) == [(k, v)]
  {
    assert [(k, v)][..0] == [];
    assert IndexOf([], k) == None;
  }

  /** The results of the example below, without suffixes to strip: each logs "ab". */
  lemma AbResultsStripped(v: Num)
    ensures var stripped := Stripped([[("ab", Scalar(v))], [("ab", Scalar(v))]]);
      && AllKeys(stripped).Ok? && "ab" in AllKeys(stripped).value
  {
    var e := [("ab", Scalar(v))];
    ShortNameUnstripped("ab");
    StripSingle("ab", Scalar(v));
    StrippedPair(e);
    ScalarKeys(Dict(e));
  }

  /** Two results whose entries need no stripping are kept as they are. */
  lemma StrippedPair(e: seq<(string, Value)>)
    requires StripEntries(e) == e
    ensures Stripped([e, e]) == [Dict(e), Dict(e)]
  {
  }

  /** Two copies of a dict holding one plain value: their keys are collected without error. */
  lemma ScalarKeys(d: Value)
    requires d.Dict? && |d.entries| == 1 && d.entries[0].1.Scalar?
    ensures AllKeys([d, d]).Ok? && d.entries[0].0 in AllKeys([d, d]).value
  {
    assert forall x :: x in [d, d] ==> x == d;
  }

  /**
   * Two results that both log "ab", on a terminal three columns wide: the
   * name is longer than half the width (1) and the table has room for two
   * columns, so printing as written fails where the corrected layout prints.
   */
  lemma NarrowTerminalIndexError(v: Num)
    ensures var results := [[("ab", Scalar(v))], [("ab", Scalar(v))]];
      && PrintLayoutAsWritten(results, "test", 3) == Err(IndexError)
      && PrintLayout(results, "test", 3).Ok?
  {
    var results := [[("ab", Scalar(v))], [("ab", Scalar(v))]];
    AbResultsStripped(v);
    var metrics := MetricNames(Stripped(results)).value;
    assert "ab" in metrics;
    assert MaxLength(metrics + Headers(2), 3) == Ok(1);
    assert Layout(results, 3) == Ok((metrics, 2, 1));
    PrintLayoutAsWrittenFails(results, "test", 3);
  }

  /** The header line of a table. */
  function HeaderOf(table: seq<Line>): seq<string>
  {
    if |table| >= 2 && table[1].Header? then table[1].columns else []
  }

  /** The tables show every dataloader's column once, in order, each table at least one. */
  lemma PrintLayoutColumns(results: seq<seq<(string, Value)>>, stage: string, columns: nat)
    requires PrintLayout(results, stage, columns).Ok?
    ensures var ts := PrintLayout(results, stage, columns).value;
      && Concat(seq(|ts|, k requires 0 <= k < |ts| => HeaderOf(ts[k]))) == Headers(|results|)
      && forall k :: 0 <= k < |ts| ==> HeaderOf(ts[k]) != []
  {
    var (metrics, numCols, half) := Layout(results, columns).value;
    var headers := Headers(|results|);
    var rows := Rows(Stripped(results), metrics);
    RowChunksCount(rows, headers, numCols);
    var hChunks := Chunks(headers, numCols);
    var rowChunks := seq(|rows|, m requires 0 <= m < |rows| => Chunks(rows[m], numCols));
    var ts := Tables(Capitalize(stage + " Metric"), hChunks, metrics, rowChunks, half);
    assert PrintLayout(results, stage, columns).value == ts;
    TablesHeaders(Capitalize(stage + " Metric"), hChunks, metrics, rowChunks, half);
    ChunksConcat(headers, numCols);
  }

  /** Each table's header line holds its group of column names. */
  lemma TablesHeaders(title: string, hChunks: seq<seq<string>>, metrics: seq<string>, rowChunks: seq<seq<seq<Cell>>>, half: nat)
    requires half >= 1 && |rowChunks| == |metrics|
    requires forall m :: 0 <= m < |rowChunks| ==> |rowChunks[m]| == |hChunks|
    ensures var ts := Tables(title, hChunks, metrics, rowChunks, half);
      seq(|ts|, k requires 0 <= k < |ts| => HeaderOf(ts[k])) == hChunks
  {
    var ts := Tables(title, hChunks, metrics, rowChunks, half);
    assert forall k :: 0 <= k < |ts| ==> HeaderOf(ts[k]) == hChunks[k];
  }
}
