/**
 * Helpers shared by the training loops (pi_ml/loops/utilities.py): the
 * hidden-state check for truncated back-propagation through time, defaulting
 * of the loop limits, the keyword arguments of `training_step`, the choice of
 * the active optimizer and resetting a loop's progress counters.
 */
module LoopUtilities {
  import opened Wrappers
  import opened Progress

  // ------------------------------------------------------------ hiddens

  /** What `training_step` returned: a dict, a bare loss tensor, None, or any other object. */
  datatype StepOutput =
    | DictOutput(entries: map<string, Obj>)
    | TensorOutput(loss: Obj)
    | NoOutput
    | OtherOutput(value: Obj)

  predicate HasHiddens(out: StepOutput)
  {
    out.DictOutput? && "hiddens" in out.entries
  }

  const HiddensButNoTbptt := "You returned \"hiddens\" in your `training_step` but `truncated_bptt_steps` is disabled"
  const TbpttButNoHiddens := "You enabled `truncated_bptt_steps` but did not `return {..., \"hiddens\": ...}` in your `training_step`"

  /**
   * `_extract_hiddens`: with truncated BPTT off (`truncated_bptt_steps` is 0)
   * no hidden state may be returned; with it on (any other value) one must be.
   */
  function ExtractHiddens(out: StepOutput, tbpttSteps: int): (r: Result<Option<Obj>>)
    ensures tbpttSteps == 0 ==> (r.Ok? <==> !HasHiddens(out))
    ensures tbpttSteps == 0 && r.Ok? ==> r.value.None?
    ensures tbpttSteps != 0 ==> (r.Ok? <==> HasHiddens(out))
    ensures tbpttSteps != 0 && r.Ok? ==> r.value == Some(out.entries["hiddens"])
    ensures r.Err? ==> r.error == Misconfiguration(if tbpttSteps == 0 then HiddensButNoTbptt else TbpttButNoHiddens)
  {
    if tbpttSteps == 0 then
      if HasHiddens(out) then Err(Misconfiguration(HiddensButNoTbptt)) else Ok(None)
    else if !HasHiddens(out) then Err(Misconfiguration(TbpttButNoHiddens))
    else Ok(Some(out.entries["hiddens"]))
  }

  /** The four cases exercised for `_extract_hiddens`. */
  lemma ExtractHiddensCases(h: Obj, other: Obj)
    ensures ExtractHiddens(TensorOutput(other), 0) == Ok(None)
    ensures ExtractHiddens(DictOutput(map["hiddens" := h]), 2) == Ok(Some(h))
    ensures ExtractHiddens(DictOutput(map["hiddens" := h]), 0) == Err(Misconfiguration(HiddensButNoTbptt))
    ensures ExtractHiddens(NoOutput, 1) == Err(Misconfiguration(TbpttButNoHiddens))
  {
  }

  // --------------------------------------------------------- loop limits

  /** The five limits of a fit: None is `Option.None`, "no limit" is -1. */
  datatype LoopLimits = LoopLimits(
    minSteps: Option<int>,
    maxSteps: int,
    minEpochs: Option<int>,
    maxEpochs: Option<int>,
    maxTimeSet: bool)

  /**
   * `_parse_loop_limits`: an unset max_epochs becomes 1000 when neither a
   * step limit nor a time limit is given, otherwise -1 (unlimited); an unset
   * min_epochs becomes 1 only when nothing else bounds the run from below.
   */
  function ParseLoopLimits(l: LoopLimits): (r: LoopLimits)
    ensures r.maxEpochs.Some?
    ensures l.maxEpochs.Some? ==> r.maxEpochs == l.maxEpochs
    ensures l.maxEpochs.None? && l.maxSteps == -1 && !l.maxTimeSet ==> r.maxEpochs == Some(1000)
    ensures l.maxEpochs.None? && (l.maxSteps != -1 || l.maxTimeSet) ==> r.maxEpochs == Some(-1)
    ensures r.minEpochs == (if l.minEpochs.None? && l.minSteps.None? && !l.maxTimeSet then Some(1) else l.minEpochs)
    ensures r.minSteps == l.minSteps && r.maxSteps == l.maxSteps && r.maxTimeSet == l.maxTimeSet
  {
    var maxEpochs :=
      if l.maxEpochs.Some? then l.maxEpochs
      else if l.maxSteps == -1 && !l.maxTimeSet then Some(1000)
      else Some(-1);
    var minEpochs := if l.minEpochs.None? && l.minSteps.None? && !l.maxTimeSet then Some(1) else l.minEpochs;
    l.(maxEpochs := maxEpochs, minEpochs := minEpochs)
  }

  /** Parsing limits that were already parsed changes nothing. */
  lemma ParseLoopLimitsIdempotent(l: LoopLimits)
    ensures ParseLoopLimits(ParseLoopLimits(l)) == ParseLoopLimits(l)
  {
  }

  /** `_is_max_limit_reached`: -1 disables the limit. */
  function IsMaxLimitReached(current: int, maximum: int): (r: bool)
    ensures maximum == -1 ==> !r
    ensures maximum != -1 ==> (r <==> current >= maximum)
  {
    maximum != -1 && current >= maximum
  }

  /** Once a limit is reached it stays reached as the counter grows. */
  lemma MaxLimitMonotone(current: int, later: int, maximum: int)
    requires current <= later && IsMaxLimitReached(current, maximum)
    ensures IsMaxLimitReached(later, maximum)
  {
  }

  // ------------------------------------------------- training_step kwargs

  /** What signature inspection reports about `training_step`. */
  datatype StepSignature = StepSignature(acceptsBatchIdx: bool, acceptsOptimizerIdx: bool)

  /** A value passed to `training_step`. */
  datatype StepArg =
    | BatchArg(batch: Obj)
    | IndexArg(index: int)
    | OptimizerIndexArg(optIdx: Option<int>)
    | HiddensArg(hiddens: Option<Obj>)

  function Keys(kwargs: seq<(string, StepArg)>): (ks: seq<string>)
    ensures |ks| == |kwargs|
    ensures forall i :: 0 <= i < |kwargs| ==> ks[i] == kwargs[i].0
  {
    if kwargs == [] then [] else [kwargs[0].0] + Keys(kwargs[1..])
  }

  /** The value stored under `key` in an ordered dict, if any. */
  function Lookup(kwargs: seq<(string, StepArg)>, key: string): Option<StepArg>
  {
    if kwargs == [] then None
    else if kwargs[0].0 == key then Some(kwargs[0].1)
    else Lookup(kwargs[1..], key)
  }

  /** The combinations of optimizer count, signature and optimization mode that are refused. */
  predicate OptimizerIdxMismatch(sig: StepSignature, numOptimizers: nat, automatic: bool)
  {
    numOptimizers > 1 && sig.acceptsOptimizerIdx != automatic
  }

  /**
   * `_build_training_step_kwargs`: the batch always comes first, then the
   * batch index when the hook takes one, the optimizer index when several
   * optimizers are driven automatically, and the hidden state when truncated
   * BPTT is enabled.
   */
  method BuildTrainingStepKwargs(
    sig: StepSignature, numOptimizers: nat, automatic: bool, tbpttSteps: int,
    batch: Obj, batchIdx: int, optIdx: Option<int>, hiddens: Option<Obj>)
    returns (r: Result<seq<(string, StepArg)>>)
    ensures r.Err? <==> OptimizerIdxMismatch(sig, numOptimizers, automatic)
    ensures r.Err? ==> r.error == ValueError
    ensures r.Ok? ==> |r.value| >= 1 && r.value[0] == ("batch", BatchArg(batch))
    ensures r.Ok? ==>
      Keys(r.value)
        == ["batch"]
        + (if sig.acceptsBatchIdx then ["batch_idx"] else [])
        + (if numOptimizers > 1 && sig.acceptsOptimizerIdx then ["optimizer_idx"] else [])
        + (if tbpttSteps > 0 then ["hiddens"] else [])
    ensures r.Ok? ==> (Lookup(r.value, "batch_idx") == if sig.acceptsBatchIdx then Some(IndexArg(batchIdx)) else None)
    ensures r.Ok? ==> (Lookup(r.value, "optimizer_idx") == if numOptimizers > 1 && sig.acceptsOptimizerIdx then Some(OptimizerIndexArg(optIdx)) else None)
    ensures r.Ok? ==> (Lookup(r.value, "hiddens") == if tbpttSteps > 0 then Some(HiddensArg(hiddens)) else None)
  {
    var first := [("batch", BatchArg(batch))];
    var idxEntry: seq<(string, StepArg)> := [];
    var optEntry: seq<(string, StepArg)> := [];
    var hiddensEntry: seq<(string, StepArg)> := [];
    if sig.acceptsBatchIdx {
      idxEntry := [("batch_idx", IndexArg(batchIdx))];
    }
    if numOptimizers > 1 {
      if sig.acceptsOptimizerIdx {
        if !automatic {
          return Err(ValueError);
        }
        optEntry := [("optimizer_idx", OptimizerIndexArg(optIdx))];
      } else if automatic {
        return Err(ValueError);
      }
    }
    if tbpttSteps > 0 {
      hiddensEntry := [("hiddens", HiddensArg(hiddens))];
    }
    var kwargs := first + idxEntry + optEntry + hiddensEntry;
    KeysAppend(first + idxEntry + optEntry, hiddensEntry);
    KeysAppend(first + idxEntry, optEntry);
    KeysAppend(first, idxEntry);
    assert Keys(first) == ["batch"];
    assert Keys(idxEntry) == if sig.acceptsBatchIdx then ["batch_idx"] else [];
    assert Keys(optEntry) == if numOptimizers > 1 && sig.acceptsOptimizerIdx then ["optimizer_idx"] else [];
    assert Keys(hiddensEntry) == if tbpttSteps > 0 then ["hiddens"] else [];
    LookupsOfKwargs(first, idxEntry, optEntry, hiddensEntry, "batch_idx");
    LookupsOfKwargs(first, idxEntry, optEntry, hiddensEntry, "optimizer_idx");
    LookupsOfKwargs(first, idxEntry, optEntry, hiddensEntry, "hiddens");
    r := Ok(kwargs);
  }

  lemma LookupsOfKwargs(a: seq<(string, StepArg)>, b: seq<(string, StepArg)>, c: seq<(string, StepArg)>, d: seq<(string, StepArg)>, key: string)
    ensures Lookup(a + b + c + d, key)
         == if Lookup(a, key).Some? then Lookup(a, key)
            else if Lookup(b, key).Some? then Lookup(b, key)
            else if Lookup(c, key).Some? then Lookup(c, key)
            else Lookup(d, key)
  {
    LookupAppend(a + b + c, d, key);
    LookupAppend(a + b, c, key);
    LookupAppend(a, b, key);
  }

  lemma KeysAppend(a: seq<(string, StepArg)>, b: seq<(string, StepArg)>)
    ensures Keys(a + b) == Keys(a) + Keys(b)
  {
  }

  /** A key is looked up in the earlier entries first. */
  lemma {:induction false} LookupAppend(a: seq<(string, StepArg)>, b: seq<(string, StepArg)>, key: string)
    ensures Lookup(a + b, key) == if Lookup(a, key).Some? then Lookup(a, key) else Lookup(b, key)
  {
    if a == [] {
      assert a + b == b;
    } else {
      assert (a + b)[1..] == a[1..] + b;
      LookupAppend(a[1..], b, key);
    }
  }

  // --------------------------------------------------- active optimizers

  function Sum(s: seq<int>): int
  {
    if s == [] then 0 else Sum(s[..|s| - 1]) + s[|s| - 1]
  }

  lemma SumPrefixStep(s: seq<int>, i: nat)
    requires i < |s|
    ensures Sum(s[..i + 1]) == Sum(s[..i]) + s[i]
  {
    assert s[..i + 1][..i] == s[..i];
  }

  lemma {:induction false} SumPrefixMonotone(s: seq<int>, i: nat, j: nat)
    requires i <= j <= |s|
    requires forall k :: 0 <= k < |s| ==> s[k] >= 0
    ensures Sum(s[..i]) <= Sum(s[..j])
    decreases j - i
  {
    if i < j {
      SumPrefixMonotone(s, i, j - 1);
      SumPrefixStep(s, j - 1);
    }
  }

  /** `np.cumsum(frequencies)`. */
  function CumSum(freqs: seq<int>): (cs: seq<int>)
    ensures |cs| == |freqs|
    ensures forall i :: 0 <= i < |cs| ==> cs[i] == Sum(freqs[..i + 1])
  {
    if freqs == [] then []
    else
      var cs := CumSum(freqs[..|freqs| - 1]);
      assert freqs[..|freqs| - 1 + 1] == freqs;
      forall i | 0 <= i < |cs|
        ensures cs[i] == Sum(freqs[..i + 1])
      {
        assert freqs[..|freqs| - 1][..i + 1] == freqs[..i + 1];
      }
      cs + [Sum(freqs)]
  }

  /**
   * `np.searchsorted(cs, x, side="right")` on a non-decreasing array: the
   * first index whose entry exceeds `x` (the length when none does).
   */
  function SearchSortedRight(cs: seq<int>, x: int, from: nat): (i: nat)
    requires from <= |cs|
    ensures from <= i <= |cs|
    ensures forall k :: from <= k < i ==> cs[k] <= x
    ensures i < |cs| ==> cs[i] > x
    decreases |cs| - from
  {
    if from == |cs| || cs[from] > x then from else SearchSortedRight(cs, x, from + 1)
  }

  /** The frequencies the optimizers were configured with, as the optimizer loop requires them. */
  predicate ValidFrequencies(freqs: seq<int>, numOptimizers: nat)
  {
    && |freqs| == numOptimizers
    && (forall k :: 0 <= k < |freqs| ==> freqs[k] >= 0)
    && Sum(freqs) > 0
  }

  /**
   * `batch_idx % optimizers_loop_length` on numpy integers: the Python
   * remainder, and 0 (with a warning, not an error) when the frequencies
   * sum to 0.
   */
  function LoopPlace(freqs: seq<int>, batchIdx: int): (place: int)
    requires forall k :: 0 <= k < |freqs| ==> freqs[k] >= 0
    ensures place >= 0
    ensures Sum(freqs) != 0 ==> place == batchIdx % Sum(freqs) && place < Sum(freqs)
    ensures Sum(freqs) == 0 ==> place == 0
  {
    SumPrefixMonotone(freqs, 0, |freqs|);
    assert freqs[..0] == [] && freqs[..|freqs|] == freqs;
    if Sum(freqs) == 0 then 0 else batchIdx % Sum(freqs)
  }

  /**
   * `np.searchsorted(np.cumsum(freqs), place, side="right")`: the block
   * holding `place`, or the number of blocks when the place lies past them.
   */
  function ActiveBlock(freqs: seq<int>, place: int): (idx: nat)
    requires place >= 0
    ensures idx <= |freqs|
    ensures Sum(freqs[..idx]) <= place
    ensures idx < |freqs| ==> place < Sum(freqs[..idx + 1])
  {
    var cs := CumSum(freqs);
    var idx := SearchSortedRight(cs, place, 0);
    assert Sum(freqs[..idx]) <= place by {
      if idx > 0 { assert cs[idx - 1] <= place; }
    }
    idx
  }

  /**
   * `_get_active_optimizers`: without frequencies every optimizer runs, in
   * order; with them, the batches cycle through blocks of `freqs[i]` batches
   * and only the optimizer owning the current block runs. The block found
   * is the first whose cumulative sum exceeds the place in the cycle; when
   * that index has no optimizer (no block holds the place, as with
   * frequencies that sum to 0, or there are fewer optimizers than
   * frequencies), indexing the optimizers is an IndexError.
   */
  function GetActiveOptimizers(optimizers: seq<Obj>, freqs: seq<int>, batchIdx: int): (r: Result<seq<(nat, Obj)>>)
    requires forall k :: 0 <= k < |freqs| ==> freqs[k] >= 0
    ensures freqs == [] ==> r.Ok? && |r.value| == |optimizers| && forall i :: 0 <= i < |r.value| ==> r.value[i] == (i, optimizers[i])
    ensures freqs != [] ==>
      (r.Err? <==> |optimizers| <= |freqs| && Sum(freqs[..|optimizers|]) <= LoopPlace(freqs, batchIdx))
    ensures r.Err? ==> r.error == IndexError
    ensures freqs != [] && r.Ok? ==>
      && |r.value| == 1 && r.value[0].0 < |optimizers| && r.value[0].1 == optimizers[r.value[0].0]
      && r.value[0].0 == ActiveBlock(freqs, LoopPlace(freqs, batchIdx))
  {
    if freqs == [] then Ok(Enumerate(optimizers, 0))
    else OptimizerAtPlace(optimizers, freqs, LoopPlace(freqs, batchIdx))
  }

  /** `optimizers[idx]` for the block `idx` holding `place`, an IndexError when there is no such optimizer. */
  function OptimizerAtPlace(optimizers: seq<Obj>, freqs: seq<int>, place: int): (r: Result<seq<(nat, Obj)>>)
    requires place >= 0
    ensures r.Err? <==> |optimizers| <= |freqs| && Sum(freqs[..|optimizers|]) <= place
    ensures r.Err? ==> r.error == IndexError
    ensures r.Ok? ==>
      && |r.value| == 1 && r.value[0].0 < |optimizers| && r.value[0].1 == optimizers[r.value[0].0]
      && r.value[0].0 == ActiveBlock(freqs, place)
  {
    var idx := ActiveBlock(freqs, place);
    var m := |optimizers|;
    if m <= |freqs| && Sum(freqs[..m]) <= place then
      Err(IndexError)
    else
      SearchPastOptimizers(freqs, place, m);
      Ok([(idx, optimizers[idx])])
  }

  /** The block search only runs past the last optimizer when the blocks before it all end at or before the place. */
  lemma SearchPastOptimizers(freqs: seq<int>, place: int, m: nat)
    requires place >= 0
    ensures var idx := ActiveBlock(freqs, place);
      idx >= m ==> m <= |freqs| && Sum(freqs[..m]) <= place
  {
    var cs := CumSum(freqs);
    var idx := ActiveBlock(freqs, place);
    assert idx == SearchSortedRight(cs, place, 0);
    if idx >= m {
      if m > 0 {
        assert cs[m - 1] <= place;
      } else {
        assert freqs[..0] == [];
      }
    }
  }

  /** `list(enumerate(xs, start))`. */
  function Enumerate(xs: seq<Obj>, start: nat): (r: seq<(nat, Obj)>)
    ensures |r| == |xs| && forall i :: 0 <= i < |r| ==> r[i] == (start + i, xs[i])
  {
    if xs == [] then [] else [(start, xs[0])] + Enumerate(xs[1..], start + 1)
  }

  /**
   * The active optimizer is the one whose block holds the current place in
   * the cycle; no other index has that property.
   */
  lemma ActiveOptimizerUnique(optimizers: seq<Obj>, freqs: seq<int>, batchIdx: int, j: nat)
    requires ValidFrequencies(freqs, |optimizers|) && freqs != []
    requires j < |freqs|
    requires Sum(freqs[..j]) <= batchIdx % Sum(freqs) < Sum(freqs[..j + 1])
    ensures GetActiveOptimizers(optimizers, freqs, batchIdx) == Ok([(j, optimizers[j])])
  {
    ValidFrequenciesChoose(optimizers, freqs, batchIdx);
    var r := GetActiveOptimizers(optimizers, freqs, batchIdx).value;
    BlockUnique(freqs, batchIdx % Sum(freqs), r[0].0, j);
    assert r == [(j, optimizers[j])];
  }

  /** With one positive-sum frequency per optimizer, some optimizer is always chosen. */
  lemma ValidFrequenciesChoose(optimizers: seq<Obj>, freqs: seq<int>, batchIdx: int)
    requires ValidFrequencies(freqs, |optimizers|) && freqs != []
    ensures GetActiveOptimizers(optimizers, freqs, batchIdx).Ok?
    ensures GetActiveOptimizers(optimizers, freqs, batchIdx).value[0].0 < |freqs|
  {
    assert freqs[..|optimizers|] == freqs;
  }

  /** Frequencies that are all 0, one per optimizer, leave every block empty: an IndexError. */
  lemma ZeroFrequenciesIndexError(optimizers: seq<Obj>, freqs: seq<int>, batchIdx: int)
    requires freqs != [] && |freqs| == |optimizers|
    requires forall k :: 0 <= k < |freqs| ==> freqs[k] == 0
    ensures GetActiveOptimizers(optimizers, freqs, batchIdx) == Err(IndexError)
  {
    ZeroSum(freqs);
    assert freqs[..|optimizers|] == freqs;
  }

  lemma {:induction false} ZeroSum(s: seq<int>)
    requires forall k :: 0 <= k < |s| ==> s[k] == 0
    ensures Sum(s) == 0
  {
    if s != [] {
      ZeroSum(s[..|s| - 1]);
    }
  }

  /** With non-negative frequencies, each place in the cycle lies in one block only. */
  lemma BlockUnique(freqs: seq<int>, place: int, i: nat, j: nat)
    requires forall k :: 0 <= k < |freqs| ==> freqs[k] >= 0
    requires i < |freqs| && j < |freqs|
    requires Sum(freqs[..i]) <= place < Sum(freqs[..i + 1])
    requires Sum(freqs[..j]) <= place < Sum(freqs[..j + 1])
    ensures i == j
  {
    if i < j {
      SumPrefixMonotone(freqs, i + 1, j);
    } else if j < i {
      SumPrefixMonotone(freqs, j + 1, i);
    }
  }

  /** The choice depends on the batch index only through its place in the cycle. */
  lemma ActiveOptimizersByPlace(optimizers: seq<Obj>, freqs: seq<int>, b1: int, b2: int)
    requires ValidFrequencies(freqs, |optimizers|) && freqs != []
    requires b1 % Sum(freqs) == b2 % Sum(freqs)
    ensures GetActiveOptimizers(optimizers, freqs, b1) == GetActiveOptimizers(optimizers, freqs, b2)
  {
    ValidFrequenciesChoose(optimizers, freqs, b2);
    var j := GetActiveOptimizers(optimizers, freqs, b2).value[0].0;
    ActiveOptimizerUnique(optimizers, freqs, b1, j);
  }

  /** The choice repeats with a period of the summed frequencies. */
  lemma ActiveOptimizersPeriodic(optimizers: seq<Obj>, freqs: seq<int>, batchIdx: int)
    requires ValidFrequencies(freqs, |optimizers|) && freqs != []
    ensures GetActiveOptimizers(optimizers, freqs, batchIdx + Sum(freqs))
         == GetActiveOptimizers(optimizers, freqs, batchIdx)
  {
    var later := batchIdx + Sum(freqs);
    var place := LoopPlace(freqs, batchIdx);
    assert LoopPlace(freqs, later) == place by { LoopPlaceShift(freqs, batchIdx); }
    assert GetActiveOptimizers(optimizers, freqs, later) == OptimizerAtPlace(optimizers, freqs, place);
  }

  lemma LoopPlaceShift(freqs: seq<int>, b: int)
    requires forall k :: 0 <= k < |freqs| ==> freqs[k] >= 0
    requires Sum(freqs) > 0
    ensures LoopPlace(freqs, b + Sum(freqs)) == LoopPlace(freqs, b)
  {
    var t := Sum(freqs);
    ModShift(b, t);
  }

  lemma MulAtLeast(a: int, t: int)
    requires a >= 1 && t > 0
    ensures a * t >= t
  {
    var i := 1;
    while i < a
      invariant 1 <= i <= a
      invariant i * t >= t
    {
      assert (i + 1) * t == i * t + t;
      i := i + 1;
    }
  }

  /** Euclidean remainder is determined by any quotient/remainder decomposition. */
  lemma ModUnique(x: int, t: int, k: int, r: int)
    requires t > 0 && 0 <= r < t && x == k * t + r
    ensures x % t == r
  {
    var q, m := x / t, x % t;
    assert x == q * t + m;
    assert (k - q) * t == m - r;
    if k - q >= 1 {
      MulAtLeast(k - q, t);
    } else if q - k >= 1 {
      MulAtLeast(q - k, t);
    }
  }

  lemma ModShift(b: int, t: int)
    requires t > 0
    ensures (b + t) % t == b % t
  {
    var q := b / t;
    assert b + t == (q + 1) * t + b % t;
    ModUnique(b + t, t, q + 1, b % t);
  }

  // ------------------------------------------------------ reset progress

  /**
   * A loop as `_reset_progress` sees it: its progress attributes, its child
   * loops, and every other attribute (left alone).
   */
  datatype LoopNode = LoopNode(progress: seq<BatchProgress>, children: seq<LoopNode>, others: seq<Obj>)

  /** `_reset_progress`: resets each progress attribute and recurses into child loops. */
  function ResetProgress(loop: LoopNode): (r: LoopNode)
    ensures |r.progress| == |loop.progress| && |r.children| == |loop.children|
    ensures r.others == loop.others
    ensures forall i :: 0 <= i < |r.progress| ==> r.progress[i] == ZeroBatchProgress
    decreases loop
  {
    LoopNode(
      seq(|loop.progress|, i requires 0 <= i < |loop.progress| => loop.progress[i].Reset()),
      seq(|loop.children|, i requires 0 <= i < |loop.children| => ResetProgress(loop.children[i])),
      loop.others)
  }

  /** Every progress counter, at any depth of the loop tree, is zero. */
  predicate AllReset(loop: LoopNode)
    decreases loop
  {
    && (forall i :: 0 <= i < |loop.progress| ==> loop.progress[i] == ZeroBatchProgress)
    && (forall i :: 0 <= i < |loop.children| ==> AllReset(loop.children[i]))
  }

  /** Loops with the same shape: same number of progress attributes and children, recursively. */
  predicate SameShape(a: LoopNode, b: LoopNode)
    decreases a
  {
    && |a.progress| == |b.progress|
    && |a.children| == |b.children|
    && a.others == b.others
    && (forall i :: 0 <= i < |a.children| ==> SameShape(a.children[i], b.children[i]))
  }

  /** After `_reset_progress` the whole tree is reset, and nothing but progress changed. */
  lemma {:induction false} ResetProgressResetsAll(loop: LoopNode)
    ensures AllReset(ResetProgress(loop))
    ensures SameShape(loop, ResetProgress(loop))
    decreases loop
  {
    var r := ResetProgress(loop);
    forall i | 0 <= i < |loop.children|
      ensures AllReset(r.children[i]) && SameShape(loop.children[i], r.children[i])
    {
      ResetProgressResetsAll(loop.children[i]);
    }
  }

  /** Resetting twice is the same as resetting once. */
  lemma {:induction false} ResetProgressIdempotent(loop: LoopNode)
    ensures ResetProgress(ResetProgress(loop)) == ResetProgress(loop)
    decreases loop
  {
    var r := ResetProgress(loop);
    var rr := ResetProgress(r);
    forall i | 0 <= i < |loop.children|
      ensures rr.children[i] == r.children[i]
    {
      ResetProgressIdempotent(loop.children[i]);
    }
    assert rr.progress == r.progress;
    assert rr.children == r.children;
  }
}
