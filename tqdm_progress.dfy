/**
 * The default progress bar (pi_ml/callbacks/progress/tqdm_progress.py):
 * the zero padding of the numbers it shows, its enabled state and refresh
 * rate, the total of the main bar over an epoch, and the guarded updates of
 * a bar's position.
 *
 * A tqdm bar is modelled by the three attributes the callback uses; drawing,
 * descriptions and the postfix metrics are left out, as is tqdm's own
 * formatting of numbers.
 */
module TqdmProgress {
  import opened Wrappers
  import opened PyText
  import Trainer
  import ProgressBar
  import LoggerConnector
  import EvaluationLoop

  const PadSize := 5

  // --------------------------------------------------------- format_num

  /** The decimal part of a Python float literal: digits, with an optional point. */
  predicate DecimalText(d: string)
  {
    DigitRun(d) || PointFrom(d, 0)
  }

  /** Some point at or after `i` splits `d` into optional digit runs, not both empty. */
  predicate PointFrom(d: string, i: nat)
    decreases |d| - i
  {
    && i < |d|
    && ((&& d[i] == '.'
         && (i > 0 || i + 1 < |d|)
         && (i == 0 || DigitRun(d[..i]))
         && (i + 1 == |d| || DigitRun(d[i + 1..])))
        || PointFrom(d, i + 1))
  }

  predicate ExponentText(x: string)
  {
    DigitRun(x) || (|x| > 0 && (x[0] == '+' || x[0] == '-') && DigitRun(x[1..]))
  }

  /** Some "e" or "E" at or after `i` (and after the first character) splits `b` into a decimal and an exponent. */
  predicate ExponentFrom(b: string, i: nat)
    decreases |b| - i
  {
    && i < |b|
    && ((&& 0 < i
         && (b[i] == 'e' || b[i] == 'E')
         && DecimalText(b[..i])
         && ExponentText(b[i + 1..]))
        || ExponentFrom(b, i + 1))
  }

  predicate FloatBody(b: string)
  {
    || Lower(b) in {"inf", "infinity", "nan"}
    || DecimalText(b)
    || ExponentFrom(b, 0)
  }

  /** `float(s)` succeeds: surrounding whitespace, an optional sign, then a decimal, an exponent form, or inf/nan. */
  predicate FloatText(s: string)
  {
    var t := Strip(s);
    if |t| > 0 && (t[0] == '+' || t[0] == '-') then FloatBody(t[1..]) else FloatBody(t)
  }

  function Zeros(k: nat): (z: string)
    ensures |z| == k && forall i :: 0 <= i < k ==> z[i] == '0'
  {
    seq(k, _ => '0')
  }

  /**
   * `Tqdm.format_num` on a string: one with an "e" is shown as is; a short
   * one without a point gets a point when it reads as a number (and is
   * shown as is when it does not); the result is then padded with zeros to
   * five characters.
   */
  method FormatNum(n: string) returns (r: string)
    ensures |r| >= |n| && r[..|n|] == n
    ensures 'e' in n ==> r == n
    ensures 'e' !in n && '.' !in n && |n| < PadSize && !FloatText(n) ==> r == n
    ensures 'e' !in n && '.' !in n && |n| < PadSize && FloatText(n) ==>
      |r| == PadSize && r[|n|] == '.' && forall i :: |n| < i < |r| ==> r[i] == '0'
    ensures 'e' !in n && ('.' in n || |n| >= PadSize) ==>
      |r| == (if |n| < PadSize then PadSize else |n|) && forall i :: |n| <= i < |r| ==> r[i] == '0'
  {
    r := n;
    if 'e' !in r {
      if '.' !in r && |r| < PadSize {
        if !FloatText(r) {
          return r;
        }
        r := r + ".";
        assert r[..|n|] == n && r[|n|] == '.';
      }
      r := PadZeros(r);
    }
  }

  /** `s += "0" * (5 - len(s))`: nothing is added to a string of five characters or more. */
  function PadZeros(s: string): (r: string)
    ensures |r| == (if |s| < PadSize then PadSize else |s|)
    ensures r[..|s|] == s && forall i :: |s| <= i < |r| ==> r[i] == '0'
  {
    if |s| < PadSize then s + Zeros(PadSize - |s|) else s
  }

  /** Whatever `int()` accepts, `float()` accepts too: a short integer string gets a point before its padding. */
  lemma IntTextIsFloat(s: string)
    requires ParseInt(s).Some?
    ensures FloatText(s)
  {
  }

  /** `str(n)` of any integer reads as a float. */
  lemma IntToStringIsFloat(n: int)
    ensures FloatText(IntToString(n))
  {
    ParseIntToString(n);
    IntTextIsFloat(IntToString(n));
  }

  // ------------------------------------------------------------- values

  /** `convert_inf`: tqdm cannot show infinity or NaN, so they become None. */
  function ConvertInf(x: Option<Num>): (r: Option<Num>)
    ensures r.None? <==> x.None? || x.value.Inf? || x.value.NaN?
    ensures r.Some? ==> r == x
  {
    if x.None? || x.value.Inf? || x.value.NaN? then None else x
  }

  /** `_resolve_refresh_rate`: on Colab (a non-empty COLAB_GPU variable) a rate of 1 becomes 20. */
  function ResolveRefreshRate(rate: int, colabGpu: Option<string>): (r: int)
    ensures colabGpu.Some? && colabGpu.value != "" && rate == 1 ==> r == 20
    ensures !(colabGpu.Some? && colabGpu.value != "" && rate == 1) ==> r == rate
  {
    if colabGpu.Some? && colabGpu.value != "" && rate == 1 then 20 else rate
  }

  /** Python `a // b` on ints: the floor of the quotient. */
  function FloorDiv(a: int, b: int): (q: int)
    requires b != 0
    ensures b > 0 ==> q * b <= a < (q + 1) * b
    ensures b < 0 ==> q * b >= a > (q + 1) * b
  {
    if b > 0 then a / b else (-a) / (-b)
  }

  /**
   * The main bar's total at the start of a training epoch: the training
   * batches plus the validation batches of every validation run in the
   * epoch (one per `val_check_batch` training batches), unless either count
   * is infinite, in which case the total is unknown.
   */
  function EpochTotal(train: Num, val: Num, valCheckBatch: int): (r: Result<Option<Num>>)
    ensures train.Inf? || val.Inf? ==> r == Ok(None)
    ensures !train.Inf? && !val.Inf? && valCheckBatch == 0 ==> r == Err(ZeroDivisionError)
    ensures train.Int? && val.Int? && valCheckBatch != 0 ==>
      r == Ok(Some(Int(train.i + val.i * FloorDiv(train.i, valCheckBatch))))
  {
    if train.Inf? || val.Inf? then Ok(ConvertInf(Some(EvaluationLoop.Add(train, val))))
    else if valCheckBatch == 0 then Err(ZeroDivisionError)
    else if train.Int? && val.Int? then
      Ok(Some(Int(train.i + val.i * FloorDiv(train.i, valCheckBatch))))
    else if train.NaN? || val.NaN? then Ok(None)
    else
      var t := if train.Int? then train.i as real else train.r;
      var v := if val.Int? then val.i as real else val.r;
      var checks := (t / valCheckBatch as real).Floor as real;
      Ok(Some(Float(t + v * checks)))
  }

  /** With `k` validation runs fitting in the epoch, the total counts the validation batches `k` times. */
  lemma EpochTotalChecks(train: nat, val: nat, valCheckBatch: nat, k: nat)
    requires valCheckBatch > 0 && k * valCheckBatch <= train < (k + 1) * valCheckBatch
    ensures EpochTotal(Int(train), Int(val), valCheckBatch) == Ok(Some(Int(train + k * val)))
  {
    FloorDivUnique(train, valCheckBatch, k);
    assert val * k == k * val;
  }

  /** The floor of `a / b` is the one `k` with `k * b <= a < (k + 1) * b`. */
  lemma FloorDivUnique(a: int, b: int, k: int)
    requires b > 0 && k * b <= a < (k + 1) * b
    ensures FloorDiv(a, b) == k
  {
    var q := FloorDiv(a, b);
    assert (k - q - 1) * b == k * b - (q + 1) * b;
    assert (q - k - 1) * b == q * b - (k + 1) * b;
    NegativeProduct(k - q - 1, b);
    NegativeProduct(q - k - 1, b);
  }

  lemma NegativeProduct(x: int, b: int)
    requires b > 0 && x * b < 0
    ensures x < 0
  {
  }

  // ---------------------------------------------------------------- bars

  /** A tqdm bar, by the attributes the callback reads and writes. */
  class TqdmBar {
    var disable: bool
    var n: int
    var total: Option<Num>

    constructor(disable: bool, initial: int)
      ensures this.disable == disable && n == initial && total == None
    {
      this.disable := disable;
      n := initial;
      total := None;
    }
  }

  /** `_update_n`: moves a bar that is not disabled to `value`. */
  method UpdateN(bar: TqdmBar, value: int)
    modifies bar
    ensures bar.n == if old(bar.disable) then old(bar.n) else value
    ensures bar.disable == old(bar.disable) && bar.total == old(bar.total)
  {
    if !bar.disable {
      bar.n := value;
    }
  }

  /** What `__getstate__` hands to pickle: every attribute, with the bars replaced by None. */
  datatype PickledState = PickledState(
    trainerRef: Option<ProgressBar.BarTrainer>,
    refreshRate: int,
    processPosition: int,
    enabled: bool,
    mainBar: Option<TqdmBar>,
    valBar: Option<TqdmBar>,
    testBar: Option<TqdmBar>,
    predictBar: Option<TqdmBar>)

  class TQDMProgressBar {
    var trainerRef: Option<ProgressBar.BarTrainer>
    const refreshRate: int
    const processPosition: int
    var enabled: bool
    var mainBar: Option<TqdmBar>
    var valBar: Option<TqdmBar>
    var testBar: Option<TqdmBar>
    var predictBar: Option<TqdmBar>

    constructor(refreshRate: int, processPosition: int, colabGpu: Option<string>)
      ensures this.refreshRate == ResolveRefreshRate(refreshRate, colabGpu)
      ensures this.processPosition == processPosition && enabled && trainerRef == None
      ensures mainBar == None && valBar == None && testBar == None && predictBar == None
    {
      this.refreshRate := ResolveRefreshRate(refreshRate, colabGpu);
      this.processPosition := processPosition;
      enabled := true;
      trainerRef := None;
      mainBar, valBar, testBar, predictBar := None, None, None, None;
    }

    /** `is_enabled`: the flag is set and the bar refreshes at all. */
    predicate IsEnabled()
      reads this
    {
      enabled && refreshRate > 0
    }

    predicate IsDisabled()
      reads this
    {
      !IsEnabled()
    }

    method Disable()
      modifies this
      ensures !enabled && !IsEnabled()
      ensures trainerRef == old(trainerRef) && mainBar == old(mainBar) && valBar == old(valBar)
      ensures testBar == old(testBar) && predictBar == old(predictBar)
    {
      enabled := false;
    }

    method Enable()
      modifies this
      ensures enabled && (IsEnabled() <==> refreshRate > 0)
      ensures trainerRef == old(trainerRef) && mainBar == old(mainBar) && valBar == old(valBar)
      ensures testBar == old(testBar) && predictBar == old(predictBar)
    {
      enabled := true;
    }

    /** `_should_update`: every `refresh_rate` batches, and never with a rate of 0 or less. */
    predicate ShouldUpdate(idx: int)
      reads this
      ensures ShouldUpdate(idx) <==> refreshRate > 0 && LoggerConnector.Divides(refreshRate, idx)
    {
      if refreshRate > 0 then
        LoggerConnector.ModZeroDivides(idx, refreshRate);
        idx % refreshRate == 0
      else false
    }

    /** `setup`: stores the trainer and disables the bar off global rank zero. */
    method Setup(t: ProgressBar.BarTrainer)
      modifies this
      ensures trainerRef == Some(t)
      ensures enabled == (old(enabled) && t.isGlobalZero)
      ensures mainBar == old(mainBar) && valBar == old(valBar) && testBar == old(testBar) && predictBar == old(predictBar)
    {
      trainerRef := Some(t);
      if !t.isGlobalZero {
        Disable();
      }
    }

    /** `__getstate__`. */
    function GetState(): (s: PickledState)
      reads this
      ensures s.mainBar == None && s.valBar == None && s.testBar == None && s.predictBar == None
      ensures s.trainerRef == trainerRef && s.refreshRate == refreshRate
      ensures s.processPosition == processPosition && s.enabled == enabled
    {
      PickledState(trainerRef, refreshRate, processPosition, enabled, None, None, None, None)
    }

    /** `_val_processed`: inside fitting, the validation batches of all runs so far; otherwise those of this run. */
    function ValProcessed(): (r: Result<nat>)
      reads this
      ensures trainerRef.None? ==> r == Err(TypeError)
      ensures trainerRef.Some? && trainerRef.value.fn == Trainer.Fitting ==> r == Ok(trainerRef.value.fitValTotalProcessed)
      ensures trainerRef.Some? && trainerRef.value.fn != Trainer.Fitting ==> r == Ok(trainerRef.value.validateProcessed)
    {
      if trainerRef.None? then Err(TypeError)
      else if trainerRef.value.fn == Trainer.Fitting then Ok(trainerRef.value.fitValTotalProcessed)
      else Ok(trainerRef.value.validateProcessed)
    }

    /** `on_train_epoch_start`: sets the main bar's total for the epoch. */
    method OnTrainEpochStart() returns (r: Result<()>)
      modifies if mainBar.Some? then {mainBar.value} else {}
      ensures trainerRef.None? ==> r == Err(TypeError)
      ensures r.Ok? ==> mainBar.Some? && trainerRef.Some?
      ensures mainBar.Some? ==> mainBar.value.n == old(mainBar.value.n) && mainBar.value.disable == old(mainBar.value.disable)
      ensures r.Err? && mainBar.Some? ==> mainBar.value.total == old(mainBar.value.total)
      ensures r.Ok? ==> var t := trainerRef.value;
        && ProgressBar.TotalValBatches(t).Ok?
        && EpochTotal(t.numTrainingBatches, ProgressBar.TotalValBatches(t).value, t.valCheckBatch).Ok?
        && mainBar.value.total == EpochTotal(t.numTrainingBatches, ProgressBar.TotalValBatches(t).value, t.valCheckBatch).value
      ensures mainBar == old(mainBar) && trainerRef == old(trainerRef)
    {
      if trainerRef.None? {
        return Err(TypeError);
      }
      var t := trainerRef.value;
      var totalVal :- ProgressBar.TotalValBatches(t);
      var total :- EpochTotal(t.numTrainingBatches, totalVal, t.valCheckBatch);
      if mainBar.None? {
        return Err(TypeError);
      }
      mainBar.value.total := total;
      r := Ok(());
    }

    /** `on_train_batch_end`: every `refresh_rate` batches, the main bar shows the training and validation batches done. */
    method OnTrainBatchEnd() returns (r: Result<()>)
      modifies if mainBar.Some? then {mainBar.value} else {}
      ensures mainBar == old(mainBar) && trainerRef == old(trainerRef)
      ensures trainerRef.None? ==> r == Err(TypeError)
      ensures trainerRef.Some? && !ShouldUpdate(trainerRef.value.trainProcessed) ==>
        r == Ok(()) && (mainBar.Some? ==> mainBar.value.n == old(mainBar.value.n))
      ensures trainerRef.Some? && ShouldUpdate(trainerRef.value.trainProcessed) ==>
        if mainBar.None? then r == Err(TypeError)
        else r == Ok(()) && mainBar.value.n == (if old(mainBar.value.disable) then old(mainBar.value.n)
          else trainerRef.value.trainProcessed + ValProcessed().value)
    {
      if trainerRef.None? {
        return Err(TypeError);
      }
      var idx := trainerRef.value.trainProcessed;
      if ShouldUpdate(idx) {
        if mainBar.None? {
          return Err(TypeError);
        }
        UpdateN(mainBar.value, idx + ValProcessed().value);
      }
      r := Ok(());
    }

    /**
     * `on_validation_batch_end`: every `refresh_rate` validation batches
     * (`val_batch_idx`, read from the trainer, so a missing trainer fails
     * first) the validation bar moves to that count, and inside fitting the
     * main bar then moves to the training batches plus all validation
     * batches so far; a missing bar fails when it is reached.
     */
    method OnValidationBatchEnd() returns (r: Result<()>)
      modifies if valBar.Some? then {valBar.value} else {}, if mainBar.Some? then {mainBar.value} else {}
      ensures mainBar == old(mainBar) && valBar == old(valBar) && trainerRef == old(trainerRef)
      ensures r.Err? ==> r.error == TypeError
      ensures r.Err? <==>
        || trainerRef.None?
        || (ShouldUpdate(ProgressBar.ValBatchIdx(trainerRef.value))
            && (valBar.None? || (trainerRef.value.fn == Trainer.Fitting && mainBar.None?)))
      ensures trainerRef.None? || !ShouldUpdate(ProgressBar.ValBatchIdx(trainerRef.value)) ==>
        && (valBar.Some? ==> valBar.value.n == old(valBar.value.n))
        && (mainBar.Some? ==> mainBar.value.n == old(mainBar.value.n))
      ensures (trainerRef.Some? && ShouldUpdate(ProgressBar.ValBatchIdx(trainerRef.value)) && valBar.Some? &&
        (trainerRef.value.fn != Trainer.Fitting || mainBar.None? || mainBar.value != valBar.value)) ==>
        valBar.value.n == (if old(valBar.value.disable) then old(valBar.value.n) else ProgressBar.ValBatchIdx(trainerRef.value))
      ensures (trainerRef.Some? && ShouldUpdate(ProgressBar.ValBatchIdx(trainerRef.value)) && valBar.Some? &&
        trainerRef.value.fn == Trainer.Fitting && mainBar.Some?) ==>
        mainBar.value.n == (if old(mainBar.value.disable) then old(mainBar.value.n)
          else trainerRef.value.trainProcessed + trainerRef.value.fitValTotalProcessed)
      ensures (trainerRef.Some? && trainerRef.value.fn != Trainer.Fitting &&
        mainBar.Some? && (valBar.None? || valBar.value != mainBar.value)) ==> mainBar.value.n == old(mainBar.value.n)
    {
      if trainerRef.None? {
        return Err(TypeError);
      }
      var t := trainerRef.value;
      var idx := ProgressBar.ValBatchIdx(t);
      if ShouldUpdate(idx) {
        if valBar.None? {
          return Err(TypeError);
        }
        UpdateN(valBar.value, idx);
        if t.fn == Trainer.Fitting {
          if mainBar.None? {
            return Err(TypeError);
          }
          UpdateN(mainBar.value, t.trainProcessed + t.fitValTotalProcessed);
        }
      }
      r := Ok(());
    }
  }

  /** A bar refreshes on the first batch, and again every `refresh_rate` batches. */
  lemma {:induction false} ShouldUpdatePeriodic(bar: TQDMProgressBar, idx: int)
    requires bar.refreshRate > 0
    ensures bar.ShouldUpdate(0)
    ensures bar.ShouldUpdate(idx) <==> bar.ShouldUpdate(idx + bar.refreshRate)
  {
    var n := bar.refreshRate;
    assert 0 * n == 0;
    if LoggerConnector.Divides(n, idx) {
      var k :| k * n == idx;
      assert (k + 1) * n == idx + n;
    }
    if LoggerConnector.Divides(n, idx + n) {
      var k :| k * n == idx + n;
      assert (k - 1) * n == idx;
    }
  }
}
