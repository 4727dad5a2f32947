/**
 * Manual optimization (pi_ml/loops/optimization/manual_loop.py): a loop of
 * a single iteration that calls `training_step`, keeps the hidden state it
 * returns for truncated backpropagation through time, and passes its other
 * outputs on.
 *
 * The hooks are inputs: `advance` receives what `training_step_end`
 * returned from the module and from the strategy. Detaching tensors from
 * the autograd graph is not modelled (a detached tensor is the same object
 * here).
 */
module ManualLoop {
  import opened Wrappers
  import opened LoopUtilities

  const UnsupportedOutput := "In manual optimization, `training_step` must either return a Tensor, a dict with extras to pass to `training_epoch_end` or have no return."

  /** `ManualResult`: the extras of one training step. */
  datatype ManualResult = ManualResult(extra: map<string, Obj>)

  /**
   * `ManualResult.from_training_step_output`: a dict's entries except the
   * hidden state, a bare tensor as the loss, nothing for None; any other
   * return value is refused.
   */
  function FromTrainingStepOutput(out: StepOutput): (r: Result<ManualResult>)
    ensures r.Err? <==> out.OtherOutput?
    ensures r.Err? ==> r.error == Misconfiguration(UnsupportedOutput)
    ensures out.DictOutput? ==> r.Ok?
    ensures out.DictOutput? ==> forall k :: k in r.value.extra <==> k in out.entries && k != "hiddens"
    ensures out.DictOutput? ==> forall k :: k in r.value.extra ==> r.value.extra[k] == out.entries[k]
    ensures out.TensorOutput? ==> r == Ok(ManualResult(map["loss" := out.loss]))
    ensures out.NoOutput? ==> r == Ok(ManualResult(map[]))
  {
    match out
    case DictOutput(entries) => Ok(ManualResult(entries - {"hiddens"}))
    case TensorOutput(t) => Ok(ManualResult(map["loss" := t]))
    case NoOutput => Ok(ManualResult(map[]))
    case OtherOutput(_) => Err(Misconfiguration(UnsupportedOutput))
  }

  /** `asdict`: the extras as they are. */
  function AsDict(res: ManualResult): (d: map<string, Obj>)
    ensures d.Keys == res.extra.Keys && forall k :: k in d ==> d[k] == res.extra[k]
  {
    res.extra
  }

  /** A dict without a hidden state passes through unchanged. */
  lemma DictRoundTrip(entries: map<string, Obj>)
    requires "hiddens" !in entries
    ensures FromTrainingStepOutput(DictOutput(entries)).Ok?
    ensures AsDict(FromTrainingStepOutput(DictOutput(entries)).value) == entries
  {
    var d := AsDict(FromTrainingStepOutput(DictOutput(entries)).value);
    assert d.Keys == entries.Keys;
  }

  /** The outputs passed on never carry the hidden state. */
  lemma NoHiddensPassedOn(out: StepOutput)
    requires FromTrainingStepOutput(out).Ok?
    ensures "hiddens" !in AsDict(FromTrainingStepOutput(out).value)
  {
  }

  /** What the step-end hooks make of the output: the module's answer, unless it returned None. */
  function StepEndOutput(modelOutput: StepOutput, strategyOutput: StepOutput): (o: StepOutput)
    ensures modelOutput.NoOutput? ==> o == strategyOutput
    ensures !modelOutput.NoOutput? ==> o == modelOutput
  {
    if modelOutput.NoOutput? then strategyOutput else modelOutput
  }

  class ManualOptimization {
    var done: bool
    var hiddens: Option<Obj>
    var output: map<string, Obj>

    constructor()
      ensures !done && hiddens == None && output == map[]
    {
      done := false;
      hiddens := None;
      output := map[];
    }

    /** `reset`: the single iteration is to be run again. */
    method Reset()
      modifies this
      ensures !done && hiddens == old(hiddens) && output == old(output)
    {
      done := false;
    }

    /**
     * `advance`: builds the `training_step` arguments (no optimizer index
     * under manual optimization), takes the step-end output, keeps its hidden
     * state and its extras, and marks the loop done. A failure leaves the
     * loop not done and its output as it was.
     */
    method Advance(
      sig: StepSignature, numOptimizers: nat, tbpttSteps: int, batch: Obj, batchIdx: int,
      modelOutput: StepOutput, strategyOutput: StepOutput)
      returns (r: Result<seq<(string, StepArg)>>)
      modifies this
      ensures r.Err? ==> done == old(done) && output == old(output)
      ensures OptimizerIdxMismatch(sig, numOptimizers, false) ==> r == Err(ValueError) && hiddens == old(hiddens)
      ensures r.Ok? <==>
        && !OptimizerIdxMismatch(sig, numOptimizers, false)
        && ExtractHiddens(StepEndOutput(modelOutput, strategyOutput), tbpttSteps).Ok?
        && !StepEndOutput(modelOutput, strategyOutput).OtherOutput?
      ensures r.Ok? ==> done
      ensures r.Ok? ==> hiddens == ExtractHiddens(StepEndOutput(modelOutput, strategyOutput), tbpttSteps).value
      ensures r.Ok? ==> output == AsDict(FromTrainingStepOutput(StepEndOutput(modelOutput, strategyOutput)).value)
      ensures r.Ok? ==> |r.value| >= 1 && r.value[0] == ("batch", BatchArg(batch))
      ensures r.Ok? ==> Lookup(r.value, "optimizer_idx").None?
      ensures r.Ok? ==> Lookup(r.value, "hiddens") == if tbpttSteps > 0 then Some(HiddensArg(old(hiddens))) else None
    {
      var kwargs := BuildTrainingStepKwargs(sig, numOptimizers, false, tbpttSteps, batch, batchIdx, None, hiddens);
      if kwargs.Err? {
        return Err(kwargs.error);
      }
      var out := StepEndOutput(modelOutput, strategyOutput);
      var h :- ExtractHiddens(out, tbpttSteps);
      hiddens := h;
      var result :- FromTrainingStepOutput(out);
      done := true;
      output := AsDict(result);
      r := kwargs;
    }

    /** `on_run_end`: hands back the output and drops it. */
    method OnRunEnd() returns (o: map<string, Obj>)
      modifies this
      ensures o == old(output) && output == map[]
      ensures done == old(done) && hiddens == old(hiddens)
    {
      o := output;
      output := map[];
    }
  }
}
