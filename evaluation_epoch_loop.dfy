/**
 * The loop over the batches of one evaluation dataloader
 * (pi_ml/loops/epoch/evaluation_epoch_loop.py): when it is done, what
 * `reset` does to its batch progress, the order in which `advance` moves
 * the counters, which step outputs it keeps, and the keyword arguments it
 * builds for the step hooks.
 *
 * The base loop class is not part of this model; its `restarting` flag is
 * a field. The step hooks, the logger connector calls and the data fetcher
 * are inputs: `advance` receives what `next` returned and the step's output.
 */
module EvaluationEpochLoop {
  import opened Wrappers
  import opened Progress
  import Trainer

  // ------------------------------------------------ ordered keyword dicts

  /** A value in the step's keyword arguments: the batch, or an index. */
  datatype KwArg = KwBatch(batch: Obj) | KwIndex(index: int)

  /** An `OrderedDict` of keyword arguments, in insertion order. */
  type Kwargs = seq<(string, KwArg)>

  /** `d.get(k)`. */
  function Lookup(kw: Kwargs, k: string): Option<KwArg>
  {
    if kw == [] then None
    else if kw[0].0 == k then Some(kw[0].1)
    else Lookup(kw[1..], k)
  }

  /** `d[k] = v`: replaces the value in place, or appends the entry. */
  function Update(kw: Kwargs, k: string, v: KwArg): Kwargs
  {
    if kw == [] then [(k, v)]
    else if kw[0].0 == k then [(k, v)] + kw[1..]
    else [kw[0]] + Update(kw[1..], k, v)
  }

  /** The dict without key `k`. */
  function Remove(kw: Kwargs, k: string): (r: Kwargs)
    ensures Lookup(r, k).None?
  {
    if kw == [] then []
    else if kw[0].0 == k then Remove(kw[1..], k)
    else [kw[0]] + Remove(kw[1..], k)
  }

  /** `d.move_to_end(k, last=False)`. */
  function MoveToFront(kw: Kwargs, k: string): Kwargs
    requires Lookup(kw, k).Some?
  {
    [(k, Lookup(kw, k).value)] + Remove(kw, k)
  }

  lemma {:induction false} LookupUpdate(kw: Kwargs, k: string, v: KwArg)
    ensures Lookup(Update(kw, k, v), k) == Some(v)
  {
    if kw != [] && kw[0].0 != k {
      LookupUpdate(kw[1..], k, v);
    }
  }

  lemma {:induction false} RemoveUpdate(kw: Kwargs, k: string, v: KwArg)
    ensures Remove(Update(kw, k, v), k) == Remove(kw, k)
  {
    if kw != [] && kw[0].0 != k {
      RemoveUpdate(kw[1..], k, v);
      assert Update(kw, k, v)[1..] == Update(kw[1..], k, v);
    } else if kw != [] {
      assert Update(kw, k, v)[1..] == kw[1..];
    }
  }

  lemma {:induction false} LookupRemoveOther(kw: Kwargs, k: string, other: string)
    requires k != other
    ensures Lookup(Remove(kw, other), k) == Lookup(kw, k)
  {
    if kw != [] {
      LookupRemoveOther(kw[1..], k, other);
      if kw[0].0 != other {
        assert ([kw[0]] + Remove(kw[1..], other))[1..] == Remove(kw[1..], other);
      }
    }
  }

  lemma {:induction false} RemoveCommutes(kw: Kwargs, a: string, b: string)
    ensures Remove(Remove(kw, a), b) == Remove(Remove(kw, b), a)
  {
    if kw != [] {
      RemoveCommutes(kw[1..], a, b);
      var x := kw[0];
      if x.0 != a {
        assert ([x] + Remove(kw[1..], a))[1..] == Remove(kw[1..], a);
      }
      if x.0 != b {
        assert ([x] + Remove(kw[1..], b))[1..] == Remove(kw[1..], b);
      }
      if x.0 != a && x.0 != b {
        assert ([x] + Remove(Remove(kw[1..], a), b))[1..] == Remove(Remove(kw[1..], a), b);
        assert ([x] + Remove(Remove(kw[1..], b), a))[1..] == Remove(Remove(kw[1..], b), a);
      }
    }
  }

  lemma RemoveCons(x: (string, KwArg), rest: Kwargs, k: string)
    requires x.0 != k
    ensures Remove([x] + rest, k) == [x] + Remove(rest, k)
  {
    assert ([x] + rest)[1..] == rest;
  }

  lemma LookupCons(x: (string, KwArg), rest: Kwargs, k: string)
    requires x.0 != k
    ensures Lookup([x] + rest, k) == Lookup(rest, k)
  {
    assert ([x] + rest)[1..] == rest;
  }

  /**
   * `_build_kwargs`: the batch first, then its index (the number of
   * batches made ready so far), then the other arguments in their order.
   */
  function BuildKwargs(kw: Kwargs, batch: Obj, ready: nat): (r: Kwargs)
    ensures |r| >= 2
    ensures r[0] == ("batch", KwBatch(batch)) && r[1] == ("batch_idx", KwIndex(ready))
    ensures r[2..] == Remove(Remove(kw, "batch"), "batch_idx")
  {
    var withBatch := Update(kw, "batch", KwBatch(batch));
    var updated := Update(withBatch, "batch_idx", KwIndex(ready));
    LookupUpdate(withBatch, "batch_idx", KwIndex(ready));
    var idxFirst := MoveToFront(updated, "batch_idx");
    RemoveUpdate(withBatch, "batch_idx", KwIndex(ready));
    assert idxFirst == [("batch_idx", KwIndex(ready))] + Remove(withBatch, "batch_idx");
    LookupCons(("batch_idx", KwIndex(ready)), Remove(withBatch, "batch_idx"), "batch");
    LookupRemoveOther(withBatch, "batch", "batch_idx");
    LookupUpdate(kw, "batch", KwBatch(batch));
    var r := MoveToFront(idxFirst, "batch");
    RemoveCons(("batch_idx", KwIndex(ready)), Remove(withBatch, "batch_idx"), "batch");
    RemoveCommutes(withBatch, "batch_idx", "batch");
    RemoveUpdate(kw, "batch", KwBatch(batch));
    RemoveCommutes(kw, "batch", "batch_idx");
    r
  }

  // ------------------------------------------------------ batch limits

  /** Python `n >= limit` for a batch count against a batch limit (an int, a float, or infinity). */
  predicate AtLeast(n: nat, limit: Num)
  {
    match limit
    case Int(i) => n >= i
    case Float(x) => n as real >= x
    case Inf => false
    case NaN => false
  }

  /** Python `n == limit`. */
  predicate Equals(n: nat, limit: Num)
  {
    match limit
    case Int(i) => n == i
    case Float(x) => n as real == x
    case Inf => false
    case NaN => false
  }

  /** Reaching a limit exactly is reaching it. */
  lemma EqualsAtLeast(n: nat, limit: Num)
    requires Equals(n, limit)
    ensures AtLeast(n, limit)
  {
  }

  /** What kind of dataloader the data fetcher wraps, as far as reloading its state is concerned. */
  datatype LoaderKind = PlainLoader | CombinedLoader | OtherLoader

  const CombinedReloadUnsupported := "Reloading support hasn't been implemented for `CombinedLoader`. You can request it by opening an issue in `https://github.com/PyTorchLightning/pytorch-lightning/issues`."

  /** Which saved iterator state `on_save_checkpoint` records. */
  datatype SavedIterator = NoIteratorState | CurrentState | PreviousState

  class EvaluationEpochLoop {
    var batchProgress: BatchProgress
    var outputs: seq<Obj>
    var dlMaxBatches: Num
    var dataloaderIter: Option<Obj>
    var dataFetcher: Option<Obj>
    var restarting: bool
    /** The dataloader state cached from a checkpoint until the dataloader exists; empty when there is none. */
    var dataloaderStateDict: map<string, Obj>

    constructor()
      ensures batchProgress == ZeroBatchProgress && outputs == [] && dlMaxBatches == Int(0)
      ensures dataloaderIter == None && dataFetcher == None && !restarting && dataloaderStateDict == map[]
    {
      batchProgress := ZeroBatchProgress;
      outputs := [];
      dlMaxBatches := Int(0);
      dataloaderIter := None;
      dataFetcher := None;
      restarting := false;
      dataloaderStateDict := map[];
    }

    /** `done`: as many batches completed as the dataloader may produce. */
    predicate Done()
      reads this
    {
      AtLeast(batchProgress.current.completed, dlMaxBatches)
    }

    /** `_has_completed`: every batch made ready has completed. */
    predicate HasCompleted()
      reads this
    {
      batchProgress.current.ready == batchProgress.current.completed
    }

    /** `_num_completed_batches_reached`: the limit was hit, or the dataloader ran out after its last batch completed. */
    predicate NumCompletedBatchesReached()
      reads this
    {
      Equals(batchProgress.current.completed, dlMaxBatches) || (batchProgress.isLastBatch && HasCompleted())
    }

    /**
     * `reset`: forgets the limit, the fetcher and the outputs, then resets
     * the batch progress for a new run, or for a restart. With the limit
     * at 0 the loop then counts as done, so outside fitting the progress
     * is always reset for a new run, even when restarting.
     */
    method Reset(fn: Trainer.TrainerFn)
      modifies this
      ensures dlMaxBatches == Int(0) && dataFetcher == None && outputs == []
      ensures fn != Trainer.Fitting ==> batchProgress == old(batchProgress).ResetOnRun()
      ensures fn == Trainer.Fitting && !restarting ==> batchProgress == old(batchProgress).ResetOnRun()
      ensures fn == Trainer.Fitting && restarting ==> batchProgress == old(batchProgress).ResetOnRestart()
      ensures restarting == old(restarting) && dataloaderIter == old(dataloaderIter)
      ensures dataloaderStateDict == old(dataloaderStateDict)
    {
      dlMaxBatches := Int(0);
      dataFetcher := None;
      outputs := [];
      if !restarting {
        batchProgress := batchProgress.ResetOnRun();
      } else {
        batchProgress := batchProgress.ResetOnRestart();
      }
      if Done() && fn != Trainer.Fitting {
        batchProgress := batchProgress.ResetOnRun();
      }
    }

    /**
     * `on_run_start`: takes the dataloader's limit and fetcher, reloads a
     * cached dataloader state into the dataloader (outside sanity checking)
     * and empties the cache, then starts iterating. Reloading into a
     * CombinedLoader is refused, and any other loader that is not a plain
     * DataLoader fails the assertion; the iterator is then not started.
     */
    method OnRunStart(fetcher: Obj, maxBatches: Num, iter: Obj, sanityChecking: bool, kind: LoaderKind)
      returns (r: Result<()>)
      modifies this
      ensures dlMaxBatches == maxBatches && dataFetcher == Some(fetcher)
      ensures var reload := !sanityChecking && old(dataloaderStateDict) != map[];
        && (r.Err? <==> reload && !kind.PlainLoader?)
        && (r.Err? ==> r.error == if kind.CombinedLoader? then Misconfiguration(CombinedReloadUnsupported) else AssertionError)
        && (r.Err? ==> dataloaderIter == old(dataloaderIter) && dataloaderStateDict == old(dataloaderStateDict))
        && (r.Ok? ==> dataloaderIter == Some(iter))
        && (r.Ok? ==> dataloaderStateDict == if reload then map[] else old(dataloaderStateDict))
      ensures batchProgress == old(batchProgress) && outputs == old(outputs) && restarting == old(restarting)
    {
      dlMaxBatches := maxBatches;
      dataFetcher := Some(fetcher);
      if !sanityChecking && dataloaderStateDict != map[] {
        if kind.CombinedLoader? {
          return Err(Misconfiguration(CombinedReloadUnsupported));
        }
        if !kind.PlainLoader? {
          return Err(AssertionError);
        }
        dataloaderStateDict := map[];
      }
      dataloaderIter := Some(iter);
      r := Ok(());
    }

    /**
     * `advance`, given what `next` on the iterator returned (the batch, or
     * None, and whether it is the last) and the output of the evaluation
     * step. The counters move ready, started, processed, completed; the
     * output is kept when epoch-end outputs are tracked and it is not None.
     */
    method Advance(kw: Kwargs, fetched: (Option<Obj>, bool), output: Option<Obj>, trackOutputs: bool)
      returns (r: Result<Kwargs>)
      modifies this
      ensures dataloaderIter.None? ==> r == Err(AssertionError) && batchProgress == old(batchProgress)
      ensures dataloaderIter.Some? ==> batchProgress.isLastBatch == fetched.1
      ensures dataloaderIter.Some? && fetched.0.None? ==> r == Err(StopIteration)
      ensures r.Err? ==> batchProgress.current == old(batchProgress.current) && outputs == old(outputs)
      ensures r.Ok? ==> r.value == BuildKwargs(kw, fetched.0.value, old(batchProgress.current.ready))
      ensures r.Ok? ==> batchProgress.AsProgress() == Advances(old(batchProgress).AsProgress(), 1)
      ensures r.Ok? ==> outputs == old(outputs) + (if trackOutputs && output.Some? then [output.value] else [])
      ensures dlMaxBatches == old(dlMaxBatches) && dataloaderIter == old(dataloaderIter) && restarting == old(restarting)
      ensures dataFetcher == old(dataFetcher) && dataloaderStateDict == old(dataloaderStateDict)
    {
      if dataloaderIter.None? {
        return Err(AssertionError);
      }
      batchProgress := batchProgress.(isLastBatch := fetched.1);
      if fetched.0.None? {
        return Err(StopIteration);
      }
      var kwargs := BuildKwargs(kw, fetched.0.value, batchProgress.current.ready);
      batchProgress := batchProgress.WithProgress(batchProgress.AsProgress().IncrementReady());
      batchProgress := batchProgress.WithProgress(batchProgress.AsProgress().IncrementStarted());
      batchProgress := batchProgress.WithProgress(batchProgress.AsProgress().IncrementProcessed());
      batchProgress := batchProgress.WithProgress(batchProgress.AsProgress().IncrementCompleted());
      if trackOutputs && output.Some? {
        outputs := outputs + [output.value];
      }
      r := Ok(kwargs);
    }

    /** `on_run_end`: hands back the kept outputs and drops them, the iterator and the fetcher. */
    method OnRunEnd() returns (kept: seq<Obj>)
      modifies this
      ensures kept == old(outputs)
      ensures outputs == [] && dataloaderIter == None && dataFetcher == None
      ensures batchProgress == old(batchProgress) && dlMaxBatches == old(dlMaxBatches) && restarting == old(restarting)
      ensures dataloaderStateDict == old(dataloaderStateDict)
    {
      kept := outputs;
      outputs := [];
      dataloaderIter := None;
      dataFetcher := None;
    }

    /**
     * `on_load_checkpoint`: with fault-tolerant training on and a saved
     * dataloader state (`saved`, one entry per rank; empty when the
     * checkpoint has none), caches this rank's entry until the dataloader
     * exists; a rank without an entry is a KeyError.
     */
    method OnLoadCheckpoint(saved: map<nat, map<string, Obj>>, faultTolerant: bool, rank: nat) returns (r: Result<()>)
      modifies this
      ensures r.Err? <==> faultTolerant && saved != map[] && rank !in saved
      ensures r.Err? ==> r.error == KeyError
      ensures faultTolerant && rank in saved ==> dataloaderStateDict == saved[rank]
      ensures !(faultTolerant && rank in saved) ==> dataloaderStateDict == old(dataloaderStateDict)
      ensures batchProgress == old(batchProgress) && outputs == old(outputs) && dlMaxBatches == old(dlMaxBatches)
      ensures dataloaderIter == old(dataloaderIter) && dataFetcher == old(dataFetcher) && restarting == old(restarting)
    {
      if !faultTolerant || saved == map[] {
        return Ok(());
      }
      if rank !in saved {
        return Err(KeyError);
      }
      dataloaderStateDict := saved[rank];
      r := Ok(());
    }

    /**
     * What `on_save_checkpoint` adds for the dataloader: nothing before the
     * first batch, after the last, or without a fetcher; otherwise the
     * iterator's current state when every ready batch completed, else the
     * state before the batch in flight.
     */
    function IteratorStateToSave(): (s: SavedIterator)
      reads this
      ensures s.NoIteratorState? <==> dataFetcher.None? || NumCompletedBatchesReached() || batchProgress.current.ready == 0
      ensures s.CurrentState? ==> HasCompleted()
      ensures s.PreviousState? ==> !HasCompleted()
    {
      if dataFetcher.None? || NumCompletedBatchesReached() || batchProgress.current.ready == 0 then NoIteratorState
      else if HasCompleted() then CurrentState
      else PreviousState
    }
  }

  /** The four increments of `advance` leave the gap between ready and completed batches unchanged. */
  lemma AdvanceKeepsCompleted(p: Progress)
    ensures var q := p.IncrementReady().IncrementStarted().IncrementProcessed().IncrementCompleted();
      && q.current.ready == p.current.ready + 1
      && q.current.completed == p.current.completed + 1
      && (p.current.ready == p.current.completed <==> q.current.ready == q.current.completed)
      && q.current.started == p.current.started + 1 && q.current.processed == p.current.processed + 1
  {
  }

  /** From a reset, `k` advances leave every batch made ready completed, and the loop done exactly when `k` reaches an int limit. */
  lemma {:induction false} AdvancesFromReset(p: Progress, k: nat, limit: int)
    requires p.current == ZeroTracker
    ensures var q := Advances(p, k);
      && q.current == Tracker(k, k, k, k)
      && (AtLeast(q.current.completed, Int(limit)) <==> k >= limit)
  {
    if k > 0 {
      AdvancesFromReset(p, k - 1, limit);
    }
  }

  /** The progress after `k` successful calls to `advance`. */
  function Advances(p: Progress, k: nat): Progress
  {
    if k == 0 then p
    else Advances(p, k - 1).IncrementReady().IncrementStarted().IncrementProcessed().IncrementCompleted()
  }

  /** With an infinite limit the loop never finishes by count. */
  lemma NeverDoneUnlimited(n: nat)
    ensures !AtLeast(n, Inf) && !Equals(n, Inf)
  {
  }
}
