/**
 * The progress counters the loops keep. pi_ml/trainer/progress.py is not
 * part of this model; its trackers are modelled as the loops use them: four
 * counters (ready, started, processed, completed) kept once for the whole
 * run (`total`) and once for the current run (`current`).
 */
module Progress {

  datatype Tracker = Tracker(ready: nat, started: nat, processed: nat, completed: nat)
  {
    /** On restart, work that was not completed is forgotten. */
    function ResetOnRestart(): (t: Tracker)
      ensures t.ready == t.started == t.processed == t.completed == completed
    {
      Tracker(completed, completed, completed, completed)
    }
  }

  const ZeroTracker := Tracker(0, 0, 0, 0)

  /** `Progress`: the epoch counters of the fit loop. */
  datatype Progress = Progress(total: Tracker, current: Tracker)
  {
    function IncrementReady(): Progress
    {
      Progress(total.(ready := total.ready + 1), current.(ready := current.ready + 1))
    }

    function IncrementStarted(): Progress
    {
      Progress(total.(started := total.started + 1), current.(started := current.started + 1))
    }

    function IncrementProcessed(): Progress
    {
      Progress(total.(processed := total.processed + 1), current.(processed := current.processed + 1))
    }

    function IncrementCompleted(): Progress
    {
      Progress(total.(completed := total.completed + 1), current.(completed := current.completed + 1))
    }

    function Reset(): Progress
    {
      Progress(ZeroTracker, ZeroTracker)
    }

    function ResetOnRun(): Progress
    {
      Progress(total, ZeroTracker)
    }

    function ResetOnRestart(): Progress
    {
      Progress(total, current.ResetOnRestart())
    }
  }

  /** `BatchProgress`: `Progress` plus the flag for the last batch of the epoch. */
  datatype BatchProgress = BatchProgress(total: Tracker, current: Tracker, isLastBatch: bool)
  {
    function AsProgress(): Progress
    {
      Progress(total, current)
    }

    function WithProgress(p: Progress): BatchProgress
    {
      BatchProgress(p.total, p.current, isLastBatch)
    }

    function Reset(): BatchProgress
    {
      BatchProgress(ZeroTracker, ZeroTracker, false)
    }

    function ResetOnRun(): BatchProgress
    {
      BatchProgress(total, ZeroTracker, false)
    }

    function ResetOnRestart(): BatchProgress
    {
      BatchProgress(total, current.ResetOnRestart(), isLastBatch)
    }
  }

  const ZeroProgress := Progress(ZeroTracker, ZeroTracker)
  const ZeroBatchProgress := BatchProgress(ZeroTracker, ZeroTracker, false)
}
