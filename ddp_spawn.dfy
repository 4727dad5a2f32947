/**
 * The spawn-based DDP strategy (pi_ml/strategies/ddp_spawn.py): how each
 * spawned process derives its global rank and the world size, the sampler
 * arguments, and the list-backed queue that carries results from the
 * rank-zero worker back to the main process.
 *
 * Spawning, the model wrapping and all communication are not modelled.
 */
module DdpSpawn {
  import opened Wrappers
  import opened Parallel
  import Trainer

  /** The callback metrics the queue carries. */
  type Metrics = map<string, Num>

  /** `_FakeQueue`: a list with the interface of a multiprocessing queue. */
  class FakeQueue<T> {
    var items: seq<T>

    constructor()
      ensures items == []
    {
      items := [];
    }

    /** `put`: appends at the back. */
    method Put(x: T)
      modifies this
      ensures items == old(items) + [x]
    {
      items := items + [x];
    }

    /** `get`: removes and returns the oldest item; `pop(0)` on an empty list is an IndexError. */
    method Get() returns (r: Result<T>)
      modifies this
      ensures old(items) == [] ==> r == Err(IndexError) && items == []
      ensures old(items) != [] ==> r == Ok(old(items)[0]) && items == old(items)[1..]
    {
      if items == [] {
        return Err(IndexError);
      }
      r := Ok(items[0]);
      items := items[1..];
    }

    predicate Empty()
      reads this
      ensures Empty() <==> |items| == 0
    {
      |items| == 0
    }
  }

  /**
   * Items come out in the order they were put in: any number of puts into
   * an empty queue, then as many gets, return the items in order and leave
   * the queue empty, so one more get is an IndexError.
   */
  method FifoOrder<T>(xs: seq<T>) returns (got: seq<T>, emptyAfter: bool, oneMore: Result<T>)
    ensures got == xs && emptyAfter && oneMore == Err(IndexError)
  {
    var q := new FakeQueue<T>();
    for i := 0 to |xs|
      invariant q.items == xs[..i]
    {
      q.Put(xs[i]);
    }
    assert xs[..|xs|] == xs;
    got := [];
    while !q.Empty()
      invariant got + q.items == xs
      decreases |q.items|
    {
      var r := q.Get();
      got := got + [r.value];
    }
    emptyAfter := q.Empty();
    oneMore := q.Get();
  }

  /** A cluster environment that stores the ranks it is given. */
  class ClusterEnvironment {
    var globalRank: int
    var worldSize: int
    const localRank: int
    const nodeRank: int

    constructor(globalRank: int, worldSize: int, localRank: int, nodeRank: int)
      ensures this.globalRank == globalRank && this.worldSize == worldSize
      ensures this.localRank == localRank && this.nodeRank == nodeRank
    {
      this.globalRank := globalRank;
      this.worldSize := worldSize;
      this.localRank := localRank;
      this.nodeRank := nodeRank;
    }
  }

  /** The global rank of process `localRank` on node `nodeRank`, with `numProcesses` processes per node. */
  function RankOf(nodeRank: int, numProcesses: int, localRank: int): int
  {
    nodeRank * numProcesses + localRank
  }

  /** Every process of every node gets a rank inside the world. */
  lemma RankInWorld(nodeRank: nat, numNodes: nat, numProcesses: nat, localRank: nat)
    requires nodeRank < numNodes && localRank < numProcesses
    ensures 0 <= RankOf(nodeRank, numProcesses, localRank) < numNodes * numProcesses
  {
    MulLe(nodeRank + 1, numNodes, numProcesses);
  }

  /** Two different processes never share a rank. */
  lemma RanksDistinct(numProcesses: nat, n1: nat, l1: nat, n2: nat, l2: nat)
    requires l1 < numProcesses && l2 < numProcesses
    requires RankOf(n1, numProcesses, l1) == RankOf(n2, numProcesses, l2)
    ensures n1 == n2 && l1 == l2
  {
    if n1 < n2 {
      MulLe(n1 + 1, n2, numProcesses);
    } else if n2 < n1 {
      MulLe(n2 + 1, n1, numProcesses);
    }
  }

  lemma MulLe(a: nat, b: nat, p: nat)
    requires a <= b
    ensures a * p <= b * p
  {
    assert b * p == a * p + (b - a) * p;
  }

  /** What the rank-zero worker sends back to the main process. */
  datatype SpawnOutput = SpawnOutput(
    bestModelPath: Option<string>,
    weightsPath: Option<string>,
    trainerFn: Trainer.TrainerFn,
    results: Obj,
    extra: FakeQueue<Metrics>)

  /** `os.path.join` of a directory and a file name. */
  function PathJoin(dir: string, name: string): (r: string)
    ensures |r| >= |name| && r[|r| - |name|..] == name
  {
    if dir == [] || dir[|dir| - 1] == '/' then dir + name else dir + "/" + name
  }

  class DDPSpawnStrategy {
    var numNodes: int
    var localRank: int
    const devices: Option<seq<Device>>
    const cluster: Option<ClusterEnvironment>

    /** The constructor starts on one node as local rank 0 and sets the world ranks from there. */
    constructor(devices: Option<seq<Device>>, cluster: Option<ClusterEnvironment>)
      modifies if cluster.Some? then {cluster.value} else {}
      ensures this.devices == devices && this.cluster == cluster && numNodes == 1 && localRank == 0
      ensures cluster.Some? ==>
        && cluster.value.globalRank == RankOf(cluster.value.nodeRank, NumProcesses(), 0)
        && cluster.value.worldSize == NumProcesses()
    {
      this.devices := devices;
      this.cluster := cluster;
      numNodes := 1;
      localRank := 0;
      new;
      SetWorldRanks(0);
    }

    /** `num_processes`: one process per parallel device. */
    function NumProcesses(): (n: nat)
      ensures devices.None? ==> n == 0
      ensures devices.Some? ==> n == |devices.value|
    {
      if devices.None? then 0 else |devices.value|
    }

    function GlobalRank(): int
      reads this, if cluster.Some? then {cluster.value} else {}
    {
      if cluster.None? then 0 else cluster.value.globalRank
    }

    function NodeRank(): int
    {
      if cluster.None? then 0 else cluster.value.nodeRank
    }

    /** `distributed_sampler_kwargs`: one replica per process of every node, at this process's global rank. */
    function DistributedSamplerKwargs(): (r: SamplerKwargs)
      reads this, if cluster.Some? then {cluster.value} else {}
      ensures r.numReplicas == numNodes * NumProcesses() && r.rank == GlobalRank()
    {
      SamplerKwargs(numNodes * NumProcesses(), GlobalRank())
    }

    /**
     * `set_world_ranks`: takes `processIdx` as the local rank and tells the
     * cluster environment the global rank and world size it implies.
     */
    method SetWorldRanks(processIdx: int)
      modifies this`localRank, if cluster.Some? then {cluster.value} else {}
      ensures localRank == processIdx && numNodes == old(numNodes)
      ensures cluster.Some? ==>
        && cluster.value.globalRank == RankOf(cluster.value.nodeRank, NumProcesses(), processIdx)
        && cluster.value.worldSize == numNodes * NumProcesses()
    {
      localRank := processIdx;
      if cluster.None? {
        return;
      }
      cluster.value.globalRank := RankOf(NodeRank(), NumProcesses(), localRank);
      cluster.value.worldSize := numNodes * NumProcesses();
    }

    /** The `num_nodes` setter: stores the value and recomputes the world ranks, which also resets the local rank to 0. */
    method SetNumNodes(n: int)
      modifies this, if cluster.Some? then {cluster.value} else {}
      ensures numNodes == n && localRank == 0
      ensures cluster.Some? ==>
        && cluster.value.globalRank == RankOf(cluster.value.nodeRank, NumProcesses(), 0)
        && cluster.value.worldSize == n * NumProcesses()
    {
      numNodes := n;
      SetWorldRanks(0);
    }

    /**
     * `_collect_rank_zero_results`: nothing off global rank zero; on rank
     * zero the best checkpoint path, the path of the last weights when
     * fitting, the trainer's entry point, the run's results, and a queue
     * holding what the module's own `add_to_queue` puts (when it overrides
     * the hook; `moduleItems`) followed by the callback metrics.
     */
    method CollectRankZeroResults(fn: Trainer.TrainerFn, bestModelPath: Option<string>, defaultRootDir: string,
                                  results: Obj, callbackMetrics: Metrics,
                                  moduleOverrides: bool, moduleItems: seq<Metrics>) returns (r: Option<SpawnOutput>)
      ensures r.None? <==> GlobalRank() != 0
      ensures r.Some? ==>
        && r.value.bestModelPath == bestModelPath
        && r.value.weightsPath == (if fn == Trainer.Fitting then Some(PathJoin(defaultRootDir, ".temp.ckpt")) else None)
        && r.value.trainerFn == fn
        && r.value.results == results
        && fresh(r.value.extra)
        && r.value.extra.items == (if moduleOverrides then moduleItems else []) + [callbackMetrics]
    {
      if GlobalRank() != 0 {
        return None;
      }
      var weightsPath := None;
      if fn == Trainer.Fitting {
        weightsPath := Some(PathJoin(defaultRootDir, ".temp.ckpt"));
      }
      var extra := new FakeQueue<Metrics>();
      if moduleOverrides {
        for i := 0 to |moduleItems|
          invariant extra.items == moduleItems[..i]
        {
          extra.Put(moduleItems[i]);
        }
        assert moduleItems[..|moduleItems|] == moduleItems;
      }
      AddToQueue(callbackMetrics, extra);
      r := Some(SpawnOutput(bestModelPath, weightsPath, fn, results, extra));
    }
  }

  /** `add_to_queue`: puts the trainer's callback metrics on the queue. */
  method AddToQueue(callbackMetrics: Metrics, queue: FakeQueue<Metrics>)
    modifies queue
    ensures queue.items == old(queue.items) + [callbackMetrics]
  {
    queue.Put(callbackMetrics);
  }

  /** `get_from_queue`: takes the oldest metrics off the queue and updates the trainer's callback metrics with them. */
  method GetFromQueue(callbackMetrics: Metrics, queue: FakeQueue<Metrics>) returns (r: Result<Metrics>)
    modifies queue
    ensures old(queue.items) == [] ==> r == Err(IndexError)
    ensures old(queue.items) != [] ==> r == Ok(callbackMetrics + old(queue.items)[0]) && queue.items == old(queue.items)[1..]
  {
    var got :- queue.Get();
    r := Ok(callbackMetrics + got);
  }

  /**
   * The metrics of the rank-zero worker reach the main process: after a put
   * on a fresh queue and a get, the main process holds every worker metric,
   * and keeps its own metrics the worker did not report.
   */
  method MetricsRoundTrip(workerMetrics: Metrics, mainMetrics: Metrics) returns (r: Result<Metrics>)
    ensures r.Ok?
    ensures forall k :: k in workerMetrics ==> k in r.value && r.value[k] == workerMetrics[k]
    ensures forall k :: k in mainMetrics && k !in workerMetrics ==> k in r.value && r.value[k] == mainMetrics[k]
    ensures r.value.Keys == workerMetrics.Keys + mainMetrics.Keys
  {
    var queue := new FakeQueue<Metrics>();
    AddToQueue(workerMetrics, queue);
    r := GetFromQueue(mainMetrics, queue);
  }
}
