/**
 * The rank bookkeeping shared by the multi-process strategies
 * (pi_ml/strategies/parallel.py): the defaults used without a cluster
 * environment, the rule that turns per-process decisions into one, the
 * choice of communication backend and the sampler arguments.
 */
module Parallel {
  import opened Wrappers

  /** A `torch.device`: its type ("cpu", "cuda", ...) and optional index. */
  datatype Device = Device(kind: string, index: Option<nat>)

  /** What a cluster environment reports about the current process. */
  datatype ClusterRanks = ClusterRanks(globalRank: int, localRank: int, nodeRank: int, worldSize: int)

  datatype ParallelStrategy = ParallelStrategy(
    devices: Option<seq<Device>>,
    cluster: Option<ClusterRanks>,
    rootDevice: Device)

  datatype SamplerKwargs = SamplerKwargs(numReplicas: int, rank: int)

  function GlobalRank(p: ParallelStrategy): int
  {
    if p.cluster.None? then 0 else p.cluster.value.globalRank
  }

  function LocalRank(p: ParallelStrategy): int
  {
    if p.cluster.None? then 0 else p.cluster.value.localRank
  }

  function NodeRank(p: ParallelStrategy): int
  {
    if p.cluster.None? then 0 else p.cluster.value.nodeRank
  }

  function WorldSize(p: ParallelStrategy): int
  {
    if p.cluster.None? then 1 else p.cluster.value.worldSize
  }

  predicate IsGlobalZero(p: ParallelStrategy)
  {
    GlobalRank(p) == 0
  }

  /** Without a cluster environment the process is alone: every rank 0, a world of one, and it is global zero. */
  lemma NoClusterDefaults(p: ParallelStrategy)
    requires p.cluster.None?
    ensures GlobalRank(p) == 0 && LocalRank(p) == 0 && NodeRank(p) == 0 && WorldSize(p) == 1
    ensures IsGlobalZero(p)
  {
  }

  /** With a cluster environment every rank is the one it reports. */
  lemma ClusterRanksUsed(p: ParallelStrategy)
    requires p.cluster.Some?
    ensures GlobalRank(p) == p.cluster.value.globalRank && LocalRank(p) == p.cluster.value.localRank
    ensures NodeRank(p) == p.cluster.value.nodeRank && WorldSize(p) == p.cluster.value.worldSize
    ensures IsGlobalZero(p) <==> p.cluster.value.globalRank == 0
  {
  }

  /** The number of `true` decisions: what a SUM reduction of `int(decision)` across ranks yields. */
  function CountTrue(ds: seq<bool>): (n: nat)
    ensures n <= |ds|
  {
    if ds == [] then 0 else (if ds[0] then 1 else 0) + CountTrue(ds[1..])
  }

  /**
   * `reduce_boolean_decision`: `decisions[r]` is the decision of rank `r`;
   * the reduced decision holds when the summed decisions reach the world size.
   */
  function ReduceBooleanDecision(decisions: seq<bool>, worldSize: int): (r: bool)
    ensures r <==> CountTrue(decisions) == worldSize
  {
    CountTrue(decisions) == worldSize
  }

  /** The sum reaches the number of ranks exactly when every rank agreed. */
  lemma {:induction false} CountTrueAll(ds: seq<bool>)
    ensures CountTrue(ds) == |ds| <==> forall i :: 0 <= i < |ds| ==> ds[i]
  {
    if ds != [] {
      CountTrueAll(ds[1..]);
      if CountTrue(ds) == |ds| {
        assert ds[0];
        forall i | 0 < i < |ds|
          ensures ds[i]
        {
          assert ds[1..][i - 1] == ds[i];
        }
      }
      if forall i :: 0 <= i < |ds| ==> ds[i] {
        assert forall i :: 0 <= i < |ds[1..]| ==> ds[1..][i];
      }
    }
  }

  /** With one decision per rank, the reduced decision holds iff every rank decided yes. */
  lemma ReduceIsUnanimity(p: ParallelStrategy, decisions: seq<bool>)
    requires |decisions| == WorldSize(p)
    ensures ReduceBooleanDecision(decisions, WorldSize(p)) <==> forall i :: 0 <= i < |decisions| ==> decisions[i]
  {
    CountTrueAll(decisions);
  }

  /** `torch_distributed_backend`: the PL_TORCH_DISTRIBUTED_BACKEND override, else nccl on CUDA and gloo otherwise. */
  function TorchDistributedBackend(p: ParallelStrategy, envBackend: Option<string>): (r: string)
    ensures envBackend.Some? ==> r == envBackend.value
    ensures envBackend.None? && p.rootDevice.kind == "cuda" ==> r == "nccl"
    ensures envBackend.None? && p.rootDevice.kind != "cuda" ==> r == "gloo"
  {
    match envBackend
    case Some(b) => b
    case None => if p.rootDevice.kind == "cuda" then "nccl" else "gloo"
  }

  /** `distributed_sampler_kwargs`: one replica per parallel device; `len(None)` is a TypeError. */
  function DistributedSamplerKwargs(p: ParallelStrategy): (r: Result<SamplerKwargs>)
    ensures p.devices.None? <==> r == Err(TypeError)
    ensures r.Ok? ==> r.value.numReplicas == |p.devices.value| && r.value.rank == GlobalRank(p)
  {
    if p.devices.None? then Err(TypeError)
    else Ok(SamplerKwargs(|p.devices.value|, GlobalRank(p)))
  }
}
