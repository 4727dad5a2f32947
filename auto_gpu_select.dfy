/**
 * Automatic GPU selection (pi_ml/tuner/auto_gpu_select.py): devices are
 * tried in index order and the first ones on which a small allocation
 * succeeds are taken.
 *
 * Whether the trial allocation succeeds on device `i` is `allocates[i]`;
 * the number of visible devices is `|allocates|`.
 */
module AutoGpuSelect {
  import opened Wrappers

  /** The devices on which the allocation succeeds, from index `k` up, in increasing order. */
  function UsableFrom(allocates: seq<bool>, k: nat): (r: seq<nat>)
    ensures forall i :: 0 <= i < |r| ==> k <= r[i] < |allocates| && allocates[r[i]]
    decreases |allocates| - k
  {
    if k >= |allocates| then []
    else if allocates[k] then [k] + UsableFrom(allocates, k + 1)
    else UsableFrom(allocates, k + 1)
  }

  function Usable(allocates: seq<bool>): seq<nat>
  {
    UsableFrom(allocates, 0)
  }

  predicate StrictlyIncreasing(s: seq<nat>)
  {
    forall i, j :: 0 <= i < j < |s| ==> s[i] < s[j]
  }

  lemma {:induction false} UsableFromIncreasing(allocates: seq<bool>, k: nat)
    ensures StrictlyIncreasing(UsableFrom(allocates, k))
    decreases |allocates| - k
  {
    if k < |allocates| {
      UsableFromIncreasing(allocates, k + 1);
    }
  }

  lemma {:induction false} UsableFromComplete(allocates: seq<bool>, k: nat, j: nat)
    requires k <= j < |allocates| && allocates[j]
    ensures j in UsableFrom(allocates, k)
    decreases |allocates| - k
  {
    if k < j {
      UsableFromComplete(allocates, k + 1, j);
    }
  }

  /**
   * The `i`-th usable device is the smallest usable one outside the first
   * `i`: each one below it is usable only when it is among them.
   */
  lemma NextUsable(allocates: seq<bool>, i: nat)
    requires i < |Usable(allocates)|
    ensures var u := Usable(allocates);
      && u[i] !in u[..i]
      && forall j :: 0 <= j < u[i] && allocates[j] ==> j in u[..i]
  {
    var u := Usable(allocates);
    UsableFromIncreasing(allocates, 0);
    forall j | 0 <= j < u[i] && allocates[j]
      ensures j in u[..i]
    {
      UsableFromComplete(allocates, 0, j);
      var p :| 0 <= p < |u| && u[p] == j;
      assert p < i;
      assert u[..i][p] == j;
    }
  }

  /** Every usable device is among the usable devices' listing. */
  lemma AllUsableListed(allocates: seq<bool>)
    ensures forall j :: 0 <= j < |allocates| && allocates[j] ==> j in Usable(allocates)
  {
    forall j | 0 <= j < |allocates| && allocates[j]
      ensures j in Usable(allocates)
    {
      UsableFromComplete(allocates, 0, j);
    }
  }

  /**
   * `pick_single_gpu`: the smallest device index that is not excluded and
   * on which the allocation succeeds; RuntimeError when there is none.
   */
  method PickSingleGpu(exclude: seq<nat>, allocates: seq<bool>) returns (r: Result<nat>)
    ensures r.Ok? ==> r.value < |allocates| && r.value !in exclude && allocates[r.value]
    ensures r.Ok? ==> forall j :: 0 <= j < r.value ==> j in exclude || !allocates[j]
    ensures r.Err? ==> r == Err(RuntimeError) && forall j :: 0 <= j < |allocates| ==> j in exclude || !allocates[j]
  {
    var i := 0;
    while i < |allocates|
      invariant 0 <= i <= |allocates|
      invariant forall j :: 0 <= j < i ==> j in exclude || !allocates[j]
    {
      if i in exclude {
        i := i + 1;
        continue;
      }
      if !allocates[i] {
        i := i + 1;
        continue;
      }
      return Ok(i);
    }
    return Err(RuntimeError);
  }

  /**
   * `pick_multiple_gpus`: 0 devices is a configuration error; -1 means all
   * visible devices; then one device is picked at a time, excluding those
   * already picked. The result is the first `nb` usable devices in index
   * order, or RuntimeError when there are fewer.
   */
  method PickMultipleGpus(nb: int, allocates: seq<bool>) returns (r: Result<seq<nat>>)
    ensures nb == 0 ==> r.Err? && r.error.Misconfiguration?
    ensures nb != 0 ==>
      var n := if nb == -1 then |allocates| else if nb < 0 then 0 else nb;
      && (n <= |Usable(allocates)| ==> r == Ok(Usable(allocates)[..n]))
      && (n > |Usable(allocates)| ==> r == Err(RuntimeError))
  {
    if nb == 0 {
      return Err(Misconfiguration("auto_select_gpus=True, gpus=0 is not a valid configuration."));
    }
    var n := if nb == -1 then |allocates| else nb;
    ghost var u := Usable(allocates);
    var picked: seq<nat> := [];
    for i := 0 to (if n < 0 then 0 else n)
      invariant i <= |u| && picked == u[..i]
    {
      var pick := PickSingleGpu(picked, allocates);
      if pick.Err? {
        if i < |u| {
          NextUsable(allocates, i);
          assert false;
        }
        return Err(RuntimeError);
      }
      if i >= |u| {
        AllUsableListed(allocates);
        assert false;
      }
      NextUsable(allocates, i);
      UsableFromIncreasing(allocates, 0);
      if pick.value < u[i] {
        assert false;
      } else if pick.value > u[i] {
        assert false;
      }
      picked := picked + [pick.value];
      assert picked == u[..i + 1];
    }
    r := Ok(picked);
  }

  /** What the selection promises: as many devices as asked, all different, each one usable. */
  lemma PickedDistinctUsable(allocates: seq<bool>, n: nat)
    requires n <= |Usable(allocates)|
    ensures var picked := Usable(allocates)[..n];
      && |picked| == n
      && (forall i, j :: 0 <= i < j < n ==> picked[i] != picked[j])
      && (forall i :: 0 <= i < n ==> picked[i] < |allocates| && allocates[picked[i]])
  {
    UsableFromIncreasing(allocates, 0);
  }
}
