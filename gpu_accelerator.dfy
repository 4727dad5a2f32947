/**
 * The GPU accelerator (pi_ml/accelerators/gpu.py): the check that the root
 * device is a CUDA device, and the mapping from a device index to the real
 * GPU id under CUDA_VISIBLE_DEVICES.
 */
module GpuAccelerator {
  import opened Wrappers
  import opened PyText
  import Parallel

  /** `setup_environment`: only a CUDA root device is accepted. */
  function SetupEnvironment(root: Parallel.Device): (r: Result<()>)
    ensures r.Ok? <==> root.kind == "cuda"
    ensures r.Err? ==> r.error.Misconfiguration?
  {
    if root.kind != "cuda" then Err(Misconfiguration("Device should be GPU")) else Ok(())
  }

  /** The decimal names of the first `n` device indices. */
  function IndexNames(n: nat): (r: seq<string>)
    ensures |r| == n && forall i :: 0 <= i < n ==> r[i] == NatToString(i)
  {
    seq(n, i requires 0 <= i => NatToString(i))
  }

  /** Python's `xs[i]`: negative indices count from the end. */
  function PyIndex<T>(xs: seq<T>, i: int): (r: Result<T>)
    ensures 0 <= i < |xs| ==> r == Ok(xs[i])
    ensures -|xs| <= i < 0 ==> r == Ok(xs[|xs| + i])
    ensures i < -|xs| || i >= |xs| ==> r == Err(IndexError)
  {
    if 0 <= i < |xs| then Ok(xs[i])
    else if -|xs| <= i < 0 then Ok(xs[|xs| + i])
    else Err(IndexError)
  }

  /**
   * `_get_gpu_id`: the `deviceId`-th comma-separated entry of
   * CUDA_VISIBLE_DEVICES, stripped; when the variable is unset, the list of
   * all `deviceCount` indices.
   */
  function GetGpuId(deviceId: int, cudaVisibleDevices: Option<string>, deviceCount: nat): (r: Result<string>)
    ensures r.Err? ==> r.error == IndexError
    ensures r.Ok? ==> Strip(r.value) == r.value
  {
    var visible := if cudaVisibleDevices.Some? then cudaVisibleDevices.value else Join(IndexNames(deviceCount), ",");
    var entries := Split(visible, ",");
    var e :- PyIndex(entries, deviceId);
    StripIdempotent(e);
    Ok(Strip(e))
  }

  /** With CUDA_VISIBLE_DEVICES set, the id is the stripped entry, and an index past the list is an IndexError. */
  lemma GetGpuIdSet(deviceId: int, visible: string, deviceCount: nat)
    ensures var entries := Split(visible, ",");
      && (0 <= deviceId < |entries| ==> GetGpuId(deviceId, Some(visible), deviceCount) == Ok(Strip(entries[deviceId])))
      && (deviceId >= |entries| ==> GetGpuId(deviceId, Some(visible), deviceCount) == Err(IndexError))
  {
  }

  /** With CUDA_VISIBLE_DEVICES unset, device `i` is GPU "i". */
  lemma GetGpuIdUnset(deviceId: nat, deviceCount: nat)
    requires deviceId < deviceCount
    ensures GetGpuId(deviceId, None, deviceCount) == Ok(NatToString(deviceId))
  {
    var names := IndexNames(deviceCount);
    forall k | 0 <= k < |names|
      ensures ',' !in names[k]
    {
      assert AllDigits(names[k]);
    }
    SplitJoinChar(names, ',');
    assert Join(names, ",") == Join(names, [',']);
    DigitsNoSpace(names[deviceId]);
    StripNoSpace(names[deviceId]);
  }

  /** With CUDA_VISIBLE_DEVICES unset, an index at or past the device count is an IndexError, except that with no device at all index 0 names the empty entry. */
  lemma GetGpuIdUnsetPast(deviceId: nat, deviceCount: nat)
    requires deviceId >= deviceCount
    ensures deviceCount > 0 || deviceId > 0 ==> GetGpuId(deviceId, None, deviceCount) == Err(IndexError)
    ensures deviceCount == 0 && deviceId == 0 ==> GetGpuId(deviceId, None, deviceCount) == Ok("")
  {
    var names := IndexNames(deviceCount);
    if deviceCount > 0 {
      forall k | 0 <= k < |names|
        ensures ',' !in names[k]
      {
        assert AllDigits(names[k]);
      }
      SplitJoinChar(names, ',');
      assert Join(names, ",") == Join(names, [',']);
    } else {
      SplitNoSeparator("", ",");
      StripNoSpace("");
    }
  }
}
