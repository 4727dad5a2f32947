/**
 * The device statistics callback (pi_ml/callbacks/device_stats_monitor.py):
 * it refuses to run without a logger and, whenever logs are due, hands the
 * root device's statistics to the logger under keys prefixed with the hook's
 * name.
 *
 * Reading the statistics is the accelerator's business; they are an input.
 */
module DeviceStatsMonitor {
  import opened Wrappers

  type Stats = map<string, Num>

  lemma PrefixInjective(p: string)
    ensures forall k1: string, k2: string :: p + k1 == p + k2 ==> k1 == k2
  {
    forall k1: string, k2: string | p + k1 == p + k2
      ensures k1 == k2
    {
      assert k1 == (p + k1)[|p|..];
      assert k2 == (p + k2)[|p|..];
    }
  }

  /** `_prefix_metric_keys`: every key `k` becomes `prefix + separator + k`, with its value. */
  function PrefixMetricKeys(metrics: Stats, prefix: string, separator: string): (r: Stats)
    ensures forall k :: k in metrics ==> prefix + separator + k in r && r[prefix + separator + k] == metrics[k]
    ensures forall k' :: k' in r ==> exists k :: k in metrics && k' == prefix + separator + k
  {
    var p := prefix + separator;
    PrefixInjective(p);
    map k | k in metrics :: p + k := metrics[k]
  }

  /** The keys `p + k` for `k` in `keys`. */
  ghost function Prefixed(keys: set<string>, p: string): set<string>
  {
    set k | k in keys :: p + k
  }

  lemma {:induction false} PrefixedCard(keys: set<string>, p: string)
    ensures |Prefixed(keys, p)| == |keys|
    decreases |keys|
  {
    if keys != {} {
      var k :| k in keys;
      var rest := keys - {k};
      PrefixedCard(rest, p);
      PrefixInjective(p);
      assert Prefixed(keys, p) == Prefixed(rest, p) + {p + k};
      assert p + k !in Prefixed(rest, p);
    } else {
      assert Prefixed(keys, p) == {};
    }
  }

  /** Prefixing never merges two keys, so no statistic is lost. */
  lemma PrefixKeepsCount(metrics: Stats, prefix: string, separator: string)
    ensures |PrefixMetricKeys(metrics, prefix, separator)| == |metrics|
  {
    var p := prefix + separator;
    var r := PrefixMetricKeys(metrics, prefix, separator);
    assert r.Keys == Prefixed(metrics.Keys, p);
    PrefixedCard(metrics.Keys, p);
    assert |r| == |r.Keys|;
    assert |metrics| == |metrics.Keys|;
  }

  /** The deprecated `prefix_metric_keys`: the same prefixing without a separator. */
  function PrefixMetricKeysNoSeparator(metrics: Stats, prefix: string): (r: Stats)
    ensures forall k :: k in metrics ==> prefix + k in r && r[prefix + k] == metrics[k]
    ensures |r| == |metrics|
  {
    PrefixKeepsCount(metrics, prefix, "");
    assert forall k :: prefix + "" + k == prefix + k;
    PrefixMetricKeys(metrics, prefix, "")
  }

  /** The logger as the callback sees it. */
  datatype Logger = Logger(groupSeparator: string)

  /** A call `logger.log_metrics(metrics, step=step)`. */
  datatype LogCall = LogCall(metrics: Stats, step: int)

  /** `setup`: the callback needs a logger. */
  function Setup(logger: Option<Logger>): (r: Result<()>)
    ensures r.Err? <==> logger.None?
    ensures r.Err? ==> r.error.Misconfiguration?
  {
    if logger.None? then Err(Misconfiguration("Cannot use DeviceStatsMonitor callback with Trainer that has no logger."))
    else Ok(())
  }

  /**
   * `on_train_batch_start` and `on_train_batch_end` (`hook` is the hook's
   * name): without a logger an error; when logs are not due, nothing;
   * otherwise one call logging the statistics at the global step. Whether
   * logs are due is the logger connector's `should_update_logs`, which fails
   * with ZeroDivisionError for a log interval of 0.
   */
  function OnTrainBatch(hook: string, logger: Option<Logger>, shouldUpdateLogs: Result<bool>, deviceStats: Stats,
                        globalStep: int): (r: Result<Option<LogCall>>)
    ensures r.Ok? <==> logger.Some? && shouldUpdateLogs.Ok?
    ensures logger.None? ==> r.Err? && r.error.Misconfiguration?
    ensures logger.Some? && shouldUpdateLogs.Err? ==> r == Err(shouldUpdateLogs.error)
    ensures r.Ok? && !shouldUpdateLogs.value ==> r.value == None
    ensures r.Ok? && shouldUpdateLogs.value ==>
      && r.value.Some? && r.value.value.step == globalStep
      && |r.value.value.metrics| == |deviceStats|
      && forall k :: k in deviceStats ==>
           var key := hook + logger.value.groupSeparator + k;
           key in r.value.value.metrics && r.value.value.metrics[key] == deviceStats[k]
  {
    if logger.None? then Err(Misconfiguration("Cannot use `DeviceStatsMonitor` callback with `Trainer(logger=False)`."))
    else if shouldUpdateLogs.Err? then Err(shouldUpdateLogs.error)
    else if !shouldUpdateLogs.value then Ok(None)
    else
      PrefixKeepsCount(deviceStats, hook, logger.value.groupSeparator);
      Ok(Some(LogCall(PrefixMetricKeys(deviceStats, hook, logger.value.groupSeparator), globalStep)))
  }
}
