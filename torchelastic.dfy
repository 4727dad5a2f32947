/**
 * The torchelastic cluster environment
 * (pi_ml/plugins/environments/torchelastic_environment.py): every rank comes
 * from the process environment, which the launcher fills; the rendezvous
 * address and port fall back to local defaults, written back into the
 * environment.
 */
module TorchElastic {
  import opened Wrappers
  import opened PyText

  type Environ = map<string, string>

  const DefaultAddress := "127.0.0.1"
  const DefaultPort := "12910"

  /** `detect`: the launcher sets RANK, GROUP_RANK, LOCAL_RANK and LOCAL_WORLD_SIZE. */
  predicate Detect(env: Environ)
  {
    {"RANK", "GROUP_RANK", "LOCAL_RANK", "LOCAL_WORLD_SIZE"} <= env.Keys
  }

  /** `int(os.environ[name])`: a missing variable is a KeyError, a non-integer a ValueError. */
  function IntVar(env: Environ, name: string): (r: Result<int>)
    ensures name !in env ==> r == Err(KeyError)
    ensures name in env && ParseInt(env[name]).None? ==> r == Err(ValueError)
    ensures name in env && ParseInt(env[name]).Some? ==> r == Ok(ParseInt(env[name]).value)
  {
    if name !in env then Err(KeyError)
    else match ParseInt(env[name])
      case None => Err(ValueError)
      case Some(v) => Ok(v)
  }

  lemma DefaultPortValue()
    ensures AllDigits(DefaultPort) && DigitsValue(DefaultPort) == 12910
  {
    var s := DefaultPort;
    assert s[..4] == "1291";
    assert DigitsValue(s) == DigitsValue("1291") * 10 + 0;
    assert "1291"[..3] == "129";
    assert DigitsValue("1291") == DigitsValue("129") * 10 + 1;
    assert "129"[..2] == "12";
    assert DigitsValue("129") == DigitsValue("12") * 10 + 9;
    assert "12"[..1] == "1";
    assert DigitsValue("12") == DigitsValue("1") * 10 + 2;
    assert "1"[..0] == "";
    assert DigitsValue("1") == 1;
  }

  lemma DefaultPortParses()
    ensures ParseInt(DefaultPort) == Some(12910)
  {
    DefaultPortValue();
    ParseIntDigits(DefaultPort);
  }

  class TorchElasticEnvironment {
    /** The process environment, `os.environ`. */
    var env: Environ

    constructor(env: Environ)
      ensures this.env == env
    {
      this.env := env;
    }

    /** Processes are started by the torchelastic launcher, not by the strategy. */
    predicate CreatesProcessesExternally()
    {
      true
    }

    /** `main_address`: MASTER_ADDR, set to 127.0.0.1 first when it is missing. */
    method MainAddress() returns (r: string)
      modifies this
      ensures "MASTER_ADDR" !in old(env) ==> r == DefaultAddress && env == old(env)["MASTER_ADDR" := DefaultAddress]
      ensures "MASTER_ADDR" in old(env) ==> r == old(env)["MASTER_ADDR"] && env == old(env)
      ensures "MASTER_ADDR" in env && env["MASTER_ADDR"] == r
    {
      if "MASTER_ADDR" !in env {
        env := env["MASTER_ADDR" := DefaultAddress];
      }
      r := env["MASTER_ADDR"];
    }

    /** `main_port`: MASTER_PORT as an int, set to 12910 first when it is missing. */
    method MainPort() returns (r: Result<int>)
      modifies this
      ensures "MASTER_PORT" !in old(env) ==> r == Ok(12910) && env == old(env)["MASTER_PORT" := DefaultPort]
      ensures "MASTER_PORT" in old(env) ==> r == IntVar(old(env), "MASTER_PORT") && env == old(env)
    {
      if "MASTER_PORT" !in env {
        env := env["MASTER_PORT" := DefaultPort];
        DefaultPortParses();
      }
      r := IntVar(env, "MASTER_PORT");
    }

    function WorldSize(): (r: Result<int>)
      reads this
      ensures r == IntVar(env, "WORLD_SIZE")
    {
      IntVar(env, "WORLD_SIZE")
    }

    function GlobalRank(): (r: Result<int>)
      reads this
      ensures r == IntVar(env, "RANK")
    {
      IntVar(env, "RANK")
    }

    function LocalRank(): (r: Result<int>)
      reads this
      ensures r == IntVar(env, "LOCAL_RANK")
    {
      IntVar(env, "LOCAL_RANK")
    }

    /** `node_rank`: GROUP_RANK, with 0 when it is missing. */
    function NodeRank(): (r: Result<int>)
      reads this
      ensures "GROUP_RANK" !in env ==> r == Ok(0)
      ensures "GROUP_RANK" in env ==> r == IntVar(env, "GROUP_RANK")
    {
      if "GROUP_RANK" !in env then Ok(0) else IntVar(env, "GROUP_RANK")
    }

    /** `set_world_size`: the launcher owns the world size; the request is ignored. */
    method SetWorldSize(size: int)
      modifies this
      ensures env == old(env)
    {
    }

    /** `set_global_rank`: the launcher owns the global rank; the request is ignored. */
    method SetGlobalRank(rank: int)
      modifies this
      ensures env == old(env)
    {
    }
  }

  /** Asking a second time changes nothing: the first call fixed the address and port in the environment. */
  method MainAddressAndPortStable(e: TorchElasticEnvironment) returns (a1: string, a2: string, p1: Result<int>, p2: Result<int>)
    modifies e
    ensures a1 == a2 && p1 == p2
    ensures "MASTER_ADDR" in e.env && "MASTER_PORT" in e.env
  {
    a1 := e.MainAddress();
    ghost var before := e.env;
    p1 := e.MainPort();
    AddressAndPortKeys();
    assert "MASTER_ADDR" in e.env && e.env["MASTER_ADDR"] == a1;
    ghost var env := e.env;
    assert "MASTER_PORT" in env && p1 == IntVar(env, "MASTER_PORT") by {
      if "MASTER_PORT" !in before {
        DefaultPortParses();
      }
    }
    a2 := e.MainAddress();
    assert e.env == env;
    p2 := e.MainPort();
  }

  lemma AddressAndPortKeys()
    ensures "MASTER_ADDR" != "MASTER_PORT"
  {
    assert "MASTER_ADDR"[7] != "MASTER_PORT"[7];
  }

  /** When the launcher ran, the node rank is the parsed GROUP_RANK. */
  lemma NodeRankDetected(e: TorchElasticEnvironment)
    requires Detect(e.env)
    ensures e.NodeRank() == IntVar(e.env, "GROUP_RANK")
  {
    assert "GROUP_RANK" in {"RANK", "GROUP_RANK", "LOCAL_RANK", "LOCAL_WORLD_SIZE"};
  }
}
