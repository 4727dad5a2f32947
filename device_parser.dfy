/**
 * Parsing of the Trainer's `gpus` and `tpu_cores` arguments into device ids
 * (pi_ml/utilities/device_parser.py). The number of visible CUDA devices, the
 * availability of a TPU and the torchelastic launch check are parameters.
 */
module DeviceParser {
  import opened Wrappers
  import opened PyText

  /** A `gpus` / `tpu_cores` argument as the Trainer receives it. */
  datatype DeviceArg =
    | NoneArg
    | BoolArg(b: bool)
    | IntArg(n: int)
    | StrArg(s: string)
    | ListArg(items: seq<int>)     // any mutable sequence
    | TupleArg(items: seq<int>)
    | OtherArg                     // float, set, dict, ...

  const NoGpusAvailable := "GPUs requested but none are available."
  const GpusNotUnique := "Device ID's (GPU) must be unique."
  const GpusNotOnMachine := "requested GPUs are not all available on this machine"
  const BadDeviceType := "Device ID's (GPU/TPU) must be int, string or sequence of ints or None."
  const BadTpuCores := "`tpu_cores` can only be 1, 8 or [<1-8>]"
  const NoTpu := "No TPU devices were found."

  /** `list(range(n))`: empty when n <= 0. */
  function Range(n: int): (r: seq<int>)
    ensures |r| == (if n < 0 then 0 else n)
    ensures forall i :: 0 <= i < |r| ==> r[i] == i
  {
    if n <= 0 then [] else Range(n - 1) + [n - 1]
  }

  predicate Distinct(ids: seq<int>)
  {
    forall i, j :: 0 <= i < j < |ids| ==> ids[i] != ids[j]
  }

  function Elements(ids: seq<int>): set<int>
  {
    set x | x in ids
  }

  // ------------------------------------------------------------ type check

  /** `_check_data_type`: None, int, str, a list or a tuple, but never a bool. */
  function CheckDataType(a: DeviceArg): (r: Result<()>)
    ensures r.Ok? <==> (a.NoneArg? || a.IntArg? || a.StrArg? || a.ListArg? || a.TupleArg?)
    ensures r.Err? ==> r.error == Misconfiguration(BadDeviceType)
  {
    match a
    case BoolArg(_) => Err(Misconfiguration(BadDeviceType))
    case OtherArg => Err(Misconfiguration(BadDeviceType))
    case _ => Ok(())
  }

  // ------------------------------------------------------ string arguments

  /** A piece of a comma-separated id list that `int()` accepts or the comprehension skips. */
  predicate PieceParses(x: string)
  {
    x == [] || ParseInt(Strip(x)).Some?
  }

  /** `[int(x.strip()) for x in pieces if len(x) > 0]`; a bad piece is a ValueError. */
  function ParseIntPieces(pieces: seq<string>): (r: Result<seq<int>>)
    ensures r.Ok? ==> |r.value| <= |pieces|
    ensures r.Err? ==> r.error == ValueError
    ensures r.Ok? <==> forall k :: 0 <= k < |pieces| ==> PieceParses(pieces[k])
  {
    if pieces == [] then Ok([])
    else if !PieceParses(pieces[0]) then Err(ValueError)
    else
      var rest := ParseIntPieces(pieces[1..]);
      assert rest.Ok? <==> forall k :: 1 <= k < |pieces| ==> PieceParses(pieces[k]) by {
        assert forall k :: 1 <= k < |pieces| ==> pieces[k] == pieces[1..][k - 1];
      }
      if rest.Err? then Err(ValueError)
      else Ok((if pieces[0] == [] then [] else [ParseInt(Strip(pieces[0])).value]) + rest.value)
  }

  /** A non-empty piece that parses, before pieces that parse, adds its value in front. */
  lemma ParseIntPiecesCons(pieces: seq<string>, n: int, rest: seq<int>)
    requires pieces != [] && pieces[0] != [] && ParseInt(Strip(pieces[0])) == Some(n)
    requires ParseIntPieces(pieces[1..]) == Ok(rest)
    ensures ParseIntPieces(pieces) == Ok([n] + rest)
  {
  }

  /** `_normalize_parse_gpu_string_input`: only strings change. */
  function NormalizeGpuString(a: DeviceArg): (r: Result<DeviceArg>)
    ensures !a.StrArg? ==> r == Ok(a)
    ensures r.Ok? && a.StrArg? ==> r.value.IntArg? || r.value.ListArg?
    ensures r.Err? ==> a.StrArg? && r.error == ValueError
  {
    match a
    case StrArg(s) =>
      if s == "-1" then Ok(IntArg(-1))
      else if ',' in s then
        var ids :- ParseIntPieces(Split(s, ","));
        Ok(ListArg(ids))
      else
        (match ParseInt(Strip(s))
         case None => Err(ValueError)
         case Some(n) => Ok(IntArg(n)))
    case _ => Ok(a)
  }

  /**
   * `_normalize_parse_gpu_input_to_list` over an int or a sequence: a
   * sequence is copied, 0 means no GPUs, -1 means every visible device and
   * any other int N means the first N devices.
   */
  function NormalizeToList(a: DeviceArg, deviceCount: nat): (r: Option<seq<int>>)
    requires a.IntArg? || a.ListArg? || a.TupleArg?
    ensures (a.ListArg? || a.TupleArg?) ==> r == Some(a.items)
    ensures a == IntArg(0) <==> r.None?
    ensures a == IntArg(-1) ==> r == Some(Range(deviceCount))
    ensures a.IntArg? && a.n > 0 ==> r.Some? && |r.value| == a.n && forall i :: 0 <= i < a.n ==> r.value[i] == i
    ensures a.IntArg? && a.n < -1 ==> r == Some([])
  {
    match a
    case IntArg(n) =>
      if n == 0 then None
      else if n == -1 then Some(Range(deviceCount))
      else Some(Range(n))
    case ListArg(items) => Some(items)
    case TupleArg(items) => Some(items)
  }

  // ----------------------------------------------------------- validation

  lemma {:induction false} ElementsBound(ids: seq<int>)
    ensures |Elements(ids)| <= |ids|
    ensures |Elements(ids)| == |ids| <==> Distinct(ids)
    decreases |ids|
  {
    if ids != [] {
      var rest := ids[1..];
      ElementsBound(rest);
      assert Elements(ids) == {ids[0]} + Elements(rest);
      if ids[0] in rest {
        assert Elements(ids) == Elements(rest);
        var j :| 0 <= j < |rest| && rest[j] == ids[0];
        assert ids[0] == ids[j + 1];
      } else {
        assert |Elements(ids)| == |Elements(rest)| + 1;
        if Distinct(rest) {
          forall i, j | 0 <= i < j < |ids|
            ensures ids[i] != ids[j]
          {
            if i > 0 { assert ids[i] == rest[i - 1] && ids[j] == rest[j - 1]; }
            else { assert ids[j] == rest[j - 1]; }
          }
        } else {
          var i, j :| 0 <= i < j < |rest| && rest[i] == rest[j];
          assert ids[i + 1] == ids[j + 1];
        }
      }
    }
  }

  /** `_check_unique`: comparing the list's length with its set's size. */
  function CheckUnique(ids: seq<int>): (r: Result<()>)
    ensures r.Err? ==> r.error == Misconfiguration(GpusNotUnique)
  {
    if |ids| != |Elements(ids)| then Err(Misconfiguration(GpusNotUnique)) else Ok(())
  }

  /** The size comparison rejects exactly the lists with a repeated id. */
  lemma CheckUniqueDistinct(ids: seq<int>)
    ensures CheckUnique(ids).Ok? <==> Distinct(ids)
  {
    ElementsBound(ids);
  }

  /**
   * `_sanitize_gpu_ids`: the ids are returned unchanged when each is one of
   * the visible devices `0 .. deviceCount-1`; the first one that is not is
   * an error.
   */
  function SanitizeGpuIds(ids: seq<int>, deviceCount: nat): (r: Result<seq<int>>)
    ensures r.Ok? <==> forall i :: 0 <= i < |ids| ==> 0 <= ids[i] < deviceCount
    ensures r.Ok? ==> r.value == ids
    ensures r.Err? ==> r.error == Misconfiguration(GpusNotOnMachine)
  {
    if ids == [] then Ok(ids)
    else if !(0 <= ids[0] < deviceCount) then Err(Misconfiguration(GpusNotOnMachine))
    else
      var rest :- SanitizeGpuIds(ids[1..], deviceCount);
      Ok([ids[0]] + rest)
  }

  // ----------------------------------------------------------- parse_gpu_ids

  /** The arguments that mean "no GPUs": None, 0, "0", "[]" and the empty list. */
  predicate RequestsNoGpus(a: DeviceArg)
  {
    || a.NoneArg?
    || a == IntArg(0)
    || (a.StrArg? && (Strip(a.s) == "0" || Strip(a.s) == "[]"))
    || a == ListArg([])
  }

  /**
   * `parse_gpu_ids`. `elastic` is the torchelastic launch check; under it a
   * multi-id request on a machine that shows one device is passed through
   * unchecked.
   */
  function ParseGpuIds(a: DeviceArg, deviceCount: nat, elastic: bool): (r: Result<Option<seq<int>>>)
    ensures RequestsNoGpus(a) ==> r == Ok(None)
    ensures r == Ok(None) ==> RequestsNoGpus(a)
    ensures r.Ok? && r.value.Some? ==> r.value.value != []
  {
    var _ :- CheckDataType(a);
    if RequestsNoGpus(a) then Ok(None)
    else
      var norm :- NormalizeGpuString(a);
      CheckedGpuIds(norm, deviceCount, elastic)
  }

  /**
   * The rest of `parse_gpu_ids` once a request for GPUs has been normalized
   * to an int or a sequence: the id list must be non-empty, then (outside
   * the torchelastic pass-through) duplicate-free and visible.
   */
  function CheckedGpuIds(norm: DeviceArg, deviceCount: nat, elastic: bool): (r: Result<Option<seq<int>>>)
    requires norm.IntArg? || norm.ListArg? || norm.TupleArg?
    ensures r.Ok? ==> r.value.Some? && r.value.value != []
    ensures r.Ok? && !(elastic && deviceCount == 1) ==>
      Distinct(r.value.value) && forall i :: 0 <= i < |r.value.value| ==> 0 <= r.value.value[i] < deviceCount
  {
    var ids := NormalizeToList(norm, deviceCount);
    if ids.None? || ids.value == [] then Err(Misconfiguration(NoGpusAvailable))
    else if elastic && |ids.value| != 1 && deviceCount == 1 then Ok(ids)
    else
      var _ :- CheckUnique(ids.value);
      var checked :- SanitizeGpuIds(ids.value, deviceCount);
      CheckUniqueDistinct(ids.value);
      Ok(Some(checked))
  }

  /** A GPU request that is not for "no GPUs" is decided on its normalized form. */
  lemma ParseGpuIdsOfNormalized(a: DeviceArg, norm: DeviceArg, deviceCount: nat, elastic: bool)
    requires CheckDataType(a).Ok? && !RequestsNoGpus(a) && NormalizeGpuString(a) == Ok(norm)
    ensures norm.IntArg? || norm.ListArg? || norm.TupleArg?
    ensures ParseGpuIds(a, deviceCount, elastic) == CheckedGpuIds(norm, deviceCount, elastic)
  {
  }

  /** A request for GPUs that parses has passed the type check and normalized. */
  lemma ParsedGpuIdsNormalized(a: DeviceArg, deviceCount: nat, elastic: bool)
    requires ParseGpuIds(a, deviceCount, elastic).Ok? && !RequestsNoGpus(a)
    ensures CheckDataType(a).Ok? && NormalizeGpuString(a).Ok?
  {
  }

  /** Outside the torchelastic pass-through, parsed ids are distinct visible devices. */
  lemma ParseGpuIdsValid(a: DeviceArg, deviceCount: nat, elastic: bool)
    requires ParseGpuIds(a, deviceCount, elastic).Ok?
    requires !(elastic && deviceCount == 1)
    ensures var r := ParseGpuIds(a, deviceCount, elastic).value;
      r.Some? ==> Distinct(r.value) && forall i :: 0 <= i < |r.value| ==> 0 <= r.value[i] < deviceCount
  {
    if !RequestsNoGpus(a) {
      ParsedGpuIdsNormalized(a, deviceCount, elastic);
      ParseGpuIdsOfNormalized(a, NormalizeGpuString(a).value, deviceCount, elastic);
    }
  }

  /** An id list that is non-empty, duplicate-free and visible passes the checks unchanged. */
  lemma CheckedGpuIdsAccepts(norm: DeviceArg, ids: seq<int>, deviceCount: nat, elastic: bool)
    requires norm.IntArg? || norm.ListArg? || norm.TupleArg?
    requires NormalizeToList(norm, deviceCount) == Some(ids) && ids != [] && Distinct(ids)
    requires forall i :: 0 <= i < |ids| ==> 0 <= ids[i] < deviceCount
    requires !(elastic && |ids| != 1 && deviceCount == 1)
    ensures CheckedGpuIds(norm, deviceCount, elastic) == Ok(Some(ids))
  {
    CheckUniqueDistinct(ids);
  }

  /**
   * A positive int N asks for devices 0..N-1, which must all be visible;
   * only the torchelastic pass-through (more than one id, one visible
   * device) hands them back unchecked.
   */
  lemma ParseGpuIdsCount(n: int, deviceCount: nat, elastic: bool)
    requires n > 0
    ensures elastic && deviceCount == 1 && n != 1 ==> ParseGpuIds(IntArg(n), deviceCount, elastic) == Ok(Some(Range(n)))
    ensures !(elastic && deviceCount == 1 && n != 1) && n <= deviceCount ==>
      ParseGpuIds(IntArg(n), deviceCount, elastic) == Ok(Some(Range(n)))
    ensures !(elastic && deviceCount == 1 && n != 1) && n > deviceCount ==>
      ParseGpuIds(IntArg(n), deviceCount, elastic) == Err(Misconfiguration(GpusNotOnMachine))
  {
    var ids := Range(n);
    assert Distinct(ids);
    ParseGpuIdsOfNormalized(IntArg(n), IntArg(n), deviceCount, elastic);
    if elastic && deviceCount == 1 && n != 1 {
    } else if n > deviceCount {
      CheckUniqueDistinct(ids);
      assert !(0 <= ids[deviceCount] < deviceCount);
    } else {
      CheckedGpuIdsAccepts(IntArg(n), ids, deviceCount, elastic);
    }
  }

  /** The text "-1" asks for GPUs and normalizes to the int -1. */
  lemma MinusOneText(s: string)
    requires |s| == 2 && s[0] == '-' && s[1] == '1'
    ensures !RequestsNoGpus(StrArg(s)) && NormalizeGpuString(StrArg(s)) == Ok(IntArg(-1))
  {
    MinusOneAsksForGpus(s);
    assert s == "-1";
  }

  lemma MinusOneAsksForGpus(s: string)
    requires |s| == 2 && s[0] == '-' && s[1] == '1'
    ensures !RequestsNoGpus(StrArg(s))
  {
    var t := Strip(s);
    assert t == s by { StripNoSpace(s); }
    assert t != "0" by { assert |"0"| == 1; }
    assert t != "[]" by { assert "[]"[0] == '['; }
    var a := StrArg(s);
    assert a.s == s;
    assert !(a.StrArg? && (Strip(a.s) == "0" || Strip(a.s) == "[]"));
    assert a != IntArg(0);
    assert a != ListArg([]);
    assert !a.NoneArg?;
  }

  /** -1 and "-1" ask for every visible device; with none visible that is an error. */
  lemma ParseGpuIdsAll(a: DeviceArg, deviceCount: nat, elastic: bool)
    requires a == IntArg(-1) || a == StrArg("-1")
    ensures deviceCount == 0 ==> ParseGpuIds(a, deviceCount, elastic) == Err(Misconfiguration(NoGpusAvailable))
    ensures deviceCount > 0 ==> ParseGpuIds(a, deviceCount, elastic) == Ok(Some(Range(deviceCount)))
  {
    if a.StrArg? {
      MinusOneText(a.s);
    }
    ParseGpuIdsOfNormalized(a, IntArg(-1), deviceCount, elastic);
    var ids := Range(deviceCount);
    if deviceCount > 0 {
      assert Distinct(ids);
      CheckedGpuIdsAccepts(IntArg(-1), ids, deviceCount, elastic);
    }
  }

  /** The text "i0,i1,..." of a list of ids. */
  function IdsText(ids: seq<int>): string
  {
    Join(IdTexts(ids), ",")
  }

  function IdTexts(ids: seq<int>): (r: seq<string>)
    ensures |r| == |ids|
    ensures forall k :: 0 <= k < |ids| ==> r[k] == IntToString(ids[k])
  {
    if ids == [] then [] else [IntToString(ids[0])] + IdTexts(ids[1..])
  }

  lemma NoCommaInNumber(n: int)
    ensures ',' !in IntToString(n) && IntToString(n) != []
  {
    var a: nat := if n < 0 then -n else n;
    var ds := NatToString(a);
    assert ',' !in ds by {
      forall i | 0 <= i < |ds| ensures ds[i] != ',' { assert IsDigit(ds[i]); }
    }
    if n < 0 {
      assert IntToString(n) == "-" + ds;
    }
  }

  /** Pieces that each parse to the matching id parse to the id list. */
  lemma {:induction false} ParseEachPiece(pieces: seq<string>, ids: seq<int>)
    requires |pieces| == |ids|
    requires forall k :: 0 <= k < |ids| ==> pieces[k] != [] && ParseInt(Strip(pieces[k])) == Some(ids[k])
    ensures ParseIntPieces(pieces) == Ok(ids)
    decreases |ids|
  {
    if ids != [] {
      ParseEachPiece(pieces[1..], ids[1..]);
      ParseIntPiecesCons(pieces, ids[0], ids[1..]);
      assert [ids[0]] + ids[1..] == ids;
    }
  }

  lemma ParseIdTexts(ids: seq<int>)
    ensures ParseIntPieces(IdTexts(ids)) == Ok(ids)
  {
    var texts := IdTexts(ids);
    forall k | 0 <= k < |ids|
      ensures texts[k] != [] && ParseInt(Strip(texts[k])) == Some(ids[k])
    {
      NumberPiece(ids[k]);
    }
    ParseEachPiece(texts, ids);
  }

  /** The text of an int is a non-empty piece that parses back to it. */
  lemma NumberPiece(n: int)
    ensures IntToString(n) != [] && ParseInt(Strip(IntToString(n))) == Some(n)
  {
    NoCommaInNumber(n);
    StripNoSpaceNumber(n);
    ParseIntToString(n);
  }

  lemma StripNoSpaceNumber(n: int)
    ensures Strip(IntToString(n)) == IntToString(n)
  {
    var a: nat := if n < 0 then -n else n;
    var ds := NatToString(a);
    var s := IntToString(n);
    forall i | 0 <= i < |s| ensures !IsSpace(s[i])
    {
      if n < 0 && i == 0 {
      } else if n < 0 {
        assert s == "-" + ds && s[i] == ds[i - 1];
        assert IsDigit(ds[i - 1]);
      } else {
        assert IsDigit(ds[i]);
      }
    }
    StripNoSpace(s);
  }

  lemma IdsTextComma(ids: seq<int>)
    requires |ids| >= 2
    ensures var s := IdsText(ids); |IdTexts(ids)[0]| < |s| && s[|IdTexts(ids)[0]|] == ','
  {
    var texts := IdTexts(ids);
    assert IdsText(ids) == texts[0] + "," + Join(texts[1..], ",");
  }

  /** The comma-separated text of two or more ids normalizes back to the list. */
  lemma IdsTextNormalizes(ids: seq<int>)
    requires |ids| >= 2
    ensures NormalizeGpuString(StrArg(IdsText(ids))) == Ok(ListArg(ids))
  {
    var texts := IdTexts(ids);
    var s := IdsText(ids);
    forall k | 0 <= k < |texts| ensures ',' !in texts[k] { NoCommaInNumber(ids[k]); }
    SplitJoinChar(texts, ',');
    ParseIdTexts(ids);
    IdsTextComma(ids);
    assert ',' in s;
    assert s != "-1" by { assert ',' !in "-1"; }
  }

  lemma IdsTextRequestsGpus(ids: seq<int>)
    requires |ids| >= 2
    ensures !RequestsNoGpus(StrArg(IdsText(ids)))
  {
    var s := IdsText(ids);
    IdsTextComma(ids);
    StripHasComma(s, |IdTexts(ids)[0]|);
    CommaRequestsGpus(s);
  }

  /** A string that still holds a comma once stripped is neither "0" nor "[]". */
  lemma CommaRequestsGpus(s: string)
    requires ',' in Strip(s)
    ensures !RequestsNoGpus(StrArg(s))
  {
    assert ',' !in "0" && ',' !in "[]";
  }

  /**
   * Writing two or more distinct visible ids as a comma-separated string and
   * parsing it gives the same ids back.
   */
  lemma ParseGpuIdsText(ids: seq<int>, deviceCount: nat, elastic: bool)
    requires |ids| >= 2 && Distinct(ids)
    requires forall i :: 0 <= i < |ids| ==> 0 <= ids[i] < deviceCount
    ensures ParseGpuIds(StrArg(IdsText(ids)), deviceCount, elastic) == Ok(Some(ids))
  {
    IdsTextNormalizes(ids);
    IdsTextRequestsGpus(ids);
    ParseGpuIdsOfNormalized(StrArg(IdsText(ids)), ListArg(ids), deviceCount, elastic);
    assert ids[0] != ids[1];
    assert deviceCount >= 2;
    CheckedGpuIdsAccepts(ListArg(ids), ids, deviceCount, elastic);
  }

  /** A string with a comma somewhere strips to a string that still has one. */
  lemma StripHasComma(s: string, k: nat)
    requires k < |s| && s[k] == ','
    ensures ',' in Strip(s)
  {
    var l := LStrip(s);
    assert !IsSpace(s[k]);
    assert k >= |s| - |l|;
    assert l[k - (|s| - |l|)] == ',';
    var t := RStrip(l);
    assert k - (|s| - |l|) < |t|;
    assert t[k - (|s| - |l|)] == ',';
  }

  /** `determine_root_gpu_device`: the first id of a list, None for None. */
  function DetermineRootGpuDevice(gpus: DeviceArg): (r: Result<Option<int>>)
    ensures gpus.NoneArg? ==> r == Ok(None)
    ensures gpus.ListArg? && gpus.items != [] ==> r == Ok(Some(gpus.items[0]))
    ensures gpus == ListArg([]) ==> r == Err(AssertionError)
    ensures !gpus.NoneArg? && !gpus.ListArg? ==> r == Err(TypeError)
  {
    match gpus
    case NoneArg => Ok(None)
    case ListArg(items) => if |items| > 0 then Ok(Some(items[0])) else Err(AssertionError)
    case _ => Err(TypeError)
  }

  /** The root device of a successfully parsed GPU request is its first id, a visible device. */
  lemma RootOfParsedGpus(a: DeviceArg, deviceCount: nat)
    requires ParseGpuIds(a, deviceCount, false).Ok?
    requires ParseGpuIds(a, deviceCount, false).value.Some?
    ensures var ids := ParseGpuIds(a, deviceCount, false).value.value;
      DetermineRootGpuDevice(ListArg(ids)) == Ok(Some(ids[0])) && 0 <= ids[0] < deviceCount
  {
    ParseGpuIdsValid(a, deviceCount, false);
  }

  // ---------------------------------------------------------------- TPU

  /** `_parse_tpu_cores_str`: "1" and "8" become ints, anything else a list. */
  function ParseTpuCoresStr(s: string): (r: Result<DeviceArg>)
    ensures s == "1" ==> r == Ok(IntArg(1))
    ensures s == "8" ==> r == Ok(IntArg(8))
    ensures r.Ok? ==> r.value.IntArg? || r.value.ListArg?
  {
    if s == "1" then Ok(IntArg(1))
    else if s == "8" then Ok(IntArg(8))
    else
      var ids :- ParseIntPieces(Split(s, ","));
      Ok(ListArg(ids))
  }

  /**
   * `_tpu_cores_valid` as written: it reads the first element of a list or
   * tuple before looking at its length, so an empty one is an IndexError.
   * (`True` equals 1 in Python, so it counts as one core.)
   */
  function TpuCoresValidAsWritten(a: DeviceArg): (r: Result<bool>)
    ensures (a == ListArg([]) || a == TupleArg([])) ==> r == Err(IndexError)
    ensures r.Ok? ==> r.value == TpuCoresValid(a)
  {
    match a
    case NoneArg => Ok(true)
    case IntArg(n) => Ok(n == 1 || n == 8)
    case BoolArg(b) => Ok(b)
    case ListArg(items) => if items == [] then Err(IndexError) else Ok(|items| == 1 && 1 <= items[0] <= 8)
    case TupleArg(items) => if items == [] then Err(IndexError) else Ok(|items| == 1 && 1 <= items[0] <= 8)
    case _ => Ok(false)
  }

  /** A digit string followed by one comma splits into the digits and an empty piece. */
  lemma SplitTrailingComma(d: string)
    requires ',' !in d
    ensures Split(d + ",", ",") == [d, ""]
  {
    assert Join([d, ""], ",") == d + ",";
    SplitJoinChar([d, ""], ',');
  }

  lemma LoneCommaPieces()
    ensures ParseTpuCoresStr(",") == Ok(ListArg([]))
  {
    SplitTrailingComma("");
    assert "" + "," == ",";
    assert ParseIntPieces(["", ""]) == Ok([]);
  }

  /**
   * Under the as-written check, an empty list or tuple, or a string such as
   * "," that parses to one, escapes as an IndexError.
   */
  lemma EmptyTpuListIndexError()
    ensures TpuCoresValidAsWritten(ListArg([])) == Err(IndexError)
    ensures TpuCoresValidAsWritten(DeviceArg.TupleArg([])) == Err(IndexError)
    ensures ParseTpuCoresStr(Strip(",")) == Ok(ListArg([]))
  {
    StripNoSpace(",");
    LoneCommaPieces();
  }

  /**
   * `_tpu_cores_valid` with the length test first: 1, 8 or None, or a
   * one-element list or tuple holding an index from 1 to 8.
   */
  function TpuCoresValid(a: DeviceArg): (r: bool)
    ensures r <==> (a.NoneArg? || a == IntArg(1) || a == IntArg(8) || a == BoolArg(true)
                    || ((a.ListArg? || a.TupleArg?) && |a.items| == 1 && 1 <= a.items[0] <= 8))
  {
    match a
    case NoneArg => true
    case IntArg(n) => n == 1 || n == 8
    case BoolArg(b) => b
    case ListArg(items) => |items| == 1 && 1 <= items[0] <= 8
    case TupleArg(items) => |items| == 1 && 1 <= items[0] <= 8
    case _ => false
  }

  /** `parse_tpu_cores`, with the corrected validity check. */
  function ParseTpuCores(a: DeviceArg, tpuAvailable: bool): (r: Result<DeviceArg>)
    ensures r.Ok? ==> TpuCoresValid(r.value) && !r.value.BoolArg?
    ensures r.Ok? && !r.value.NoneArg? ==> tpuAvailable
    ensures !a.StrArg? ==> (r.Ok? <==> CheckDataType(a).Ok? && TpuCoresValid(a) && (a.NoneArg? || tpuAvailable))
    ensures !a.StrArg? && r.Ok? ==> r.value == a
  {
    var _ :- CheckDataType(a);
    var cores :- if a.StrArg? then ParseTpuCoresStr(Strip(a.s)) else Ok(a);
    CheckedTpuCores(cores, tpuAvailable)
  }

  /**
   * The end of `parse_tpu_cores`: a value that is not a valid core choice is
   * refused, and so is any choice but None when no TPU is present.
   */
  function CheckedTpuCores(cores: DeviceArg, tpuAvailable: bool): (r: Result<DeviceArg>)
    ensures r.Ok? <==> TpuCoresValid(cores) && (cores.NoneArg? || tpuAvailable)
    ensures r.Ok? ==> r.value == cores
    ensures !TpuCoresValid(cores) ==> r == Err(Misconfiguration(BadTpuCores))
    ensures TpuCoresValid(cores) && !cores.NoneArg? && !tpuAvailable ==> r == Err(Misconfiguration(NoTpu))
  {
    if !TpuCoresValid(cores) then Err(Misconfiguration(BadTpuCores))
    else if !cores.NoneArg? && !tpuAvailable then Err(Misconfiguration(NoTpu))
    else Ok(cores)
  }

  lemma DigitParses(c: char)
    requires IsDigit(c)
    ensures ParseInt(Strip([c])) == Some(DigitValue(c))
  {
    ParseIntDigits([c]);
    StripNoSpace([c]);
    assert [c][..0] == [];
  }

  lemma DigitPieces(c: char)
    requires IsDigit(c)
    ensures ParseIntPieces([[c], ""]) == Ok([DigitValue(c)])
  {
    DigitParses(c);
    var pieces := [[c], ""];
    assert pieces[0] == [c] && pieces[0] != [];
    assert PieceParses(pieces[0]);
    assert pieces[1..] == [""];
    assert ParseIntPieces([""]) == Ok([]);
    assert [DigitValue(c)] + [] == [DigitValue(c)];
  }

  lemma DigitWithComma(c: char)
    requires IsDigit(c)
    ensures ParseTpuCoresStr([c, ',']) == Ok(ListArg([DigitValue(c)]))
  {
    SplitTrailingComma([c]);
    assert [c] + "," == [c, ','];
    DigitPieces(c);
  }

  /** Text that strips to "1" asks for one core. */
  lemma TpuStringOne(s: string)
    requires Strip(s) == "1"
    ensures ParseTpuCores(StrArg(s), true) == Ok(IntArg(1))
  {
    TpuCoresOfString(s, true);
  }

  lemma DigitCommaCores(t: string, c: char)
    requires IsDigit(c) && t == [c, ',']
    ensures ParseTpuCoresStr(t) == Ok(ListArg([DigitValue(c)]))
  {
    DigitWithComma(c);
  }

  lemma StrippedCommaCores(s: string, c: char)
    requires IsDigit(c) && Strip(s) == [c, ',']
    ensures ParseTpuCoresStr(Strip(s)) == Ok(ListArg([DigitValue(c)]))
  {
    DigitCommaCores(Strip(s), c);
  }

  /** A string argument goes through `ParseTpuCoresStr` and then the validity check. */
  lemma TpuCoresOfString(s: string, tpuAvailable: bool)
    requires ParseTpuCoresStr(Strip(s)).Ok?
    ensures ParseTpuCores(StrArg(s), tpuAvailable) == CheckedTpuCores(ParseTpuCoresStr(Strip(s)).value, tpuAvailable)
  {
  }

  /** Text that strips to "1," asks for core 1, as a list. */
  lemma TpuStringOneComma(s: string)
    requires Strip(s) == ['1', ',']
    ensures ParseTpuCores(StrArg(s), true) == Ok(ListArg([1]))
  {
    StrippedCommaCores(s, '1');
    TpuCoresOfString(s, true);
  }

  /** Text that strips to "9," names a core out of range. */
  lemma TpuStringNineComma(s: string)
    requires Strip(s) == ['9', ',']
    ensures ParseTpuCores(StrArg(s), true) == Err(Misconfiguration(BadTpuCores))
  {
    StrippedCommaCores(s, '9');
    TpuCoresOfString(s, true);
  }

  lemma TrailingSpaceStrip(s: string)
    requires |s| == 3 && !IsSpace(s[0]) && !IsSpace(s[1]) && s[2] == ' '
    ensures Strip(s) == s[..2]
  {
    assert LStrip(s) == s;
    assert RStrip(s) == RStrip(s[..2]);
    assert s[..2][1] == s[1];
  }

  lemma TpuStringNineCommaSpace(s: string)
    requires s == ['9', ',', ' ']
    ensures ParseTpuCores(StrArg(s), true) == Err(Misconfiguration(BadTpuCores))
  {
    TrailingSpaceStrip(s);
    assert s[..2] == ['9', ','];
    TpuStringNineComma(s);
  }

  /** The TPU choices the Trainer accepts. */
  lemma TpuChoicesAccepted()
    ensures ParseTpuCores(IntArg(1), true) == Ok(IntArg(1))
    ensures ParseTpuCores(IntArg(8), true) == Ok(IntArg(8))
    ensures ParseTpuCores(ListArg([1]), true) == Ok(ListArg([1]))
    ensures ParseTpuCores(ListArg([8]), true) == Ok(ListArg([8]))
  {
  }

  /** The integer and list TPU choices the Trainer rejects with the `tpu_cores` error. */
  lemma TpuChoicesRejected()
    ensures ParseTpuCores(ListArg([9]), true) == Err(Misconfiguration(BadTpuCores))
    ensures ParseTpuCores(ListArg([0]), true) == Err(Misconfiguration(BadTpuCores))
    ensures ParseTpuCores(IntArg(2), true) == Err(Misconfiguration(BadTpuCores))
    ensures ParseTpuCores(IntArg(10), true) == Err(Misconfiguration(BadTpuCores))
  {
  }
}
