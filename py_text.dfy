/**
 * The few Python `str` operations the modelled code relies on, over
 * `seq<char>`: `strip`, `split` with a non-empty separator, `int(...)` on a
 * decimal string, `str(int)` and ASCII `lower`; and `int()` of a float.
 */
module PyText {
  import opened Wrappers

  /** The ASCII characters `str.strip()` removes. */
  predicate IsSpace(c: char)
  {
    c == ' ' || c == '\t' || c == '\n' || c == '\r' || c == '\U{000B}' || c == '\U{000C}'
  }

  predicate IsDigit(c: char)
  {
    '0' <= c <= '9'
  }

  predicate NoSpace(s: string)
  {
    forall i :: 0 <= i < |s| ==> !IsSpace(s[i])
  }

  predicate AllDigits(s: string)
  {
    forall i :: 0 <= i < |s| ==> IsDigit(s[i])
  }

  // ---------------------------------------------------------------- strip

  /** `s.lstrip()`: the suffix of `s` left once leading whitespace is dropped. */
  function LStrip(s: string): (r: string)
    ensures |r| <= |s| && r == s[|s| - |r|..]
    ensures r == [] || !IsSpace(r[0])
    ensures forall i :: 0 <= i < |s| - |r| ==> IsSpace(s[i])
  {
    if s != [] && IsSpace(s[0]) then LStrip(s[1..]) else s
  }

  /** `s.rstrip()`: the prefix of `s` left once trailing whitespace is dropped. */
  function RStrip(s: string): (r: string)
    ensures |r| <= |s| && r == s[..|r|]
    ensures r == [] || !IsSpace(r[|r| - 1])
    ensures forall i :: |r| <= i < |s| ==> IsSpace(s[i])
  {
    if s != [] && IsSpace(s[|s| - 1]) then RStrip(s[..|s| - 1]) else s
  }

  /** `s.strip()`. */
  function Strip(s: string): (r: string)
    ensures r == [] || (!IsSpace(r[0]) && !IsSpace(r[|r| - 1]))
  {
    RStrip(LStrip(s))
  }

  /** Stripping a string without whitespace changes nothing. */
  lemma StripNoSpace(s: string)
    requires NoSpace(s)
    ensures Strip(s) == s
  {
    assert s == [] || !IsSpace(s[0]);
    assert LStrip(s) == s;
    assert s == [] || !IsSpace(s[|s| - 1]);
  }

  /** Stripping is idempotent. */
  lemma StripIdempotent(s: string)
    ensures Strip(Strip(s)) == Strip(s)
  {
    var t := Strip(s);
    assert LStrip(t) == t;
  }

  // ---------------------------------------------------------------- split

  predicate OccursAt(s: string, sep: string, k: int)
  {
    0 <= k && k + |sep| <= |s| && s[k..k + |sep|] == sep
  }

  predicate Contains(s: string, sep: string)
  {
    exists k :: 0 <= k <= |s| && OccursAt(s, sep, k)
  }

  /** The first index at or after `from` where `sep` occurs in `s`. */
  function FindFrom(s: string, sep: string, from: nat): (r: Option<nat>)
    requires sep != []
    ensures r.Some? ==> from <= r.value && OccursAt(s, sep, r.value)
    ensures r.Some? ==> forall k :: from <= k < r.value ==> !OccursAt(s, sep, k)
    ensures r.None? ==> forall k :: from <= k ==> !OccursAt(s, sep, k)
    decreases |s| - from
  {
    if from + |sep| > |s| then None
    else if s[from..from + |sep|] == sep then Some(from)
    else FindFrom(s, sep, from + 1)
  }

  /** `sep in s`, decided by a left-to-right scan. */
  lemma FindFromContains(s: string, sep: string)
    requires sep != []
    ensures FindFrom(s, sep, 0).Some? <==> Contains(s, sep)
  {
    if FindFrom(s, sep, 0).Some? {
      assert OccursAt(s, sep, FindFrom(s, sep, 0).value);
    }
  }

  /**
   * `s.split(sep)` for a non-empty separator: the pieces between the
   * leftmost non-overlapping occurrences of `sep`.
   */
  function Split(s: string, sep: string): (r: seq<string>)
    requires sep != []
    ensures |r| >= 1
    decreases |s|
  {
    match FindFrom(s, sep, 0)
    case None => [s]
    case Some(i) => [s[..i]] + Split(s[i + |sep|..], sep)
  }

  /** `sep.join(parts)`. */
  function Join(parts: seq<string>, sep: string): string
  {
    if |parts| == 0 then ""
    else if |parts| == 1 then parts[0]
    else parts[0] + sep + Join(parts[1..], sep)
  }

  lemma {:induction false} SplitAt(s: string, sep: string, i: nat)
    requires sep != [] && FindFrom(s, sep, 0) == Some(i)
    ensures Split(s, sep) == [s[..i]] + Split(s[i + |sep|..], sep)
  {
  }

  lemma JoinCons(p: string, parts: seq<string>, sep: string)
    requires |parts| >= 1
    ensures Join([p] + parts, sep) == p + sep + Join(parts, sep)
  {
    assert ([p] + parts)[1..] == parts;
  }

  /** Joining the pieces of a split with the same separator gives back the string. */
  lemma {:induction false} JoinSplit(s: string, sep: string)
    requires sep != []
    ensures Join(Split(s, sep), sep) == s
    decreases |s|
  {
    match FindFrom(s, sep, 0)
    case None =>
    case Some(i) =>
      var rest := s[i + |sep|..];
      JoinSplit(rest, sep);
      SplitAt(s, sep, i);
      JoinCons(s[..i], Split(rest, sep), sep);
      assert s == s[..i] + s[i..i + |sep|] + rest;
  }

  /** No piece of a split contains the separator. */
  lemma {:induction false} SplitPiecesFree(s: string, sep: string)
    requires sep != []
    ensures forall p :: p in Split(s, sep) ==> !Contains(p, sep)
    decreases |s|
  {
    match FindFrom(s, sep, 0)
    case None =>
      FindFromContains(s, sep);
    case Some(i) =>
      var rest := s[i + |sep|..];
      SplitPiecesFree(rest, sep);
      forall k | OccursAt(s[..i], sep, k)
        ensures false
      {
        assert s[..i][k..k + |sep|] == s[k..k + |sep|];
        assert OccursAt(s, sep, k);
      }
  }

  /** A string with no separator splits into itself alone. */
  lemma SplitNoSeparator(s: string, sep: string)
    requires sep != []
    requires !Contains(s, sep)
    ensures Split(s, sep) == [s]
  {
    FindFromContains(s, sep);
  }

  lemma OccursAtChar(s: string, c: char, k: int)
    requires OccursAt(s, [c], k)
    ensures 0 <= k < |s| && s[k] == c
  {
    assert s[k..k + 1][0] == s[k];
  }

  lemma NoCharNoOccurrence(p: string, c: char)
    requires c !in p
    ensures !Contains(p, [c])
  {
    forall k | OccursAt(p, [c], k)
      ensures false
    {
      OccursAtChar(p, c, k);
    }
  }

  /**
   * Splitting on a one-character separator undoes joining with it, as long
   * as no piece contains that character.
   */
  lemma {:induction false} SplitJoinChar(parts: seq<string>, c: char)
    requires |parts| >= 1
    requires forall k :: 0 <= k < |parts| ==> c !in parts[k]
    ensures Split(Join(parts, [c]), [c]) == parts
    decreases |parts|
  {
    var p := parts[0];
    NoCharNoOccurrence(p, c);
    if |parts| == 1 {
      SplitNoSeparator(p, [c]);
    } else {
      var rest := Join(parts[1..], [c]);
      var s := Join(parts, [c]);
      assert s == p + [c] + rest;
      assert OccursAt(s, [c], |p|) by {
        assert s[|p|..|p| + 1] == [c];
      }
      var i := FindFrom(s, [c], 0).value;
      OccursAtChar(s, c, i);
      assert i == |p|;
      assert s[..i] == p;
      assert s[i + 1..] == rest;
      SplitAt(s, [c], i);
      SplitJoinChar(parts[1..], c);
      assert [p] + parts[1..] == parts;
    }
  }

  // ---------------------------------------------------------------- int()

  function DigitValue(c: char): nat
    requires IsDigit(c)
  {
    c as int - '0' as int
  }

  /** The value of a string of decimal digits, most significant first. */
  function DigitsValue(ds: string): nat
    requires AllDigits(ds)
  {
    if ds == [] then 0 else DigitsValue(ds[..|ds| - 1]) * 10 + DigitValue(ds[|ds| - 1])
  }

  /**
   * The body of a decimal literal as `int()` reads it: digits, with single
   * underscores allowed between two digits.
   */
  predicate DigitRun(t: string)
  {
    && |t| > 0
    && IsDigit(t[0])
    && IsDigit(t[|t| - 1])
    && (forall i :: 0 <= i < |t| ==> IsDigit(t[i]) || t[i] == '_')
    && (forall i :: 0 < i < |t| && t[i] == '_' ==> t[i - 1] != '_')
  }

  function DropUnderscores(t: string): (r: string)
    requires forall i :: 0 <= i < |t| ==> IsDigit(t[i]) || t[i] == '_'
    ensures AllDigits(r) && |r| <= |t|
  {
    if t == [] then []
    else if t[0] == '_' then DropUnderscores(t[1..])
    else [t[0]] + DropUnderscores(t[1..])
  }

  lemma DropUnderscoresOfDigits(t: string)
    requires AllDigits(t)
    ensures DropUnderscores(t) == t
  {
  }

  function RunValue(t: string): nat
    requires DigitRun(t)
  {
    DigitsValue(DropUnderscores(t))
  }

  /**
   * `int(s)` for base 10: surrounding whitespace is ignored, an optional sign
   * may lead; anything else is a ValueError (`None` here).
   */
  function ParseInt(s: string): (r: Option<int>)
    ensures Strip(s) == [] ==> r.None?
  {
    ParseStripped(Strip(s))
  }

  /** `int()` on text already stripped of surrounding whitespace. */
  function ParseStripped(t: string): (r: Option<int>)
    ensures t == [] ==> r.None?
  {
    if |t| > 0 && (t[0] == '+' || t[0] == '-') then
      var body := t[1..];
      if DigitRun(body) then
        var v: int := RunValue(body);
        Some(if t[0] == '-' then -v else v)
      else None
    else if DigitRun(t) then Some(RunValue(t))
    else None
  }

  // ---------------------------------------------------------------- str()

  function DigitChar(d: nat): (c: char)
    requires d < 10
    ensures IsDigit(c) && DigitValue(c) == d
  {
    ('0' as int + d) as char
  }

  /** `str(n)` for a natural number. */
  function NatToString(n: nat): (r: string)
    ensures |r| >= 1 && AllDigits(r)
  {
    if n < 10 then [DigitChar(n)] else NatToString(n / 10) + [DigitChar(n % 10)]
  }

  /** `str(n)`. */
  function IntToString(n: int): string
  {
    if n < 0 then "-" + NatToString(-n) else NatToString(n)
  }

  lemma {:induction false} NatToStringValue(n: nat)
    ensures DigitsValue(NatToString(n)) == n
    decreases n
  {
    if n >= 10 {
      NatToStringValue(n / 10);
      var r := NatToString(n);
      assert r[..|r| - 1] == NatToString(n / 10);
    }
  }

  lemma DigitsNoSpace(ds: string)
    requires AllDigits(ds)
    ensures NoSpace(ds)
  {
  }

  /** A bare run of digits parses to its value. */
  lemma ParseStrippedDigits(ds: string)
    requires |ds| > 0 && AllDigits(ds)
    ensures ParseStripped(ds) == Some(DigitsValue(ds))
  {
    assert DigitRun(ds);
    DropUnderscoresOfDigits(ds);
  }

  /** A minus sign before a run of digits negates its value. */
  lemma ParseStrippedNegative(t: string)
    requires |t| > 1 && t[0] == '-' && AllDigits(t[1..])
    ensures ParseStripped(t) == Some(0 - DigitsValue(t[1..]))
  {
    var body := t[1..];
    assert DigitRun(body);
    DropUnderscoresOfDigits(body);
    assert RunValue(body) == DigitsValue(body);
  }

  /** A string of digits alone parses to its value. */
  lemma ParseIntDigits(ds: string)
    requires |ds| > 0 && AllDigits(ds)
    ensures ParseInt(ds) == Some(DigitsValue(ds))
  {
    DigitsNoSpace(ds);
    StripNoSpace(ds);
    ParseStrippedDigits(ds);
  }

  /** A minus sign and a string of digits parse to the negated value. */
  lemma ParseIntNegativeDigits(t: string)
    requires |t| > 1 && t[0] == '-' && AllDigits(t[1..])
    ensures ParseInt(t) == Some(0 - DigitsValue(t[1..]))
  {
    assert Strip(t) == t by {
      forall i | 0 <= i < |t|
        ensures !IsSpace(t[i])
      {
        if i > 0 { assert t[i] == t[1..][i - 1]; }
      }
      StripNoSpace(t);
    }
    ParseStrippedNegative(t);
  }

  lemma ParseIntToStringNegative(n: int)
    requires n < 0
    ensures ParseInt(IntToString(n)) == Some(n)
  {
    var a: nat := -n;
    var ds := NatToString(a);
    var t := IntToString(n);
    assert t[1..] == ds;
    assert DigitsValue(ds) == a by { NatToStringValue(a); }
    ParseIntNegativeDigits(t);
  }

  lemma ParseIntToStringNat(n: nat)
    ensures ParseInt(IntToString(n)) == Some(n)
  {
    var ds := NatToString(n);
    assert IntToString(n) == ds;
    assert DigitsValue(ds) == n by { NatToStringValue(n); }
    ParseIntDigits(ds);
  }

  /** `int(str(n)) == n` for every integer. */
  lemma ParseIntToString(n: int)
    ensures ParseInt(IntToString(n)) == Some(n)
  {
    if n < 0 {
      ParseIntToStringNegative(n);
    } else {
      ParseIntToStringNat(n);
    }
  }

  // ---------------------------------------------------------------- int() of a float

  /** Python `int(x)` on a float: truncation toward zero. */
  function Trunc(x: real): (r: int)
    ensures x >= 0.0 ==> r == x.Floor
    ensures x < 0.0 ==> r == -((-x).Floor)
  {
    if x >= 0.0 then x.Floor else -((-x).Floor)
  }

  // ---------------------------------------------------------------- lower()

  function LowerChar(c: char): char
  {
    if 'A' <= c <= 'Z' then (c as int - 'A' as int + 'a' as int) as char else c
  }

  /** `s.lower()` on ASCII letters. */
  function Lower(s: string): (r: string)
    ensures |r| == |s|
    ensures forall i :: 0 <= i < |s| ==> r[i] == LowerChar(s[i])
  {
    if s == [] then [] else [LowerChar(s[0])] + Lower(s[1..])
  }
}
