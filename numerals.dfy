/** Reading integers from text: Python's `int(s)` on a string, and the `%d` verb of Go's
    `fmt.Sscanf`. */
module Numerals {
  import opened Wrappers
  import opened Text

  predicate AllDigits(s: string) {
    forall i :: 0 <= i < |s| ==> IsDigit(s[i])
  }

  /** The value of a run of decimal digits. */
  function DigitsValue(s: string): nat
    requires AllDigits(s)
  {
    if |s| == 0 then 0 else 10 * DigitsValue(s[..|s| - 1]) + DigitValue(s[|s| - 1])
  }

  /** Python's `int(s)`: surrounding whitespace, an optional sign and at least one ASCII
      digit; anything else raises `ValueError` (`None`). */
  function PyInt(s: string): Option<int>
  {
    var t := Strip(s);
    if |t| > 0 && (t[0] == '-' || t[0] == '+') then
      if |t| > 1 && AllDigits(t[1..]) then
        Some(if t[0] == '-' then -(DigitsValue(t[1..]) as int) else DigitsValue(t[1..]))
      else None
    else if |t| > 0 && AllDigits(t) then Some(DigitsValue(t))
    else None
  }

  /** `str(n)` reads back as `n`. */
  lemma PyIntOfString(n: int)
    ensures PyInt(IntToString(n)) == Some(n)
  {
    var s := IntToString(n);
    var d := IntToString(if n < 0 then -n else n);
    NaturalString(if n < 0 then -n else n);
    assert IsDigit(d[|d| - 1]) && !IsSpace(d[|d| - 1]);
    if n < 0 {
      assert s == "-" + d;
      assert s[1..] == d && s[|s| - 1] == d[|d| - 1];
      StripNoSpace(s);
    } else {
      assert s == d && IsDigit(s[0]);
      StripNoSpace(s);
    }
  }

  /** The decimal rendering of a natural number is a non-empty run of digits with that
      value. */
  lemma {:induction false} NaturalString(n: nat)
    ensures |IntToString(n)| > 0 && AllDigits(IntToString(n))
    ensures DigitsValue(IntToString(n)) == n
  {
    if n >= 10 {
      NaturalString(n / 10);
      var s := IntToString(n);
      assert s == IntToString(n / 10) + [DigitChar(n % 10)];
      assert s[..|s| - 1] == IntToString(n / 10);
    }
  }

  /** A string that neither starts nor ends with whitespace is its own `strip()`. */
  lemma StripNoSpace(s: string)
    requires |s| > 0 && !IsSpace(s[0]) && !IsSpace(s[|s| - 1])
    ensures Strip(s) == s
  {
  }

  /** One `%d` of `fmt.Sscanf`: leading blanks are skipped, then an optional sign and at least
      one ASCII digit are read. The answer is the value and the rest of the input. */
  function ScanInt(s: string): (r: Option<(int, string)>)
    ensures r.Some? ==> |r.value.1| < |s|
  {
    var t := SkipBlanks(s);
    var signed := |t| > 0 && (t[0] == '-' || t[0] == '+');
    var body := if signed then t[1..] else t;
    var n := DigitRun(body);
    if n == 0 then None
    else
      var v := DigitsValue(body[..n]);
      Some((if signed && t[0] == '-' then -(v as int) else v, body[n..]))
  }

  function SkipBlanks(s: string): (r: string)
    ensures |r| <= |s| && r == s[|s| - |r|..]
  {
    if |s| > 0 && (s[0] == ' ' || s[0] == '\t') then SkipBlanks(s[1..]) else s
  }

  /** The length of the run of digits that starts `s`. */
  function DigitRun(s: string): (n: nat)
    ensures n <= |s| && AllDigits(s[..n])
    ensures n < |s| ==> !IsDigit(s[n])
  {
    if |s| > 0 && IsDigit(s[0]) then
      var n := 1 + DigitRun(s[1..]);
      assert s[..n] == [s[0]] + s[1..][..n - 1];
      n
    else 0
  }

  /** `fmt.Sscanf(s, "%d:%d", &a, &b)` with `a` and `b` starting at 0: each variable keeps 0
      unless its `%d` is reached and reads a number; scanning stops at the first mismatch and
      ignores whatever follows the second number. */
  function ScanPair(s: string): (r: (int, int))
    ensures ScanInt(s).None? ==> r == (0, 0)
  {
    match ScanInt(s)
    case None => (0, 0)
    case Some((a, rest)) =>
      if |rest| > 0 && rest[0] == ':' then
        match ScanInt(rest[1..])
        case None => (a, 0)
        case Some((b, _)) => (a, b)
      else (a, 0)
  }

  /** "H:M" written with Go's `%d` scans back as (H, M). */
  lemma ScanPairOfString(a: nat, b: nat)
    ensures ScanPair(IntToString(a) + ":" + IntToString(b)) == (a, b)
  {
    var sa, sb := IntToString(a), IntToString(b);
    NaturalString(a);
    NaturalString(b);
    ScanDigits(sa, ":" + sb);
    assert sa + ":" + sb == sa + (":" + sb);
    assert (":" + sb)[1..] == sb;
    ScanDigits(sb, "");
    assert sb + "" == sb;
  }

  /** A run of digits followed by something that is not a digit scans as its value. */
  lemma ScanDigits(d: string, rest: string)
    requires |d| > 0 && AllDigits(d) && (|rest| == 0 || !IsDigit(rest[0]))
    ensures ScanInt(d + rest) == Some((DigitsValue(d) as int, rest))
  {
    var s := d + rest;
    assert s[0] == d[0] && IsDigit(d[0]);
    assert SkipBlanks(s) == s;
    assert !(|s| > 0 && (s[0] == '-' || s[0] == '+'));
    DigitRunOf(d, rest);
    var n := DigitRun(s);
    assert s[..n] == d && s[n..] == rest;
    assert ScanInt(s) == Some((DigitsValue(s[..n]) as int, s[n..]));
  }

  lemma {:induction false} DigitRunOf(d: string, rest: string)
    requires AllDigits(d) && (|rest| == 0 || !IsDigit(rest[0]))
    ensures DigitRun(d + rest) == |d|
  {
    if |d| > 0 {
      assert (d + rest)[1..] == d[1..] + rest;
      DigitRunOf(d[1..], rest);
    } else {
      assert d + rest == rest;
    }
  }

  /** Go's `time.Parse("15:04", s)`: an hour of one or two digits, a colon, a minute of
      exactly two digits and nothing after; the hour must be below 24 and the minute below
      60. The answer is the (hour, minute) pair, `None` for a parse error. */
  function ParseHourMinute(s: string): (r: Option<(int, int)>)
    ensures r.Some? ==> 0 <= r.value.0 < 24 && 0 <= r.value.1 < 60
  {
    if |s| == 0 || !IsDigit(s[0]) then None
    else
      var n := if |s| > 1 && IsDigit(s[1]) then 2 else 1;
      var rest := s[n..];
      if |rest| == 3 && rest[0] == ':' && IsDigit(rest[1]) && IsDigit(rest[2]) then
        var h, m := DigitsValue(s[..n]), DigitsValue(rest[1..]);
        if h < 24 && m < 60 then Some((h as int, m as int)) else None
      else None
  }
}
