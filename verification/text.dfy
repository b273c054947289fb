/** The handful of Python string built-ins the bot relies on: `str.strip()`,
    `startswith`/`endswith`, `str(n)` for a non-negative int, `int(s)`, and
    `s.split(":", 2)` unpacked into exactly three names. */
module Text {
  import opened Results

  /** Python's `str.isspace()` for one character, by code point. */
  predicate IsSpace(c: char) {
    var n := c as int;
    (9 <= n <= 13) || (28 <= n <= 32) || n == 0x85 || n == 0xA0 || n == 0x1680
    || (0x2000 <= n <= 0x200A) || n == 0x2028 || n == 0x2029 || n == 0x202F
    || n == 0x205F || n == 0x3000
  }

  predicate AllSpace(s: string) {
    forall i :: 0 <= i < |s| ==> IsSpace(s[i])
  }

  /** Number of leading whitespace characters. */
  function LeadingSpace(s: string): (n: nat)
    ensures n <= |s|
    ensures forall i :: 0 <= i < n ==> IsSpace(s[i])
    ensures n < |s| ==> !IsSpace(s[n])
  {
    if |s| == 0 || !IsSpace(s[0]) then 0 else 1 + LeadingSpace(s[1..])
  }

  /** Number of trailing whitespace characters. */
  function TrailingSpace(s: string): (n: nat)
    ensures n <= |s|
    ensures forall i :: |s| - n <= i < |s| ==> IsSpace(s[i])
    ensures n < |s| ==> !IsSpace(s[|s| - n - 1])
  {
    if |s| == 0 || !IsSpace(s[|s| - 1]) then 0 else 1 + TrailingSpace(s[..|s| - 1])
  }

  /** Python's `s.strip()`: drop whitespace at both ends. */
  function Strip(s: string): (r: string)
    ensures |r| <= |s|
    ensures r == [] || (!IsSpace(r[0]) && !IsSpace(r[|r| - 1]))
    ensures exists a :: 0 <= a <= |s| - |r| && r == s[a..a + |r|] && AllSpace(s[..a]) && AllSpace(s[a + |r|..])
  {
    var a := LeadingSpace(s);
    var rest := s[a..];
    var b := TrailingSpace(rest);
    StripSlice(s, a, b);
    rest[..|rest| - b]
  }

  /** Cutting `a` spaces off the front and `b` off the back leaves a
      contiguous slice between two runs of spaces. */
  lemma StripSlice(s: string, a: nat, b: nat)
    requires a <= |s| && b <= |s| - a
    requires forall i :: 0 <= i < a ==> IsSpace(s[i])
    requires forall i :: |s[a..]| - b <= i < |s[a..]| ==> IsSpace(s[a..][i])
    ensures var r := s[a..][..|s[a..]| - b];
      exists a' :: 0 <= a' <= |s| - |r| && r == s[a'..a' + |r|] && AllSpace(s[..a']) && AllSpace(s[a' + |r|..])
  {
    var rest := s[a..];
    var r := rest[..|rest| - b];
    assert r == s[a..a + |r|];
    var tail := s[a + |r|..];
    forall i | 0 <= i < |tail| ensures IsSpace(tail[i]) {
      assert tail[i] == rest[|rest| - b + i];
    }
    assert AllSpace(s[..a]);
  }

  /** Stripping changes nothing once there is no surrounding whitespace. */
  lemma StripUnchanged(s: string)
    requires s == [] || (!IsSpace(s[0]) && !IsSpace(s[|s| - 1]))
    ensures Strip(s) == s
  {
    if s != [] {
      assert LeadingSpace(s) == 0;
      assert TrailingSpace(s) == 0;
    }
  }

  lemma StripIdempotent(s: string)
    ensures Strip(Strip(s)) == Strip(s)
  {
    StripUnchanged(Strip(s));
  }

  predicate StartsWith(s: string, prefix: string) {
    |prefix| <= |s| && s[..|prefix|] == prefix
  }

  predicate EndsWith(s: string, suffix: string) {
    |suffix| <= |s| && s[|s| - |suffix|..] == suffix
  }

  predicate IsDigit(c: char) {
    '0' <= c <= '9'
  }

  predicate AllDigits(s: string) {
    forall i :: 0 <= i < |s| ==> IsDigit(s[i])
  }

  function DigitChar(d: nat): (c: char)
    requires d < 10
    ensures IsDigit(c)
  {
    ['0', '1', '2', '3', '4', '5', '6', '7', '8', '9'][d]
  }

  function DigitValue(c: char): (d: nat)
    requires IsDigit(c)
    ensures d < 10
  {
    (c as int - '0' as int) as nat
  }

  lemma DigitRoundTrip(d: nat)
    requires d < 10
    ensures DigitValue(DigitChar(d)) == d
  {
  }

  /** Python's `str(n)` for a non-negative int: canonical decimal digits. */
  function NatToString(n: nat): (r: string)
    ensures |r| >= 1
    ensures AllDigits(r)
    ensures r[0] == '0' ==> n == 0
  {
    if n < 10 then [DigitChar(n)]
    else NatToString(n / 10) + [DigitChar(n % 10)]
  }

  /** Python's `str(n)` / f-string rendering of any int. */
  function IntToString(n: int): string {
    if n >= 0 then NatToString(n) else "-" + NatToString(-n)
  }

  /** The value of a run of decimal digits, read most significant first. */
  function DigitsValue(s: string): nat
    requires AllDigits(s)
  {
    if |s| == 0 then 0
    else DigitsValue(s[..|s| - 1]) * 10 + DigitValue(s[|s| - 1])
  }

  lemma {:induction false} DigitsOfNatToString(n: nat)
    ensures DigitsValue(NatToString(n)) == n
  {
    var r := NatToString(n);
    if n < 10 {
      DigitRoundTrip(n);
    } else {
      var p := NatToString(n / 10);
      assert r[..|r| - 1] == p;
      DigitsOfNatToString(n / 10);
      DigitRoundTrip(n % 10);
    }
  }

  /** Python's `int(s)` on a str: surrounding whitespace is ignored, one
      optional sign, then at least one decimal digit; anything else raises. */
  function ParseInt(s: string): (r: Option<int>)
    ensures r.Some? ==> exists k :: 0 <= k < |s| && IsDigit(s[k])
  {
    var r := ParseSigned(Strip(s));
    if r.Some? then ParseIntWitness(s); r else r
  }

  /** `int` on a text with no surrounding whitespace. */
  function ParseSigned(t: string): (r: Option<int>)
    ensures r.Some? ==> exists j :: 0 <= j < |t| && IsDigit(t[j])
    ensures r.Some? <==> (|t| > 0 && AllDigits(t)) || (|t| > 1 && (t[0] == '+' || t[0] == '-') && AllDigits(t[1..]))
  {
    if |t| > 0 && (t[0] == '+' || t[0] == '-') then
      var body := t[1..];
      if |body| > 0 && AllDigits(body) then
        assert IsDigit(t[1]);
        Some(if t[0] == '-' then -(DigitsValue(body) as int) else DigitsValue(body))
      else None
    else if |t| > 0 && AllDigits(t) then
      assert IsDigit(t[0]);
      Some(DigitsValue(t))
    else None
  }

  /** A digit of the stripped text is a digit of the text. */
  lemma ParseIntWitness(s: string)
    requires exists j :: 0 <= j < |Strip(s)| && IsDigit(Strip(s)[j])
    ensures exists k :: 0 <= k < |s| && IsDigit(s[k])
  {
    var t := Strip(s);
    var j :| 0 <= j < |t| && IsDigit(t[j]);
    var a := LeadingSpace(s);
    assert t[j] == s[a + j];
  }

  /** Reading back the decimal form of a non-negative int gives the int. */
  lemma ParseIntOfNatToString(n: nat)
    ensures ParseInt(NatToString(n)) == Some(n)
  {
    ParseIntDigits(NatToString(n));
    DigitsOfNatToString(n);
  }

  lemma DigitNotSpace(c: char)
    requires IsDigit(c)
    ensures !IsSpace(c)
  {
  }

  lemma ParseIntUnfold(s: string)
    ensures ParseInt(s) == ParseSigned(Strip(s))
  {
  }

  /** A bare run of digits reads as its value. */
  lemma ParseIntDigits(t: string)
    requires |t| > 0 && AllDigits(t)
    ensures ParseInt(t) == Some(DigitsValue(t) as int)
  {
    DigitsUnstripped(t);
    ParseIntUnfold(t);
  }

  lemma DigitsUnstripped(t: string)
    requires |t| > 0 && AllDigits(t)
    ensures Strip(t) == t
  {
    DigitNotSpace(t[0]);
    DigitNotSpace(t[|t| - 1]);
    StripUnchanged(t);
  }

  /** Python's `a, b, c = s.split(":", 2)`: the text before the first colon,
      between the first and second, and everything after the second (which
      may hold further colons); None where the unpacking raises because
      there are fewer than two colons. */
  function Split3(s: string): (r: Option<(string, string, string)>)
    ensures r.Some? ==> r.value.0 + ":" + r.value.1 + ":" + r.value.2 == s
    ensures r.Some? ==> ':' !in r.value.0 && ':' !in r.value.1
    ensures r.None? ==> forall i, j :: 0 <= i < j < |s| ==> !(s[i] == ':' && s[j] == ':')
  {
    match ColonIndex(s)
    case None => None
    case Some(i) =>
      var tail := s[i + 1..];
      match ColonIndex(tail)
      case None =>
        OneColon(s, i);
        None
      case Some(j) =>
        SplitAt(s, i, j);
        Some((s[..i], tail[..j], tail[j + 1..]))
  }

  /** With a colon at `i` and none after it, no two colons exist. */
  lemma OneColon(s: string, i: nat)
    requires i < |s| && ':' !in s[..i] && ':' !in s[i + 1..]
    ensures forall a, b :: 0 <= a < b < |s| ==> !(s[a] == ':' && s[b] == ':')
  {
    forall a, b | 0 <= a < b < |s| && s[a] == ':' ensures s[b] != ':' {
      assert s[i + 1..][b - i - 1] == s[b];
    }
  }

  /** Cutting at the first colon `i` and the next one `j` after it. */
  lemma SplitAt(s: string, i: nat, j: nat)
    requires i < |s| && s[i] == ':' && j < |s[i + 1..]| && s[i + 1..][j] == ':'
    ensures var tail := s[i + 1..]; s[..i] + ":" + tail[..j] + ":" + tail[j + 1..] == s
  {
    var tail := s[i + 1..];
    assert s == s[..i] + [':'] + tail;
    assert tail == tail[..j] + [':'] + tail[j + 1..];
  }

  /** Index of the first ':' in `s`. */
  function ColonIndex(s: string): (r: Option<nat>)
    ensures r.Some? ==> r.value < |s| && s[r.value] == ':' && ':' !in s[..r.value]
    ensures r.None? ==> ':' !in s
  {
    if |s| == 0 then None
    else if s[0] == ':' then Some(0)
    else match ColonIndex(s[1..])
      case None => None
      case Some(i) =>
        assert s[..i + 1] == [s[0]] + s[1..][..i];
        Some(i + 1)
  }

  /** Callback data built as `prefix:a:b` splits back into `a` and `b`
      whenever `a` holds no colon; `b` may hold any. */
  lemma Split3OfJoin(p: string, a: string, b: string)
    requires ':' !in p && ':' !in a
    ensures Split3(p + ":" + a + ":" + b) == Some((p, a, b))
  {
    var s := p + ":" + a + ":" + b;
    assert s[..|p|] == p;
    assert s[|p|] == ':';
    ColonFirst(p, a + ":" + b);
    var tail := s[|p| + 1..];
    assert tail == a + ":" + b;
    ColonFirst(a, b);
    assert tail[..|a|] == a;
    assert tail[|a| + 1..] == b;
  }

  lemma ColonFirst(p: string, rest: string)
    requires ':' !in p
    ensures ColonIndex(p + ":" + rest) == Some(|p|)
  {
    var s := p + ":" + rest;
    assert s[|p|] == ':';
    assert s[..|p|] == p;
  }

  /** Illustration of the limit of the round trip: a sheet name with a colon
      does not survive it, as the callback data `add:a:b:1` reads back as
      sheet `a` and id `b:1`. */
  lemma Split3ColonInName()
    ensures Split3("add:a:b:1") == Some(("add", "a", "b:1"))
  {
    Split3OfJoin("add", "a", "b:1");
    assert "add" + ":" + "a" + ":" + "b:1" == "add:a:b:1";
  }
}
