/** Python's `int(s)` on a string (base 10) and `str(n)` on an integer, the two
    conversions the configuration loader and the error messages rely on.

    `int(s)` accepts surrounding whitespace, one optional sign, and decimal
    digits in which single underscores may separate digits; anything else
    raises `ValueError`, modelled here as `None`. */
module PyInt {
  import opened Wrappers

  /** The characters `int()` strips from both ends. An ASCII character counts
      only when it is one of `\t\n\v\f\r` or the space; a non-ASCII one counts
      when `str.isspace()` accepts it. So `\x1c`..`\x1f`, which `str.isspace()`
      accepts, are not stripped. */
  predicate IsSpace(c: char) {
    || ('\t' <= c <= '\r')
    || c == ' '
    || c == '\U{85}'
    || c == '\U{A0}'
    || c == '\U{1680}'
    || ('\U{2000}' <= c <= '\U{200A}')
    || c == '\U{2028}'
    || c == '\U{2029}'
    || c == '\U{202F}'
    || c == '\U{205F}'
    || c == '\U{3000}'
  }

  predicate IsDigit(c: char) {
    '0' <= c <= '9'
  }

  predicate AllSpace(s: string) {
    forall i :: 0 <= i < |s| ==> IsSpace(s[i])
  }

  /** `s` with its leading whitespace removed. */
  function TrimStart(s: string): (r: string)
    ensures |r| <= |s| && r == s[|s| - |r|..]
    ensures AllSpace(s[..|s| - |r|])
    ensures r == [] || !IsSpace(r[0])
  {
    if s != [] && IsSpace(s[0]) then
      var r := TrimStart(s[1..]);
      assert s[|s| - |r|..] == s[1..][|s| - 1 - |r|..];
      assert forall i :: 1 <= i < |s| - |r| ==> s[i] == s[1..][..|s| - 1 - |r|][i - 1];
      r
    else s
  }

  /** `s` with its trailing whitespace removed. */
  function TrimEnd(s: string): (r: string)
    ensures |r| <= |s| && r == s[..|r|]
    ensures AllSpace(s[|r|..])
    ensures r == [] || !IsSpace(r[|r| - 1])
  {
    if s != [] && IsSpace(s[|s| - 1]) then
      var r := TrimEnd(s[..|s| - 1]);
      assert s[|r|..] == s[..|s| - 1][|r|..] + [s[|s| - 1]];
      r
    else s
  }

  /** The stripping `int()` applies before it reads the sign and digits. */
  function Strip(s: string): string {
    TrimEnd(TrimStart(s))
  }

  /** A run of decimal digits in which a single underscore may separate two digits. */
  predicate DigitRun(s: string) {
    && |s| > 0
    && IsDigit(s[0])
    && IsDigit(s[|s| - 1])
    && (forall i :: 0 <= i < |s| ==> IsDigit(s[i]) || s[i] == '_')
    && (forall i :: 0 <= i < |s| - 1 && s[i] == '_' ==> IsDigit(s[i + 1]))
  }

  function DigitValue(c: char): (d: nat)
    requires IsDigit(c)
    ensures d < 10
  {
    c as int - '0' as int
  }

  function DigitChar(d: nat): (c: char)
    requires d < 10
    ensures IsDigit(c) && DigitValue(c) == d
  {
    ('0' as int + d) as char
  }

  /** The number a run of digits and underscores denotes; underscores are skipped. */
  function RunValue(s: string): nat
    requires forall i :: 0 <= i < |s| ==> IsDigit(s[i]) || s[i] == '_'
  {
    if s == [] then 0
    else if s[|s| - 1] == '_' then RunValue(s[..|s| - 1])
    else RunValue(s[..|s| - 1]) * 10 + DigitValue(s[|s| - 1])
  }

  /** The default of `sys.get_int_max_str_digits()`: `int()` refuses a decimal
      string with more digits than this, and `str()` an integer that has more. */
  const MAX_STR_DIGITS: nat := 4300

  /** The number of decimal digits in `s`, underscores and signs not counted. */
  function DigitCount(s: string): nat {
    if s == [] then 0
    else DigitCount(s[..|s| - 1]) + (if IsDigit(s[|s| - 1]) then 1 else 0)
  }

  /** The number of decimal digits of `n`. */
  function NumDigits(n: int): nat {
    |FormatNat(if n < 0 then -n else n)|
  }

  /** Python's `int(s)`: `None` where Python raises `ValueError`. */
  function ParseInt(s: string): Option<int> {
    ParseStripped(Strip(s))
  }

  /** `int()` after the surrounding whitespace is gone: a sign, then a digit run. */
  function ParseStripped(t: string): Option<int> {
    if |t| > 0 && (t[0] == '+' || t[0] == '-') then SignedRun(t[1..], t[0] == '-')
    else SignedRun(t, false)
  }

  /** A digit run with its sign, refused when it has too many digits. */
  function SignedRun(body: string, negative: bool): Option<int> {
    if !DigitRun(body) || DigitCount(body) > MAX_STR_DIGITS then None
    else
      var v: int := RunValue(body);
      Some(if negative then -v else v)
  }

  lemma {:induction false} DigitCountOfDigits(s: string)
    requires forall i :: 0 <= i < |s| ==> IsDigit(s[i])
    ensures DigitCount(s) == |s|
  {
    if s != [] {
      DigitCountOfDigits(s[..|s| - 1]);
    }
  }

  /** Python's `str(n)` on a non-negative integer: digits without leading zeros. */
  function FormatNat(n: nat): (r: string)
    ensures DigitRun(r)
    ensures forall i :: 0 <= i < |r| ==> IsDigit(r[i])
    ensures r[0] == '0' ==> n == 0
  {
    if n < 10 then [DigitChar(n)] else FormatNat(n / 10) + [DigitChar(n % 10)]
  }

  /** Python's `str(n)` on an integer. */
  function FormatInt(n: int): (r: string)
    ensures |r| > 0
  {
    if n < 0 then "-" + FormatNat(-n) else FormatNat(n)
  }

  lemma {:induction false} RunValueOfFormatNat(n: nat)
    ensures RunValue(FormatNat(n)) == n
  {
    var r := FormatNat(n);
    if n >= 10 {
      RunValueOfFormatNat(n / 10);
      assert r[..|r| - 1] == FormatNat(n / 10);
    }
  }

  lemma StripUnchanged(s: string)
    requires |s| > 0 && !IsSpace(s[0]) && !IsSpace(s[|s| - 1])
    ensures Strip(s) == s
  {
  }

  /** `int(str(n)) == n` for every integer of at most `MAX_STR_DIGITS` digits;
      a longer one is refused. */
  lemma ParseFormatRoundTrip(n: int)
    ensures NumDigits(n) <= MAX_STR_DIGITS ==> ParseInt(FormatInt(n)) == Some(n)
    ensures NumDigits(n) > MAX_STR_DIGITS ==> ParseInt(FormatInt(n)) == None
  {
    FormatIntHasNoSpaceAtEnds(n);
    StripUnchanged(FormatInt(n));
    ParseStrippedFormat(n);
  }

  lemma FormatIntHasNoSpaceAtEnds(n: int)
    ensures !IsSpace(FormatInt(n)[0]) && !IsSpace(FormatInt(n)[|FormatInt(n)| - 1])
  {
    var r := FormatInt(n);
    if n < 0 {
      var body := FormatNat(-n);
      assert r[0] == '-' && r[|r| - 1] == body[|body| - 1];
    } else {
      assert IsDigit(r[0]) && IsDigit(r[|r| - 1]);
    }
  }

  lemma ParseStrippedFormat(n: int)
    ensures NumDigits(n) <= MAX_STR_DIGITS ==> ParseStripped(FormatInt(n)) == Some(n)
    ensures NumDigits(n) > MAX_STR_DIGITS ==> ParseStripped(FormatInt(n)) == None
  {
    var r := FormatInt(n);
    if n < 0 {
      var body := FormatNat(-n);
      assert r[0] == '-' && r[1..] == body;
      DigitCountOfDigits(body);
      RunValueOfFormatNat(-n);
    } else {
      assert IsDigit(r[0]);
      DigitCountOfDigits(r);
      RunValueOfFormatNat(n);
    }
  }

  /** A string with no decimal digit in it never parses. */
  lemma NoDigitNoParse(s: string)
    requires forall i :: 0 <= i < |s| ==> !IsDigit(s[i])
    ensures ParseInt(s) == None
  {
    var t := TrimStart(s);
    NoDigitSuffix(s, |s| - |t|);
    var u := TrimEnd(t);
    NoDigitPrefix(t, |u|);
    NoDigitStrippedNoParse(u);
  }

  lemma NoDigitSuffix(s: string, k: nat)
    requires k <= |s|
    requires forall i :: 0 <= i < |s| ==> !IsDigit(s[i])
    ensures forall i :: 0 <= i < |s[k..]| ==> !IsDigit(s[k..][i])
  {
    forall i | 0 <= i < |s[k..]| ensures !IsDigit(s[k..][i]) {
      assert s[k..][i] == s[k + i];
    }
  }

  lemma NoDigitPrefix(s: string, k: nat)
    requires k <= |s|
    requires forall i :: 0 <= i < |s| ==> !IsDigit(s[i])
    ensures forall i :: 0 <= i < |s[..k]| ==> !IsDigit(s[..k][i])
  {
  }

  lemma NoDigitStrippedNoParse(t: string)
    requires forall i :: 0 <= i < |t| ==> !IsDigit(t[i])
    ensures ParseStripped(t) == None
  {
    if |t| > 1 {
      assert !IsDigit(t[1..][0]);
    }
  }

  /** Whitespace around a number is ignored. */
  lemma {:induction false} ParseIgnoresSurroundingSpace(pre: string, s: string, post: string)
    requires AllSpace(pre) && AllSpace(post)
    requires |s| > 0 && !IsSpace(s[0]) && !IsSpace(s[|s| - 1])
    ensures ParseInt(pre + s + post) == ParseInt(s)
  {
    TrimStartSkipsSpace(pre, s + post);
    assert pre + s + post == pre + (s + post);
    TrimEndSkipsSpace(s, post);
    StripUnchanged(s);
  }

  /** A first character that `int()` does not strip and that is neither a sign
      nor a digit makes `int()` refuse the string, whatever follows. The ASCII
      separators `\x1c`..`\x1f` are such characters. */
  lemma LeadingJunkNoParse(c: char, rest: string)
    requires !IsSpace(c) && !IsDigit(c) && c != '+' && c != '-'
    ensures ParseInt([c] + rest) == None
  {
    var s := [c] + rest;
    assert s[0] == c;
    assert TrimStart(s) == s;
    var t := TrimEnd(s);
    assert t != [];
    assert t[0] == c;
    assert !DigitRun(t);
    assert ParseStripped(t) == SignedRun(t, false);
  }

  /** `int("\x1c5")` raises: the information separator is not stripped. */
  lemma SeparatorNotStripped()
    ensures ParseInt("\U{1C}5") == None
  {
    var c := '\U{1C}';
    assert !IsSpace(c) && !IsDigit(c);
    assert "\U{1C}5" == [c] + "5";
    LeadingJunkNoParse(c, "5");
  }

  lemma {:induction false} TrimStartSkipsSpace(pre: string, s: string)
    requires AllSpace(pre)
    requires |s| > 0 && !IsSpace(s[0])
    ensures TrimStart(pre + s) == s
  {
    if pre != [] {
      assert (pre + s)[1..] == pre[1..] + s;
      TrimStartSkipsSpace(pre[1..], s);
    } else {
      assert pre + s == s;
    }
  }

  lemma {:induction false} TrimEndSkipsSpace(s: string, post: string)
    requires AllSpace(post)
    requires |s| > 0 && !IsSpace(s[|s| - 1])
    ensures TrimEnd(s + post) == s
  {
    if post != [] {
      assert (s + post)[..|s + post| - 1] == s + post[..|post| - 1];
      TrimEndSkipsSpace(s, post[..|post| - 1]);
    } else {
      assert s + post == s;
    }
  }
}
