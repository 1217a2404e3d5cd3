/**
 * String helpers over `seq<char>`. Whitespace, digits and letter case are
 * the ASCII ones; the Unicode tables of Python and JavaScript are not modelled.
 */
module Text {
  /** Whitespace as `str.strip`, `\s` and `String.prototype.trim` see it, restricted to ASCII. */
  predicate IsWs(c: char)
  {
    c == ' ' || c == '\t' || c == '\n' || c == '\r' || c == '\U{000B}' || c == '\U{000C}'
  }

  predicate IsDigit(c: char) { '0' <= c <= '9' }

  predicate IsUpper(c: char) { 'A' <= c <= 'Z' }

  predicate IsLower(c: char) { 'a' <= c <= 'z' }

  /** Python's `str.isdigit`: non-empty and every character a digit. */
  predicate AllDigits(s: string)
  {
    |s| > 0 && forall i :: 0 <= i < |s| ==> IsDigit(s[i])
  }

  /** The index of the first non-whitespace character at or after `i`, or `|s|`. */
  function SkipWs(s: string, i: nat): (k: nat)
    requires i <= |s|
    ensures i <= k <= |s|
    ensures k == |s| || !IsWs(s[k])
    ensures forall j :: i <= j < k ==> IsWs(s[j])
    decreases |s| - i
  {
    if i == |s| || !IsWs(s[i]) then i else SkipWs(s, i + 1)
  }

  /** The end of the content before index `j`: everything from the result up to `j` is whitespace. */
  function SkipWsBack(s: string, lo: nat, j: nat): (k: nat)
    requires lo <= j <= |s|
    ensures lo <= k <= j
    ensures k == lo || !IsWs(s[k - 1])
    ensures forall m :: k <= m < j ==> IsWs(s[m])
    decreases j
  {
    if j == lo || !IsWs(s[j - 1]) then j else SkipWsBack(s, lo, j - 1)
  }

  /** `str.lstrip()` / `String.prototype.trimStart()`. */
  function TrimLeft(s: string): (r: string)
    ensures r == [] || !IsWs(r[0])
  {
    s[SkipWs(s, 0)..]
  }

  /** `str.strip()` / `String.prototype.trim()`: the span between the outermost non-whitespace characters. */
  function Strip(s: string): (r: string)
    ensures r == [] || (!IsWs(r[0]) && !IsWs(r[|r| - 1]))
  {
    var a := SkipWs(s, 0);
    s[a..SkipWsBack(s, a, |s|)]
  }

  /** Only whitespace is removed around the stripped content. */
  lemma StripRemovesOnlyWhitespace(s: string)
    ensures var a := SkipWs(s, 0);
      var b := SkipWsBack(s, a, |s|);
      Strip(s) == s[a..b]
      && (forall i :: 0 <= i < a ==> IsWs(s[i]))
      && (forall i :: b <= i < |s| ==> IsWs(s[i]))
  {
  }

  /** A string with non-whitespace ends is its own strip. */
  lemma StripNoop(s: string)
    requires s == [] || (!IsWs(s[0]) && !IsWs(s[|s| - 1]))
    ensures Strip(s) == s
  {
    if s != [] {
      assert SkipWs(s, 0) == 0;
      assert SkipWsBack(s, 0, |s|) == |s|;
    }
  }

  /** Stripping is idempotent. */
  lemma StripIdempotent(s: string)
    ensures Strip(Strip(s)) == Strip(s)
  {
    StripNoop(Strip(s));
  }

  function LowerChar(c: char): (d: char)
    ensures !IsUpper(d)
    ensures IsUpper(c) ==> d as int == c as int + 32
    ensures !IsUpper(c) ==> d == c
  {
    if IsUpper(c) then (c as int + 32) as char else c
  }

  function UpperChar(c: char): (d: char)
    ensures !IsLower(d)
    ensures IsLower(c) ==> d as int == c as int - 32
    ensures !IsLower(c) ==> d == c
  {
    if IsLower(c) then (c as int - 32) as char else c
  }

  /** `toLowerCase()` / `lower()` on ASCII letters. */
  function Lower(s: string): (r: string)
    ensures |r| == |s|
    ensures forall i :: 0 <= i < |s| ==> r[i] == LowerChar(s[i])
  {
    seq(|s|, i requires 0 <= i < |s| => LowerChar(s[i]))
  }

  /** `toUpperCase()` / `upper()` on ASCII letters. */
  function Upper(s: string): (r: string)
    ensures |r| == |s|
    ensures forall i :: 0 <= i < |s| ==> r[i] == UpperChar(s[i])
  {
    seq(|s|, i requires 0 <= i < |s| => UpperChar(s[i]))
  }

  lemma LowerIdempotent(s: string)
    ensures Lower(Lower(s)) == Lower(s)
  {
  }

  predicate StartsWith(s: string, prefix: string)
  {
    |prefix| <= |s| && s[..|prefix|] == prefix
  }

  predicate EndsWith(s: string, suffix: string)
  {
    |suffix| <= |s| && s[|s| - |suffix|..] == suffix
  }

  predicate OccursAt(s: string, sub: string, i: int)
  {
    0 <= i <= |s| - |sub| && s[i..i + |sub|] == sub
  }

  /** `includes` / Python `in` on strings. */
  predicate Contains(s: string, sub: string)
  {
    exists i :: 0 <= i <= |s| - |sub| && OccursAt(s, sub, i)
  }

  /** Case-insensitive containment: Django's `icontains`, JS `toLowerCase().includes(...)`. */
  predicate ContainsIgnoringCase(s: string, sub: string)
  {
    Contains(Lower(s), Lower(sub))
  }

  lemma EmptyContained(s: string)
    ensures Contains(s, "")
  {
    assert OccursAt(s, "", 0);
  }

  /** `parts.join(sep)`. */
  function Join(parts: seq<string>, sep: string): (r: string)
    ensures parts == [] ==> r == ""
    ensures |parts| == 1 ==> r == parts[0]
  {
    if parts == [] then ""
    else if |parts| == 1 then parts[0]
    else Join(parts[..|parts| - 1], sep) + sep + parts[|parts| - 1]
  }

  function DigitChar(d: nat): (c: char)
    requires d < 10
    ensures IsDigit(c)
  {
    ('0' as int + d) as char
  }

  /** Decimal rendering of a natural number, as `str(n)` or `String(n)`. */
  function NatToString(n: nat): (r: string)
    ensures AllDigits(r)
    ensures |r| == 1 <==> n < 10
  {
    if n < 10 then [DigitChar(n)] else NatToString(n / 10) + [DigitChar(n % 10)]
  }

  function DigitValue(c: char): (d: nat)
    requires IsDigit(c)
    ensures d < 10
  {
    (c as int - '0' as int) as nat
  }

  /** The number a run of decimal digits denotes, as `int(s)`. */
  function DigitsValue(s: string): nat
    requires forall i :: 0 <= i < |s| ==> IsDigit(s[i])
  {
    if s == [] then 0 else DigitsValue(s[..|s| - 1]) * 10 + DigitValue(s[|s| - 1])
  }

  function Pow10(w: nat): (r: nat)
    ensures r >= 1
  {
    if w == 0 then 1 else 10 * Pow10(w - 1)
  }

  /** `n` in exactly `w` digits, zero-padded on the left: `f"{n:0{w}d}"` for `n < 10^w`. */
  function ZeroPad(n: nat, w: nat): (r: string)
    ensures |r| == w
    ensures forall i :: 0 <= i < |r| ==> IsDigit(r[i])
  {
    if w == 0 then "" else ZeroPad(n / 10, w - 1) + [DigitChar(n % 10)]
  }

  /** Reading a zero-padded number gives the number back. */
  lemma {:induction false} ZeroPadValue(n: nat, w: nat)
    requires n < Pow10(w)
    ensures DigitsValue(ZeroPad(n, w)) == n
  {
    if w > 0 {
      var r := ZeroPad(n, w);
      assert r[..w - 1] == ZeroPad(n / 10, w - 1);
      ZeroPadValue(n / 10, w - 1);
      assert DigitValue(DigitChar(n % 10)) == n % 10;
    }
  }
}
