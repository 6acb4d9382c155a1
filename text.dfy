/**
 * The Kotlin string operations the core relies on: `Char.isWhitespace`,
 * `isBlank`, `trim`, and the decimal rendering of an `Int` in a string
 * template.
 */
module Text {

  /**
   * Kotlin's `Char.isWhitespace()`: Java's `Character.isWhitespace` (the
   * controls U+0009..U+000D and U+001C..U+001F, and the Unicode space,
   * line and paragraph separators) together with `Character.isSpaceChar`
   * (which adds the no-break spaces U+00A0, U+2007 and U+202F).
   */
  predicate IsWhitespace(c: char) {
    var n := c as int;
    (0x09 <= n <= 0x0D) || (0x1C <= n <= 0x20) || n == 0xA0 || n == 0x1680
    || (0x2000 <= n <= 0x200A) || n == 0x2028 || n == 0x2029 || n == 0x202F
    || n == 0x205F || n == 0x3000
  }

  /** Kotlin's `CharSequence.isBlank()`: empty or whitespace only. */
  predicate IsBlank(s: string) {
    forall i :: 0 <= i < |s| ==> IsWhitespace(s[i])
  }

  /** Neither the first nor the last character is whitespace. */
  predicate IsTrimmed(s: string) {
    s == [] || (!IsWhitespace(s[0]) && !IsWhitespace(s[|s| - 1]))
  }

  /**
   * The forward scan of `trim`: from `i`, the index of the first
   * non-whitespace character, or `|s|` when there is none.
   */
  function StartIndex(s: string, i: nat): (k: nat)
    requires i <= |s|
    ensures i <= k <= |s|
    ensures forall m :: i <= m < k ==> IsWhitespace(s[m])
    ensures k < |s| ==> !IsWhitespace(s[k])
    decreases |s| - i
  {
    if i < |s| && IsWhitespace(s[i]) then StartIndex(s, i + 1) else i
  }

  /**
   * The backward scan of `trim`, which never passes the start index `lo`:
   * from `j`, the end of the last non-whitespace character at or after `lo`.
   */
  function EndIndex(s: string, lo: nat, j: nat): (e: nat)
    requires lo <= j <= |s|
    ensures lo <= e <= j
    ensures forall m :: e <= m < j ==> IsWhitespace(s[m])
    ensures e > lo ==> !IsWhitespace(s[e - 1])
    decreases j
  {
    if j > lo && IsWhitespace(s[j - 1]) then EndIndex(s, lo, j - 1) else j
  }

  /** Kotlin's `String.trim()`: the slice between the two scans. */
  function Trim(s: string): string {
    var b := StartIndex(s, 0);
    s[b..EndIndex(s, b, |s|)]
  }

  /**
   * What `trim` promises: the result is the slice of `s` between a blank
   * prefix and a blank suffix, and it starts and ends with a non-blank
   * character.
   */
  lemma TrimIsCore(s: string)
    ensures IsTrimmed(Trim(s))
    ensures exists i, j :: 0 <= i <= j <= |s| && Trim(s) == s[i..j]
                           && IsBlank(s[..i]) && IsBlank(s[j..])
  {
    var b := StartIndex(s, 0);
    var e := EndIndex(s, b, |s|);
    var r := s[b..e];
    if r != [] {
      assert r[0] == s[b] && r[|r| - 1] == s[e - 1];
    }
    assert IsBlank(s[..b]) && IsBlank(s[e..]);
  }

  /** A string is blank exactly when trimming leaves nothing. */
  lemma BlankIffTrimEmpty(s: string)
    ensures IsBlank(s) <==> Trim(s) == []
  {
    var b := StartIndex(s, 0);
    var e := EndIndex(s, b, |s|);
    assert |Trim(s)| == e - b;
    if e == b {
      assert forall m :: 0 <= m < |s| ==> IsWhitespace(s[m]);
    }
  }

  /** Trimming a non-blank string gives a non-blank, trimmed string. */
  lemma TrimNonBlank(s: string)
    requires !IsBlank(s)
    ensures !IsBlank(Trim(s)) && IsTrimmed(Trim(s))
  {
    BlankIffTrimEmpty(s);
    TrimIsCore(s);
    assert !IsWhitespace(Trim(s)[0]);
  }

  /** A string with no outer whitespace is its own trim. */
  lemma TrimmedIsFixed(s: string)
    requires IsTrimmed(s)
    ensures Trim(s) == s
  {
    assert StartIndex(s, 0) == 0;
    assert EndIndex(s, 0, |s|) == |s|;
    assert s[0..|s|] == s;
  }

  /** Trimming the trimmed string changes nothing. */
  lemma TrimIdempotent(s: string)
    ensures Trim(Trim(s)) == Trim(s)
  {
    TrimIsCore(s);
    TrimmedIsFixed(Trim(s));
  }

  function DigitChar(d: nat): (c: char)
    requires d < 10
    ensures '0' <= c <= '9'
  {
    (('0' as int) + d) as char
  }

  function DigitValue(c: char): (d: nat)
    requires '0' <= c <= '9'
    ensures d < 10
  {
    (c as int) - ('0' as int)
  }

  /** How Kotlin renders a non-negative `Int` in a string template. */
  function NatToDecimal(n: nat): (r: string)
    ensures |r| >= 1
    ensures forall i :: 0 <= i < |r| ==> '0' <= r[i] <= '9'
    ensures r[0] == '0' ==> n == 0
  {
    if n < 10 then [DigitChar(n)] else NatToDecimal(n / 10) + [DigitChar(n % 10)]
  }

  /** How Kotlin renders any `Int` in a string template. */
  function IntToDecimal(n: int): string {
    if n < 0 then "-" + NatToDecimal(-n) else NatToDecimal(n)
  }

  /** The value of a string of decimal digits. */
  function DecimalValue(s: string): nat
    requires forall i :: 0 <= i < |s| ==> '0' <= s[i] <= '9'
  {
    if s == [] then 0 else DecimalValue(s[..|s| - 1]) * 10 + DigitValue(s[|s| - 1])
  }

  /** The rendering is exact: reading the digits back gives the number. */
  lemma {:induction false} DecimalRoundTrip(n: nat)
    ensures DecimalValue(NatToDecimal(n)) == n
  {
    if n >= 10 {
      DecimalRoundTrip(n / 10);
      var r := NatToDecimal(n);
      assert r[..|r| - 1] == NatToDecimal(n / 10);
      assert DigitValue(r[|r| - 1]) == n % 10;
    }
  }
}
