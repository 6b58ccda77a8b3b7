/**
 * The Kotlin standard-library string operations the core relies on, on `string` = `seq<char>`:
 * prefix tests, substring search, whitespace, blankness, trimming and lower-casing.
 */
module Strings {
  import opened Models

  predicate StartsWith(s: string, prefix: string) {
    |prefix| <= |s| && s[..|prefix|] == prefix
  }

  /** Kotlin `removePrefix`: drops `prefix` when `s` starts with it, otherwise returns `s`. */
  function RemovePrefix(s: string, prefix: string): (r: string)
    ensures StartsWith(s, prefix) ==> prefix + r == s
    ensures !StartsWith(s, prefix) ==> r == s
  {
    if StartsWith(s, prefix) then
      assert s == s[..|prefix|] + s[|prefix|..];
      s[|prefix|..]
    else s
  }

  /** `pat` occurs in `s` at position `i`. */
  predicate OccursAt(s: string, pat: string, i: nat) {
    i + |pat| <= |s| && s[i..i + |pat|] == pat
  }

  /** The first occurrence of `pat` in `s` at or after `from`. */
  function IndexOfFrom(s: string, pat: string, from: nat): (r: Option<nat>)
    requires from <= |s|
    decreases |s| - from
    ensures r.Some? ==> from <= r.value && OccursAt(s, pat, r.value)
    ensures forall i: nat :: from <= i && (r.None? || i < r.value) ==> !OccursAt(s, pat, i)
  {
    if OccursAt(s, pat, from) then Some(from)
    else if from == |s| then None
    else IndexOfFrom(s, pat, from + 1)
  }

  /** Kotlin `indexOf`: the first occurrence of `pat` in `s`; the empty pattern occurs at 0. */
  function IndexOf(s: string, pat: string): Option<nat> {
    IndexOfFrom(s, pat, 0)
  }

  /** An occurrence with none before it is the one `indexOf` finds. */
  lemma IndexOfFirst(s: string, pat: string, n: nat)
    requires OccursAt(s, pat, n)
    requires forall i: nat :: i < n ==> !OccursAt(s, pat, i)
    ensures IndexOf(s, pat) == Some(n)
  {
  }

  /** Kotlin `contains` on strings. */
  predicate Contains(s: string, pat: string) {
    IndexOf(s, pat).Some?
  }

  /** Kotlin `substringBefore(delimiter)`: the text before the first delimiter, or all of `s`. */
  function SubstringBefore(s: string, delimiter: string): (r: string)
    ensures IndexOf(s, delimiter).Some? ==> r == s[..IndexOf(s, delimiter).value]
    ensures IndexOf(s, delimiter).None? ==> r == s
  {
    match IndexOf(s, delimiter)
    case Some(i) => s[..i]
    case None => s
  }

  /** Kotlin `substringAfter(delimiter)`: the text after the first delimiter, or all of `s`. */
  function SubstringAfter(s: string, delimiter: string): (r: string)
    ensures IndexOf(s, delimiter).Some? ==> r == s[IndexOf(s, delimiter).value + |delimiter|..]
    ensures IndexOf(s, delimiter).None? ==> r == s
  {
    match IndexOf(s, delimiter)
    case Some(i) => s[i + |delimiter|..]
    case None => s
  }

  /**
   * Kotlin `Char.isWhitespace()` on the JVM: Java whitespace or a Unicode space separator,
   * which adds the no-break spaces U+00A0, U+2007 and U+202F.
   */
  predicate IsWhitespace(c: char) {
    || c == ' '
    || '\t' <= c <= '\r'
    || '\U{1C}' <= c <= '\U{1F}'
    || c == '\U{A0}'
    || c == '\U{1680}'
    || '\U{2000}' <= c <= '\U{200A}'
    || c == '\U{2028}' || c == '\U{2029}'
    || c == '\U{202F}' || c == '\U{205F}' || c == '\U{3000}'
  }

  /** Kotlin `isBlank`: empty or whitespace only. */
  predicate IsBlank(s: string) {
    forall i :: 0 <= i < |s| ==> IsWhitespace(s[i])
  }

  /** The first index at or after `i` that does not hold whitespace, or `|s|`. */
  function TrimStart(s: string, i: nat): (lo: nat)
    requires i <= |s|
    decreases |s| - i
    ensures i <= lo <= |s|
    ensures forall k :: i <= k < lo ==> IsWhitespace(s[k])
    ensures lo < |s| ==> !IsWhitespace(s[lo])
  {
    if i == |s| || !IsWhitespace(s[i]) then i else TrimStart(s, i + 1)
  }

  /** The end of the last character before `j` that is not whitespace, or `lo` when none is left. */
  function TrimEnd(s: string, lo: nat, j: nat): (hi: nat)
    requires lo <= j <= |s|
    decreases j
    ensures lo <= hi <= j
    ensures forall k :: hi <= k < j ==> IsWhitespace(s[k])
    ensures hi > lo ==> !IsWhitespace(s[hi - 1])
  {
    if j == lo || !IsWhitespace(s[j - 1]) then j else TrimEnd(s, lo, j - 1)
  }

  /**
   * Kotlin `trim()`: drops leading and trailing whitespace. The result is empty exactly for a
   * blank string, otherwise it begins and ends with non-whitespace and is what lies between a
   * whitespace-only prefix and a whitespace-only suffix.
   */
  function Trim(s: string): (r: string)
    ensures |r| <= |s|
    ensures r == [] <==> IsBlank(s)
    ensures r != [] ==> !IsWhitespace(r[0]) && !IsWhitespace(r[|r| - 1])
    ensures exists lo, hi :: 0 <= lo <= hi <= |s| && r == s[lo..hi]
                            && IsBlank(s[..lo]) && IsBlank(s[hi..])
  {
    var lo := TrimStart(s, 0);
    var hi := TrimEnd(s, lo, |s|);
    assert IsBlank(s[..lo]) && IsBlank(s[hi..]);
    assert lo < |s| ==> hi > lo;
    s[lo..hi]
  }

  /** Kotlin `Char.lowercaseChar()` on ASCII letters; other characters are left as they are. */
  function LowercaseChar(c: char): (r: char)
    ensures 'A' <= c <= 'Z' ==> r as int == c as int + 32
    ensures !('A' <= c <= 'Z') ==> r == c
  {
    if 'A' <= c <= 'Z' then (c as int + 32) as char else c
  }

  /** Kotlin `lowercase()`, character by character. */
  function Lowercase(s: string): (r: string)
    ensures |r| == |s|
    ensures forall i :: 0 <= i < |s| ==> r[i] == LowercaseChar(s[i])
  {
    seq(|s|, i requires 0 <= i < |s| => LowercaseChar(s[i]))
  }

  /** An ASCII decimal digit, which is also what Java's regex `\d` matches. */
  predicate IsDecimalDigit(c: char) {
    '0' <= c <= '9'
  }

  /** The number a string of decimal digits denotes, most significant digit first. */
  function DigitsValue(s: string): nat
    requires forall i :: 0 <= i < |s| ==> IsDecimalDigit(s[i])
  {
    if s == [] then 0
    else
      var last := s[|s| - 1];
      assert IsDecimalDigit(last);
      DigitsValue(s[..|s| - 1]) * 10 + (last as int - '0' as int)
  }

  /**
   * The decimal digits of `n`, as an `Int` is written into a Kotlin string template: they denote
   * `n`, and only zero itself, written "0", starts with a zero.
   */
  function NatToString(n: nat): (r: string)
    ensures |r| > 0
    ensures forall i :: 0 <= i < |r| ==> IsDecimalDigit(r[i])
    ensures DigitsValue(r) == n
    ensures r[0] == '0' <==> n == 0
    ensures r[0] == '0' ==> r == "0"
  {
    if n < 10 then ['0' + n as char]
    else
      var front := NatToString(n / 10);
      var r := front + ['0' + (n % 10) as char];
      assert r[..|r| - 1] == front;
      r
  }

  /**
   * `"$code"` for an `Int`: the digits of a non-negative value denote it; a negative value is a
   * minus sign followed by the digits of its magnitude; no leading zero is ever written.
   */
  function IntToString(n: int): (r: string)
    ensures |r| > 0
    ensures (r[0] == '-') <==> n < 0
    ensures n >= 0 ==> (forall i :: 0 <= i < |r| ==> IsDecimalDigit(r[i])) && DigitsValue(r) == n
    ensures n < 0 ==> |r| > 1 && (forall i :: 1 <= i < |r| ==> IsDecimalDigit(r[i])) && DigitsValue(r[1..]) == -n
    ensures n >= 0 && r[0] == '0' ==> r == "0"
    ensures n < 0 ==> r[1] != '0'
  {
    if n < 0 then
      var digits := NatToString(-n);
      assert ("-" + digits)[1..] == digits;
      "-" + digits
    else NatToString(n)
  }
}
