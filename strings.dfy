/**
 * The parts of java.lang.String and of Apache Commons Lang's StringUtils that the
 * customisation layer relies on, with their edge cases: a null reference is None,
 * an exception is None where a value would be returned.
 */
module JavaStrings {
  import opened Wrappers

  predicate EndsWith(s: string, suffix: string) {
    |suffix| <= |s| && s[|s| - |suffix|..] == suffix
  }

  /** pat occurs in s starting at index i. */
  predicate OccursAt(s: string, pat: string, i: int) {
    0 <= i && i + |pat| <= |s| && s[i..i + |pat|] == pat
  }

  /** The largest index not above k at which pat occurs, or -1. */
  function LastIndexOfFrom(s: string, pat: string, k: int): (r: int)
    requires k + |pat| <= |s|
    ensures r == -1 || (0 <= r <= k && OccursAt(s, pat, r))
    ensures forall i :: r < i <= k ==> !OccursAt(s, pat, i)
    decreases k + 1
  {
    if k < 0 then -1
    else if s[k..k + |pat|] == pat then k
    else LastIndexOfFrom(s, pat, k - 1)
  }

  /** String.lastIndexOf(String): the last index at which pat occurs in s, -1 when it does not occur. */
  function LastIndexOf(s: string, pat: string): (r: int)
    ensures r == -1 || OccursAt(s, pat, r)
    ensures forall i :: r < i ==> !OccursAt(s, pat, i)
  {
    LastIndexOfFrom(s, pat, |s| - |pat|)
  }

  /** String.substring(int): None where Java throws StringIndexOutOfBoundsException. */
  function Substring(s: string, begin: int): (r: Option<string>)
    ensures r.Some? <==> 0 <= begin <= |s|
    ensures r.Some? ==> s == s[..begin] + r.value
  {
    if 0 <= begin <= |s| then Some(s[begin..]) else None
  }

  /** Character.isWhitespace: the ASCII controls and the Unicode space, line and paragraph separators, but not the no-break spaces. */
  predicate IsWhitespace(c: char) {
    var n := c as int;
    (0x09 <= n <= 0x0D) || (0x1C <= n <= 0x20) || n == 0x1680 ||
    (0x2000 <= n <= 0x2006) || (0x2008 <= n <= 0x200A) ||
    n == 0x2028 || n == 0x2029 || n == 0x205F || n == 0x3000
  }

  /** StringUtils.isBlank: null, empty or whitespace only. */
  predicate IsBlank(cs: Option<string>) {
    cs.None? || forall i :: 0 <= i < |cs.value| ==> IsWhitespace(cs.value[i])
  }

  /** StringUtils.isAnyBlank over a varargs array: false for an empty array. */
  function AnyBlank(css: seq<Option<string>>): (b: bool)
    ensures b <==> exists i :: 0 <= i < |css| && IsBlank(css[i])
  {
    if |css| == 0 then false
    else if IsBlank(css[0]) then
      true
    else
      assert forall i :: 1 <= i < |css| ==> css[i] == css[1..][i - 1];
      AnyBlank(css[1..])
  }

  /** StringUtils.isNoneBlank: no element is blank. */
  predicate NoneBlank(css: seq<Option<string>>) {
    !AnyBlank(css)
  }

  /** Character.toLowerCase on ASCII letters; other characters are left as they are. */
  function LowerChar(c: char): (r: char)
    ensures 'A' <= c <= 'Z' ==> 'a' <= r <= 'z' && r as int - c as int == 32
    ensures !('A' <= c <= 'Z') ==> r == c
  {
    if 'A' <= c <= 'Z' then (c as int + 32) as char else c
  }

  /** String.toLowerCase, for the ASCII letters. */
  function ToLower(s: string): (r: string)
    ensures |r| == |s|
    ensures forall i :: 0 <= i < |s| ==> r[i] == LowerChar(s[i])
  {
    if s == [] then [] else [LowerChar(s[0])] + ToLower(s[1..])
  }

  /** StringUtils.equalsIgnoreCase: two nulls are equal, a null equals nothing else, otherwise equal
      lengths and pairwise equal characters up to case. */
  predicate EqualsIgnoreCase(a: Option<string>, b: Option<string>) {
    if a.None? || b.None? then
      a.None? && b.None?
    else
      |a.value| == |b.value| &&
      forall i :: 0 <= i < |a.value| ==> LowerChar(a.value[i]) == LowerChar(b.value[i])
  }

  /** StringUtils.equalsAnyIgnoreCase: s equals one of the search strings up to case. */
  function EqualsAnyIgnoreCase(s: Option<string>, searches: seq<Option<string>>): (b: bool)
    ensures b <==> exists i :: 0 <= i < |searches| && EqualsIgnoreCase(s, searches[i])
  {
    if |searches| == 0 then false
    else if EqualsIgnoreCase(s, searches[0]) then
      true
    else
      assert forall i :: 1 <= i < |searches| ==> searches[i] == searches[1..][i - 1];
      EqualsAnyIgnoreCase(s, searches[1..])
  }

  predicate IsDigit(c: char) {
    '0' <= c <= '9'
  }

  function DigitChar(d: nat): char
    requires d < 10
  {
    ('0' as int + d) as char
  }

  /** Integer.toString of a non-negative value: its decimal digits, without leading zeros. */
  function NatText(n: nat): (r: string)
    ensures |r| > 0 && (forall i :: 0 <= i < |r| ==> IsDigit(r[i]))
    ensures |r| > 1 ==> r[0] != '0'
  {
    if n < 10 then [DigitChar(n)] else NatText(n / 10) + [DigitChar(n % 10)]
  }

  /** Integer.toString: a minus sign before the digits of a negative value. */
  function IntText(n: int): string {
    if n < 0 then "-" + NatText(-n) else NatText(n)
  }

  /** The value of a string of decimal digits, read left to right. */
  function DigitsValue(s: string): nat
    requires forall i :: 0 <= i < |s| ==> IsDigit(s[i])
  {
    if s == [] then 0 else DigitsValue(s[..|s| - 1]) * 10 + DigitValue(s[|s| - 1])
  }

  function DigitValue(c: char): nat
    requires IsDigit(c)
  {
    c as int - '0' as int
  }

  /** Reading back the digits Integer.toString writes gives the value written. */
  lemma {:induction false} NatTextRoundTrip(n: nat)
    ensures DigitsValue(NatText(n)) == n
  {
    if n >= 10 {
      NatTextRoundTrip(n / 10);
      var t := NatText(n / 10);
      assert NatText(n)[..|NatText(n)| - 1] == t;
    }
  }
}
