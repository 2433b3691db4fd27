/** The string operations that titles are trimmed with and recurrence rules are written and read
    with. */
module Strings {
  import opened Prelude

  /** `char::is_whitespace` */
  predicate IsSpace(c: char) {
    var n := c as int;
    || 9 <= n <= 13 || n == 32 || n == 133 || n == 160 || n == 5760 || 8192 <= n <= 8202
    || n == 8232 || n == 8233 || n == 8239 || n == 8287 || n == 12288
  }

  function TrimStart(s: string): string {
    if s != "" && IsSpace(s[0]) then TrimStart(s[1..]) else s
  }

  function TrimEnd(s: string): string {
    if s != "" && IsSpace(s[|s| - 1]) then TrimEnd(s[..|s| - 1]) else s
  }

  function Trim(s: string): string {
    TrimEnd(TrimStart(s))
  }

  lemma TrimOfTidy(s: string)
    requires s != "" && !IsSpace(s[0]) && !IsSpace(s[|s| - 1])
    ensures Trim(s) == s
  {
  }

  predicate StartsWith(s: string, prefix: string) {
    |prefix| <= |s| && s[..|prefix|] == prefix
  }

  /** `needle` occurs in `s` at position `i`. */
  predicate OccursAt(s: string, needle: string, i: int) {
    0 <= i <= |s| - |needle| && s[i..i + |needle|] == needle
  }

  predicate Contains(s: string, needle: string) {
    exists i :: 0 <= i <= |s| && OccursAt(s, needle, i)
  }

  /** The first position of `c`, or the length. */
  function IndexOf(s: string, c: char): (i: int)
    ensures 0 <= i <= |s|
    ensures i < |s| ==> s[i] == c
    ensures forall j :: 0 <= j < i ==> s[j] != c
  {
    if s == "" then 0 else if s[0] == c then 0 else 1 + IndexOf(s[1..], c)
  }

  function Split(s: string, c: char): seq<string>
    decreases |s|
  {
    var i := IndexOf(s, c);
    if i == |s| then [s] else [s[..i]] + Split(s[i + 1..], c)
  }

  predicate IsDigit(c: char) {
    '0' <= c <= '9'
  }

  function DigitValue(c: char): int
    requires IsDigit(c)
  {
    c as int - '0' as int
  }

  function DigitChar(d: int): (c: char)
    requires 0 <= d < 10
    ensures IsDigit(c) && DigitValue(c) == d
  {
    (d + '0' as int) as char
  }

  /** `n` in decimal, padded with zeros to `width` digits; higher digits are dropped. */
  function Digits(n: int, width: nat): (s: string)
    requires 0 <= n
    ensures |s| == width
    ensures forall i :: 0 <= i < |s| ==> IsDigit(s[i])
    decreases width
  {
    if width == 0 then "" else Digits(n / 10, width - 1) + [DigitChar(n % 10)]
  }

  function Pow10(k: nat): int {
    if k == 0 then 1 else 10 * Pow10(k - 1)
  }

  function Value(s: string): int
    requires forall i :: 0 <= i < |s| ==> IsDigit(s[i])
  {
    if s == "" then 0 else 10 * Value(s[..|s| - 1]) + DigitValue(s[|s| - 1])
  }

  lemma {:induction false} ValueOfDigits(n: int, width: nat)
    requires 0 <= n < Pow10(width)
    ensures Value(Digits(n, width)) == n
    decreases width
  {
    if width > 0 {
      var s := Digits(n, width);
      assert s[..|s| - 1] == Digits(n / 10, width - 1);
      ValueOfDigits(n / 10, width - 1);
    }
  }

  /** How many digits `s` starts with, at most `limit`. */
  function DigitRun(s: string, limit: nat): (k: nat)
    ensures k <= |s| && k <= limit
    ensures forall i :: 0 <= i < k ==> IsDigit(s[i])
    ensures k < limit && k < |s| ==> !IsDigit(s[k])
    decreases limit
  {
    if limit == 0 || s == "" || !IsDigit(s[0]) then 0 else 1 + DigitRun(s[1..], limit - 1)
  }

  /** Read one to `width` digits and return their value with the rest of the text. */
  function ScanNumber(s: string, width: nat): Option<(int, string)> {
    var k := DigitRun(s, width);
    if k == 0 then None else Some((Value(s[..k]), s[k..]))
  }

  lemma ScanOfDigits(n: int, width: nat, rest: string)
    requires 0 <= n < Pow10(width) && width > 0
    ensures ScanNumber(Digits(n, width) + rest, width) == Some((n, rest))
  {
    var s := Digits(n, width) + rest;
    var k := DigitRun(s, width);
    assert forall j :: 0 <= j < width ==> s[j] == Digits(n, width)[j];
    assert k == width;
    assert s[..k] == Digits(n, width) && s[k..] == rest;
    ValueOfDigits(n, width);
  }

  lemma SplitOfTwo(a: string, b: string, c: char)
    requires c !in a && c !in b
    ensures Split(a + [c] + b, c) == [a, b]
    ensures Split(a, c) == [a]
  {
    var s := a + [c] + b;
    var i := IndexOf(s, c);
    assert s[|a|] == c;
    assert forall j :: 0 <= j < |a| ==> s[j] == a[j];
    assert i == |a|;
    assert s[..i] == a && s[i + 1..] == b;
    assert IndexOf(b, c) == |b|;
    assert IndexOf(a, c) == |a|;
  }
}
