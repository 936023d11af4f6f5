/**
 * The few .NET string operations the core relies on: `string.IsNullOrEmpty`,
 * `string.IsNullOrWhiteSpace`, `ToUpper` on ASCII letters, `OrdinalIgnoreCase`
 * equality, substring containment and decimal rendering of numbers.
 */
module Text {
  import opened Wrappers

  /**
   * A library parser such as `double.TryParse`: `None` when the text does not parse.
   * The culture and number-style rules it applies are left abstract.
   */
  type Parser<T> = string -> Option<T>

  /** `char.IsWhiteSpace`: U+0009..U+000D, U+0085 and the Unicode space, line and paragraph separators. */
  predicate IsWhiteSpace(c: char) {
    var n := c as int;
    (0x09 <= n <= 0x0D) || n == 0x20 || n == 0x85 || n == 0xA0 || n == 0x1680
    || (0x2000 <= n <= 0x200A) || n == 0x2028 || n == 0x2029 || n == 0x202F
    || n == 0x205F || n == 0x3000
  }

  /** `string.IsNullOrEmpty`, with `None` for null. */
  predicate IsNullOrEmpty(s: Option<string>) {
    s.None? || |s.value| == 0
  }

  /** `string.IsNullOrWhiteSpace`, with `None` for null. */
  predicate IsNullOrWhiteSpace(s: Option<string>) {
    s.None? || forall i :: 0 <= i < |s.value| ==> IsWhiteSpace(s.value[i])
  }

  predicate IsAsciiLower(c: char) { 'a' <= c <= 'z' }

  predicate IsAsciiUpper(c: char) { 'A' <= c <= 'Z' }

  /** Upper-casing of one character, restricted to the ASCII letters. */
  function UpperChar(c: char): char {
    if IsAsciiLower(c) then (c as int - 32) as char else c
  }

  /** `ToUpper`, restricted to the ASCII letters. */
  function Upper(s: string): (r: string)
    ensures |r| == |s|
    ensures forall i :: 0 <= i < |s| ==> r[i] == UpperChar(s[i])
  {
    if s == [] then [] else [UpperChar(s[0])] + Upper(s[1..])
  }

  /** The two characters are equal, or are the two cases of one ASCII letter. */
  predicate SameLetterIgnoringCase(x: char, y: char) {
    || x == y
    || (IsAsciiUpper(x) && IsAsciiLower(y) && y as int == x as int + 32)
    || (IsAsciiLower(x) && IsAsciiUpper(y) && x as int == y as int + 32)
  }

  /** `a.Equals(b, StringComparison.OrdinalIgnoreCase)`, with ASCII case folding. */
  predicate EqualsIgnoringCase(a: string, b: string) {
    |a| == |b| && forall i :: 0 <= i < |a| ==> SameLetterIgnoringCase(a[i], b[i])
  }

  /** Upper-cased strings are equal exactly when the inputs differ only in letter case. */
  lemma UpperEqualIffEqualsIgnoringCase(a: string, b: string)
    ensures Upper(a) == Upper(b) <==> EqualsIgnoringCase(a, b)
  {
    if Upper(a) == Upper(b) {
      forall i | 0 <= i < |a|
        ensures SameLetterIgnoringCase(a[i], b[i])
      {
        assert UpperChar(a[i]) == Upper(a)[i] == Upper(b)[i] == UpperChar(b[i]);
      }
    }
    if EqualsIgnoringCase(a, b) {
      forall i | 0 <= i < |a|
        ensures Upper(a)[i] == Upper(b)[i]
      {
        assert SameLetterIgnoringCase(a[i], b[i]);
      }
    }
  }

  /** `sub` occurs in `s` starting at index `i`. */
  predicate OccursAt(s: string, sub: string, i: nat) {
    i + |sub| <= |s| && s[i..i + |sub|] == sub
  }

  /** `s.Contains(sub)` */
  predicate Contains(s: string, sub: string) {
    exists i: nat | i <= |s| :: OccursAt(s, sub, i)
  }

  lemma {:induction false} ContainsPrefix(p: string, rest: string)
    ensures Contains(p + rest, p)
  {
    assert OccursAt(p + rest, p, 0) by {
      assert (p + rest)[0..|p|] == p;
    }
  }

  /** A string cannot contain a text that holds a character the string lacks. */
  lemma {:induction false} NotContainsMissingChar(s: string, sub: string, c: char)
    requires c in sub && c !in s
    ensures !Contains(s, sub)
  {
  }

  predicate IsAsciiDigit(c: char) { '0' <= c <= '9' }

  function DigitValue(c: char): nat
    requires IsAsciiDigit(c)
  {
    c as int - '0' as int
  }

  function DigitChar(d: nat): (c: char)
    requires d < 10
    ensures IsAsciiDigit(c) && DigitValue(c) == d
  {
    ('0' as int + d) as char
  }

  /** Decimal rendering of a natural number, as `ToString()` prints it. */
  function NatToString(n: nat): string
    decreases n
  {
    if n < 10 then [DigitChar(n)] else NatToString(n / 10) + [DigitChar(n % 10)]
  }

  /** Decimal rendering of an integer, with a leading minus sign when negative. */
  function IntToString(n: int): string {
    if n < 0 then "-" + NatToString(-n) else NatToString(n)
  }
}
