/**
 * String operations the core relies on: ASCII lower-casing (`toLowerCase`),
 * single-character replacement (`String.replace(char, char)`), substring search
 * (`String.contains`), removal of every occurrence of a word (`String.replace(word, "")`),
 * removal of a trailing word (`replaceAll("word$", "")`), decimal and hexadecimal rendering,
 * and the lexicographic order of `String.compareTo`.
 */
module Text {

  function LowerChar(c: char): char {
    if 'A' <= c <= 'Z' then (c as int + 32) as char else c
  }

  /** `toLowerCase` on ASCII letters; other characters are kept. */
  function ToLower(s: string): (r: string)
    ensures |r| == |s|
    ensures forall i :: 0 <= i < |s| ==> r[i] == LowerChar(s[i])
  {
    if s == [] then [] else [LowerChar(s[0])] + ToLower(s[1..])
  }

  lemma {:induction false} ToLowerAppend(a: string, b: string)
    ensures ToLower(a + b) == ToLower(a) + ToLower(b)
  {
    if a == [] {
      assert a + b == b;
    } else {
      assert (a + b)[1..] == a[1..] + b;
      ToLowerAppend(a[1..], b);
    }
  }

  /** A string without upper-case ASCII letters is its own lower-case form. */
  lemma ToLowerOfLower(s: string)
    requires forall i | 0 <= i < |s| :: !('A' <= s[i] <= 'Z')
    ensures ToLower(s) == s
  {
    assert forall i | 0 <= i < |s| :: ToLower(s)[i] == s[i];
  }

  /** `String.replace(from, to)` for single characters. */
  function ReplaceChar(s: string, from: char, to: char): (r: string)
    ensures |r| == |s|
    ensures forall i :: 0 <= i < |s| ==> r[i] == (if s[i] == from then to else s[i])
  {
    if s == [] then [] else [if s[0] == from then to else s[0]] + ReplaceChar(s[1..], from, to)
  }

  /** `String.contains`: `sub` occurs at some position of `s`. */
  predicate Contains(s: string, sub: string) {
    exists i | 0 <= i <= |s| - |sub| :: sub <= s[i..]
  }

  lemma EmptyIsContained(s: string)
    ensures Contains(s, [])
  {
    assert [] <= s[0..];
  }

  /**
   * `String.replace(pat, "")`: scans left to right and deletes each non-overlapping
   * occurrence of `pat`. An empty pattern leaves the string as it is.
   */
  function RemoveAll(s: string, pat: string): (r: string)
    decreases |s|
  {
    if pat == [] || s == [] then s
    else if pat <= s then RemoveAll(s[|pat|..], pat)
    else [s[0]] + RemoveAll(s[1..], pat)
  }

  /** `replaceAll("suf$", "")` for a literal suffix without line terminators. */
  function StripSuffix(s: string, suf: string): (r: string)
  {
    if |suf| <= |s| && s[|s| - |suf|..] == suf then s[..|s| - |suf|] else s
  }

  /** The lower-case hexadecimal digits, in order of value. */
  const HEX_DIGITS: string := "0123456789abcdef"

  function DigitChar(d: nat): (r: char)
    requires d < 16
    ensures r == HEX_DIGITS[d]
  {
    if d < 10 then ('0' as int + d) as char else ('a' as int + d - 10) as char
  }

  /** Decimal rendering of a natural number, as `Integer.toString`. */
  function NatToString(n: nat): (r: string)
    ensures |r| >= 1
    decreases n
  {
    if n < 10 then [DigitChar(n)] else NatToString(n / 10) + [DigitChar(n % 10)]
  }

  /** Decimal rendering of an integer, with a leading '-' for negatives. */
  function IntToString(n: int): string {
    if n < 0 then "-" + NatToString(-n) else NatToString(n)
  }

  function Pow16(k: nat): (r: nat)
    ensures r >= 1
  {
    if k == 0 then 1 else 16 * Pow16(k - 1)
  }

  /** Exactly `width` lower-case hexadecimal digits of `n mod 16^width`, most significant first. */
  function HexDigits(n: nat, width: nat): (r: string)
    ensures |r| == width
    ensures forall k | 0 <= k < width :: r[k] in HEX_DIGITS
  {
    if width == 0 then [] else HexDigits(n / 16, width - 1) + [DigitChar(n % 16)]
  }

  /** The value of a lower-case hexadecimal digit; any other character reads as 0. */
  function DigitValue(c: char): (r: nat)
    ensures r < 16
  {
    if '0' <= c <= '9' then c as int - '0' as int
    else if 'a' <= c <= 'f' then c as int - 'a' as int + 10
    else 0
  }

  /** The number a string of hexadecimal digits denotes, most significant first. */
  function HexValue(s: string): nat {
    if s == [] then 0 else 16 * HexValue(s[..|s| - 1]) + DigitValue(s[|s| - 1])
  }

  /** A positive multiple of at least one `m` is at least `m`. */
  lemma {:induction false} MulAtLeast(m: nat, k: nat)
    requires k >= 1
    ensures m * k >= m
  {
    if k > 1 {
      MulAtLeast(m, k - 1);
      assert m * k == m * (k - 1) + m;
    }
  }

  /** The quotient and remainder are the only such pair: `n == m * a + x` with `0 <= x < m` fixes both. */
  lemma DivModUnique(n: nat, m: nat, a: nat, x: nat)
    requires m > 0 && x < m && n == m * a + x
    ensures n % m == x
  {
    var a', x' := n / m, n % m;
    assert n == m * a' + x';
    if a' > a {
      assert m * a' == m * a + m * (a' - a);
      MulAtLeast(m, a' - a);
    } else if a' < a {
      assert m * a == m * a' + m * (a - a');
      MulAtLeast(m, a - a');
    }
  }

  /** Splitting off the last hexadecimal digit of a remainder modulo `16 * p`. */
  lemma ModSixteenTimes(n: nat, p: nat)
    requires p >= 1
    ensures n % (16 * p) == 16 * ((n / 16) % p) + n % 16
  {
    var q, low := n / 16, n % 16;
    var a, b := q / p, q % p;
    assert q == p * a + b;
    assert n == 16 * q + low;
    assert n == (16 * p) * a + (16 * b + low);
    DivModUnique(n, 16 * p, a, 16 * b + low);
  }

  /** The digits read back: `width` digits of `n` denote `n mod 16^width`. */
  lemma {:induction false} HexDigitsValue(n: nat, width: nat)
    ensures HexValue(HexDigits(n, width)) == n % Pow16(width)
  {
    if width > 0 {
      var s := HexDigits(n, width);
      assert s[..|s| - 1] == HexDigits(n / 16, width - 1);
      assert DigitValue(s[|s| - 1]) == n % 16;
      HexDigitsValue(n / 16, width - 1);
      ModSixteenTimes(n, Pow16(width - 1));
    }
  }

  /** The order of `String.compareTo`: lexicographic by character, a proper prefix first. */
  predicate LexLessEq(a: string, b: string) {
    if a == [] then true
    else if b == [] then false
    else if a[0] != b[0] then a[0] < b[0]
    else LexLessEq(a[1..], b[1..])
  }

  lemma {:induction false} LexTotal(a: string, b: string)
    ensures LexLessEq(a, b) || LexLessEq(b, a)
  {
    if a != [] && b != [] && a[0] == b[0] {
      LexTotal(a[1..], b[1..]);
    }
  }

  lemma {:induction false} LexTransitive(a: string, b: string, c: string)
    requires LexLessEq(a, b) && LexLessEq(b, c)
    ensures LexLessEq(a, c)
  {
    if a != [] && b != [] && c != [] && a[0] == b[0] && b[0] == c[0] {
      LexTransitive(a[1..], b[1..], c[1..]);
    }
  }
}
