/** Character classes, decimal digit strings, `str.replace` with an empty
    replacement, substring tests and Python's ordering of strings. */
module Strings {

  predicate IsDigit(c: char) { '0' <= c <= '9' }

  /** The characters of the regular-expression class `[\d.]`. */
  predicate IsDigitOrDot(c: char) { IsDigit(c) || c == '.' }

  /** A non-empty run of decimal digits: what `\d+` accepts. */
  predicate IsDigits(s: string) { |s| > 0 && forall i :: 0 <= i < |s| ==> IsDigit(s[i]) }

  /** A non-empty run of digits and dots: what `[\d.]+` accepts. */
  predicate IsDigitsOrDots(s: string) { |s| > 0 && forall i :: 0 <= i < |s| ==> IsDigitOrDot(s[i]) }

  function DigitChar(d: nat): (c: char)
    requires d < 10
    ensures IsDigit(c) && c as int - '0' as int == d
  {
    ('0' as int + d) as char
  }

  /** Python's `str(n)` for a non-negative integer: no sign, no leading zero. */
  function NatToString(n: nat): (s: string)
    ensures IsDigits(s)
    ensures s[0] == '0' ==> n == 0
    decreases n
  {
    if n < 10 then [DigitChar(n)] else NatToString(n / 10) + [DigitChar(n % 10)]
  }

  /** Python's `int(s)` on a digit string (leading zeros allowed). */
  function DigitsValue(s: string): nat
    requires forall i :: 0 <= i < |s| ==> IsDigit(s[i])
  {
    if s == [] then 0
    else
      assert IsDigit(s[|s| - 1]);
      DigitsValue(s[..|s| - 1]) * 10 + (s[|s| - 1] as int - '0' as int)
  }

  /** `int(str(n)) == n`. */
  lemma {:induction false} NatToStringValue(n: nat)
    ensures DigitsValue(NatToString(n)) == n
    decreases n
  {
    var s := NatToString(n);
    if n >= 10 {
      NatToStringValue(n / 10);
      assert s[..|s| - 1] == NatToString(n / 10);
    }
  }

  /** `str(n)` is injective, so two encoded numbers are equal only when the numbers are. */
  lemma NatToStringInjective(a: nat, b: nat)
    requires NatToString(a) == NatToString(b)
    ensures a == b
  {
    NatToStringValue(a);
    NatToStringValue(b);
  }

  /** True when `pat` occurs in `s` starting at index `i`. */
  predicate OccursAt(s: string, pat: string, i: nat)
  {
    i + |pat| <= |s| && s[i..i + |pat|] == pat
  }

  /** Python's `pat in s` (for non-empty `pat`). */
  predicate Contains(s: string, pat: string)
  {
    exists i: nat | i <= |s| :: OccursAt(s, pat, i)
  }

  /** Python's `s.replace(pat, '')`: every occurrence found scanning left to right,
      without overlaps and without rescanning the text that is left, is deleted. */
  function RemoveAll(s: string, pat: string): string
    requires |pat| > 0
    decreases |s|
  {
    if |s| < |pat| then s
    else if s[..|pat|] == pat then RemoveAll(s[|pat|..], pat)
    else [s[0]] + RemoveAll(s[1..], pat)
  }

  /** A text with no occurrence of `pat` is unchanged by the replacement. */
  lemma {:induction false} RemoveAllAbsent(s: string, pat: string)
    requires |pat| > 0
    requires !Contains(s, pat)
    ensures RemoveAll(s, pat) == s
    decreases |s|
  {
    if |s| >= |pat| {
      assert !OccursAt(s, pat, 0);
      assert s[..|pat|] != pat;
      forall i: nat ensures !OccursAt(s[1..], pat, i) {
        assert !OccursAt(s, pat, i + 1);
      }
      RemoveAllAbsent(s[1..], pat);
    }
  }

  /** Deleting the suffix `pat` from `x + pat` gives back `x` when no occurrence of
      `pat` starts inside `x`. */
  lemma {:induction false} RemoveAllSuffix(x: string, pat: string)
    requires |pat| > 0
    requires forall i: nat :: i < |x| ==> !OccursAt(x + pat, pat, i)
    ensures RemoveAll(x + pat, pat) == x
    decreases |x|
  {
    var s := x + pat;
    if x == [] {
      assert s[..|pat|] == pat;
      assert s[|pat|..] == [];
    } else {
      assert !OccursAt(s, pat, 0);
      assert s[..|pat|] != pat;
      assert s[1..] == x[1..] + pat;
      forall i: nat | i < |x[1..]| ensures !OccursAt(x[1..] + pat, pat, i) {
        assert !OccursAt(s, pat, i + 1);
      }
      RemoveAllSuffix(x[1..], pat);
      assert [x[0]] + x[1..] == x;
    }
  }

  /** Python's `<` on strings: lexicographic by code point, a proper prefix first. */
  predicate StrLt(a: string, b: string)
    decreases |a|
  {
    if a == [] then b != []
    else if b == [] then false
    else a[0] < b[0] || (a[0] == b[0] && StrLt(a[1..], b[1..]))
  }

  /** Python's `<=` on strings. */
  predicate StrLe(a: string, b: string) { a == b || StrLt(a, b) }

  lemma {:induction false} StrLtIrreflexive(a: string)
    ensures !StrLt(a, a)
    decreases |a|
  {
    if a != [] { StrLtIrreflexive(a[1..]); }
  }

  /** Exactly one of `a < b`, `a == b`, `b < a` holds. */
  lemma {:induction false} StrLtTrichotomy(a: string, b: string)
    ensures StrLt(a, b) || a == b || StrLt(b, a)
    ensures !(StrLt(a, b) && StrLt(b, a))
    decreases |a|
  {
    if a != [] && b != [] {
      StrLtTrichotomy(a[1..], b[1..]);
      if a[0] == b[0] && a[1..] == b[1..] {
        assert a == [a[0]] + a[1..] && b == [b[0]] + b[1..];
      }
    }
  }

  lemma {:induction false} StrLtTransitive(a: string, b: string, c: string)
    requires StrLt(a, b) && StrLt(b, c)
    ensures StrLt(a, c)
    decreases |a|
  {
    if a != [] && a[0] == b[0] && b[0] == c[0] {
      StrLtTransitive(a[1..], b[1..], c[1..]);
    }
  }

  /** The number of dots in `s`. */
  function DotCount(s: string): (n: nat)
    ensures n <= |s|
  {
    if s == [] then 0 else (if s[0] == '.' then 1 else 0) + DotCount(s[1..])
  }

  /** The strings of `[\d.]+` that Python's `float` accepts: at most one dot and
      at least one digit (`"1."` and `".5"` are accepted, `"."` and `"1.2.3"` are not). */
  predicate IsDecimal(s: string)
  {
    IsDigitsOrDots(s) && DotCount(s) <= 1 && DotCount(s) < |s|
  }

  /** Python's `int(s)` on a string of digits, where the empty string reads as 0
      (the empty side of `"1."` or `".5"`). */
  function DigitsOrEmptyValue(s: string): nat
  {
    if s == [] || !IsDigit(s[|s| - 1]) then 0
    else DigitsOrEmptyValue(s[..|s| - 1]) * 10 + (s[|s| - 1] as int - '0' as int)
  }

  /** The index of the first dot, or `|s|` when there is none. */
  function DotIndex(s: string): (k: nat)
    ensures k <= |s|
    ensures forall i :: 0 <= i < k ==> s[i] != '.'
    ensures k < |s| ==> s[k] == '.'
  {
    if s == [] || s[0] == '.' then 0 else 1 + DotIndex(s[1..])
  }

  /** The value of the digits after a dot: each digit counts a tenth of the
      value of the digit before it. */
  function FractionValue(s: string): real
  {
    if s == [] || !IsDigit(s[0]) then 0.0
    else ((s[0] as int - '0' as int) as real + FractionValue(s[1..])) / 10.0
  }

  /** The exact value of a decimal literal: the digits before the dot plus the
      fraction after it. It stands for the float that Python reads from the
      literal, without rounding to binary. */
  function DecimalValue(s: string): real
  {
    var k := DotIndex(s);
    if k == |s| then DigitsOrEmptyValue(s) as real
    else DigitsOrEmptyValue(s[..k]) as real + FractionValue(s[k + 1..])
  }

  lemma {:induction false} DigitsValueAgrees(s: string)
    requires forall i :: 0 <= i < |s| ==> IsDigit(s[i])
    ensures DigitsOrEmptyValue(s) == DigitsValue(s)
  {
    if s != [] { DigitsValueAgrees(s[..|s| - 1]); }
  }

  lemma {:induction false} DotCountZero(s: string)
    requires forall i :: 0 <= i < |s| ==> IsDigit(s[i])
    ensures DotCount(s) == 0
  {
    if s != [] { DotCountZero(s[1..]); }
  }

  /** `str(n)` is a decimal literal whose value is `n`, so `float(str(n)) == n`. */
  lemma NatToStringDecimal(n: nat)
    ensures IsDecimal(NatToString(n))
    ensures DecimalValue(NatToString(n)) == n as real
  {
    var s := NatToString(n);
    DotCountZero(s);
    NatToStringValue(n);
    DigitsValueAgrees(s);
    assert DotIndex(s) == |s|;
  }
}
