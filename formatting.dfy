/** Decimal rendering of Java `long` values, as `Long.toString` and `"%s".formatted(id)`
    produce them, and the facts about it that make the object-store keys unambiguous. */
module Formatting {

  /** The character of the decimal digit `d`. */
  function DigitChar(d: nat): (c: char)
    requires d < 10
    ensures '0' <= c <= '9'
    ensures c as int - '0' as int == d
  {
    ('0' as int + d) as char
  }

  /** `s` consists of decimal digits only. */
  predicate AllDigits(s: string) {
    forall i :: 0 <= i < |s| ==> '0' <= s[i] <= '9'
  }

  /** The number a numeral denotes, read most significant digit first. */
  function DigitsValue(s: string): int {
    if s == [] then 0 else DigitsValue(s[..|s| - 1]) * 10 + (s[|s| - 1] as int - '0' as int)
  }

  /** The number a rendering with an optional leading minus sign denotes. */
  function SignedValue(s: string): int {
    if |s| > 0 && s[0] == '-' then -DigitsValue(s[1..]) else DigitsValue(s)
  }

  /** The decimal numeral of `n`: most significant digit first, no leading zero, and
      read back it is `n`. */
  function Decimal(n: nat): (s: string)
    ensures DigitsValue(s) == n
    ensures AllDigits(s)
    ensures |s| >= 1
    ensures |s| == 1 <==> n < 10
    ensures n >= 10 ==> s[0] != '0'
    decreases n
  {
    if n < 10 then
      assert [DigitChar(n)][..0] == [];
      [DigitChar(n)]
    else
      var s := Decimal(n / 10) + [DigitChar(n % 10)];
      assert s[..|s| - 1] == Decimal(n / 10);
      s
  }

  /** Distinct numbers have distinct numerals: reading back gives the number. */
  lemma DecimalInjective(a: nat, b: nat)
    requires Decimal(a) == Decimal(b)
    ensures a == b
  {
    assert a == DigitsValue(Decimal(a)) == DigitsValue(Decimal(b)) == b;
  }

  /** `Long.toString(x)`: a minus sign for negative values, then the numeral of |x|;
      read back it is `x`. */
  function LongToString(x: int): (s: string)
    ensures SignedValue(s) == x
    ensures |s| >= 1
    ensures '/' !in s
    ensures s[0] == '-' <==> x < 0
  {
    if x < 0 then
      var s := "-" + Decimal(-x);
      assert s[1..] == Decimal(-x);
      s
    else Decimal(x)
  }

  /** Distinct values render differently: reading back gives the value. */
  lemma LongToStringInjective(a: int, b: int)
    requires LongToString(a) == LongToString(b)
    ensures a == b
  {
    assert a == SignedValue(LongToString(a)) == SignedValue(LongToString(b)) == b;
  }

  /** Where the parts of `a + [sep] + b` sit. */
  lemma ConcatenationAt(a: string, sep: char, b: string, i: int)
    ensures (a + [sep] + b)[|a|] == sep
    ensures 0 <= i < |a| ==> (a + [sep] + b)[i] == a[i]
  {
  }

  /** Splitting at the first occurrence of a separator that the left parts lack
      recovers both parts. */
  lemma {:induction false} SplitAtSeparator(a1: string, b1: string, a2: string, b2: string, sep: char)
    requires sep !in a1 && sep !in a2
    requires a1 + [sep] + b1 == a2 + [sep] + b2
    ensures a1 == a2 && b1 == b2
  {
    if |a1| < |a2| {
      ConcatenationAt(a1, sep, b1, 0);
      ConcatenationAt(a2, sep, b2, |a1|);
      assert false;
    } else if |a2| < |a1| {
      ConcatenationAt(a2, sep, b2, 0);
      ConcatenationAt(a1, sep, b1, |a2|);
      assert false;
    }
    var s := a1 + [sep] + b1;
    assert a1 == s[..|a1|] == a2;
    assert b1 == s[|a1| + 1..] == b2;
  }
}
