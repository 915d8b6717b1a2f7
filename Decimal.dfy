/** Decimal rendering of integers, as Python's `str(int)` (and hence an
    f-string field `{top_k}` holding an `int`) produces it, and readers that
    take such a rendering back out of a longer text. */
module Decimal {
  import opened Wrappers

  predicate IsDigit(c: char) { '0' <= c <= '9' }

  predicate AllDigits(s: string) { forall i :: 0 <= i < |s| ==> IsDigit(s[i]) }

  function DigitChar(d: nat): (c: char)
    requires d < 10
    ensures IsDigit(c)
  {
    ('0' as int + d) as char
  }

  function DigitValue(c: char): (d: nat)
    requires IsDigit(c)
    ensures d < 10 && DigitChar(d) == c
  {
    c as int - '0' as int
  }

  /** The decimal digits of `n`, most significant first. */
  function NatToString(n: nat): (s: string)
    ensures |s| >= 1 && AllDigits(s)
    ensures s[0] == '0' ==> n == 0
    ensures n < 10 ==> |s| == 1
    decreases n
  {
    if n < 10 then [DigitChar(n)] else NatToString(n / 10) + [DigitChar(n % 10)]
  }

  /** `str(i)`: a minus sign for negative values, then the digits of `|i|`. */
  function IntToString(i: int): (s: string)
    ensures |s| >= 1
    ensures s[0] == '-' <==> i < 0
    ensures AllDigits(if i < 0 then s[1..] else s)
  {
    if i < 0 then "-" + NatToString(-i) else NatToString(i)
  }

  /** The value of a digit string read most significant first. */
  function DigitsValue(s: string): nat
    requires AllDigits(s)
  {
    if s == [] then 0 else 10 * DigitsValue(s[..|s| - 1]) + DigitValue(s[|s| - 1])
  }

  /** Length of the longest all-digit prefix of `s`. */
  function LeadingDigits(s: string): (k: nat)
    ensures k <= |s| && AllDigits(s[..k])
    ensures k < |s| ==> !IsDigit(s[k])
  {
    if s != [] && IsDigit(s[0]) then 1 + LeadingDigits(s[1..]) else 0
  }

  /** Length of the longest all-digit suffix of `s`. */
  function TrailingDigits(s: string): (k: nat)
    ensures k <= |s| && AllDigits(s[|s| - k..])
    ensures k < |s| ==> !IsDigit(s[|s| - 1 - k])
  {
    if s != [] && IsDigit(s[|s| - 1]) then 1 + TrailingDigits(s[..|s| - 1]) else 0
  }

  /** Reads an unsigned decimal number at the front of `s`; yields the
      number and the text after it. */
  function ReadNatPrefix(s: string): Option<(nat, string)>
  {
    var k := LeadingDigits(s);
    if k == 0 then None else Some((DigitsValue(s[..k]), s[k..]))
  }

  /** Reads an optionally signed decimal integer at the front of `s`;
      yields it and the text after it. */
  function ReadIntPrefix(s: string): Option<(int, string)>
  {
    if s != [] && s[0] == '-' then
      match ReadNatPrefix(s[1..])
      case None => None
      case Some((v, rest)) => Some((-(v as int), rest))
    else
      match ReadNatPrefix(s)
      case None => None
      case Some((v, rest)) => Some((v as int, rest))
  }

  /** Reads an unsigned decimal number at the end of `s`; yields the text
      before it and the number. */
  function ReadNatSuffix(s: string): Option<(string, nat)>
  {
    var k := TrailingDigits(s);
    if k == 0 then None else Some((s[..|s| - k], DigitsValue(s[|s| - k..])))
  }

  /** Reads an optionally signed decimal integer at the end of `s`;
      yields the text before it and the integer. */
  function ReadIntSuffix(s: string): Option<(string, int)>
  {
    match ReadNatSuffix(s)
    case None => None
    case Some((before, v)) =>
      if before != [] && before[|before| - 1] == '-' then Some((before[..|before| - 1], -(v as int)))
      else Some((before, v as int))
  }

  lemma {:induction false} DigitsValueOfNatToString(n: nat)
    ensures DigitsValue(NatToString(n)) == n
    decreases n
  {
    if n >= 10 {
      DigitsValueOfNatToString(n / 10);
      var s := NatToString(n);
      assert s[..|s| - 1] == NatToString(n / 10);
    }
  }

  lemma {:induction false} LeadingDigitsOfDigits(d: string, rest: string)
    requires AllDigits(d)
    requires rest == [] || !IsDigit(rest[0])
    ensures LeadingDigits(d + rest) == |d|
  {
    if d == [] {
      assert d + rest == rest;
    } else {
      assert (d + rest)[1..] == d[1..] + rest;
      LeadingDigitsOfDigits(d[1..], rest);
    }
  }

  lemma {:induction false} TrailingDigitsOfDigits(before: string, d: string)
    requires AllDigits(d)
    requires before == [] || !IsDigit(before[|before| - 1])
    ensures TrailingDigits(before + d) == |d|
  {
    if d == [] {
      assert before + d == before;
    } else {
      assert (before + d)[..|before + d| - 1] == before + d[..|d| - 1];
      TrailingDigitsOfDigits(before, d[..|d| - 1]);
    }
  }

  lemma ReadNatPrefixOfNatToString(n: nat, rest: string)
    requires rest == [] || !IsDigit(rest[0])
    ensures ReadNatPrefix(NatToString(n) + rest) == Some((n, rest))
  {
    var d := NatToString(n);
    LeadingDigitsOfDigits(d, rest);
    DigitsValueOfNatToString(n);
    var s := d + rest;
    assert s[..|d|] == d;
    assert s[|d|..] == rest;
  }

  lemma ReadIntPrefixOfNegative(n: nat, rest: string)
    requires rest == [] || !IsDigit(rest[0])
    ensures ReadIntPrefix(['-'] + NatToString(n) + rest) == Some((-(n as int), rest))
  {
    ReadNatPrefixOfNatToString(n, rest);
    var s := ['-'] + NatToString(n) + rest;
    assert s[1..] == NatToString(n) + rest;
  }

  lemma ReadIntPrefixOfNonNegative(n: nat, rest: string)
    requires rest == [] || !IsDigit(rest[0])
    ensures ReadIntPrefix(NatToString(n) + rest) == Some((n as int, rest))
  {
    ReadNatPrefixOfNatToString(n, rest);
    var d := NatToString(n);
    assert (d + rest)[0] == d[0];
  }

  /** Reading from the front undoes `str(i)` when the next character is not a digit. */
  lemma ReadIntPrefixOfIntToString(i: int, rest: string)
    requires rest == [] || !IsDigit(rest[0])
    ensures ReadIntPrefix(IntToString(i) + rest) == Some((i, rest))
  {
    if i < 0 {
      var n: nat := -i;
      ReadIntPrefixOfNegative(n, rest);
      assert IntToString(i) + rest == ['-'] + NatToString(n) + rest;
    } else {
      var n: nat := i;
      ReadIntPrefixOfNonNegative(n, rest);
    }
  }

  /** The digits `d` at the end of `pre + d` are read back whole. */
  lemma TrailingDigitsSplit(pre: string, d: string)
    requires AllDigits(d)
    requires pre == [] || !IsDigit(pre[|pre| - 1])
    ensures TrailingDigits(pre + d) == |d|
    ensures (pre + d)[|pre|..] == d && (pre + d)[..|pre|] == pre
  {
    TrailingDigitsOfDigits(pre, d);
  }

  lemma ReadNatSuffixOfNatToString(pre: string, n: nat)
    requires pre == [] || !IsDigit(pre[|pre| - 1])
    ensures ReadNatSuffix(pre + NatToString(n)) == Some((pre, n))
  {
    var d := NatToString(n);
    TrailingDigitsSplit(pre, d);
    DigitsValueOfNatToString(n);
    var s := pre + d;
    assert s[|s| - |d|..] == d;
    assert s[..|s| - |d|] == pre;
  }

  lemma ReadIntSuffixOfNegative(before: string, n: nat)
    requires n > 0
    requires before == [] || (!IsDigit(before[|before| - 1]) && before[|before| - 1] != '-')
    ensures ReadIntSuffix(before + ['-'] + NatToString(n)) == Some((before, -(n as int)))
  {
    var pre := before + ['-'];
    ReadNatSuffixOfNatToString(pre, n);
    assert pre[..|pre| - 1] == before && pre[|pre| - 1] == '-';
  }

  lemma ReadIntSuffixOfNonNegative(before: string, n: nat)
    requires before == [] || (!IsDigit(before[|before| - 1]) && before[|before| - 1] != '-')
    ensures ReadIntSuffix(before + NatToString(n)) == Some((before, n))
  {
    ReadNatSuffixOfNatToString(before, n);
  }

  /** Reading from the back undoes `str(i)` when the character before it is
      neither a digit nor a minus sign. */
  lemma ReadIntSuffixOfIntToString(before: string, i: int)
    requires before == [] || (!IsDigit(before[|before| - 1]) && before[|before| - 1] != '-')
    ensures ReadIntSuffix(before + IntToString(i)) == Some((before, i))
  {
    if i < 0 {
      var n: nat := -i;
      var d := NatToString(n);
      assert IntToString(i) == ['-'] + d;
      assert before + (['-'] + d) == before + ['-'] + d;
      ReadIntSuffixOfNegative(before, n);
    } else {
      var n: nat := i;
      ReadIntSuffixOfNonNegative(before, n);
    }
  }

  /** Distinct integers render to distinct text. */
  lemma IntToStringInjective(i: int, j: int)
    ensures IntToString(i) == IntToString(j) ==> i == j
  {
    ReadIntPrefixOfIntToString(i, []);
    ReadIntPrefixOfIntToString(j, []);
    assert IntToString(i) + [] == IntToString(i);
    assert IntToString(j) + [] == IntToString(j);
  }
}
