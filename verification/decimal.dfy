/**
 * Swift's 64-bit `Int` as it is printed by string interpolation (`"\(n)"`)
 * and read back by the failable initialiser `Int(_: String)` with radix 10.
 */
module Decimal {
  import opened Wrappers

  const INT_MIN: int := -0x8000_0000_0000_0000
  const INT_MAX: int := 0x7FFF_FFFF_FFFF_FFFF

  /** Swift's `Int` on a 64-bit platform. */
  type SwiftInt = x: int | INT_MIN <= x <= INT_MAX

  predicate IsDigit(c: char) {
    '0' <= c <= '9'
  }

  predicate AllDigits(s: string) {
    forall i :: 0 <= i < |s| ==> IsDigit(s[i])
  }

  function DigitValue(c: char): (d: nat)
    requires IsDigit(c)
    ensures d < 10
  {
    c as int - '0' as int
  }

  function DigitChar(d: nat): (c: char)
    requires d < 10
    ensures IsDigit(c) && DigitValue(c) == d
  {
    ('0' as int + d) as char
  }

  /** The number a string of decimal digits denotes, most significant digit first. */
  function DigitsValue(s: string): nat
    requires AllDigits(s)
  {
    if s == [] then 0 else 10 * DigitsValue(s[..|s| - 1]) + DigitValue(s[|s| - 1])
  }

  /** The decimal digits of `n`, without leading zeros. */
  function NatToDecimal(n: nat): (s: string)
    ensures |s| > 0 && AllDigits(s)
    ensures s[0] == '0' ==> n == 0 && s == "0"
  {
    if n < 10 then [DigitChar(n)] else NatToDecimal(n / 10) + [DigitChar(n % 10)]
  }

  /** `"\(n)"` for a Swift `Int`: a minus sign before the digits of a negative number. */
  function IntToDecimal(n: int): (s: string)
    ensures |s| > 0
    ensures n < 0 <==> s[0] == '-'
    ensures n >= 0 ==> AllDigits(s)
    ensures n < 0 ==> AllDigits(s[1..]) && |s| > 1
    ensures s[if n < 0 then 1 else 0] == '0' ==> n == 0
  {
    if n < 0 then "-" + NatToDecimal(-n) else NatToDecimal(n)
  }

  /** A non-empty run of digits and its value; `None` for anything else. */
  function ParseDigits(s: string): (r: Option<nat>)
    ensures r.Some? <==> |s| > 0 && AllDigits(s)
  {
    if |s| > 0 && AllDigits(s) then Some(DigitsValue(s)) else None
  }

  /**
   * `Int(s)`: an optional `+` or `-` followed by one or more ASCII digits,
   * rejected (`nil`) when the value does not fit in 64 bits.
   */
  function ParseInt(s: string): (r: Option<SwiftInt>)
    ensures |s| > 0 && AllDigits(s) && DigitsValue(s) <= INT_MAX ==> r == Some(DigitsValue(s))
    ensures r.Some? ==> |s| > 0 && IsDigit(s[|s| - 1])
  {
    var signed := |s| > 0 && (s[0] == '+' || s[0] == '-');
    var magnitude := ParseDigits(if signed then s[1..] else s);
    match magnitude
    case None => None
    case Some(m) =>
      var v: int := if signed && s[0] == '-' then -(m as int) else m;
      if INT_MIN <= v <= INT_MAX then Some(v) else None
  }

  lemma {:induction false} DigitsValueOfDecimal(n: nat)
    ensures DigitsValue(NatToDecimal(n)) == n
    decreases n
  {
    var s := NatToDecimal(n);
    if n >= 10 {
      var prefix := NatToDecimal(n / 10);
      assert s[..|s| - 1] == prefix;
      DigitsValueOfDecimal(n / 10);
    }
  }

  /** Reading back what interpolation printed gives the same `Int`. */
  lemma ParseIntOfDecimal(n: SwiftInt)
    ensures ParseInt(IntToDecimal(n)) == Some(n)
  {
    var s := IntToDecimal(n);
    if n < 0 {
      var magnitude: nat := -(n as int);
      var digits := NatToDecimal(magnitude);
      assert s[1..] == digits;
      DigitsValueOfDecimal(magnitude);
      assert ParseDigits(s[1..]) == Some(magnitude);
    } else {
      DigitsValueOfDecimal(n);
      assert ParseDigits(s) == Some(n as nat);
    }
  }

  /**
   * A character that is neither a digit nor a leading sign makes `Int(s)`
   * fail, so `Int(s)` rejects names, blanks and embedded whitespace.
   */
  lemma ParseIntRejectsNonDigit(s: string, i: nat)
    requires i < |s| && !IsDigit(s[i])
    requires i > 0 || (s[i] != '+' && s[i] != '-')
    ensures ParseInt(s) == None
  {
  }

  /**
   * On a run of digits, possibly zero-padded and possibly after `+` or `-`,
   * `Int(s)` gives its signed value, or `nil` when that does not fit in 64 bits.
   */
  lemma ParseIntSigned(d: string)
    requires |d| > 0 && AllDigits(d)
    ensures ParseInt(d) == (if DigitsValue(d) <= INT_MAX then Some(DigitsValue(d)) else None)
    ensures ParseInt("+" + d) == (if DigitsValue(d) <= INT_MAX then Some(DigitsValue(d)) else None)
    ensures ParseInt("-" + d) == (if DigitsValue(d) <= -INT_MIN then Some(-(DigitsValue(d) as int)) else None)
  {
    ParseIntAfterSign(d, '+');
    ParseIntAfterSign(d, '-');
  }

  lemma ParseIntAfterSign(d: string, sign: char)
    requires |d| > 0 && AllDigits(d) && (sign == '+' || sign == '-')
    ensures var v: int := if sign == '-' then -(DigitsValue(d) as int) else DigitsValue(d);
      ParseInt([sign] + d) == if INT_MIN <= v <= INT_MAX then Some(v) else None
  {
    var s := [sign] + d;
    assert s[0] == sign;
    assert s[1..] == d;
    assert ParseDigits(s[1..]) == Some(DigitsValue(d));
  }

  /** `Int("")`, `Int("+")` and `Int("-")` are all `nil`. */
  lemma ParseIntRejectsEmptyDigits(s: string)
    requires s == "" || s == "+" || s == "-"
    ensures ParseInt(s) == None
  {
  }
}
