/**
 * Java's Integer.parseInt and Integer.toString on 32-bit ints: an optional
 * '+' or '-' sign followed by at least one ASCII decimal digit, rejected when
 * the value does not fit in an int.
 */
module Decimal {
  import opened Wrappers

  const INT_MIN: int := -0x8000_0000
  const INT_MAX: int := 0x7fff_ffff

  /** A Java int. */
  type Int32 = x: int | INT_MIN <= x <= INT_MAX

  predicate IsDigit(c: char) { '0' <= c <= '9' }

  predicate AllDigits(s: string) { forall i :: 0 <= i < |s| ==> IsDigit(s[i]) }

  /** The value of a digit string read most significant digit first. */
  function DigitsValue(s: string): nat
    requires AllDigits(s)
  {
    if s == [] then 0
    else DigitsValue(s[..|s| - 1]) * 10 + (s[|s| - 1] as int - '0' as int)
  }

  /** Integer.parseInt: None stands for the NumberFormatException. */
  function ParseInt(s: string): (r: Option<Int32>)
    ensures s == [] ==> r == None
    ensures s != [] && !IsDigit(s[0]) && s[0] != '-' && s[0] != '+' ==> r == None
  {
    if s == [] then None
    else
      var negative := s[0] == '-';
      var digits := if s[0] == '-' || s[0] == '+' then s[1..] else s;
      if digits == [] || !AllDigits(digits) then None
      else
        var v: int := if negative then 0 - DigitsValue(digits) as int else DigitsValue(digits);
        if INT_MIN <= v <= INT_MAX then Some(v) else None
  }

  /**
   * What parseInt accepts: a digit or a sign followed by at least one digit,
   * then only digits, and the value they spell with the sign applied; a digit
   * string whose value does not fit in an int is rejected.
   */
  lemma ParseIntAccepts(s: string)
    ensures ParseInt(s).Some? ==>
      s != [] && (IsDigit(s[0]) || ((s[0] == '-' || s[0] == '+') && |s| >= 2)) && AllDigits(s[1..])
    ensures ParseInt(s).Some? && s[0] == '-' ==> ParseInt(s).value == 0 - DigitsValue(s[1..])
    ensures ParseInt(s).Some? && s[0] == '+' ==> ParseInt(s).value == DigitsValue(s[1..])
    ensures s != [] && AllDigits(s) ==>
      ParseInt(s) == if DigitsValue(s) <= INT_MAX then Some(DigitsValue(s)) else None
  {
  }

  /** The decimal digits of n, without leading zeros ("0" for zero). */
  function Digits(n: nat): string
  {
    if n < 10 then [('0' as int + n) as char]
    else Digits(n / 10) + [('0' as int + n % 10) as char]
  }

  /** Integer.toString. */
  function DecimalString(n: int): string
  {
    if n < 0 then "-" + Digits(-n) else Digits(n)
  }

  lemma {:induction false} DigitsReadBack(n: nat)
    ensures Digits(n) != [] && AllDigits(Digits(n)) && DigitsValue(Digits(n)) == n
  {
    if n >= 10 {
      DigitsReadBack(n / 10);
      var s := Digits(n);
      assert s[..|s| - 1] == Digits(n / 10);
    }
  }

  /** Parsing the decimal form of any int gives that int back. */
  lemma ParseDecimalString(n: Int32)
    ensures ParseInt(DecimalString(n)) == Some(n)
  {
    if n < 0 {
      ParseNegative(-(n as int));
    } else {
      ParseNonNegative(n);
    }
  }

  lemma ParseNonNegative(n: nat)
    requires n <= INT_MAX
    ensures ParseInt(Digits(n)) == Some(n)
  {
    DigitsReadBack(n);
    var s := Digits(n);
    assert IsDigit(s[0]);
  }

  lemma ParseNegative(m: nat)
    requires 1 <= m <= -INT_MIN
    ensures ParseInt("-" + Digits(m)) == Some(0 - m)
  {
    DigitsReadBack(m);
    var s := "-" + Digits(m);
    assert s[0] == '-' && s[1..] == Digits(m);
  }
}
