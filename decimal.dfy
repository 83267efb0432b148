/**
 * Decimal text of Java's 64-bit `long` and 32-bit `int`: `Long.toString`,
 * `Integer.toString`, `String.valueOf`, `Long.parseLong` and `Integer.parseInt`
 * (radix 10, ASCII digits only).
 */
module Decimal {
  import opened Wrappers

  const LongMin: int := -0x8000_0000_0000_0000
  const LongMax: int := 0x7FFF_FFFF_FFFF_FFFF
  const IntMin: int := -0x8000_0000
  const IntMax: int := 0x7FFF_FFFF

  /** Java `long`. */
  type Long = x: int | LongMin <= x <= LongMax
  /** Java `int`. */
  type Int32 = x: int | IntMin <= x <= IntMax

  predicate IsDigit(c: char) {
    '0' <= c <= '9'
  }

  predicate AllDigits(s: string) {
    forall i :: 0 <= i < |s| ==> IsDigit(s[i])
  }

  function DigitChar(d: nat): (c: char)
    requires d < 10
    ensures IsDigit(c) && c as int - '0' as int == d
  {
    ('0' as int + d) as char
  }

  /** The shortest decimal numeral of `n` (no leading zeros; "0" for zero). */
  function Digits(n: nat): string {
    if n < 10 then [DigitChar(n)] else Digits(n / 10) + [DigitChar(n % 10)]
  }

  /** The number a string of decimal digits denotes. */
  function Value(s: string): nat
    requires AllDigits(s)
  {
    if s == [] then 0 else 10 * Value(s[..|s| - 1]) + (s[|s| - 1] as int - '0' as int)
  }

  /** `Long.toString(x)` / `Integer.toString(x)`: a minus sign before the digits of a negative number. */
  function SignedToString(x: int): string {
    if x < 0 then "-" + Digits(-x) else Digits(x)
  }

  /**
   * `Long.parseLong(s)` (with `lo`, `hi` the bounds of `long`) and `Integer.parseInt(s)`
   * (bounds of `int`): an optional sign, at least one digit, and a value in range.
   * `None` stands for the `NumberFormatException` they throw otherwise.
   */
  function ParseSigned(s: string, lo: int, hi: int): (r: Option<int>)
    ensures r.Some? ==> lo <= r.value <= hi
    ensures r.Some? ==> |s| > 0
  {
    if |s| > 0 && (s[0] == '-' || s[0] == '+') then
      var body := s[1..];
      if |body| > 0 && AllDigits(body) then
        var v: int := if s[0] == '-' then -(Value(body) as int) else Value(body);
        if lo <= v <= hi then Some(v) else None
      else None
    else if |s| > 0 && AllDigits(s) && lo <= Value(s) <= hi then Some(Value(s))
    else None
  }

  function ParseLong(s: string): (r: Option<Long>)
  {
    match ParseSigned(s, LongMin, LongMax)
    case Some(v) => Some(v)
    case None => None
  }

  function ParseInt(s: string): (r: Option<Int32>)
  {
    match ParseSigned(s, IntMin, IntMax)
    case Some(v) => Some(v)
    case None => None
  }

  /** The numeral of `n` is a non-empty string of digits that denotes `n`. */
  lemma {:induction false} DigitsValue(n: nat)
    ensures |Digits(n)| > 0 && AllDigits(Digits(n)) && Value(Digits(n)) == n
  {
    if n >= 10 {
      DigitsValue(n / 10);
      var s := Digits(n);
      assert s[..|s| - 1] == Digits(n / 10);
    }
  }

  /** Parsing the text Java prints for any value in range gives that value back. */
  lemma ParseSignedToString(x: int, lo: int, hi: int)
    requires lo <= x <= hi
    ensures ParseSigned(SignedToString(x), lo, hi) == Some(x)
  {
    var s := SignedToString(x);
    if x < 0 {
      DigitsValue(-x);
      assert s[1..] == Digits(-x);
    } else {
      DigitsValue(x);
      assert IsDigit(s[0]);
    }
  }

  lemma LongRoundTrip(x: Long)
    ensures ParseLong(SignedToString(x)) == Some(x)
  {
    ParseSignedToString(x, LongMin, LongMax);
  }

  lemma IntRoundTrip(x: Int32)
    ensures ParseInt(SignedToString(x)) == Some(x)
  {
    ParseSignedToString(x, IntMin, IntMax);
  }

  function Pow10(n: nat): (p: nat)
    ensures p >= 1
  {
    if n == 0 then 1 else 10 * Pow10(n - 1)
  }

  /** A numeral without a leading zero is at least the power of ten below its length. */
  lemma {:induction false} ValueAtLeast(s: string)
    requires |s| > 0 && AllDigits(s) && s[0] != '0'
    ensures Value(s) >= Pow10(|s| - 1)
  {
    if |s| > 1 {
      var p := s[..|s| - 1];
      assert p[0] == s[0];
      ValueAtLeast(p);
    }
  }

  /**
   * Twenty or more digits without a leading zero exceed every `long`, so
   * `Long.parseLong` rejects them.
   */
  lemma OverlongNumeralRejected(s: string)
    requires |s| >= 20 && AllDigits(s) && s[0] != '0'
    ensures Value(s) > LongMax
    ensures ParseLong(s) == None
  {
    ValueAtLeast(s);
    assert Pow10(4) == 10000;
    assert Pow10(8) == 100000000;
    assert Pow10(12) == 1000000000000;
    assert Pow10(16) == 10000000000000000;
    assert Pow10(19) == 10000000000000000000;
    PowMonotone(19, |s| - 1);
  }

  lemma {:induction false} PowMonotone(m: nat, n: nat)
    requires m <= n
    ensures Pow10(m) <= Pow10(n)
  {
    if m < n {
      PowMonotone(m, n - 1);
    }
  }

  /** A non-negative number prints as digits only; a negative one does not. */
  lemma SignedToStringDigits(x: int)
    ensures AllDigits(SignedToString(x)) <==> x >= 0
  {
    if x >= 0 {
      DigitsValue(x);
    } else {
      assert !IsDigit(SignedToString(x)[0]);
    }
  }
}
