/**
 * JVM integer semantics that the app relies on: 32-bit `Int` narrowing and wrap-around,
 * division and remainder that truncate toward zero, decimal `toString()` and `String.toIntOrNull()`.
 */
module Numbers {
  import opened Wrappers

  const INT_MIN: int := -0x8000_0000
  const INT_MAX: int := 0x7FFF_FFFF
  const INT_RANGE: int := 0x1_0000_0000

  /** The value fits a Kotlin `Int`. */
  predicate IsInt(x: int) {
    INT_MIN <= x <= INT_MAX
  }

  /** `Long.toInt()` and `Int` arithmetic: keep the low 32 bits, two's complement. */
  function WrapInt(x: int): (r: int)
    ensures IsInt(r)
    ensures (x - r) % INT_RANGE == 0
    ensures IsInt(x) ==> r == x
  {
    (x - INT_MIN) % INT_RANGE + INT_MIN
  }

  /** Wrapping twice is wrapping once, and wrapping commutes with addition. */
  lemma WrapAdd(a: int, b: int)
    ensures WrapInt(WrapInt(a) + b) == WrapInt(a + b)
  {
    var k := (a - WrapInt(a)) / INT_RANGE;
    assert a == WrapInt(a) + k * INT_RANGE;
    assert (a + b - INT_MIN) == (WrapInt(a) + b - INT_MIN) + k * INT_RANGE;
    ModShift(WrapInt(a) + b - INT_MIN, k);
  }

  lemma ModShift(x: int, k: int)
    ensures (x + k * INT_RANGE) % INT_RANGE == x % INT_RANGE
  {
    var q := x / INT_RANGE;
    var r := x % INT_RANGE;
    assert x + k * INT_RANGE == (q + k) * INT_RANGE + r;
  }

  /** JVM `a / b` for a positive divisor: the quotient is truncated toward zero. */
  function Quot(a: int, b: int): (q: int)
    requires b > 0
    ensures a >= 0 ==> q == a / b
    ensures a >= 0 ==> q * b <= a < q * b + b
    ensures a < 0 ==> q * b - b < a <= q * b
  {
    if a >= 0 then
      EuclidFacts(a, b);
      a / b
    else
      EuclidFacts(-a, b);
      -((-a) / b)
  }

  lemma EuclidFacts(a: int, b: int)
    requires a >= 0 && b > 0
    ensures (a / b) * b <= a < (a / b) * b + b
    ensures -((a / b)) * b == -((a / b) * b)
  {
  }

  /** On an exact multiple, truncating and Euclidean division agree and lose nothing. */
  lemma QuotExact(a: int, b: int)
    requires b > 0 && a % b == 0
    ensures Quot(a, b) * b == a
  {
    if a < 0 {
      var k := a / b;
      assert a == k * b;
      MulDiv(-k, b);
      assert -a == (-k) * b;
    }
  }

  lemma MulDiv(m: int, b: int)
    requires b > 0
    ensures (m * b) / b == m
  {
    var q := (m * b) / b;
    var r := (m * b) % b;
    assert m * b == q * b + r;
    assert (m - q) * b == m * b - q * b;
    MulBounds(m - q, b);
  }

  /** A nonzero multiple of a positive `b` is at least `b` away from 0. */
  lemma MulBounds(x: int, b: int)
    ensures x >= 1 && b > 0 ==> x * b >= b
    ensures x <= -1 && b > 0 ==> x * b <= -b
  {
    assert x * b == (x - 1) * b + b;
    assert x * b == (x + 1) * b - b;
  }

  /** JVM `a % b` for a positive divisor: the remainder takes the sign of `a`. */
  function Rem(a: int, b: int): (r: int)
    requires b > 0
    ensures a == Quot(a, b) * b + r
    ensures a >= 0 ==> 0 <= r < b && r == a % b
    ensures a < 0 ==> -b < r <= 0
  {
    a - Quot(a, b) * b
  }

  predicate IsDigit(c: char) {
    '0' <= c <= '9'
  }

  function DigitChar(d: nat): (c: char)
    requires d < 10
    ensures IsDigit(c) && c as int - '0' as int == d
  {
    ('0' as int + d) as char
  }

  /** The decimal digits of `n`, most significant first, without leading zeros. */
  function NatToString(n: nat): (s: string)
    ensures |s| > 0
    ensures forall i :: 0 <= i < |s| ==> IsDigit(s[i])
    ensures n > 0 ==> s[0] != '0'
  {
    if n < 10 then [DigitChar(n)] else NatToString(n / 10) + [DigitChar(n % 10)]
  }

  /** Kotlin `Int.toString()` / `Long.toString()`: a minus sign for negative values, then the digits. */
  function IntToString(n: int): (s: string)
    ensures |s| > 0
    ensures n < 0 <==> s[0] == '-'
  {
    if n < 0 then "-" + NatToString(-n) else NatToString(n)
  }

  predicate AllDigits(s: string) {
    forall i :: 0 <= i < |s| ==> IsDigit(s[i])
  }

  /** The value of a string of decimal digits (leading zeros allowed). */
  function DigitsValue(s: string): nat
    requires AllDigits(s)
  {
    if s == [] then 0 else DigitsValue(s[..|s| - 1]) * 10 + (s[|s| - 1] as int - '0' as int)
  }

  /**
   * Kotlin `String.toIntOrNull()`: an optional `+` or `-`, then at least one decimal digit,
   * and the value must fit an `Int`; anything else is `null`.
   */
  function ParseInt(s: string): (r: Option<int>)
    ensures r.Some? ==> IsInt(r.value)
    ensures s == [] ==> r.None?
  {
    if s == [] then None
    else
      var negative := s[0] == '-';
      var start := if s[0] == '-' || s[0] == '+' then 1 else 0;
      var digits := s[start..];
      if digits == [] || !AllDigits(digits) then None
      else
        var value: int := DigitsValue(digits);
        var v := if negative then -value else value;
        if IsInt(v) then Some(v) else None
  }

  lemma {:induction false} DigitsOfNat(n: nat)
    ensures AllDigits(NatToString(n)) && DigitsValue(NatToString(n)) == n
  {
    var s := NatToString(n);
    if n >= 10 {
      DigitsOfNat(n / 10);
      assert s[..|s| - 1] == NatToString(n / 10);
    }
  }

  /** `toIntOrNull` inverts `toString` on every `Int`. */
  lemma IntRoundTrip(n: int)
    requires IsInt(n)
    ensures ParseInt(IntToString(n)) == Some(n)
  {
    var s := IntToString(n);
    if n < 0 {
      DigitsOfNat(-n);
      assert s[1..] == NatToString(-n);
    } else {
      DigitsOfNat(n);
      assert s[0] != '-' && s[0] != '+';
      assert s[0..] == s;
    }
  }

  /** A whole number of units, printed and parsed back, survives only if it fits an `Int`. */
  lemma ParseOutOfRange(n: int)
    requires !IsInt(n)
    ensures ParseInt(IntToString(n)).None?
  {
    var s := IntToString(n);
    if n < 0 {
      DigitsOfNat(-n);
      assert s[1..] == NatToString(-n);
    } else {
      DigitsOfNat(n);
      assert s[0..] == s;
    }
  }
}
