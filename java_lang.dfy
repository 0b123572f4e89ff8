/** The few Java library semantics the payment code depends on: 32-bit `int`
    arithmetic, truncating division, `String.valueOf` on integers and
    `Long.parseLong`. */
module JavaLang {
  import opened Common

  const INT_MIN: int := -0x8000_0000
  const INT_MAX: int := 0x7fff_ffff
  const LONG_MIN: int := -0x8000_0000_0000_0000
  const LONG_MAX: int := 0x7fff_ffff_ffff_ffff

  /** The value a Java `int` expression holds when the exact result is `x`:
      two's-complement wrap-around. */
  function Wrap32(x: int): (r: int)
    ensures INT_MIN <= r <= INT_MAX
    ensures (x - r) % 0x1_0000_0000 == 0
    ensures INT_MIN <= x <= INT_MAX ==> r == x
  {
    var m := x % 0x1_0000_0000;
    if m > INT_MAX then m - 0x1_0000_0000 else m
  }

  /** Java's `a / b` for a positive divisor: the quotient is truncated toward
      zero, so the remainder takes the sign of the dividend. */
  function JavaDiv(a: int, b: int): (r: int)
    requires b > 0
    ensures 0 <= a ==> 0 <= a - r * b < b
    ensures a < 0 ==> -b < a - r * b <= 0
  {
    if a >= 0 then a / b else -((-a) / b)
  }

  predicate IsDigit(c: char)
  {
    '0' <= c <= '9'
  }

  predicate AllDigits(s: string)
  {
    forall i :: 0 <= i < |s| ==> IsDigit(s[i])
  }

  function DigitChar(d: nat): (c: char)
    requires d < 10
    ensures IsDigit(c)
  {
    "0123456789"[d]
  }

  /** The decimal digits of `n`, without leading zeros ("0" for zero). */
  function DigitsOf(n: nat): (s: string)
    ensures |s| > 0 && AllDigits(s)
  {
    if n < 10 then [DigitChar(n)] else DigitsOf(n / 10) + [DigitChar(n % 10)]
  }

  /** `String.valueOf(n)` for an `int` or a `long`. */
  function ValueOf(n: int): (s: string)
    ensures |s| > 0
  {
    if n < 0 then "-" + DigitsOf(-n) else DigitsOf(n)
  }

  /** The number an ASCII digit string denotes. */
  function DigitsValue(s: string): nat
    requires AllDigits(s)
  {
    if s == [] then 0 else DigitsValue(s[..|s| - 1]) * 10 + (s[|s| - 1] - '0') as nat
  }

  /** `Long.parseLong(s)`: an optional sign, at least one digit and a value in
      the range of `long`; `None` where Java throws NumberFormatException. */
  function ParseLong(s: string): (r: Option<int>)
    ensures r.Some? ==> LONG_MIN <= r.value <= LONG_MAX
    ensures r.Some? ==> |s| > 0
  {
    if |s| == 0 then None
    else
      var body := if s[0] == '-' || s[0] == '+' then s[1..] else s;
      if |body| == 0 || !AllDigits(body) then None
      else
        var v: int := if s[0] == '-' then 0 - DigitsValue(body) as int else DigitsValue(body);
        if LONG_MIN <= v <= LONG_MAX then Some(v) else None
  }

  /** Reading back the digits of a number gives the number. */
  lemma {:induction false} DigitsRoundTrip(n: nat)
    ensures DigitsValue(DigitsOf(n)) == n
  {
    if n >= 10 {
      DigitsRoundTrip(n / 10);
      var s := DigitsOf(n);
      assert s[..|s| - 1] == DigitsOf(n / 10);
    }
  }

  /** `Long.parseLong(String.valueOf(n)) == n` for every `long` n. */
  lemma ParseValueOf(n: int)
    requires LONG_MIN <= n <= LONG_MAX
    ensures ParseLong(ValueOf(n)) == Some(n)
  {
    var s := ValueOf(n);
    if n < 0 {
      var d := DigitsOf(-n);
      DigitsRoundTrip(-n);
      assert s[0] == '-';
      assert s[1..] == d;
    } else {
      var d := DigitsOf(n);
      DigitsRoundTrip(n);
      assert s == d;
      assert IsDigit(s[0]);
    }
  }
}
