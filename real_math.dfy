/** Real-number helpers shared by the analytics modules: absolute value,
    clamps, whole-number powers and rounding to one decimal place. */
module RealMath {

  function Abs(x: real): (r: real)
    ensures r >= 0.0 && (r == x || r == -x)
  {
    if x < 0.0 then -x else x
  }

  function Max(a: real, b: real): (r: real)
    ensures r >= a && r >= b && (r == a || r == b)
  {
    if a >= b then a else b
  }

  function Min(a: real, b: real): (r: real)
    ensures r <= a && r <= b && (r == a || r == b)
  {
    if a <= b then a else b
  }

  /** x raised to a whole-number power, the `**` operator with an integer exponent. */
  function Pow(x: real, n: nat): real
  {
    if n == 0 then 1.0 else x * Pow(x, n - 1)
  }

  lemma {:induction false} PowNonNegative(x: real, n: nat)
    requires x >= 0.0
    ensures Pow(x, n) >= 0.0
  {
    if n > 0 {
      PowNonNegative(x, n - 1);
    }
  }

  lemma {:induction false} PowPositive(x: real, n: nat)
    requires x > 0.0
    ensures Pow(x, n) > 0.0
  {
    if n > 0 {
      PowPositive(x, n - 1);
    }
  }

  lemma {:induction false} PowNonZero(x: real, n: nat)
    requires x != 0.0
    ensures Pow(x, n) != 0.0
  {
    if n > 0 {
      PowNonZero(x, n - 1);
    }
  }

  /** Raising to a whole power is monotone on the non-negative reals. */
  lemma {:induction false} PowMonotone(x: real, y: real, n: nat)
    requires 0.0 <= x <= y
    ensures Pow(x, n) <= Pow(y, n)
  {
    if n > 0 {
      PowMonotone(x, y, n - 1);
      PowNonNegative(x, n - 1);
      PowNonNegative(y, n - 1);
      assert x * Pow(x, n - 1) <= y * Pow(x, n - 1);
      assert y * Pow(x, n - 1) <= y * Pow(y, n - 1);
    }
  }

  /** Raising to a whole power is strictly monotone on the positive reals. */
  lemma {:induction false} PowStrictlyMonotone(x: real, y: real, n: nat)
    requires 0.0 < x < y && n > 0
    ensures Pow(x, n) < Pow(y, n)
  {
    PowPositive(x, n - 1);
    if n > 1 {
      PowStrictlyMonotone(x, y, n - 1);
    } else {
      assert Pow(x, n - 1) == Pow(y, n - 1) == 1.0;
    }
    ScaleStrict(x, y, Pow(x, n - 1));
    ScaleMonotone(Pow(x, n - 1), Pow(y, n - 1), y);
  }

  lemma ScaleStrict(a: real, b: real, c: real)
    requires a < b && c > 0.0
    ensures a * c < b * c
  {
  }

  lemma ScaleMonotone(a: real, b: real, c: real)
    requires a <= b && c >= 0.0
    ensures c * a <= c * b
  {
  }

  /** A factor above one grows strictly under a positive power. */
  lemma {:induction false} PowAboveOne(x: real, n: nat)
    requires x > 1.0 && n > 0
    ensures Pow(x, n) > 1.0
  {
    PowStrictlyMonotone(1.0, x, n);
    PowOfOne(n);
  }

  lemma {:induction false} PowOfOne(n: nat)
    ensures Pow(1.0, n) == 1.0
  {
    if n > 0 {
      PowOfOne(n - 1);
    }
  }

  /** `x ** n` for a whole exponent that may be negative: a negative exponent divides one by the
      power. Python raises ZeroDivisionError for a zero base with a negative exponent; callers
      rule that case out or report it. */
  function IntPow(x: real, n: int): real
    requires x != 0.0 || n >= 0
  {
    if n >= 0 then Pow(x, n)
    else
      PowNonZero(x, -n);
      1.0 / Pow(x, -n)
  }

  lemma IntPowPositive(x: real, n: int)
    requires x > 0.0
    ensures IntPow(x, n) > 0.0
  {
    if n >= 0 {
      PowPositive(x, n);
    } else {
      PowPositive(x, -n);
    }
  }

  /** For positive values, the smaller has the larger reciprocal. */
  lemma ReciprocalOrder(a: real, b: real)
    requires a > 0.0 && b > 0.0
    ensures a < b <==> 1.0 / b < 1.0 / a
  {
    assert a * (1.0 / a) == 1.0 && b * (1.0 / b) == 1.0;
    if a < b {
      assert 1.0 / b * a < 1.0 / b * b;
    } else {
      assert 1.0 / a * b <= 1.0 / a * a;
    }
  }

  /** `principal * (1 + rate) ** years`: compound growth over a whole number of years, which may
      be negative (discounting), except at a rate of -100% where that would divide by zero. */
  function Compound(principal: real, rate: real, years: int): real
    requires 1.0 + rate != 0.0 || years >= 0
  {
    principal * IntPow(1.0 + rate, years)
  }

  /** A non-negative principal grows no less at a higher rate, as long as the lower one exceeds -100%. */
  lemma CompoundMonotone(principal: real, low: real, high: real, years: nat)
    requires principal >= 0.0 && -1.0 < low <= high
    ensures 0.0 <= Compound(principal, low, years) <= Compound(principal, high, years)
  {
    PowPositive(1.0 + low, years);
    PowMonotone(1.0 + low, 1.0 + high, years);
    ScaleMonotone(Pow(1.0 + low, years), Pow(1.0 + high, years), principal);
    ScaleMonotone(0.0, Pow(1.0 + low, years), principal);
  }

  /** A positive principal at a rate above -100% stays positive, forwards or backwards in time. */
  lemma CompoundPositive(principal: real, rate: real, years: int)
    requires principal > 0.0 && rate > -1.0
    ensures Compound(principal, rate, years) > 0.0
  {
    IntPowPositive(1.0 + rate, years);
    ScaleStrict(0.0, principal, IntPow(1.0 + rate, years));
  }

  /** `k` tenths. */
  function Tenths(k: int): real
  {
    k as real / 10.0
  }

  /** `round(x, 1)` on exact reals: the nearest whole number of tenths, and on a tie the even one. */
  function RoundTenth(x: real): (r: real)
    ensures -0.05 <= r - x <= 0.05
    ensures (r * 10.0).Floor as real == r * 10.0
    ensures forall k: int :: Abs(r - x) <= Abs(Tenths(k) - x)
    ensures Abs(r - x) == 0.05 ==> (r * 10.0).Floor % 2 == 0
  {
    var scaled := x * 10.0;
    var n := scaled.Floor;
    var frac := scaled - n as real;
    var k := if frac > 0.5 then n + 1
             else if frac < 0.5 then n
             else if n % 2 == 0 then n else n + 1;
    assert Tenths(k) * 10.0 == k as real;
    forall j: int ensures Abs(Tenths(k) - x) <= Abs(Tenths(j) - x) {
      NearestTenth(x, k, j);
    }
    Tenths(k)
  }

  /** Of the two whole numbers of tenths around `x`, one within half a tenth is nearest of all. */
  lemma NearestTenth(x: real, k: int, j: int)
    requires (x * 10.0).Floor <= k <= (x * 10.0).Floor + 1
    requires Abs(k as real - x * 10.0) <= 0.5
    ensures Abs(Tenths(k) - x) <= Abs(Tenths(j) - x)
  {
    var s := x * 10.0;
    NearestWhole(s, k, j);
    assert Tenths(k) - x == (k as real - s) / 10.0;
    assert Tenths(j) - x == (j as real - s) / 10.0;
  }

  /** Of the two whole numbers around `s`, one within a half is nearest of all. */
  lemma NearestWhole(s: real, k: int, j: int)
    requires s.Floor <= k <= s.Floor + 1
    requires Abs(k as real - s) <= 0.5
    ensures Abs(k as real - s) <= Abs(j as real - s)
  {
    var n := s.Floor;
    assert n as real <= s < n as real + 1.0;
    if j <= n {
      assert j as real <= n as real;
    } else {
      assert j as real >= n as real + 1.0;
    }
  }
}
