/**
 * Exact-real arithmetic shared by every stage of the plan: money is modelled
 * as `real`, so the double rounding of the original is not reproduced.
 */
module Numeric {

  /** A non-negative amount: every numeric input is coerced to a number >= 0
      before the plan is computed. */
  type Money = x: real | 0.0 <= x

  /** Math.max on two numbers. */
  function Max(a: real, b: real): (m: real)
    ensures a <= m && b <= m
    ensures m == a || m == b
  {
    if a >= b then a else b
  }

  /** Math.min on two numbers. */
  function Min(a: real, b: real): (m: real)
    ensures m <= a && m <= b
    ensures m == a || m == b
  {
    if a <= b then a else b
  }

  /** Math.ceil: the least integer that is not below x. */
  function Ceil(x: real): (c: int)
    ensures x <= c as real < x + 1.0
  {
    -((-x).Floor)
  }

  /** Ceil is determined by its defining inequalities. */
  lemma CeilUnique(x: real, c: int)
    requires x <= c as real < x + 1.0
    ensures Ceil(x) == c
  {
  }

  /** Taking one whole unit off the argument takes one off its ceiling. */
  lemma CeilMinusOne(x: real)
    ensures Ceil(x - 1.0) == Ceil(x) - 1
  {
    CeilUnique(x - 1.0, Ceil(x) - 1);
  }

  /** Number of whole months of `payment` needed to cover `amount`: Ceil(amount / payment)
      is the least count whose payments reach the amount. */
  lemma CeilCoversAmount(amount: real, payment: real)
    requires amount >= 0.0 && payment > 0.0
    ensures Ceil(amount / payment) >= 0
    ensures Ceil(amount / payment) as real * payment >= amount
    ensures (Ceil(amount / payment) - 1) as real * payment < amount
  {
    var c := Ceil(amount / payment);
    var q := amount / payment;
    assert q * payment == amount;
    assert c as real >= q;
    assert c as real * payment >= q * payment;
    var below := (c - 1) as real;
    assert below < q;
    assert below * payment < q * payment;
    assert below * payment < amount;
  }

  lemma MulNonNegative(a: real, b: real)
    requires a >= 0.0 && b >= 0.0
    ensures a * b >= 0.0
  {
  }

  /** Dividing a difference by its (positive) subtrahend. */
  lemma DivMinusOne(a: real, b: real)
    requires b > 0.0
    ensures (a - b) / b == a / b - 1.0
  {
    var q := (a - b) / b;
    var r := a / b - 1.0;
    assert q * b == a - b;
    assert r * b == a - b;
    assert (q - r) * b == q * b - r * b;
    if q > r {
      MulPositive(q - r, b);
    } else if q < r {
      MulPositive(r - q, b);
    }
  }

  /** Multiplying by a non-negative factor keeps an order. */
  lemma MulMonotone(a: real, b: real, k: real)
    requires a <= b && k >= 0.0
    ensures a * k <= b * k
  {
    MulNonNegative(b - a, k);
    assert (b - a) * k == b * k - a * k;
  }

  lemma MulPositive(a: real, b: real)
    requires a > 0.0 && b > 0.0
    ensures a * b > 0.0
  {
  }

  /** A positive amount no larger than the divisor is a fraction in (0, 1]. */
  lemma DivAtMostOne(a: real, b: real)
    requires 0.0 < a <= b
    ensures 0.0 < a / b <= 1.0
  {
    assert a / b * b == a;
  }

  /** Math.pow with a natural exponent. */
  function Pow(b: real, n: nat): real
  {
    if n == 0 then 1.0 else b * Pow(b, n - 1)
  }

  /** A base of at least 1 never shrinks under a power. */
  lemma {:induction false} PowAtLeastOne(b: real, n: nat)
    requires b >= 1.0
    ensures Pow(b, n) >= 1.0
  {
    if n > 0 {
      PowAtLeastOne(b, n - 1);
      var p := Pow(b, n - 1);
      assert b * p >= 1.0 * p by {
        assert (b - 1.0) * p >= 0.0;
      }
    }
  }

  /** Powers of a base of at least 1 grow with the exponent. */
  lemma {:induction false} PowMonotone(b: real, m: nat, n: nat)
    requires b >= 1.0 && m <= n
    ensures Pow(b, m) <= Pow(b, n)
  {
    if m < n {
      PowMonotone(b, m, n - 1);
      PowAtLeastOne(b, n - 1);
      var p := Pow(b, n - 1);
      assert b * p >= p by {
        assert (b - 1.0) * p >= 0.0;
      }
    }
  }

  /** The yearly growth factor (7% assumed return) used by every projection. */
  const AnnualReturn: real := 0.07
  const GrowthFactor: real := 1.0 + AnnualReturn
}
