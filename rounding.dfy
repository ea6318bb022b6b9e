/**
 * Python's `round(x, 1)`, which rounds half to even. Scores and percentages
 * are exact reals here; the rounding rule is applied to the exact value.
 */
module Rounding {

  /** The nearest integer to `y`, ties to the even one. */
  function RoundHalfEven(y: real): (n: int)
    ensures y - 0.5 <= n as real <= y + 0.5
  {
    var f := y.Floor;
    var frac := y - f as real;
    if frac > 0.5 then f + 1
    else if frac < 0.5 then f
    else if f % 2 == 0 then f
    else f + 1
  }

  /** `round(x, 1)` */
  function Round1(x: real): (r: real)
    ensures x - 0.05 <= r <= x + 0.05
  {
    RoundHalfEven(x * 10.0) as real / 10.0
  }

  lemma RoundHalfEvenMonotone(y: real, y': real)
    requires y <= y'
    ensures RoundHalfEven(y) <= RoundHalfEven(y')
  {
    var f, f' := y.Floor, y'.Floor;
    if f == f' {
      assert y - f as real <= y' - f' as real;
    } else {
      assert f < f';
    }
  }

  /** Rounding never reverses an order. */
  lemma Round1Monotone(x: real, x': real)
    requires x <= x'
    ensures Round1(x) <= Round1(x')
  {
    RoundHalfEvenMonotone(x * 10.0, x' * 10.0);
  }

  /** A value with one decimal place is left as it is. */
  lemma Round1Tenths(n: int)
    ensures Round1(n as real / 10.0) == n as real / 10.0
  {
    assert (n as real / 10.0) * 10.0 == n as real;
    assert (n as real).Floor == n;
  }

  /** Rounding keeps a value inside any interval whose ends have one decimal place. */
  lemma {:induction false} Round1Within(x: real, lo: int, hi: int)
    requires lo as real / 10.0 <= x <= hi as real / 10.0
    ensures lo as real / 10.0 <= Round1(x) <= hi as real / 10.0
  {
    Round1Monotone(lo as real / 10.0, x);
    Round1Monotone(x, hi as real / 10.0);
    Round1Tenths(lo);
    Round1Tenths(hi);
  }
}
