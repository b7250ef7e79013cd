/**
 * Rounding of an exact price to two decimal places.  The rounding rule is
 * round-half-to-even on hundredths, the rule Python's `round(x, 2)` applies to
 * the exact value it is given.
 */
module Rounding {

  /** The integer nearest to `y`; an exact tie goes to the even neighbour. */
  function RoundHalfEven(y: real): (n: int)
    ensures -0.5 <= n as real - y <= 0.5
    ensures (n as real - y == 0.5 || y - n as real == 0.5) ==> n % 2 == 0
  {
    var f := y.Floor;
    var frac := y - f as real;
    if frac < 0.5 then f
    else if frac > 0.5 then f + 1
    else if f % 2 == 0 then f
    else f + 1
  }

  /** The two properties in RoundHalfEven's contract pin the result down: any
      integer that has them is RoundHalfEven(y). */
  lemma RoundHalfEvenUnique(y: real, n: int)
    requires -0.5 <= n as real - y <= 0.5
    requires (n as real - y == 0.5 || y - n as real == 0.5) ==> n % 2 == 0
    ensures n == RoundHalfEven(y)
  {
  }

  /** Rounding to the nearest integer never reverses the order of two reals. */
  lemma RoundHalfEvenMonotone(x: real, y: real)
    requires x <= y
    ensures RoundHalfEven(x) <= RoundHalfEven(y)
  {
    var fx, fy := x.Floor, y.Floor;
    assert fx <= fy;
    if fx == fy {
      assert x - fx as real <= y - fy as real;
    }
  }

  /** `x` is a whole number of hundredths. */
  predicate IsCents(x: real) {
    (x * 100.0).Floor as real == x * 100.0
  }

  /** `x` rounded to two decimal places. */
  function RoundCents(x: real): (r: real)
    ensures IsCents(r)
    ensures -0.005 <= r - x <= 0.005
  {
    RoundHalfEven(x * 100.0) as real / 100.0
  }

  /** Rounding to hundredths preserves order. */
  lemma RoundCentsMonotone(x: real, y: real)
    requires x <= y
    ensures RoundCents(x) <= RoundCents(y)
  {
    RoundHalfEvenMonotone(x * 100.0, y * 100.0);
  }

  /** An amount already in whole hundredths is left as it is. */
  lemma RoundCentsOfCents(x: real)
    requires IsCents(x)
    ensures RoundCents(x) == x
  {
    var n := (x * 100.0).Floor;
    RoundHalfEvenUnique(x * 100.0, n);
  }

  /** Rounding twice is rounding once. */
  lemma RoundCentsIdempotent(x: real)
    ensures RoundCents(RoundCents(x)) == RoundCents(x)
  {
    RoundCentsOfCents(RoundCents(x));
  }

  /** Rounding a non-negative amount gives a non-negative amount. */
  lemma RoundCentsNonNegative(x: real)
    requires x >= 0.0
    ensures RoundCents(x) >= 0.0
  {
    RoundCentsMonotone(0.0, x);
    RoundCentsOfCents(0.0);
  }

  /** Exact ties on the third decimal go to the even hundredth, in both directions. */
  lemma RoundCentsTiesToEven()
    ensures RoundCents(0.125) == 0.12
    ensures RoundCents(0.135) == 0.14
    ensures RoundCents(-0.125) == -0.12
  {
    RoundHalfEvenUnique(12.5, 12);
    RoundHalfEvenUnique(13.5, 14);
    RoundHalfEvenUnique(-12.5, -12);
  }
}
