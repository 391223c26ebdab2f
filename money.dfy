/**
 * Decimal arithmetic of the engine. Amounts are exact decimals (BigDecimal in the
 * source), modelled as `real`, and rounded to cents with HALF_UP.
 */
module Money {

  /** `x` has at most two fractional digits. */
  predicate IsCents(x: real) {
    (x * 100.0).Floor as real == x * 100.0
  }

  /**
   * HALF_UP rounding of `y` to a whole number: to the nearest integer, a tie going
   * away from zero.
   */
  function HalfUpInt(y: real): (n: int)
    ensures y >= 0.0 ==> y - 0.5 < n as real <= y + 0.5
    ensures y < 0.0 ==> y - 0.5 <= n as real < y + 0.5
  {
    if y >= 0.0 then (y + 0.5).Floor else -((-y + 0.5).Floor)
  }

  lemma CentsOf(n: int)
    ensures IsCents(n as real / 100.0)
  {
    assert (n as real / 100.0) * 100.0 == n as real;
  }

  /**
   * `BigDecimal.divide(.., 2, RoundingMode.HALF_UP)`: rounding to two fractional digits,
   * to the nearest cent, a tie going away from zero.
   */
  function Round2(x: real): (r: real)
    ensures IsCents(r)
    ensures x >= 0.0 ==> x - 0.005 < r <= x + 0.005
    ensures x < 0.0 ==> x - 0.005 <= r < x + 0.005
  {
    var n := HalfUpInt(x * 100.0);
    CentsOf(n);
    n as real / 100.0
  }

  /** The two windows of Round2's contract leave room for exactly one cent value. */
  lemma Round2Unique(x: real, y: real)
    requires IsCents(y)
    requires x >= 0.0 ==> x - 0.005 < y <= x + 0.005
    requires x < 0.0 ==> x - 0.005 <= y < x + 0.005
    ensures y == Round2(x)
  {
    var r := Round2(x);
    var a := (y * 100.0).Floor;
    var b := (r * 100.0).Floor;
    assert a as real == y * 100.0 && b as real == r * 100.0;
    assert -1.0 < (a - b) as real < 1.0;
    assert a == b;
  }

  /** An amount already in cents is left alone. */
  lemma Round2OfCents(x: real)
    requires IsCents(x)
    ensures Round2(x) == x
  {
    Round2Unique(x, x);
  }

  /** HALF_UP is symmetric: a tie rounds away from zero on either side. */
  lemma Round2Symmetric(x: real)
    ensures Round2(-x) == -Round2(x)
  {
    if x < 0.0 {
      assert -x > 0.0;
    }
  }
}
