/**
 * The integer arithmetic of the engine: Java's `Math.min`, `Math.max` and `int`
 * division, which truncates toward zero.
 */
module IntArith {

  function Abs(n: int): nat {
    if n < 0 then -n else n
  }

  function Min(a: int, b: int): (m: int)
    ensures m <= a && m <= b && (m == a || m == b)
  {
    if a <= b then a else b
  }

  function Max(a: int, b: int): (m: int)
    ensures m >= a && m >= b && (m == a || m == b)
  {
    if a >= b then a else b
  }

  /**
   * Java's `int` division: the quotient is truncated toward zero, so its size is the
   * floor of the sizes' quotient and it is negative only when the operands' signs differ.
   */
  function TruncDiv(a: int, b: int): (q: int)
    requires b != 0
    ensures Abs(q) == Abs(a) / Abs(b)
    ensures q == 0 || ((q > 0) <==> ((a > 0) == (b > 0)))
    ensures a >= 0 && b > 0 ==> q == a / b
  {
    var n, d := Abs(a), Abs(b);
    var m := n / d;
    assert m > 0 ==> n > 0 by {
      if n == 0 {
        assert m == 0;
      }
    }
    if (a < 0) == (b < 0) then m else -m
  }

  /** The truncated quotient is the largest multiple of the divisor, in size, that does not exceed the dividend. */
  lemma TruncDivBounds(a: int, b: int)
    requires b != 0
    ensures Abs(TruncDiv(a, b)) * Abs(b) <= Abs(a) < (Abs(TruncDiv(a, b)) + 1) * Abs(b)
  {
    var n, d := Abs(a), Abs(b);
    var q, r := n / d, n % d;
    assert n == q * d + r && 0 <= r < d;
    assert (q + 1) * d == q * d + d;
  }
}
