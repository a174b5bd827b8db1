/** Kotlin `Long` division and remainder, which truncate toward zero. */
module LongMath {

  /** `a / b` on Kotlin `Long` for a positive divisor. */
  function KDiv(a: int, b: int): (q: int)
    requires b > 0
    ensures a >= 0 ==> q == a / b
  {
    if a >= 0 then a / b else -((-a) / b)
  }

  /** `a % b` on Kotlin `Long` for a positive divisor: takes the sign of `a`. */
  function KRem(a: int, b: int): (r: int)
    requires b > 0
    ensures a >= 0 ==> r == a % b
  {
    a - b * KDiv(a, b)
  }

  /** `x.coerceAtLeast(0L)` */
  function ClampNonNegative(x: int): (r: int)
    ensures r >= 0 && r >= x
    ensures x >= 0 ==> r == x
  {
    if x < 0 then 0 else x
  }

  /** For a negative numerator both the quotient and the remainder are at most zero. */
  lemma NegativeQuotientAndRemainder(a: int, b: int)
    requires b > 0 && a < 0
    ensures KDiv(a, b) <= 0 && -b < KRem(a, b) <= 0
  {
    var q := (-a) / b;
    assert 0 <= -a - b * q < b;
  }
}
