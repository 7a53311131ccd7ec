/** Sign and cancellation facts about products and quotients of reals, used by
    the material-balance proofs. */
module RealArith {

  /** The square of x, nonnegative and zero only at zero.  It is written over
      Product so that its sign facts are proved about a product of two
      parameters. */
  function Square(x: real): (r: real)
    ensures r >= 0.0
    ensures x != 0.0 ==> r > 0.0
  {
    Product(x, x)
  }

  /** The product of a and b, positive when both factors have the same strict sign
      and zero when either factor is. */
  function Product(a: real, b: real): (r: real)
    ensures (a > 0.0 && b > 0.0) || (a < 0.0 && b < 0.0) ==> r > 0.0
    ensures a == 0.0 || b == 0.0 ==> r == 0.0
  {
    a * b
  }

  lemma MulPositive(a: real, b: real)
    requires a > 0.0 && b > 0.0
    ensures a * b > 0.0
  {
  }

  lemma MulNonnegative(a: real, b: real)
    requires a >= 0.0 && b >= 0.0
    ensures a * b >= 0.0
  {
  }

  lemma CancelFactor(x: real, y: real, d: real)
    requires d != 0.0 && x * d == y * d
    ensures x == y
  {
  }

  /** The quotient q = x/a times its nonzero divisor gives back x, and the
      quotient of zero is zero. */
  lemma Quotient(x: real, a: real, q: real)
    requires a != 0.0 && q == x / a
    ensures q * a == x
    ensures x == 0.0 ==> q == 0.0
  {
  }

  /** A quotient q = num/den, given as q·den = num, of a nonnegative numerator by a
      positive denominator is nonnegative. */
  lemma QuotientSign(q: real, num: real, den: real)
    requires q * den == num && num >= 0.0 && den > 0.0
    ensures q >= 0.0
  {
  }
}
