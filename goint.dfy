/**
 * Go's integer arithmetic where it differs from Dafny's.
 *
 * Go's `/` on `int` truncates toward zero, while Dafny's `/` is Euclidean
 * (the remainder is never negative). The two agree when both operands are
 * non-negative and differ as soon as the dividend is negative. Go's `int`
 * is 64 bits wide; the model works on unbounded integers.
 */
module GoInt {

  function Abs(x: int): nat {
    if x < 0 then -x else x
  }

  function Min(a: int, b: int): int {
    if a <= b then a else b
  }

  function Max(a: int, b: int): int {
    if a <= b then b else a
  }

  /** The quotient of `a / b` as Go computes it: truncated toward zero. */
  function GoDiv(a: int, b: int): (q: int)
    requires b != 0
    // the remainder is smaller than the divisor and has the sign of the dividend
    ensures Abs(a - q * b) < Abs(b)
    ensures a >= 0 ==> a - q * b >= 0
    ensures a <= 0 ==> a - q * b <= 0
    // on non-negative operands Go and Dafny agree
    ensures a >= 0 && b > 0 ==> q == a / b
  {
    var m := Abs(a) / Abs(b);
    var q := if (a >= 0) == (b > 0) then m else -m;
    TruncatedRemainder(a, b, m, q);
    q
  }

  /**
   * Taking the quotient of the magnitudes and giving it the sign of the
   * operands' product leaves a remainder with the dividend's sign.
   */
  lemma TruncatedRemainder(a: int, b: int, m: int, q: int)
    requires b != 0 && m == Abs(a) / Abs(b)
    requires q == if (a >= 0) == (b > 0) then m else -m
    ensures Abs(a - q * b) < Abs(b)
    ensures a >= 0 ==> a - q * b >= 0
    ensures a <= 0 ==> a - q * b <= 0
    ensures a >= 0 && b > 0 ==> q == a / b
  {
    RemainderOfMagnitudes(Abs(a), Abs(b));
    NegatedFactor(m, Abs(b));
    if a >= 0 {
      assert a - q * b == Abs(a) - m * Abs(b);
    } else {
      assert a - q * b == -(Abs(a) - m * Abs(b));
    }
  }

  /** Euclidean division of naturals leaves a remainder below the divisor. */
  lemma RemainderOfMagnitudes(x: nat, y: nat)
    requires y > 0
    ensures 0 <= x - (x / y) * y < y
  {
  }

  /** Negating one factor negates the product. */
  lemma NegatedFactor(x: int, y: int)
    ensures x * -y == -(x * y) && -x * y == -(x * y) && -x * -y == x * y
  {
  }

  /** Truncation is symmetric: negating the dividend negates the quotient. */
  lemma GoDivNegate(a: int, b: int)
    requires b != 0
    ensures GoDiv(-a, b) == -GoDiv(a, b)
  {
  }

  /** Where Go's and Dafny's quotients part: -7 / 2 is -3 in Go and -4 in Dafny. */
  lemma GoDivTruncates()
    ensures GoDiv(-7, 2) == -3 && -7 / 2 == -4
  {
  }
}
