/** Facts about products and quotients of reals that the statistics need. */
module Reals {

  /** The product of non-negative factors; positive if both are. */
  function Product(x: real, y: real): (r: real)
    requires x >= 0.0 && y >= 0.0
    ensures r >= 0.0
    ensures x > 0.0 && y > 0.0 ==> r > 0.0
  {
    x * y
  }

  lemma RealProduct(a: nat, b: nat)
    ensures (a * b) as real == a as real * b as real
  {
  }

  lemma MulDiv(a: real, n: real)
    requires n != 0.0
    ensures a / n * n == a
  {
  }

  lemma CancelEq(x: real, y: real, k: real)
    requires k != 0.0 && x * k == y * k
    ensures x == y
  {
    assert (x - y) * k == 0.0;
  }

  lemma CancelOrder(x: real, y: real, k: real)
    requires k > 0.0
    ensures x * k <= y * k <==> x <= y
    ensures x * k < y * k <==> x < y
  {
  }

  lemma MulPositive(x: real, y: real)
    requires x > 0.0 && y > 0.0
    ensures x * y > 0.0
  {
  }

  lemma MulNonNegative(x: real, y: real)
    requires x >= 0.0 && y >= 0.0
    ensures x * y >= 0.0
  {
  }

  lemma BiggerSquare(x: real, y: real)
    requires x > y >= 0.0
    ensures x * x > y * y
  {
    MulPositive(x - y, x + y);
    assert (x - y) * (x + y) == x * x - y * y;
  }

  lemma SquareOrder(x: real, y: real)
    requires y >= 0.0 && x * x <= y * y
    ensures x <= y
  {
    if x > y {
      BiggerSquare(x, y);
    }
  }

  /** Squares that differ by `gap`. */
  lemma SquareGap(x: real, y: real, gap: real)
    requires y >= 0.0 && gap >= 0.0 && y * y == x * x + gap
    ensures x <= y
    ensures gap > 0.0 ==> x < y
  {
    SquareOrder(x, y);
  }
}
