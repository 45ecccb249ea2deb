/** Sign facts about products and squares of reals.

    A square is written `Sq(x)`, defined through the two-argument `Prod`, so
    that a fact such as `Sq(x) > 0.0` stays a bound on one term that later
    steps can add to others; the sign lemmas are proved once on two distinct
    factors and then used with equal ones. */
module Squares {

  function Prod(x: real, y: real): real {
    x * y
  }

  /** x ** 2 */
  function Sq(x: real): real {
    Prod(x, x)
  }

  lemma MulPositive(x: real, y: real)
    requires x > 0.0 && y > 0.0
    ensures x * y > 0.0 && Prod(x, y) > 0.0
  {
  }

  lemma ProdOfNegatives(x: real, y: real)
    requires x < 0.0 && y < 0.0
    ensures Prod(x, y) > 0.0
  {
    MulPositive(-x, -y);
    assert (-x) * (-y) == x * y;
  }

  /** Non-negative factors give a non-negative product; the solver does
      not find this nonlinear step inside the larger sum-of-squares goals. */
  lemma MulNonNeg(x: real, y: real)
    requires x >= 0.0 && y >= 0.0
    ensures x * y >= 0.0
  {
  }

  lemma SqOfPositive(x: real)
    requires x > 0.0
    ensures Sq(x) > 0.0
  {
    MulPositive(x, x);
  }

  lemma SqOfNegative(x: real)
    requires x < 0.0
    ensures Sq(x) > 0.0
  {
    ProdOfNegatives(x, x);
  }

  lemma SqPositive(x: real)
    requires x != 0.0
    ensures Sq(x) > 0.0
  {
    if x > 0.0 {
      SqOfPositive(x);
    } else {
      SqOfNegative(x);
    }
  }

  lemma SqNonNeg(x: real)
    ensures Sq(x) >= 0.0
  {
    if x != 0.0 {
      SqPositive(x);
    }
  }

  lemma SqZero(x: real)
    ensures Sq(x) == 0.0 <==> x == 0.0
  {
    if x != 0.0 {
      SqPositive(x);
    }
  }

  /** Squaring is strictly increasing on the non-negative reals. */
  lemma SqLess(x: real, y: real)
    requires 0.0 <= x < y
    ensures Sq(x) < Sq(y)
  {
    MulNonNeg(x, y - x);
    assert x * (y - x) == x * y - x * x;
    MulPositive(y, y - x);
    assert y * (y - x) == y * y - x * y;
  }

  lemma Cancel(x: real, y: real, d: real)
    requires d != 0.0 && x * d == y * d
    ensures x == y
  {
    assert (x - y) * d == 0.0;
  }

  lemma DivPositive(y: real, d: real)
    requires y > 0.0 && d > 0.0
    ensures y / d > 0.0
  {
  }

  lemma DivNegative(y: real, d: real)
    requires y < 0.0 && d > 0.0
    ensures y / d < 0.0
  {
  }
}
