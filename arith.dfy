/** Facts about real multiplication and division that the solver does not find alone. */
module Arith {

  /** Floor division by a positive divisor brackets the dividend. */
  lemma FloorDivBounds(x: real, u: real)
    requires u > 0.0
    ensures var q := (x / u).Floor;
      u * q as real <= x < u * (q + 1) as real && (x >= 0.0 ==> q >= 0)
  {
    var q := (x / u).Floor;
    DivAtLeast(x, u, q as real);
    DivBelow(x, u, (q + 1) as real);
    if x >= 0.0 {
      DivAtLeast(x, u, 0.0);
    }
  }

  lemma DivAtLeast(x: real, u: real, z: real)
    requires u > 0.0
    ensures z <= x / u <==> u * z <= x
  {
    var y := x / u;
    assert u * y == x;
    if z <= y {
      MulBelow(u, z, y);
    } else {
      MulAbove(u, y, z);
    }
  }

  lemma DivBelow(x: real, u: real, z: real)
    requires u > 0.0
    ensures x / u < z <==> x < u * z
  {
    DivAtLeast(x, u, z);
    var y := x / u;
    assert u * y == x;
    if y == z {
      assert x == u * z;
    }
  }

  lemma MulBelow(k: real, x: real, y: real)
    requires k > 0.0 && x <= y
    ensures k * x <= k * y
  {
  }

  lemma MulAbove(k: real, x: real, y: real)
    requires k > 0.0 && x < y
    ensures k * x < k * y
  {
  }

  lemma MulNonNegative(x: real, y: real)
    requires x >= 0.0 && y >= 0.0
    ensures x * y >= 0.0
  {
  }

  lemma MulNegative(x: real, y: real, n: real)
    requires x < 0.0 && y > 0.0 && n > 0.0
    ensures x * y * n < 0.0
  {
  }

  lemma DivAtMost(x: real, u: real, z: real)
    requires u > 0.0
    ensures x / u <= z <==> x <= u * z
  {
    DivBelow(x, u, z);
    var y := x / u;
    assert u * y == x;
  }

  lemma DivTimes(x: real, p: real)
    requires p != 0.0
    ensures (x / p) * p == x
  {
  }

  /**
   * Moving n units at u each between cash and position, marked at p: a
   * purchase shifts cash + position * p by -(u - p) * n, a sale by +(u - p) * n.
   */
  lemma ValueShift(cash: real, pos: real, n: real, u: real, p: real)
    ensures (cash - u * n) + (pos + n) * p == cash + pos * p - (u - p) * n
    ensures (cash + u * n) + (pos - n) * p == cash + pos * p + (u - p) * n
  {
  }

  /** Buying n at p * (1 + k) and selling n at p * (1 - k) costs 2 * k * p * n. */
  lemma CommissionDrag(cash: real, p: real, k: real, n: real)
    ensures (cash - p * (1.0 + k) * n) + p * (1.0 - k) * n == cash - 2.0 * k * p * n
  {
  }
}
