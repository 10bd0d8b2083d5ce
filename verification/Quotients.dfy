/** Facts about integer division by a positive number. */
module Quotients {

  lemma Bounds(a: int, d: int)
    requires 0 < d
    ensures d * (a / d) <= a < d * (a / d) + d
  {
  }

  lemma Product(d: int, x: int, y: int)
    requires 0 <= d && x <= y
    ensures d * x <= d * y
  {
  }

  lemma Unique(a: int, d: int, q: int)
    requires 0 < d && d * q <= a < d * q + d
    ensures a / d == q
  {
    Bounds(a, d);
    if a / d < q {
      Product(d, a / d + 1, q);
      assert false;
    } else if q < a / d {
      Product(d, q + 1, a / d);
      assert false;
    }
  }

  lemma QuotientGrows(a: int, b: int, d: int)
    requires a <= b && 0 < d
    ensures a / d <= b / d
  {
    Bounds(a, d);
    Bounds(b, d);
    if b / d < a / d {
      Product(d, b / d + 1, a / d);
      assert false;
    }
  }
}
