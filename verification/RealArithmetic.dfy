/** The few facts about products of reals that the numeric proofs need. */
module RealArithmetic {

  lemma ProductNonNegative(a: real, b: real)
    requires a >= 0.0 && b >= 0.0
    ensures a * b >= 0.0
  {
  }

  lemma ProductMonotone(a: real, x: real, y: real)
    requires a >= 0.0 && x <= y
    ensures a * x <= a * y
  {
    ProductNonNegative(a, y - x);
    assert a * (y - x) == a * y - a * x;
  }

  lemma QuotientMonotone(a: real, b: real, d: real)
    requires a <= b && d > 0.0
    ensures a / d <= b / d
  {
    assert b / d - a / d == (b - a) / d;
  }

  lemma Split(v: real, w: real, x: real)
    requires v + w == 1.0
    ensures v * x + w * x == x
  {
    assert w == 1.0 - v;
    assert (1.0 - v) * x == x - v * x;
  }

  lemma SumMonotone(v: real, w: real, x: real, y: real, x': real, y': real)
    requires v >= 0.0 && w >= 0.0 && x <= x' && y <= y'
    ensures v * x + w * y <= v * x' + w * y'
  {
    ProductMonotone(v, x, x');
    ProductMonotone(w, y, y');
  }

  /** A convex combination stays between common bounds. */
  lemma ConvexPair(v: real, w: real, x: real, y: real, low: real, high: real)
    requires v >= 0.0 && w >= 0.0 && v + w == 1.0
    requires low <= x <= high && low <= y <= high
    ensures low <= v * x + w * y <= high
  {
    assert low <= v * x + w * y by {
      SumMonotone(v, w, low, low, x, y);
      Split(v, w, low);
    }
    assert v * x + w * y <= high by {
      SumMonotone(v, w, x, y, high, high);
      Split(v, w, high);
    }
  }
}
