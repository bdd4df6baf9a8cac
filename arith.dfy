/** Facts about real multiplication and division that the solver does not find unaided. */
module RealArith {
  lemma PositiveProduct(a: real, b: real)
    requires a > 0.0 && b > 0.0
    ensures a * b > 0.0
  {
  }

  lemma NonNegativeProduct(a: real, b: real)
    requires a >= 0.0 && b >= 0.0
    ensures a * b >= 0.0
  {
  }

  lemma DivCancel(a: real, b: real)
    requires b != 0.0
    ensures b * a / b == a && a * b / b == a
  {
  }

  /** Scaling a part n of a whole d onto [0, screen] stays within [0, screen]. */
  lemma ScaleWithin(n: real, d: real, screen: real)
    requires 0.0 <= n <= d && d > 0.0 && screen >= 0.0
    ensures 0.0 <= n * screen / d <= screen
  {
    var t := n / d;
    assert 0.0 <= t <= 1.0;
    assert n * screen / d == t * screen;
    NonNegativeProduct(t, screen);
    NonNegativeProduct(1.0 - t, screen);
  }
}
