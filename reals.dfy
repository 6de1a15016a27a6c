/** Facts about products and quotients of reals that the estimators'
    formulas need, each stated over plain variables so that the solver
    does not meet them inside a large formula. */
module Reals {
  function Square(x: real): (r: real)
    ensures 0.0 <= r
    ensures r == 0.0 <==> x == 0.0
  {
    SquareFacts(x);
    x * x
  }

  lemma SquareFacts(x: real)
    ensures 0.0 <= x * x
    ensures x * x == 0.0 <==> x == 0.0
  {
    ProductZero(x, x);
    if x < 0.0 {
      ProductNonNegative(-x, -x);
      assert (-x) * (-x) == x * x;
    } else {
      ProductNonNegative(x, x);
    }
  }

  lemma ProductNonNegative(a: real, b: real)
    requires (0.0 <= a && 0.0 <= b) || (a <= 0.0 && b <= 0.0)
    ensures 0.0 <= a * b
  {
  }

  lemma ProductPositive(a: real, b: real)
    requires 0.0 < a && 0.0 < b
    ensures 0.0 < a * b
  {
  }

  lemma ProductZero(a: real, b: real)
    ensures a * b == 0.0 <==> a == 0.0 || b == 0.0
  {
    if a != 0.0 && b != 0.0 {
      assert (a * b) / b == a;
    }
  }

  lemma QuotientTimesDivisor(a: real, b: real)
    requires b != 0.0
    ensures (a / b) * b == a
  {
  }

  lemma QuotientNonNegative(a: real, b: real)
    requires 0.0 <= a && 0.0 < b
    ensures 0.0 <= a / b
  {
  }

  lemma ProductBelow(f: real, x: real)
    requires 0.0 <= f <= 1.0 && 0.0 <= x
    ensures f * x <= x && 0.0 <= f * x
  {
    assert x - f * x == (1.0 - f) * x;
    assert 0.0 <= (1.0 - f) * x;
  }

  lemma DifferenceOfQuotients(a: real, b: real, m: real)
    requires m != 0.0
    ensures a / m - b / m == (a - b) / m
  {
  }

  lemma QuotientIsFraction(a: real, b: real)
    requires 0.0 < a <= b
    ensures 0.0 < a / b <= 1.0
    ensures a == b ==> a / b == 1.0
  {
  }

  /** x · (1 / t / s) · (t s) = x. */
  lemma CancelReciprocals(x: real, t: real, s: real)
    requires t != 0.0 && s != 0.0
    ensures x * (1.0 / t / s) * (t * s) == x
  {
    ProductZero(t, s);
    var u, w := 1.0 / (t * s), t * s;
    assert 1.0 / t / s == u;
    assert u * w == 1.0;
    assert x * u * w == x * (u * w) == x;
    assert x * (1.0 / t / s) == x * u;
    assert x * (1.0 / t / s) * (t * s) == x * u * w;
  }

  /** (1 / s) · a / m · s = a / m. */
  lemma CancelScale(a: real, s: real, m: real)
    requires s != 0.0 && m != 0.0
    ensures (1.0 / s) * a / m * s == a / m
  {
    var u := 1.0 / s;
    assert u * s == 1.0;
    assert u * a / m == u * (a / m);
    assert u * (a / m) * s == (a / m) * (u * s);
  }

  /** w a + (1 - w) b lies between a and b for a weight w in [0, 1]. */
  lemma ConvexCombination(w: real, a: real, b: real)
    requires 0.0 <= w <= 1.0
    ensures a <= b ==> a <= w * a + (1.0 - w) * b <= b
    ensures b <= a ==> b <= w * a + (1.0 - w) * b <= a
  {
    if a <= b {
      ConvexBelow(w, a, b);
    } else {
      ConvexBelow(1.0 - w, b, a);
      assert (1.0 - w) * b + (1.0 - (1.0 - w)) * a == w * a + (1.0 - w) * b;
    }
  }

  lemma ConvexBelow(w: real, a: real, b: real)
    requires 0.0 <= w <= 1.0 && a <= b
    ensures a <= w * a + (1.0 - w) * b <= b
  {
    var d := w * (b - a);
    ProductBelow(w, b - a);
    assert 0.0 <= d <= b - a;
    assert w * a + (1.0 - w) * b == b - d;
  }

  /** A quotient count / n of counts 0 <= count <= n is a fraction. */
  lemma FractionOfCounts(count: int, n: int)
    requires 0 <= count <= n && 0 < n
    ensures 0.0 <= count as real / n as real <= 1.0
  {
    QuotientTimesDivisor(count as real, n as real);
  }

  lemma WholeProductZero(a: int, b: int)
    ensures a * b == 0 <==> a == 0 || b == 0
  {
    if a != 0 && b != 0 {
      assert a * b != 0 by {
        if a > 0 && b > 0 { assert a * b >= b; }
        else if a > 0 { assert a * b <= b; }
        else if b > 0 { assert a * b <= a; }
        else { assert a * b >= -a; }
      }
    }
  }
}
