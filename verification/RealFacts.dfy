/** Non-linear facts about reals, each small enough to be immediate. */
module RealFacts {
  /** `sqrt` on non-negative numbers. */
  ghost predicate IsSqrt(sqrt: real -> real) {
    forall x :: x >= 0.0 ==> sqrt(x) >= 0.0 && sqrt(x) * sqrt(x) == x
  }

  lemma QuotientUnique(x: real, d: real, q: real)
    requires d != 0.0 && q * d == x
    ensures x / d == q
  {
  }

  lemma ScaledQuotient(w: real, d: real, a: real)
    requires d != 0.0
    ensures (w / d) * a == (w * a) / d
  {
    var q := w / d;
    assert q * d == w;
    assert (q * a) * d == w * a;
    QuotientUnique(w * a, d, q * a);
  }

  lemma SumOfQuotients(x: real, y: real, d: real)
    requires d != 0.0
    ensures x / d + y / d == (x + y) / d
  {
    var p, q := x / d, y / d;
    assert (p + q) * d == x + y;
    QuotientUnique(x + y, d, p + q);
  }

  lemma QuotientWithin(lo: real, x: real, hi: real, d: real)
    requires d > 0.0 && lo * d <= x <= hi * d
    ensures lo <= x / d <= hi
  {
    var q := x / d;
    assert q * d == x;
  }

  lemma ScaleBounds(w: real, lo: real, x: real, hi: real)
    requires w > 0.0 && lo <= x <= hi
    ensures lo * w <= w * x <= hi * w
  {
  }

  lemma ProductSign(x: real, y: real)
    requires x >= 0.0 && y >= 0.0
    ensures x * y >= 0.0
  {
  }

  lemma ProductPositive(x: real, y: real)
    requires x > 0.0 && y > 0.0
    ensures x * y > 0.0
  {
  }

  lemma Cancel(x: real, n: real)
    requires n != 0.0 && x * n == 0.0
    ensures x == 0.0
  {
    QuotientUnique(0.0, n, x);
    QuotientUnique(0.0, n, 0.0);
  }

  lemma QuotientSign(x: real, n: real)
    requires x >= 0.0 && n > 0.0
    ensures x / n >= 0.0 && (x > 0.0 ==> x / n > 0.0)
  {
    var q := x / n;
    assert q * n == x;
    assert (-q) * n == -x;
    if q < 0.0 { ProductPositive(-q, n); }
  }

  lemma ScaledOrder(d: real, a: real, b: real)
    requires d > 0.0
    ensures a <= b <==> a * d <= b * d
  {
    if a <= b {
      ProductSign(d, b - a);
      assert d * (b - a) == b * d - a * d;
    } else {
      ProductPositive(d, a - b);
      assert d * (a - b) == a * d - b * d;
    }
  }

  lemma LargerSquare(a: real, r: real)
    requires a > r >= 0.0
    ensures a * a > r * r
  {
    ProductPositive(a - r, a + r);
    assert (a - r) * (a + r) > 0.0;
    assert (a - r) * (a + r) == a * a - r * r;
  }

  lemma SquareOfNegation(a: real)
    ensures (-a) * (-a) == a * a
  {
  }

  lemma SquareBound(a: real, r: real)
    requires r >= 0.0
    ensures a * a <= r * r <==> -r <= a <= r
  {
    SquareOfNegation(a);
    if a > r {
      LargerSquare(a, r);
    } else if -a > r {
      LargerSquare(-a, r);
    } else if a >= 0.0 {
      SmallerSquare(a, r);
    } else {
      SmallerSquare(-a, r);
    }
  }

  lemma SmallerSquare(a: real, b: real)
    requires 0.0 <= a <= b
    ensures a * a <= b * b
  {
    ProductSign(b - a, b + a);
    assert (b - a) * (b + a) == b * b - a * a;
  }

  lemma SquareSign(a: real)
    ensures a * a >= 0.0 && (a * a == 0.0 ==> a == 0.0)
  {
    SquareOfNegation(a);
    if a > 0.0 {
      LargerSquare(a, 0.0);
    } else if a < 0.0 {
      LargerSquare(-a, 0.0);
    }
  }

  /** A non-negative number has one non-negative root. */
  lemma RootUnique(a: real, b: real)
    requires a >= 0.0 && b >= 0.0 && a * a == b * b
    ensures a == b
  {
    SquareBound(a, b);
    SquareBound(b, a);
  }

  lemma Distribute(c: real, x: real, y: real)
    ensures c * (x + y) == c * x + c * y
  {
  }
}
