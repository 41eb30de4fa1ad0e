/** Small facts about products of reals. Each is stated on two separate
    factors, or returns the product it speaks about, so that callers reason
    about plain terms rather than about squares compared with zero. */
module RealArith {
  lemma ProductPositive(a: real, b: real)
    requires a > 0.0 && b > 0.0
    ensures a * b > 0.0
  {
  }

  lemma ProductNonnegative(a: real, b: real)
    requires a >= 0.0 && b >= 0.0
    ensures a * b >= 0.0
  {
  }

  lemma ProductZero(a: real, b: real)
    requires a * b == 0.0
    ensures a == 0.0 || b == 0.0
  {
  }

  /** A number times itself is never negative. */
  lemma SquareNonnegative(a: real, b: real)
    requires a == b
    ensures a * b >= 0.0
  {
  }

  /** The product of the squares of two non-zero numbers, which is positive. */
  lemma SquaresPositive(rx: real, ry: real) returns (k: real)
    requires rx != 0.0 && ry != 0.0
    ensures k == (rx * rx) * (ry * ry) && k > 0.0
  {
    var m := rx * ry;
    if m == 0.0 {
      ProductZero(rx, ry);
      assert false;
    }
    SquareNonnegative(m, m);
    if m * m == 0.0 {
      ProductZero(m, m);
      assert false;
    }
    assert (rx * rx) * (ry * ry) == m * m;
    k := m * m;
  }

  /** Multiplying by a positive factor keeps a bound by one. */
  lemma ScaleBound(s: real, k: real)
    requires k > 0.0
    ensures s <= 1.0 <==> s * k <= k
  {
    if s <= 1.0 {
      ProductNonnegative(1.0 - s, k);
    } else {
      ProductPositive(s - 1.0, k);
    }
    assert (1.0 - s) * k == k - s * k;
  }

  /** Scaling by the ratio `a / b` and multiplying back by `b` gives `q * a`. */
  lemma RatioCancels(q: real, a: real, b: real)
    requires b != 0.0
    ensures (q * (a / b)) * b == q * a
  {
    assert (a / b) * b == a;
    assert (q * (a / b)) * b == q * ((a / b) * b);
  }
}
