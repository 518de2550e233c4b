/** Facts about floor division by a variable. */
module FloorDivision {

  lemma MulOrder(d: int, p: int, q: int)
    requires d >= 0 && p <= q
    ensures d * p <= d * q
  {
  }

  lemma DivBounds(a: int, d: int)
    requires d > 0
    ensures d * (a / d) <= a < d * (a / d) + d
  {
  }

  /** The quotient is the only integer whose multiple brackets the dividend. */
  lemma DivUnique(a: int, d: int, q: int)
    requires d > 0 && d * q <= a < d * q + d
    ensures a / d == q
  {
    DivBounds(a, d);
    var p := a / d;
    if p < q {
      MulOrder(d, p + 1, q);
    } else if q < p {
      MulOrder(d, q + 1, p);
    }
  }

  lemma DivOrder(a: int, b: int, d: int)
    requires d > 0 && a <= b
    ensures a / d <= b / d
  {
    DivBounds(a, d);
    DivBounds(b, d);
    if b / d < a / d {
      MulOrder(d, b / d + 1, a / d);
    }
  }

  lemma DivShift(a: int, d: int, k: int)
    requires d > 0
    ensures (a + d * k) / d == a / d + k
  {
    DivBounds(a, d);
    DivUnique(a + d * k, d, a / d + k);
  }

  /** Dividing twice rounds down no further than dividing once. */
  lemma DivTwice(a: int, d: int, e: int)
    requires d > 0 && e > 0
    ensures d * e > 0 && a / d / e == a / (d * e)
  {
    var p := a / d;
    var q := p / e;
    DivBounds(a, d);
    DivBounds(p, e);
    MulOrder(d, 1, 1);
    MulOrder(d, e * q, p);
    MulOrder(d, p + 1, e * q + e);
    assert d * (e * q) == (d * e) * q;
    assert d * (e * q + e) == (d * e) * q + d * e;
    assert d * e > 0 by { MulOrder(d, 1, e); }
    DivUnique(a, d * e, q);
  }
}
