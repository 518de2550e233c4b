/** Decimal arithmetic with 28 significant digits, rounding half to even: the default context
    of Python's `decimal`. Amounts are whole counts of some power of ten; which one does not
    matter, because rounding commutes with shifting the point. */
module Decimals {
  import opened FloorDivision

  const LIMIT := 10_000_000_000_000_000_000_000_000_000  // ten to the 28th

  function Pow10(n: nat): (p: nat)
    ensures p > 0
  {
    if n == 0 then 1 else 10 * Pow10(n - 1)
  }

  /** How many digits a number has beyond 28. */
  function Excess(n: nat): nat {
    if n < LIMIT then 0 else 1 + Excess(n / 10)
  }

  /** The nearest whole number of units, the even one if two are as near. */
  function HalfEven(n: nat, unit: nat): nat
    requires unit > 0
  {
    var q, r := n / unit, n % unit;
    if 2 * r < unit || (2 * r == unit && q % 2 == 0) then q else q + 1
  }

  /** The number rounded to its first 28 digits. */
  function Round28(n: nat): nat {
    HalfEven(n, Pow10(Excess(n))) * Pow10(Excess(n))
  }

  /** At most 28 digits before nothing but zeros. */
  ghost predicate Representable(n: nat) {
    exists c: nat, k: nat :: Shifted(c, k, n)
  }

  predicate Shifted(c: nat, k: nat, n: nat) {
    c < LIMIT && n == c * Pow10(k)
  }

  // ---------------------------------------------------------------- powers of ten

  lemma Regroup(a: int, b: int, c: int)
    ensures a * (b * c) == (a * b) * c
  {
  }

  lemma TimesNextPower(n: nat, g: nat)
    requires g > 0
    ensures n * Pow10(g) == 10 * (n * Pow10(g - 1))
  {
    var p := Pow10(g - 1);
    assert n * (10 * p) == 10 * (n * p);
  }

  lemma {:induction false} PowersAdd(a: nat, b: nat)
    ensures Pow10(a + b) == Pow10(a) * Pow10(b)
  {
    if a > 0 {
      PowersAdd(a - 1, b);
      Regroup(10, Pow10(a - 1), Pow10(b));
    }
  }

  lemma {:induction false} PowersRise(a: nat, b: nat)
    requires a <= b
    ensures Pow10(a) <= Pow10(b)
    decreases b
  {
    if a < b {
      PowersRise(a, b - 1);
    }
  }

  /** Powers of ten above the first add up to less than they multiply to. */
  lemma PowersSum(a: nat, b: nat)
    requires a > 0 && b > 0
    ensures Pow10(a) + Pow10(b) <= Pow10(a + b)
  {
    PowersAdd(a, b);
    var x, y := Pow10(a), Pow10(b);
    MulOrder(x, 2, y);
    MulOrder(y, 2, x);
    assert x * y == y * x;
  }

  // ---------------------------------------------------------------- what rounding keeps

  lemma Multiples(c: nat, u: nat)
    requires u > 0
    ensures (c * u) / u == c && (c * u) % u == 0
  {
    DivUnique(c * u, u, c);
  }

  /** What is left in front of the digits in excess has at most 28 digits. */
  lemma {:induction false} ExcessFits(n: nat)
    ensures n / Pow10(Excess(n)) < LIMIT
  {
    if n >= LIMIT {
      ExcessFits(n / 10);
      DivTwice(n, 10, Pow10(Excess(n / 10)));
    }
  }

  lemma {:induction false} ExcessLeast(n: nat, k: nat)
    requires n / Pow10(k) < LIMIT
    ensures Excess(n) <= k
    decreases k
  {
    if n >= LIMIT && k > 0 {
      DivTwice(n, 10, Pow10(k - 1));
      ExcessLeast(n / 10, k - 1);
    }
  }

  /** A number of at most 28 digits before zeros is a multiple of its own rounding unit. */
  lemma RepresentableMultiple(n: nat, c: nat, k: nat)
    requires Shifted(c, k, n)
    ensures exists d: nat :: n == d * Pow10(Excess(n))
  {
    Multiples(c, Pow10(k));
    ExcessLeast(n, k);
    var e := Excess(n);
    PowersAdd(k - e, e);
    Regroup(c, Pow10(k - e), Pow10(e));
    assert n == (c * Pow10(k - e)) * Pow10(e);
  }

  /** Rounding leaves exactly the representable numbers alone. */
  lemma FixedIffRepresentable(n: nat)
    ensures Round28(n) == n <==> Representable(n)
  {
    var u := Pow10(Excess(n));
    if Representable(n) {
      var c: nat, k: nat :| Shifted(c, k, n);
      RepresentableMultiple(n, c, k);
      var d: nat :| n == d * u;
      Multiples(d, u);
    }
    if Round28(n) == n {
      ExcessFits(n);
      DivBounds(n, u);
      var q := n / u;
      assert (q + 1) * u == u * q + u;
      assert q * u == u * q;
      assert Shifted(q, Excess(n), n);
    }
  }

  lemma RoundedRepresentable(n: nat)
    ensures Representable(Round28(n))
  {
    var e := Excess(n);
    var q := HalfEven(n, Pow10(e));
    ExcessFits(n);
    if q < LIMIT {
      assert Shifted(q, e, Round28(n));
    } else {
      assert q == 10 * (LIMIT / 10);
      var u := Pow10(e);
      assert (10 * (LIMIT / 10)) * u == (LIMIT / 10) * (10 * u);
      assert Pow10(e + 1) == 10 * u;
      assert Shifted(LIMIT / 10, e + 1, Round28(n));
    }
  }

  /** Rounding twice is rounding once. */
  lemma RoundIdempotent(n: nat)
    ensures Round28(Round28(n)) == Round28(n)
  {
    RoundedRepresentable(n);
    FixedIffRepresentable(Round28(n));
  }

  lemma SmallIsFixed(n: nat)
    requires n < LIMIT
    ensures Round28(n) == n && Representable(n)
  {
    assert Pow10(0) == 1;
    assert Shifted(n, 0, n);
    FixedIffRepresentable(n);
  }

  lemma HalfEvenTimesTen(n: nat, u: nat)
    requires u > 0
    ensures HalfEven(10 * n, 10 * u) == HalfEven(n, u)
  {
    var q, r := n / u, n % u;
    DivBounds(n, u);
    assert n == u * q + r;
    assert (10 * u) * q == 10 * (u * q);
    DivUnique(10 * n, 10 * u, q);
    assert (10 * n) % (10 * u) == 10 * r;
  }

  /** Rounding commutes with shifting the point by one place ... */
  lemma RoundTimesTen(n: nat)
    ensures Round28(10 * n) == 10 * Round28(n)
  {
    if 10 * n < LIMIT {
      SmallIsFixed(n);
      SmallIsFixed(10 * n);
    } else {
      assert 10 * n / 10 == n;
      var u := Pow10(Excess(n));
      assert Excess(10 * n) == 1 + Excess(n) && Pow10(1 + Excess(n)) == 10 * u;
      HalfEvenTimesTen(n, u);
      var h := HalfEven(n, u);
      assert h * (10 * u) == 10 * (h * u);
    }
  }

  /** ... and by any number of places. */
  lemma {:induction false} RoundScales(n: nat, g: nat)
    ensures Round28(n * Pow10(g)) == Round28(n) * Pow10(g)
  {
    if g > 0 {
      RoundScales(n, g - 1);
      RoundTimesTen(n * Pow10(g - 1));
      TimesNextPower(n, g);
      TimesNextPower(Round28(n), g);
    }
  }

  lemma RepresentableScales(n: nat, g: nat)
    ensures Representable(n * Pow10(g)) <==> Representable(n)
  {
    RoundScales(n, g);
    FixedIffRepresentable(n);
    FixedIffRepresentable(n * Pow10(g));
    var p := Pow10(g);
    assert Round28(n) * p == n * p ==> Round28(n) == n by {
      if Round28(n) * p == n * p {
        Multiples(n, p);
        Multiples(Round28(n), p);
      }
    }
  }
}
