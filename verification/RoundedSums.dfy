/** Running sums that round every item and every partial sum to 28 digits. Amounts are counted
    in units of ten to the minus `grain`. */
module RoundedSums {
  import opened Base
  import opened FloorDivision
  import opened Decimals

  /** One addition: item and result rounded. */
  function Step(sum: nat, amount: nat): nat {
    Round28(sum + Round28(amount))
  }

  /** `sum` from a starting amount on. */
  function Sum<T>(start: nat, items: seq<T>, worth: (T, nat) -> nat, grain: nat): nat
    decreases |items|
  {
    if items == [] then start
    else Sum(Step(start, worth(items[0], grain)), items[1..], worth, grain)
  }

  /** The same without rounding. */
  function ExactSum<T>(items: seq<T>, worth: (T, nat) -> nat, grain: nat): nat {
    if items == [] then 0
    else ExactSum(items[..|items| - 1], worth, grain) + worth(items[|items| - 1], grain)
  }

  /** The whole number an amount stands for, if it stands for one. */
  function Seconds(count: nat, grain: nat): Option<nat> {
    if count % Pow10(grain) == 0 then Some(count / Pow10(grain)) else None
  }

  /** From this grain on an item is worth the same at every grain. */
  ghost predicate ScalesFrom<T>(item: T, worth: (T, nat) -> nat, grain: nat) {
    forall g: nat :: g >= grain ==> worth(item, g) == worth(item, grain) * Pow10(g - grain)
  }

  ghost predicate AllScale<T>(items: seq<T>, worth: (T, nat) -> nat, grain: nat) {
    forall i :: 0 <= i < |items| ==> ScalesFrom(items[i], worth, grain)
  }

  // ---------------------------------------------------------------- the grain does not matter

  lemma ScalesLater<T>(item: T, worth: (T, nat) -> nat, grain: nat, later: nat)
    requires ScalesFrom(item, worth, grain) && grain <= later
    ensures ScalesFrom(item, worth, later)
  {
    forall g: nat | g >= later
      ensures worth(item, g) == worth(item, later) * Pow10(g - later)
    {
      PowersAdd(later - grain, g - later);
      Regroup(worth(item, grain), Pow10(later - grain), Pow10(g - later));
    }
  }

  lemma Distribute(a: nat, b: nat, p: nat)
    ensures (a + b) * p == a * p + b * p
  {
  }

  /** One step of the sum at a finer grain. */
  lemma StepScales(start: nat, amount: nat, h: nat)
    ensures Step(start * Pow10(h), amount * Pow10(h)) == Step(start, amount) * Pow10(h)
  {
    RoundScales(amount, h);
    var fine := Round28(amount);
    Distribute(start, fine, Pow10(h));
    RoundScales(start + fine, h);
  }

  lemma {:induction false} SumScales<T>(start: nat, items: seq<T>, worth: (T, nat) -> nat, grain: nat, finer: nat)
    requires grain <= finer && AllScale(items, worth, grain)
    ensures Sum(start * Pow10(finer - grain), items, worth, finer)
            == Sum(start, items, worth, grain) * Pow10(finer - grain)
    decreases |items|
  {
    if items != [] {
      assert ScalesFrom(items[0], worth, grain);
      StepScales(start, worth(items[0], grain), finer - grain);
      SumScales(Step(start, worth(items[0], grain)), items[1..], worth, grain, finer);
    }
  }

  lemma {:induction false} ExactScales<T>(items: seq<T>, worth: (T, nat) -> nat, grain: nat, finer: nat)
    requires grain <= finer && AllScale(items, worth, grain)
    ensures ExactSum(items, worth, finer) == ExactSum(items, worth, grain) * Pow10(finer - grain)
  {
    if items != [] {
      var last := |items| - 1;
      assert ScalesFrom(items[last], worth, grain);
      ExactScales(items[..last], worth, grain, finer);
      Distribute(ExactSum(items[..last], worth, grain), worth(items[last], grain), Pow10(finer - grain));
    }
  }

  lemma ExactHeld<T>(items: seq<T>, worth: (T, nat) -> nat, grain: nat, finer: nat)
    requires grain <= finer && AllScale(items, worth, grain)
    ensures Representable(ExactSum(items, worth, finer)) <==> Representable(ExactSum(items, worth, grain))
  {
    ExactScales(items, worth, grain, finer);
    RepresentableScales(ExactSum(items, worth, grain), finer - grain);
  }

  lemma SecondsAre(count: nat, grain: nat, x: nat)
    ensures Seconds(count, grain) == Some(x) <==> count == x * Pow10(grain)
  {
    Multiples(x, Pow10(grain));
    DivBounds(count, Pow10(grain));
  }

  lemma SecondsScale(count: nat, grain: nat, finer: nat)
    requires grain <= finer
    ensures Seconds(count * Pow10(finer - grain), finer) == Seconds(count, grain)
  {
    PowersAdd(grain, finer - grain);
    DivisionScales(count, Pow10(grain), Pow10(finer - grain));
  }

  lemma DivisionScales(c: nat, u: nat, p: nat)
    requires u > 0 && p > 0
    ensures u * p > 0 && (c * p) / (u * p) == c / u && ((c * p) % (u * p) == 0 <==> c % u == 0)
  {
    var q, r := c / u, c % u;
    DivBounds(c, u);
    assert c == u * q + r;
    Distribute(u * q, r, p);
    assert (u * p) * q == (u * q) * p;
    MulOrder(p, 1, u);
    MulOrder(p, r, u - 1);
    Distribute(u - 1, 1, p);
    assert 0 <= r * p < u * p;
    DivUnique(c * p, u * p, q);
    assert (c * p) % (u * p) == r * p;
    assert r * p == 0 <==> r == 0;
  }

  // ---------------------------------------------------------------- splitting and exactness

  lemma {:induction false} SumSplits<T>(start: nat, a: seq<T>, b: seq<T>, worth: (T, nat) -> nat, grain: nat)
    ensures Sum(start, a + b, worth, grain) == Sum(Sum(start, a, worth, grain), b, worth, grain)
    decreases |a|
  {
    if a == [] {
      assert a + b == b;
    } else {
      DropJoins(a, b, 1);
      SumSplits(Step(start, worth(a[0], grain)), a[1..], b, worth, grain);
    }
  }

  lemma {:induction false} ExactSplits<T>(a: seq<T>, b: seq<T>, worth: (T, nat) -> nat, grain: nat)
    ensures ExactSum(a + b, worth, grain) == ExactSum(a, worth, grain) + ExactSum(b, worth, grain)
    decreases |b|
  {
    if b == [] {
      assert a + b == a;
    } else {
      var last := |b| - 1;
      assert (a + b)[..|a + b| - 1] == a + b[..last];
      ExactSplits(a, b[..last], worth, grain);
    }
  }

  /** Every item and every partial sum has at most 28 digits before zeros. */
  ghost predicate NeverRounds<T>(items: seq<T>, worth: (T, nat) -> nat, grain: nat)
    decreases |items|
  {
    items == [] ||
    (&& NeverRounds(items[..|items| - 1], worth, grain)
     && Representable(worth(items[|items| - 1], grain))
     && Representable(ExactSum(items, worth, grain)))
  }

  /** Then the rounded sum is the sum. */
  lemma {:induction false} SumIsExact<T>(items: seq<T>, worth: (T, nat) -> nat, grain: nat)
    requires NeverRounds(items, worth, grain)
    ensures Sum(0, items, worth, grain) == ExactSum(items, worth, grain)
    decreases |items|
  {
    if items != [] {
      var last := |items| - 1;
      SumIsExact(items[..last], worth, grain);
      SumSplits(0, items[..last], [items[last]], worth, grain);
      assert items[..last] + [items[last]] == items;
      LastStep(ExactSum(items[..last], worth, grain), items[last], worth, grain);
    }
  }

  lemma LastStep<T>(start: nat, item: T, worth: (T, nat) -> nat, grain: nat)
    requires Representable(worth(item, grain)) && Representable(start + worth(item, grain))
    ensures Sum(start, [item], worth, grain) == start + worth(item, grain)
  {
    FixedIffRepresentable(worth(item, grain));
    FixedIffRepresentable(start + worth(item, grain));
    OneStep(start, item, worth, grain);
  }

  lemma OneStep<T>(start: nat, item: T, worth: (T, nat) -> nat, grain: nat)
    ensures Sum(start, [item], worth, grain) == Step(start, worth(item, grain))
  {
    assert [item][1..] == [];
  }
}
