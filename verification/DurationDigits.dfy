/** How many digits the duration parser (app/core/settings.py:75-85) adds without rounding. */
module DurationDigits {
  import opened Base
  import opened FloorDivision
  import opened Decimals
  import opened RoundedSums
  import opened Scanning
  import opened Durations
  import opened DurationTheorems

  function DigitCount(s: string): nat {
    if s == [] then 0 else (if IsDigit(s[0]) then 1 else 0) + DigitCount(s[1..])
  }

  type Measure = string -> nat

  function Total(parts: seq<string>, f: Measure): nat {
    if parts == [] then 0 else Total(parts[..|parts| - 1], f) + f(parts[|parts| - 1])
  }

  function Most(parts: seq<string>, f: Measure): nat {
    if parts == [] then 0
    else
      var rest, last := Most(parts[..|parts| - 1], f), f(parts[|parts| - 1]);
      if rest < last then last else rest
  }

  // ---------------------------------------------------------------- counting digits

  function UnitOf(p: string): char {
    if p == [] then ' ' else p[|p| - 1]
  }

  lemma {:induction false} CountJoins(s: string, t: string)
    ensures DigitCount(s + t) == DigitCount(s) + DigitCount(t)
  {
    if s == [] {
      assert s + t == t;
    } else {
      DropJoins(s, t, 1);
      CountJoins(s[1..], t);
    }
  }

  lemma {:induction false} CountAll(s: string)
    requires forall i :: 0 <= i < |s| ==> IsDigit(s[i])
    ensures DigitCount(s) == |s|
  {
    if s != [] {
      CountAll(s[1..]);
    }
  }

  lemma {:induction false} TotalJoins(a: seq<string>, b: seq<string>, f: Measure)
    ensures Total(a + b, f) == Total(a, f) + Total(b, f)
    decreases |b|
  {
    if b == [] {
      assert a + b == a;
    } else {
      assert (a + b)[..|a + b| - 1] == a + b[..|b| - 1];
      TotalJoins(a, b[..|b| - 1], f);
    }
  }

  lemma {:induction false} CountParts(text: string, m: Matcher)
    ensures Total(Parts(text, m), DigitCount) <= DigitCount(text)
    decreases |text|
  {
    if text != [] {
      var n := m(text);
      if 0 < n <= |text| {
        var part, rest := text[..n], text[n..];
        CountParts(rest, m);
        CountJoins(part, rest);
        assert text == part + rest;
        TotalJoins([part], Parts(rest, m), DigitCount);
        OneTotal(part, DigitCount);
      } else {
        CountParts(text[1..], m);
      }
    }
  }

  lemma OneTotal(part: string, f: Measure)
    ensures Total([part], f) == f(part) && Most([part], f) == f(part)
  {
    assert [part][..0] == [];
  }

  lemma {:induction false} LowerCount(s: string)
    ensures DigitCount(Lower(s)) == DigitCount(s)
  {
    if s != [] {
      assert Lower(s)[1..] == Lower(s[1..]);
      LowerCount(s[1..]);
    }
  }

  lemma TextCount(raw: string)
    requires TextOf(raw) != []
    ensures DigitCount(TextOf(raw)) <= DigitCount(raw)
  {
    CoreSplits(raw);
    LowerCount(Core(raw));
    CountJoins(Leading(raw) + Core(raw), Trailing(raw));
    CountJoins(Leading(raw), Core(raw));
  }

  /** A part has at least the digits of its number. */
  lemma NumberCount(p: string)
    requires Matched(p, PartLength)
    ensures Digits(p) > 0 && Digits(p) + Places(p) <= DigitCount(p)
    ensures |Numeral(p)| == Digits(p) + Places(p)
    ensures IsUnit(UnitOf(p))
  {
    PartEnds(p);
    NumberHasShape(p);
    TwoRuns(p, Digits(p), NumberLength(p) - Places(p), NumberLength(p));
  }

  lemma TwoRuns(p: string, a: nat, k: nat, b: nat)
    requires a <= k <= b <= |p|
    requires (forall i :: 0 <= i < a ==> IsDigit(p[i])) && forall i :: k <= i < b ==> IsDigit(p[i])
    ensures a + (b - k) <= DigitCount(p)
  {
    CountAll(p[..a]);
    CountAll(p[k..b]);
    FourSlices(p, a, k, b);
    FourCounts(p[..a], p[a..k], p[k..b], p[b..]);
  }

  lemma FourSlices(p: string, a: nat, k: nat, b: nat)
    requires a <= k <= b <= |p|
    ensures p == p[..a] + (p[a..k] + (p[k..b] + p[b..]))
  {
  }

  lemma FourCounts(a: string, b: string, c: string, d: string)
    ensures DigitCount(a + (b + (c + d))) >= DigitCount(a) + DigitCount(c)
  {
    CountJoins(a, b + (c + d));
    CountJoins(b, c + d);
    CountJoins(c, d);
  }

  lemma {:induction false} DigitsBound(s: string)
    ensures DigitsValue(s) < Pow10(|s|)
  {
    if s != [] {
      DigitsBound(s[..|s| - 1]);
    }
  }

  // ---------------------------------------------------------------- shares of the sum

  /** What a unit weighs. */
  type Weight = char -> nat

  /** Hours, days and weeks are multiples of a hundred seconds. */
  function Hundreds(c: char): nat {
    if c == 'h' then 36 else if c == 'd' then 864 else if c == 'w' then 6048 else 0
  }

  function Singles(c: char): nat {
    if c == 's' then 1 else if c == 'm' then 60 else 0
  }

  predicate AllMatched(parts: seq<string>) {
    forall i :: 0 <= i < |parts| ==> Matched(parts[i], PartLength)
  }

  function Product(a: nat, b: nat): nat {
    a * b
  }

  function Share(weight: Weight, grain: nat): Measure {
    p => Product(weight(UnitOf(p)), NumberOf(p, grain))
  }

  /** Digits before the point, in a part that weighs something. */
  function WholeDigits(weight: Weight): Measure {
    p => DigitsIf(weight(UnitOf(p)) > 0, p)
  }

  function DigitsIf(counts: bool, p: string): nat {
    if counts then Digits(p) else 0
  }

  lemma {:induction false} SharesMake(parts: seq<string>, worth: Worth, grain: nat, hundreds: Measure, singles: Measure)
    requires forall i :: 0 <= i < |parts| ==> worth(parts[i], grain) == 100 * hundreds(parts[i]) + singles(parts[i])
    ensures ExactSum(parts, worth, grain) == 100 * Total(parts, hundreds) + Total(parts, singles)
  {
    if parts != [] {
      SharesMake(parts[..|parts| - 1], worth, grain, hundreds, singles);
    }
  }

  lemma OneShare(amount: nat, c: char)
    requires IsUnit(c)
    ensures Scaled(amount, c) == 100 * Product(Hundreds(c), amount) + Product(Singles(c), amount)
  {
  }

  function Bound(cap: nat, digits: nat, grain: nat): nat {
    if digits == 0 then 0 else Product(cap, Pow10(digits + grain))
  }

  /** A share is at most its heaviest unit for all its digits in one number. */
  lemma {:induction false} SharesBounded(parts: seq<string>, share: Measure, digits: Measure, cap: nat, grain: nat)
    requires forall i :: 0 <= i < |parts| ==> share(parts[i]) <= Bound(cap, digits(parts[i]), grain)
    ensures Total(parts, share) <= Bound(cap, Total(parts, digits), grain)
  {
    if parts != [] {
      var rest, last := parts[..|parts| - 1], parts[|parts| - 1];
      SharesBounded(rest, share, digits, cap, grain);
      BoundsAdd(cap, Total(rest, digits), digits(last), grain);
    }
  }

  lemma BoundsAdd(cap: nat, a: nat, b: nat, grain: nat)
    ensures Bound(cap, a, grain) + Bound(cap, b, grain) <= Bound(cap, a + b, grain)
  {
    if a > 0 && b > 0 {
      PowersSumLater(a, b, grain);
      TwoBounds(cap, Pow10(a + grain), Pow10(b + grain), Pow10(a + b + grain));
    }
  }

  lemma TwoBounds(cap: nat, a: nat, b: nat, c: nat)
    requires a + b <= c
    ensures Product(cap, a) + Product(cap, b) <= Product(cap, c)
  {
    MulOrder(cap, a + b, c);
  }

  lemma PowersSumLater(a: nat, b: nat, g: nat)
    requires a > 0 && b > 0
    ensures Pow10(a + g) + Pow10(b + g) <= Pow10(a + b + g)
  {
    PowersSum(a, b);
    PowersAdd(a, g);
    PowersAdd(b, g);
    Distribute(Pow10(a), Pow10(b), Pow10(g));
    ShiftBound(Pow10(a) + Pow10(b), a + b, g);
  }

  lemma ShiftBound(n: nat, high: nat, shift: nat)
    requires n <= Pow10(high)
    ensures n * Pow10(shift) <= Pow10(high + shift)
  {
    PowersAdd(high, shift);
    MulOrder(Pow10(shift), n, Pow10(high));
  }

  lemma NumberBound(p: string, grain: nat)
    requires |Numeral(p)| == Digits(p) + Places(p) && Places(p) <= grain
    ensures NumberOf(p, grain) <= Pow10(Digits(p) + grain)
  {
    NumeralBound(Numeral(p), Digits(p), Places(p), grain);
  }

  lemma NumeralBound(numeral: string, d: nat, k: nat, grain: nat)
    requires |numeral| == d + k && k <= grain
    ensures DigitsValue(numeral) * Pow10(grain - k) <= Pow10(d + grain)
  {
    DigitsBound(numeral);
    ShiftBound(DigitsValue(numeral), d + k, grain - k);
    assert d + k + (grain - k) == d + grain;
  }

  lemma OneBound(w: nat, cap: nat, n: nat, digits: nat, grain: nat)
    requires w <= cap && n <= Pow10(digits + grain) && digits > 0
    ensures Product(w, n) <= Bound(cap, if w > 0 then digits else 0, grain)
  {
    MulOrder(w, n, Pow10(digits + grain));
    MulOrder(Pow10(digits + grain), w, cap);
  }

  /** The digits of all parts suffice for both shares and for the decimal places. */
  lemma {:induction false} DigitsSuffice(parts: seq<string>, a: Measure, b: Measure, places: Measure, digits: Measure)
    requires forall i :: 0 <= i < |parts| ==> a(parts[i]) + b(parts[i]) + places(parts[i]) <= digits(parts[i])
    ensures Total(parts, a) + Total(parts, b) + Most(parts, places) <= Total(parts, digits)
  {
    if parts != [] {
      DigitsSuffice(parts[..|parts| - 1], a, b, places, digits);
    }
  }

  lemma PartShares(p: string, grain: nat)
    requires p != [] && IsUnit(UnitOf(p))
    ensures PartValue(p, grain) == 100 * Share(Hundreds, grain)(p) + Share(Singles, grain)(p)
  {
    OneShare(NumberOf(p, grain), UnitOf(p));
  }

  lemma OneKind(p: string)
    ensures UnitDigits(p) <= Digits(p)
  {
    var c := UnitOf(p);
    assert WholeDigits(Hundreds)(p) == DigitsIf(Hundreds(c) > 0, p);
    assert WholeDigits(Singles)(p) == DigitsIf(Singles(c) > 0, p);
    assert Hundreds(c) == 0 || Singles(c) == 0;
  }

  function UnitDigits(p: string): nat {
    WholeDigits(Hundreds)(p) + WholeDigits(Singles)(p)
  }

  lemma PartDigits(p: string)
    requires Matched(p, PartLength)
    ensures UnitDigits(p) + Places(p) <= DigitCount(p)
  {
    NumberCount(p);
    OneKind(p);
  }

  lemma PartBounds(p: string, grain: nat)
    requires Matched(p, PartLength) && Places(p) <= grain
    ensures Share(Hundreds, grain)(p) <= Bound(6048, WholeDigits(Hundreds)(p), grain)
    ensures Share(Singles, grain)(p) <= Bound(60, WholeDigits(Singles)(p), grain)
  {
    NumberCount(p);
    NumberBound(p, grain);
    PartBound(p, Hundreds, 6048, grain);
    PartBound(p, Singles, 60, grain);
  }

  lemma PartBound(p: string, weight: Weight, cap: nat, grain: nat)
    requires weight(UnitOf(p)) <= cap && Digits(p) > 0 && NumberOf(p, grain) <= Pow10(Digits(p) + grain)
    ensures Share(weight, grain)(p) <= Bound(cap, WholeDigits(weight)(p), grain)
  {
    OneBound(weight(UnitOf(p)), cap, NumberOf(p, grain), Digits(p), grain);
  }

  // ---------------------------------------------------------------- 23 digits are enough

  const ENOUGH := 23

  lemma PowersNamed()
    ensures Pow10(22) == 10_000_000_000_000_000_000_000 && Pow10(23) == 100_000_000_000_000_000_000_000
  {
    assert Pow10(10) == 10_000_000_000;
    PowersAdd(10, 10);
    assert Pow10(3) == 1000;
    PowersAdd(20, 3);
  }

  lemma SumFits(hundreds: nat, singles: nat, h: nat, s: nat, f: nat)
    requires h + s + f <= ENOUGH
    requires hundreds <= Bound(6048, h, f) && singles <= Bound(60, s, f)
    ensures Representable(100 * hundreds + singles)
  {
    PowersNamed();
    PowersRise(s + f, 23);
    if s == 0 {
      PowersRise(h + f, 23);
      assert Pow10(2) == 100;
      assert Shifted(hundreds, 2, 100 * hundreds + singles);
    } else {
      if h > 0 {
        PowersRise(h + f, 22);
      }
      SmallIsFixed(100 * hundreds + singles);
    }
  }

  lemma {:induction false} MostIsMost(parts: seq<string>, f: Measure)
    ensures forall i :: 0 <= i < |parts| ==> f(parts[i]) <= Most(parts, f)
  {
    if parts != [] {
      MostIsMost(parts[..|parts| - 1], f);
      assert forall i :: 0 <= i < |parts| - 1 ==> parts[..|parts| - 1][i] == parts[i];
    }
  }

  lemma PlacesScale(parts: seq<string>, f: nat)
    requires f == Most(parts, Places)
    ensures AllScale(parts, PartValue, f)
  {
    MostIsMost(parts, Places);
    forall i | 0 <= i < |parts|
      ensures ScalesFrom(parts[i], PartValue, f)
    {
      PartScales(parts[i]);
      ScalesLater(parts[i], PartValue, Places(parts[i]), f);
    }
  }

  /** Parts with at most 23 digits altogether add up to a number the decimals can hold. */
  lemma FewDigitsFit(parts: seq<string>, grain: nat)
    requires AllMatched(parts) && Total(parts, DigitCount) <= ENOUGH && Most(parts, Places) <= grain
    ensures Representable(ExactSum(parts, PartValue, grain))
  {
    var f := Most(parts, Places);
    FewDigitsHeld(parts, f);
    PlacesScale(parts, f);
    ExactHeld(parts, PartValue, f, grain);
  }

  lemma FewDigitsHeld(parts: seq<string>, f: nat)
    requires AllMatched(parts) && Total(parts, DigitCount) <= ENOUGH && f == Most(parts, Places)
    ensures Representable(ExactSum(parts, PartValue, f))
  {
    var hundreds, singles, h, s := Share(Hundreds, f), Share(Singles, f), WholeDigits(Hundreds), WholeDigits(Singles);
    MostIsMost(parts, Places);
    forall i | 0 <= i < |parts|
      ensures SharesOf(parts[i], PartValue, f, hundreds, singles, h, s, Places, DigitCount)
    {
      NumberCount(parts[i]);
      PartDigits(parts[i]);
      PartShares(parts[i], f);
      PartBounds(parts[i], f);
    }
    SharesFit(parts, PartValue, f, hundreds, singles, h, s, Places, DigitCount);
  }

  /** A part splits into multiples of a hundred and the rest, bounded by its digits. */
  predicate SharesOf(p: string, worth: Worth, f: nat, hundreds: Measure, singles: Measure, h: Measure, s: Measure,
                     places: Measure, digits: Measure)
  {
    && worth(p, f) == 100 * hundreds(p) + singles(p)
    && h(p) + s(p) + places(p) <= digits(p)
    && hundreds(p) <= Bound(6048, h(p), f) && singles(p) <= Bound(60, s(p), f)
  }

  lemma SharesFit(parts: seq<string>, worth: Worth, f: nat, hundreds: Measure, singles: Measure, h: Measure, s: Measure,
                  places: Measure, digits: Measure)
    requires forall i :: 0 <= i < |parts| ==> SharesOf(parts[i], worth, f, hundreds, singles, h, s, places, digits)
    requires Total(parts, digits) <= ENOUGH && f == Most(parts, places)
    ensures Representable(ExactSum(parts, worth, f))
  {
    SharesMake(parts, worth, f, hundreds, singles);
    DigitsSuffice(parts, h, s, places, digits);
    SharesBounded(parts, hundreds, h, 6048, f);
    SharesBounded(parts, singles, s, 60, f);
    SumFits(Total(parts, hundreds), Total(parts, singles), Total(parts, h), Total(parts, s), f);
  }

  lemma {:induction false} FewDigitsNeverRound(parts: seq<string>, grain: nat)
    requires AllMatched(parts) && Total(parts, DigitCount) <= ENOUGH && Most(parts, Places) <= grain
    ensures NeverRounds(parts, PartValue, grain)
  {
    if parts != [] {
      var rest, last := parts[..|parts| - 1], parts[|parts| - 1];
      FewDigitsNeverRound(rest, grain);
      FewDigitsFit(parts, grain);
      OneTotal(last, DigitCount);
      OneTotal(last, Places);
      FewDigitsFit([last], grain);
      OneExact(last, PartValue, grain);
    }
  }

  lemma OneExact(item: string, worth: Worth, grain: nat)
    ensures ExactSum([item], worth, grain) == worth(item, grain)
  {
    assert [item][..0] == [];
  }

  // ---------------------------------------------------------------- what holds up to 23 digits

  lemma {:induction false} PartsMatch(text: string, m: Matcher)
    requires Sane(m)
    ensures forall i :: 0 <= i < |Parts(text, m)| ==> Matched(Parts(text, m)[i], m)
    decreases |text|
  {
    if text != [] {
      var n := m(text);
      PartsMatch(if 0 < n <= |text| then text[n..] else text[1..], m);
      if 0 < n <= |text| {
        assert m(text[..n]) == n;
      }
    }
  }

  lemma MostAtMost(parts: seq<string>, f: Measure, bound: nat)
    requires forall i :: 0 <= i < |parts| ==> f(parts[i]) <= bound
    ensures Most(parts, f) <= bound
  {
    if parts != [] {
      MostAtMost(parts[..|parts| - 1], f, bound);
    }
  }

  lemma TextFits(text: string, grain: nat)
    requires |text| <= grain
    ensures var parts := Parts(text, PartLength);
            AllMatched(parts) && Total(parts, DigitCount) <= DigitCount(text) && Most(parts, Places) <= grain
  {
    MatcherIsSane();
    PartsMatch(text, PartLength);
    CountParts(text, PartLength);
    PartsFit(text, PartLength);
    MostAtMost(Parts(text, PartLength), Places, grain);
  }

  /** With at most 23 digits nothing is rounded: the answer is the exact sum of the parts. */
  lemma FewDigitsExact(raw: string)
    requires Ascii(raw) && DigitCount(raw) <= ENOUGH && Accepted(TextOf(raw), PartLength)
    ensures AnswersExactly(raw)
  {
    var text := TextOf(raw);
    AcceptedText(text, PartLength);
    TextCount(raw);
    TextFits(text, |text|);
    FewDigitsNeverRound(Parts(text, PartLength), |text|);
    SumIsExact(Parts(text, PartLength), PartValue, |text|);
    StartsAtZero(text);
  }

  predicate AnswersExactly(raw: string) {
    var text := TextOf(raw);
    ParseDuration(TextValue(raw)) == Seconds(ExactSum(Parts(text, PartLength), PartValue, |text|), |text|)
  }

  lemma MostJoins(a: seq<string>, b: seq<string>, f: Measure, bound: nat)
    requires Most(a, f) <= bound && Most(b, f) <= bound
    ensures Most(a + b, f) <= bound
  {
    MostIsMost(a, f);
    MostIsMost(b, f);
    MostAtMost(a + b, f, bound);
  }

  /** Sums that are exact together and apart add up. */
  lemma ExactJoin(a: seq<string>, b: seq<string>, worth: Worth, grain: nat)
    requires NeverRounds(a, worth, grain) && NeverRounds(b, worth, grain) && NeverRounds(a + b, worth, grain)
    ensures Sum(0, a + b, worth, grain) == Sum(0, a, worth, grain) + Sum(0, b, worth, grain)
  {
    SumIsExact(a, worth, grain);
    SumIsExact(b, worth, grain);
    SumIsExact(a + b, worth, grain);
    ExactSplits(a, b, worth, grain);
  }

  lemma FewDigitsAdd(a: string, b: string, g: nat)
    requires |a| + |b| <= g && DigitCount(a) + DigitCount(b) <= ENOUGH
    ensures var p, q := Parts(a, PartLength), Parts(b, PartLength);
            Sum(0, p + q, PartValue, g) == Sum(0, p, PartValue, g) + Sum(0, q, PartValue, g)
  {
    var p, q := Parts(a, PartLength), Parts(b, PartLength);
    TextFits(a, g);
    TextFits(b, g);
    TotalJoins(p, q, DigitCount);
    MostJoins(p, q, Places, g);
    FewDigitsNeverRound(p, g);
    FewDigitsNeverRound(q, g);
    FewDigitsNeverRound(p + q, g);
    ExactJoin(p, q, PartValue, g);
  }

  /** Sums that add up at a fine grain add up as seconds. */
  lemma AddedSums(p: seq<string>, q: seq<string>, worth: Worth, x: nat, y: nat, near: nat, far: nat, g: nat)
    requires near <= g && far <= g && AllScale(p, worth, near) && AllScale(q, worth, far)
    requires Seconds(Sum(0, p, worth, near), near) == Some(x) && Seconds(Sum(0, q, worth, far), far) == Some(y)
    requires Sum(0, p + q, worth, g) == Sum(0, p, worth, g) + Sum(0, q, worth, g)
    ensures Seconds(Sum(x * Pow10(far), q, worth, far), far) == Some(x + y)
  {
    FirstSum(p, worth, x, near, g);
    FirstSum(q, worth, y, far, g);
    Distribute(x, y, Pow10(g));
    SecondsAre(Sum(0, p + q, worth, g), g, x + y);
    JoinedSum(p, q, worth, x, near, far, g);
  }

  lemma FewDigitsJoin(a: string, b: string, x: nat, y: nat)
    requires ParseText(a, PartLength, PartValue) == Some(x) && ParseText(b, PartLength, PartValue) == Some(y)
    requires DigitCount(a) + DigitCount(b) <= ENOUGH
    ensures ParseFrom(x, b, PartLength, PartValue) == Some(x + y)
  {
    var g := |a| + |b|;
    FewDigitsAdd(a, b, g);
    StartsAtZero(a);
    StartsAtZero(b);
    PartsScale(a);
    PartsScale(b);
    AddedSums(Parts(a, PartLength), Parts(b, PartLength), PartValue, x, y, |a|, |b|, g);
  }

  predicate JoinsExactly(s: string, t: string, x: int, y: int) {
    ParseDuration(TextValue(s + t)) == if AllBlank(Trailing(s) + Leading(t)) then Some(x + y) else None
  }

  /** Two accepted texts with at most 23 digits between them: joined, they stand for the sum
      exactly when the white space at the joint is all blanks, and are rejected otherwise. */
  lemma JoinIffBlankJoint(s: string, t: string, x: int, y: int)
    requires Ascii(s) && Ascii(t) && DigitCount(s) + DigitCount(t) <= ENOUGH
    requires ParseDuration(TextValue(s)) == Some(x) && ParseDuration(TextValue(t)) == Some(y)
    ensures JoinsExactly(s, t, x, y)
  {
    JoinAnswer(s, t, x);
    AcceptedText(TextOf(s), PartLength);
    AcceptedText(TextOf(t), PartLength);
    TextCount(s);
    TextCount(t);
    FewDigitsJoin(TextOf(s), TextOf(t), x, y);
  }
}
