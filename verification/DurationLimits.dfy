/** How far the sums of the duration parser (app/core/settings.py:75-85) stay exact, and inputs
    past that. */
module DurationLimits {
  import opened Base
  import opened Decimals
  import opened RoundedSums
  import opened Scanning
  import opened Durations
  import opened DurationTheorems
  import opened DurationDigits

  // ---------------------------------------------------------------- and no further

  ghost predicate AllExact(n: nat) {
    forall raw: string :: Ascii(raw) && DigitCount(raw) <= n && Accepted(TextOf(raw), PartLength) ==>
      AnswersExactly(raw)
  }

  ghost predicate AllAdditive(n: nat) {
    forall s: string, t: string, x: int, y: int ::
      && Ascii(s) && Ascii(t) && DigitCount(s) + DigitCount(t) <= n
      && ParseDuration(TextValue(s)) == Some(x) && ParseDuration(TextValue(t)) == Some(y)
      ==> JoinsExactly(s, t, x, y)
  }

  /** A number as it is written down, with a unit. */
  function Written(whole: string, fraction: string, unit: char): string {
    whole + (if fraction == "" then "" else "." + fraction) + [unit]
  }

  predicate AllDigits(s: string) {
    forall i :: 0 <= i < |s| ==> IsDigit(s[i])
  }

  lemma WrittenShape(whole: string, fraction: string, unit: char)
    requires whole != [] && AllDigits(whole) && AllDigits(fraction) && IsUnit(unit)
    ensures var p, a := Written(whole, fraction, unit), |whole|;
            var b := if fraction == "" then a else a + 1 + |fraction|;
            && PartShape(p, a, b, b) && Digits(p) == a && NumberLength(p) == b
            && p[..a] == whole && p[b - |fraction|..b] == fraction && Ascii(p)
  {
    var p, a := Written(whole, fraction, unit), |whole|;
    var b := if fraction == "" then a else a + 1 + |fraction|;
    assert forall i :: a < i < b ==> p[i] == fraction[i - a - 1];
    NumberIs(p, a, b);
  }

  lemma NothingToStrip(p: string)
    requires p != [] && !IsSpace(p[0]) && !IsSpace(p[|p| - 1])
    requires forall i :: 0 <= i < |p| ==> !('A' <= p[i] <= 'Z')
    ensures TextOf(p) == p
  {
    assert Lower(p) == p;
  }

  lemma WrittenValue(whole: string, fraction: string, unit: char, grain: nat)
    requires whole != [] && AllDigits(whole) && AllDigits(fraction) && IsUnit(unit) && |fraction| <= grain
    ensures PartValue(Written(whole, fraction, unit), grain)
            == Scaled(DigitsValue(whole + fraction), unit) * Pow10(grain - |fraction|)
  {
    var p, k := Written(whole, fraction, unit), |fraction|;
    WrittenShape(whole, fraction, unit);
    assert Numeral(p) == whole + fraction && Places(p) == k;
    UnitScales(DigitsValue(whole + fraction), Pow10(grain - k), unit);
  }

  lemma ParsePart(p: string, m: Matcher, worth: Worth, amount: nat, k: nat)
    requires Matched(p, m) && k <= |p| && worth(p, |p|) == amount * Pow10(|p| - k)
    ensures ParseText(p, m, worth) == Seconds(Round28(amount), k)
  {
    OnePartScan(p, m, worth);
    RoundScales(amount, |p| - k);
    SecondsScale(Round28(amount), k, |p|);
  }

  /** A text that is one part as it stands. */
  predicate OnePart(p: string) {
    Ascii(p) && TextOf(p) == p && Matched(p, PartLength)
  }

  lemma WrittenIsPart(whole: string, fraction: string, unit: char)
    requires whole != [] && AllDigits(whole) && AllDigits(fraction) && IsUnit(unit)
    ensures OnePart(Written(whole, fraction, unit))
  {
    var p := Written(whole, fraction, unit);
    WrittenShape(whole, fraction, unit);
    NothingToStrip(p);
    ShapeMatches(p, Digits(p), NumberLength(p), NumberLength(p));
  }

  /** A number written down with a unit is read as its value, rounded. */
  lemma ReadsWritten(whole: string, fraction: string, unit: char)
    requires whole != [] && AllDigits(whole) && AllDigits(fraction) && IsUnit(unit)
    ensures ParseDuration(TextValue(Written(whole, fraction, unit)))
            == Seconds(Round28(Scaled(DigitsValue(whole + fraction), unit)), |fraction|)
  {
    var p := Written(whole, fraction, unit);
    WrittenIsPart(whole, fraction, unit);
    WrittenValue(whole, fraction, unit, |p|);
    ParsePart(p, PartLength, PartValue, Scaled(DigitsValue(whole + fraction), unit), |fraction|);
  }

  /** A part without a fraction that is worth x seconds. */
  ghost predicate Worthy(p: string, x: nat) {
    OnePart(p) && forall g: nat :: PartValue(p, g) == x * Pow10(g)
  }

  lemma WholeIsWorth(p: string, whole: string, unit: char, x: nat)
    requires whole != [] && AllDigits(whole) && IsUnit(unit) && x == Scaled(DigitsValue(whole), unit)
    requires p == Written(whole, "", unit)
    ensures Worthy(p, x)
  {
    WrittenIsPart(whole, "", unit);
    forall g: nat
      ensures PartValue(p, g) == x * Pow10(g)
    {
      WrittenValue(whole, "", unit, g);
      assert whole + "" == whole;
    }
  }

  lemma ReadsWorth(p: string, x: nat)
    requires Worthy(p, x)
    ensures ParseDuration(TextValue(p)) == Some(Round28(x))
  {
    ParseWhole(p, PartLength, PartValue, x);
  }

  lemma ParseWhole(p: string, m: Matcher, worth: Worth, x: nat)
    requires Matched(p, m) && worth(p, |p|) == x * Pow10(|p|)
    ensures ParseText(p, m, worth) == Some(Round28(x))
  {
    ParsePart(p, m, worth, x, 0);
    assert Pow10(0) == 1;
  }

  lemma WrittenCount(whole: string, unit: char)
    requires AllDigits(whole) && !IsDigit(unit)
    ensures DigitCount(Written(whole, "", unit)) == |whole|
  {
    assert whole + "" + [unit] == whole + [unit];
    CountAll(whole);
    CountJoins(whole, [unit]);
    OneCount(unit);
  }

  lemma OneCount(c: char)
    requires !IsDigit(c)
    ensures DigitCount([c]) == 0
  {
    assert DigitCount([c][1..]) == 0;
  }

  function Repeat(c: char, n: nat): (s: string)
    ensures |s| == n && forall i :: 0 <= i < n ==> s[i] == c
  {
    if n == 0 then "" else Repeat(c, n - 1) + [c]
  }

  lemma {:induction false} NinesValue(n: nat)
    ensures DigitsValue(Repeat('9', n)) == Pow10(n) - 1
  {
    if n > 0 {
      NinesValue(n - 1);
      assert Repeat('9', n)[..n - 1] == Repeat('9', n - 1);
    }
  }

  lemma {:induction false} ZerosValue(s: string, n: nat)
    ensures DigitsValue(s + Repeat('0', n)) == DigitsValue(s) * Pow10(n)
  {
    if n == 0 {
      assert s + Repeat('0', 0) == s;
    } else {
      var longer := s + Repeat('0', n);
      ZerosValue(s, n - 1);
      assert longer[..|longer| - 1] == s + Repeat('0', n - 1);
      TimesNextPower(DigitsValue(s), n);
    }
  }

  lemma DigitValue(c: char)
    requires IsDigit(c)
    ensures DigitsValue([c]) == c as int - '0' as int
  {
    assert [c][..0] == [];
  }

  lemma OddNotHeld(n: nat)
    requires n >= LIMIT && n % 10 != 0
    ensures !Representable(n)
  {
    if Representable(n) {
      var c: nat, k: nat :| Shifted(c, k, n);
      assert k == 0 ==> Pow10(k) == 1;
      if k > 0 {
        TimesNextPower(c, k);
      }
    }
  }

  /** 23 nines of weeks, and one second. */
  function Weeks(): string {
    Written(Repeat('9', ENOUGH), "", 'w')
  }

  function OneSecond(): string {
    Written(Repeat('1', 1), "", 's')
  }

  const WEEKS := 604800 * 99_999_999_999_999_999_999_999

  lemma ReadsOneSecond(p: string)
    requires p == OneSecond()
    ensures Worthy(p, 1) && DigitCount(p) == 1 && ParseDuration(TextValue(p)) == Some(1)
  {
    var one := Repeat('1', 1);
    assert one == ['1'];
    DigitValue('1');
    SmallIsFixed(1);
    WholeIsWorth(p, one, 's', 1);
    ReadsWorth(p, 1);
    WrittenCount(one, 's');
  }

  lemma ReadsWeeks(p: string)
    requires p == Weeks()
    ensures Worthy(p, WEEKS) && DigitCount(p) == ENOUGH && ParseDuration(TextValue(p)) == Some(WEEKS)
  {
    var nines := Repeat('9', ENOUGH);
    NinesValue(ENOUGH);
    PowersNamed();
    assert Pow10(2) == 100;
    assert Shifted(WEEKS / 100, 2, WEEKS);
    FixedIffRepresentable(WEEKS);
    WholeIsWorth(p, nines, 'w', WEEKS);
    ReadsWorth(p, WEEKS);
    WrittenCount(nines, 'w');
  }

  lemma TwoScan(p: string, q: string, m: Matcher)
    requires Sane(m) && Matched(p, m) && Matched(q, m)
    ensures Parts(p + q, m) == [p, q]
  {
    MatchedScan(p, m);
    MatchedScan(q, m);
    ScanJoins(p, q, m);
  }

  lemma {:induction false} NothingAtEnds(p: string, q: string)
    requires p != [] && q != [] && !IsSpace(p[|p| - 1]) && !IsSpace(q[0])
    ensures Trailing(p) + Leading(q) == ""
  {
  }

  /** A part followed by a part, with nothing at the joint. */
  lemma PartsMeet(p: string, q: string)
    requires OnePart(p) && OnePart(q)
    ensures Trailing(p) + Leading(q) == "" && Ascii(p + q)
    ensures TextOf(p + q) == p + q && Parts(p + q, PartLength) == [p, q]
  {
    TextTrimmed(p);
    TextTrimmed(q);
    NothingAtEnds(p, q);
    TextJoins(p, q);
    assert p + (Trailing(p) + Leading(q)) + q == p + q;
    MatcherIsSane();
    TwoScan(p, q, PartLength);
  }

  lemma MeetingParts(p: string, q: string, x: int, y: int)
    requires OnePart(p) && ParseDuration(TextValue(p)) == Some(x)
    requires OnePart(q) && ParseDuration(TextValue(q)) == Some(y)
    ensures x >= 0 && y >= 0 && ParseDuration(TextValue(p + q)) == Some(Round28(x + y))
  {
    PartsMeet(p, q);
    MatchedScan(q, PartLength);
    JoinedPartIff(p, q, x, y);
  }

  lemma TwoExact(p: string, q: string, worth: Worth, x: nat, y: nat, g: nat)
    requires worth(p, g) == x * Pow10(g) && worth(q, g) == y * Pow10(g)
    ensures Seconds(ExactSum([p, q], worth, g), g) == Some(x + y)
  {
    ExactSplits([p], [q], worth, g);
    OneExact(p, worth, g);
    OneExact(q, worth, g);
    assert [p] + [q] == [p, q];
    Distribute(x, y, Pow10(g));
    SecondsAre(ExactSum([p, q], worth, g), g, x + y);
  }

  /** One digit more, and both promises can fail. */
  lemma TooManyDigits() returns (p: string, q: string, x: nat, y: nat)
    ensures Ascii(p) && Ascii(q) && DigitCount(p) + DigitCount(q) == ENOUGH + 1
    ensures ParseDuration(TextValue(p)) == Some(x) && ParseDuration(TextValue(q)) == Some(y)
    ensures !JoinsExactly(p, q, x, y)
    ensures Ascii(p + q) && Accepted(TextOf(p + q), PartLength) && !AnswersExactly(p + q)
  {
    p, q, x, y := InexactParts();
    InexactPair(p, q, x, y);
  }

  lemma InexactParts() returns (p: string, q: string, x: nat, y: nat)
    ensures DigitCount(p) + DigitCount(q) == ENOUGH + 1 && Round28(x + y) != x + y
    ensures Worthy(p, x) && ParseDuration(TextValue(p)) == Some(x)
    ensures Worthy(q, y) && ParseDuration(TextValue(q)) == Some(y)
  {
    p, x := SomeWeeks();
    q, y := SomeSecond();
    FixedIffRepresentable(x + y);
  }

  lemma SomeWeeks() returns (p: string, x: nat)
    ensures Worthy(p, x) && ParseDuration(TextValue(p)) == Some(x) && DigitCount(p) == ENOUGH
    ensures !Representable(x + 1)
  {
    p := Weeks();
    x := WEEKS;
    OddNotHeld(x + 1);
    ReadsWeeks(p);
  }

  lemma SomeSecond() returns (q: string, y: nat)
    ensures Worthy(q, y) && ParseDuration(TextValue(q)) == Some(y) && DigitCount(q) == y == 1
  {
    q, y := OneSecond(), 1;
    ReadsOneSecond(q);
  }

  lemma InexactPair(p: string, q: string, x: nat, y: nat)
    requires Worthy(p, x) && ParseDuration(TextValue(p)) == Some(x)
    requires Worthy(q, y) && ParseDuration(TextValue(q)) == Some(y)
    requires Round28(x + y) != x + y
    ensures !JoinsExactly(p, q, x, y)
    ensures Ascii(p + q) && Accepted(TextOf(p + q), PartLength) && !AnswersExactly(p + q)
  {
    PartsMeet(p, q);
    MeetingParts(p, q, x, y);
    TwoExact(p, q, PartValue, x, y, |p + q|);
  }

  /** Up to 23 digits every answer is the exact sum, and from 24 digits on not every one is. */
  lemma ExactIff(n: nat)
    ensures AllExact(n) <==> n <= ENOUGH
  {
    if n <= ENOUGH {
      forall raw: string | Ascii(raw) && DigitCount(raw) <= n && Accepted(TextOf(raw), PartLength)
        ensures AnswersExactly(raw)
      {
        FewDigitsExact(raw);
      }
    } else {
      var p, q, x, y := TooManyDigits();
      CountJoins(p, q);
    }
  }

  /** Joining texts adds their values, unless white space other than blanks lies between, for
      all texts with up to 23 digits between them, and not for all with 24. */
  lemma AdditiveIff(n: nat)
    ensures AllAdditive(n) <==> n <= ENOUGH
  {
    if n <= ENOUGH {
      forall s: string, t: string, x: int, y: int |
        && Ascii(s) && Ascii(t) && DigitCount(s) + DigitCount(t) <= n
        && ParseDuration(TextValue(s)) == Some(x) && ParseDuration(TextValue(t)) == Some(y)
        ensures JoinsExactly(s, t, x, y)
      {
        JoinIffBlankJoint(s, t, x, y);
      }
    } else {
      var p, q, x, y := TooManyDigits();
    }
  }

  // ---------------------------------------------------------------- some inputs

  lemma RoundsOneDigit(n: nat)
    requires n == LIMIT
    ensures Round28(n) == n && Round28(n + 1) == n
  {
    assert Pow10(1) == 10 && Excess(n) == 1 && Excess(n + 1) == 1;
  }

  lemma RoundsThreeDigits(n: nat)
    requires n == 60 * (10 * LIMIT)
    ensures Round28(n + 1) == n
  {
    assert Pow10(3) == 1000;
    var a, b := 60 * LIMIT, 6 * LIMIT;
    assert (n + 1) / 10 == a && a / 10 == b && b / 10 < LIMIT;
    assert Excess(b) == 1;
    assert Excess(a) == 2;
    assert Excess(n + 1) == 3;
  }

  lemma LimitIsPower()
    ensures Pow10(28) == LIMIT && Pow10(29) == 10 * LIMIT
  {
    PowersNamed();
    PowersAdd(23, 5);
    assert Pow10(5) == 100_000;
  }

  /** Past that, a second can get lost. */
  lemma SecondLost(s: string, t: string)
    requires s == Written("1" + Repeat('0', 28), "", 's') && t == OneSecond()
    ensures ParseDuration(TextValue(s)) == Some(LIMIT) && ParseDuration(TextValue(t)) == Some(1)
    ensures ParseDuration(TextValue(s + t)) == Some(LIMIT)
  {
    ZerosValue(['1'], 28);
    DigitValue('1');
    LimitIsPower();
    RoundsOneDigit(LIMIT);
    WholeIsWorth(s, ['1'] + Repeat('0', 28), 's', LIMIT);
    ReadsWorth(s, LIMIT);
    ReadsOneSecond(t);
    MeetingParts(s, t, LIMIT, 1);
  }

  /** And a text that does not stand for a whole number can be accepted. */
  lemma FractionLost(fraction: string)
    requires fraction == Repeat('0', 28) + "1"
    ensures ParseDuration(TextValue(Written("60", fraction, 's'))) == Some(60)
  {
    var sixty := "60";
    SixtyAndABit(sixty + fraction);
    ReadsRounded(sixty, fraction, 60);
  }

  lemma ReadsRounded(whole: string, fraction: string, x: nat)
    requires whole != [] && AllDigits(whole) && AllDigits(fraction) && |fraction| == 29 && x == 60
    requires DigitsValue(whole + fraction) == x * Pow10(29) + 1
    ensures ParseDuration(TextValue(Written(whole, fraction, 's'))) == Some(x)
  {
    ReadsWritten(whole, fraction, 's');
    var n := x * Pow10(29);
    LimitIsPower();
    RoundsThreeDigits(n);
    SecondsAre(n, 29, x);
  }

  lemma SixtyAndABit(digits: string)
    requires digits == "60" + (Repeat('0', 28) + "1")
    ensures DigitsValue(digits) == 60 * Pow10(29) + 1
  {
    var sixty := ['6'] + Repeat('0', 1);
    ZerosValue(['6'], 1);
    DigitValue('6');
    assert Pow10(1) == 10;
    ZerosValue(sixty, 28);
    assert sixty == "60";
    assert digits == (sixty + Repeat('0', 28)) + "1";
    assert digits[..|digits| - 1] == sixty + Repeat('0', 28);
    TimesNextPower(60, 29);
  }

  /** White space other than blanks at the joint makes the parser reject the joined text. */
  lemma TabRejected(second: string, tabbed: string)
    requires second == OneSecond() && tabbed == second + [9 as char]
    ensures ParseDuration(TextValue(second)) == Some(1) && ParseDuration(TextValue(tabbed)) == Some(1)
    ensures ParseDuration(TextValue(tabbed + second)) == None
  {
    ReadsOneSecond(second);
    TextTrimmed(second);
    StripRightIs(second, [9 as char]);
    assert StripLeft(tabbed) == tabbed;
    assert StripLeft(second) == second;
    StripRightIs(second, "");
    assert second + "" == second;
    assert TextOf(tabbed) == TextOf(second);
    JoinAnswer(tabbed, second, 1);
    assert Trailing(tabbed)[|Trailing(tabbed)| - 1] == 9 as char;
    assert (Trailing(tabbed) + Leading(second))[|Trailing(tabbed)| - 1] == 9 as char;
  }

  // ---------------------------------------------------------------- units, case and margins

  /** What one of each unit is read as. */
  lemma UnitsAre(one: string)
    requires one == Repeat('1', 1)
    ensures ParseDuration(TextValue(Written(one, "", 's'))) == Some(1)
    ensures ParseDuration(TextValue(Written(one, "", 'm'))) == Some(60)
    ensures ParseDuration(TextValue(Written(one, "", 'h'))) == Some(3600)
    ensures ParseDuration(TextValue(Written(one, "", 'd'))) == Some(86400)
    ensures ParseDuration(TextValue(Written(one, "", 'w'))) == Some(604800)
  {
    assert one == ['1'];
    DigitValue('1');
    OneOf(one, 's', 1);
    OneOf(one, 'm', 60);
    OneOf(one, 'h', 3600);
    OneOf(one, 'd', 86400);
    OneOf(one, 'w', 604800);
  }

  lemma OneOf(one: string, unit: char, x: nat)
    requires one == ['1'] && IsUnit(unit) && x == Scaled(DigitsValue(one), unit) && x < LIMIT
    ensures ParseDuration(TextValue(Written(one, "", unit))) == Some(x)
  {
    SmallIsFixed(x);
    WholeIsWorth(Written(one, "", unit), one, unit, x);
    ReadsWorth(Written(one, "", unit), x);
  }

  /** The same letters, some of them capitals in one text and small in the other. */
  predicate SameButCase(s: string, t: string) {
    && |s| == |t|
    && forall i :: 0 <= i < |s| ==>
         || s[i] == t[i]
         || ('A' <= s[i] <= 'Z' && t[i] as int == s[i] as int + 32)
         || ('A' <= t[i] <= 'Z' && s[i] as int == t[i] as int + 32)
  }

  lemma {:induction false} LeftSameButCase(s: string, t: string)
    requires SameButCase(s, t)
    ensures SameButCase(StripLeft(s), StripLeft(t))
  {
    if s != [] && IsSpace(s[0]) {
      LeftSameButCase(s[1..], t[1..]);
    }
  }

  lemma {:induction false} RightSameButCase(s: string, t: string)
    requires SameButCase(s, t)
    ensures SameButCase(StripRight(s), StripRight(t))
  {
    if s != [] && IsSpace(s[|s| - 1]) {
      RightSameButCase(s[..|s| - 1], t[..|t| - 1]);
    }
  }

  /** Capitals and small letters are read alike. */
  lemma CaseIgnored(s: string, t: string)
    requires SameButCase(s, t)
    ensures ParseDuration(TextValue(s)) == ParseDuration(TextValue(t))
  {
    LeftSameButCase(s, t);
    RightSameButCase(StripLeft(s), StripLeft(t));
    assert Lower(Core(s)) == Lower(Core(t));
  }

  lemma {:induction false} NothingButSpace(s: string)
    ensures Core(s) == [] <==> AllSpace(s)
  {
    if Core(s) != [] {
      CoreSplits(s);
      assert s[|Leading(s)|] == Core(s)[0];
    } else {
      StripLeftSplits(s);
      StripRightSplits(StripLeft(s));
      assert s == Leading(s) + (StripRight(StripLeft(s)) + Trailing(StripLeft(s)));
    }
  }

  lemma CoreBetween(left: string, core: string, right: string)
    requires AllSpace(left) && AllSpace(right)
    requires core != [] && !IsSpace(core[0]) && !IsSpace(core[|core| - 1])
    ensures Core(left + (core + right)) == core
  {
    assert (core + right)[0] == core[0];
    StripLeftIs(left, core + right);
    StripRightIs(core, right);
  }

  lemma FiveTexts(a: string, b: string, c: string, d: string, e: string)
    ensures a + (b + c + d) + e == (a + b) + (c + (d + e))
  {
  }

  /** White space around a text does not matter. */
  lemma MarginsIgnored(a: string, s: string, b: string)
    requires AllSpace(a) && AllSpace(b)
    ensures ParseDuration(TextValue(a + s + b)) == ParseDuration(TextValue(s))
  {
    if Core(s) == [] {
      NothingButSpace(s);
      NothingButSpace(a + s + b);
    } else {
      CoreSplits(s);
      FiveTexts(a, Leading(s), Core(s), Trailing(s), b);
      CoreBetween(a + Leading(s), Core(s), Trailing(s) + b);
    }
  }
}
