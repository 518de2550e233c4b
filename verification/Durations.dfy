/** Duration texts (app/core/settings.py:26-39, 59-85), over ASCII: parts such as `1.5h` are
    found by scanning, and what was found is compared with the text to reject the rest. Numbers
    are decimals; every product and every partial sum is rounded to 28 digits. */
module Durations {
  import opened Base
  import opened Decimals
  import opened RoundedSums
  import opened Scanning

  predicate IsUnit(c: char) {
    c == 's' || c == 'm' || c == 'h' || c == 'd' || c == 'w'
  }

  function LowerChar(c: char): char {
    if 'A' <= c <= 'Z' then c + 32 as char else c
  }

  function Lower(s: string): string {
    seq(|s|, i requires 0 <= i < |s| => LowerChar(s[i]))
  }

  function StripLeft(s: string): string {
    if s != [] && IsSpace(s[0]) then StripLeft(s[1..]) else s
  }

  function StripRight(s: string): string {
    if s != [] && IsSpace(s[|s| - 1]) then StripRight(s[..|s| - 1]) else s
  }

  /** `str(value).strip().lower()`. */
  function TextOf(s: string): string {
    Lower(StripRight(StripLeft(s)))
  }

  // ---------------------------------------------------------------- one part

  /** Length of the run of digits at the start. */
  function Digits(s: string): (n: nat)
    ensures n <= |s| && forall i :: 0 <= i < n ==> IsDigit(s[i])
    ensures n < |s| ==> !IsDigit(s[n])
  {
    if s != [] && IsDigit(s[0]) then 1 + Digits(s[1..]) else 0
  }

  function Spaces(s: string): (n: nat)
    ensures n <= |s| && forall i :: 0 <= i < n ==> IsSpace(s[i])
    ensures n < |s| ==> !IsSpace(s[n])
  {
    if s != [] && IsSpace(s[0]) then 1 + Spaces(s[1..]) else 0
  }

  /** Length of the number at the start: digits, and a fraction if there is one. */
  function NumberLength(s: string): (n: nat)
    ensures n <= |s|
  {
    var whole := Digits(s);
    if whole > 0 && whole < |s| && s[whole] == '.' && Digits(s[whole + 1..]) > 0
    then whole + 1 + Digits(s[whole + 1..])
    else whole
  }

  /** Length of the match of `(\d+(?:\.\d+)?)\s*([smhdw])` at the start; 0 if there is none.
      Taking fewer digits or spaces than there are never leads to a match. */
  function PartLength(s: string): (n: nat)
    ensures n <= |s|
    ensures n > 0 ==> IsDigit(s[0]) && IsUnit(s[n - 1])
  {
    var number := NumberLength(s);
    var end := number + Spaces(s[number..]);
    if Digits(s) > 0 && end < |s| && IsUnit(s[end]) then end + 1 else 0
  }

  function DigitsValue(s: string): nat {
    if s == [] then 0
    else if IsDigit(s[|s| - 1]) then 10 * DigitsValue(s[..|s| - 1]) + (s[|s| - 1] as int - '0' as int)
    else 0
  }

  /** Digits behind the decimal point of the number at the start. */
  function Places(s: string): nat {
    if NumberLength(s) > Digits(s) then NumberLength(s) - Digits(s) - 1 else 0
  }

  /** The digits of the number at the start, without its point. */
  function Numeral(s: string): string {
    s[..Digits(s)] + s[NumberLength(s) - Places(s)..NumberLength(s)]
  }

  /** The number at the start, in units of ten to the minus `grain`; meant for grains no
      coarser than the number. */
  function NumberOf(s: string, grain: nat): nat {
    var shift := if grain > Places(s) then grain - Places(s) else 0;
    DigitsValue(Numeral(s)) * Pow10(shift)
  }

  /** DURATION_UNITS. */
  function Scaled(amount: nat, unit: char): nat {
    if unit == 's' then amount
    else if unit == 'm' then 60 * amount
    else if unit == 'h' then 3600 * amount
    else if unit == 'd' then 86400 * amount
    else if unit == 'w' then 604800 * amount
    else 0
  }

  /** The seconds a part stands for, before any rounding. */
  function PartValue(part: string, grain: nat): nat {
    if part == [] then 0 else Scaled(NumberOf(part, grain), part[|part| - 1])
  }

  // ---------------------------------------------------------------- the parser

  /** A decimal, digits times ten to the minus `places`, or a text. */
  datatype RawValue = NumberValue(negative: bool, digits: nat, places: nat) | TextValue(text: string)

  /** What a part is worth. */
  type Worth = (string, nat) -> nat

  /** The answer for an accepted text when the sum starts at `start` seconds: the rounded total,
      if it is whole. No part has more decimal places than the text has characters. */
  function ParseFrom(start: nat, text: string, m: Matcher, worth: Worth): Option<nat> {
    var grain := |text|;
    if !Accepted(text, m) then None
    else Seconds(Sum(start * Pow10(grain), Parts(text, m), worth, grain), grain)
  }

  function ParseText(text: string, m: Matcher, worth: Worth): Option<nat> {
    ParseFrom(0, text, m, worth)
  }

  function Signed(negative: bool, answer: Option<nat>): Option<int> {
    match answer
    case None => None
    case Some(n) => Some(if negative then 0 - n else n)
  }

  /** `_parse_duration`; nothing where it raises. */
  function ParseDuration(value: RawValue): Option<int> {
    match value
    case NumberValue(negative, digits, places) => Signed(negative, Seconds(Round28(digits), places))
    case TextValue(raw) => ParseText(TextOf(raw), PartLength, PartValue)
  }

  /** A table of units: an amount of a unit, named in lower case, in the base unit. */
  type Units = (nat, string) -> Option<nat>

  function DurationUnits(amount: nat, unit: string): Option<nat> {
    if |unit| == 1 && IsUnit(unit[0]) then Some(Scaled(amount, unit[0])) else None
  }

  predicate AllLetters(s: string) {
    forall i :: 0 <= i < |s| ==> 'a' <= s[i] <= 'z' || 'A' <= s[i] <= 'Z'
  }

  /** Where the unit starts: behind the number and the white space after it. */
  function UnitAt(s: string): (at: nat)
    ensures at <= |s|
  {
    NumberLength(s) + Spaces(s[NumberLength(s)..])
  }

  function InUnits(amount: nat, grain: nat, unit: string, units: Units): Option<nat> {
    var scaled := units(amount, unit);
    if scaled.Some? then Seconds(Round28(scaled.value), grain) else None
  }

  /** `_parse_scaled`: one number and at most one unit, white space around them. Letter case
      matters to the unit alone, which is compared in lower case. */
  function ParseScaled(value: RawValue, units: Units, defaultUnit: string): Option<int> {
    match value
    case NumberValue(negative, digits, places) => Signed(negative, InUnits(digits, places, defaultUnit, units))
    case TextValue(raw) => ScaledText(TextOf(raw), units, defaultUnit)
  }

  function ScaledText(text: string, units: Units, defaultUnit: string): Option<nat> {
    var unit := text[UnitAt(text)..];
    if Digits(text) == 0 || !AllLetters(unit) then None
    else InUnits(NumberOf(text, |text|), |text|, if unit == "" then defaultUnit else unit, units)
  }

  // ---------------------------------------------------------------- a match and what follows it

  lemma {:induction false} DigitsStop(s: string, t: string)
    requires Digits(s) < |s|
    ensures Digits(s + t) == Digits(s)
  {
    assert (s + t)[0] == s[0];
    if IsDigit(s[0]) {
      DigitsStop(s[1..], t);
      assert (s + t)[1..] == s[1..] + t;
    }
  }

  lemma {:induction false} SpacesStop(s: string, t: string)
    requires Spaces(s) < |s|
    ensures Spaces(s + t) == Spaces(s)
  {
    assert (s + t)[0] == s[0];
    if IsSpace(s[0]) {
      SpacesStop(s[1..], t);
      assert (s + t)[1..] == s[1..] + t;
    }
  }

  lemma NumberStops(s: string, t: string)
    requires PartLength(s) > 0
    ensures NumberLength(s + t) == NumberLength(s) && Digits(s + t) == Digits(s)
  {
    var whole := Digits(s);
    DigitsStop(s, t);
    if s[whole] == '.' && whole + 1 < |s| && Digits(s[whole + 1..]) < |s[whole + 1..]| {
      DigitsStop(s[whole + 1..], t);
      DropJoins(s, t, whole + 1);
    }
  }

  /** A match does not depend on what follows it. */
  lemma PartStops(s: string, t: string)
    requires PartLength(s) > 0
    ensures PartLength(s + t) == PartLength(s)
  {
    NumberStops(s, t);
    var number := NumberLength(s);
    SpacesStop(s[number..], t);
    DropJoins(s, t, number);
  }

  // ---------------------------------------------------------------- the grammar of a part

  /** Digits, an optional fraction, white space, one unit letter, and nothing else. */
  predicate PartShape(p: string, a: int, b: int, c: int) {
    && 1 <= a <= b <= c == |p| - 1
    && (forall i :: 0 <= i < a ==> IsDigit(p[i]))
    && (b == a || (p[a] == '.' && a + 1 < b && forall i :: a < i < b ==> IsDigit(p[i])))
    && (forall i :: b <= i < c ==> IsSpace(p[i]))
    && IsUnit(p[c])
  }

  ghost predicate IsPart(p: string) {
    exists a, b, c :: PartShape(p, a, b, c)
  }

  lemma {:induction false} DigitsAre(s: string, n: nat)
    requires n < |s| && (forall i :: 0 <= i < n ==> IsDigit(s[i])) && !IsDigit(s[n])
    ensures Digits(s) == n
  {
    if n > 0 {
      assert forall i :: 0 <= i < n - 1 ==> s[1..][i] == s[i + 1];
      DigitsAre(s[1..], n - 1);
    }
  }

  lemma {:induction false} SpacesAre(s: string, n: nat)
    requires n < |s| && (forall i :: 0 <= i < n ==> IsSpace(s[i])) && !IsSpace(s[n])
    ensures Spaces(s) == n
  {
    if n > 0 {
      assert forall i :: 0 <= i < n - 1 ==> s[1..][i] == s[i + 1];
      SpacesAre(s[1..], n - 1);
    }
  }

  lemma NumberIs(p: string, a: nat, b: nat)
    requires 1 <= a <= b < |p| && !IsDigit(p[b])
    requires forall i :: 0 <= i < a ==> IsDigit(p[i])
    requires b == a || (p[a] == '.' && a + 1 < b && forall i :: a < i < b ==> IsDigit(p[i]))
    requires b == a ==> p[a] != '.'
    ensures Digits(p) == a && NumberLength(p) == b
  {
    DigitsAre(p, a);
    if b > a {
      DigitsAre(p[a + 1..], b - a - 1);
    }
  }

  lemma ShapeMatches(p: string, a: nat, b: nat, c: nat)
    requires PartShape(p, a, b, c)
    ensures PartLength(p) == |p|
  {
    assert b < c ==> IsSpace(p[b]);
    NumberIs(p, a, b);
    SpacesAre(p[b..], c - b);
  }

  lemma NumberHasShape(s: string)
    requires Digits(s) > 0
    ensures var a, b := Digits(s), NumberLength(s);
            a <= b && (b == a || (s[a] == '.' && a + 1 < b && forall i :: a < i < b ==> IsDigit(s[i])))
  {
    var a, b := Digits(s), NumberLength(s);
    if b > a {
      assert forall i :: a < i < b ==> s[i] == s[a + 1..][i - a - 1];
    }
  }

  lemma SpacesHaveShape(s: string, from: nat)
    requires from <= |s|
    ensures forall i :: from <= i < from + Spaces(s[from..]) ==> IsSpace(s[i])
  {
    assert forall i :: from <= i < from + Spaces(s[from..]) ==> s[i] == s[from..][i - from];
  }

  /** What the scan matches at the start of a text is a part of the grammar. */
  lemma MatchHasShape(s: string)
    requires PartLength(s) > 0
    ensures PartShape(s[..PartLength(s)], Digits(s), NumberLength(s), PartLength(s) - 1)
  {
    var a, b, n := Digits(s), NumberLength(s), PartLength(s);
    NumberHasShape(s);
    SpacesHaveShape(s, b);
    PartEnds(s);
    PrefixShape(s, a, b, n - 1);
  }

  lemma PartEnds(s: string)
    requires PartLength(s) > 0
    ensures Digits(s) > 0 && PartLength(s) == NumberLength(s) + Spaces(s[NumberLength(s)..]) + 1
    ensures IsUnit(s[PartLength(s) - 1])
  {
  }

  lemma PrefixShape(s: string, a: nat, b: nat, c: nat)
    requires 1 <= a <= b <= c < |s|
    requires forall i :: 0 <= i < a ==> IsDigit(s[i])
    requires b == a || (s[a] == '.' && a + 1 < b && forall i :: a < i < b ==> IsDigit(s[i]))
    requires forall i :: b <= i < c ==> IsSpace(s[i])
    requires IsUnit(s[c])
    ensures PartShape(s[..c + 1], a, b, c)
  {
  }

  /** The scan matches a string as a whole exactly when it is a part of the grammar. */
  lemma PartIsMatched(p: string)
    ensures IsPart(p) <==> Matched(p, PartLength)
  {
    if IsPart(p) {
      var a, b, c :| PartShape(p, a, b, c);
      ShapeMatches(p, a, b, c);
    }
    if Matched(p, PartLength) {
      MatchHasShape(p);
      assert p[..|p|] == p;
    }
  }

  lemma MatcherIsSane()
    ensures Sane(PartLength)
  {
    forall s, n {:trigger PartLength(s[..n])} | 0 < n == PartLength(s)
      ensures PartLength(s[..n]) == n
    {
      MatchHasShape(s);
      ShapeMatches(s[..n], Digits(s), NumberLength(s), n - 1);
    }
    forall s: string, t: string {:trigger PartLength(s + t)} | PartLength(s) > 0
      ensures PartLength(s + t) == PartLength(s)
    {
      PartStops(s, t);
    }
  }

  // ---------------------------------------------------------------- the grammar of a duration

  /** One or more parts with only blanks between and around them. */
  ghost predicate Spelled(text: string, pieces: seq<Piece>, tail: string) {
    && |pieces| > 0 && text == Assemble(pieces, tail) && AllBlank(tail)
    && forall i :: 0 <= i < |pieces| ==> AllBlank(pieces[i].gap) && IsPart(pieces[i].part)
  }

  lemma SpelledIsSpaced(text: string, pieces: seq<Piece>, tail: string)
    ensures Spelled(text, pieces, tail) <==>
            |pieces| > 0 && text == Assemble(pieces, tail) && Spaced(pieces, tail, PartLength)
  {
    forall i | 0 <= i < |pieces|
      ensures IsPart(pieces[i].part) <==> Matched(pieces[i].part, PartLength)
    {
      PartIsMatched(pieces[i].part);
    }
  }

  /** However a text is spelled, the scan finds those very parts. */
  lemma SpelledIsAccepted(text: string, pieces: seq<Piece>, tail: string)
    requires Spelled(text, pieces, tail)
    ensures Accepted(text, PartLength) && Parts(text, PartLength) == PartsOf(pieces)
  {
    MatcherIsSane();
    SpelledIsSpaced(text, pieces, tail);
    ScanOfAssembled(pieces, tail, PartLength);
    AcceptedIffBlankGaps(text, PartLength);
  }

  lemma AcceptedIsSpelled(text: string) returns (pieces: seq<Piece>, tail: string)
    requires Accepted(text, PartLength)
    ensures Spelled(text, pieces, tail) && PartsOf(pieces) == Parts(text, PartLength)
  {
    MatcherIsSane();
    AcceptedIffBlankGaps(text, PartLength);
    pieces, tail := Disassemble(text, PartLength);
    SpelledIsSpaced(text, pieces, tail);
  }

  // ---------------------------------------------------------------- white space around a text

  function Leading(s: string): string {
    if s != [] && IsSpace(s[0]) then [s[0]] + Leading(s[1..]) else []
  }

  function Trailing(s: string): string {
    if s != [] && IsSpace(s[|s| - 1]) then Trailing(s[..|s| - 1]) + [s[|s| - 1]] else []
  }

  lemma {:induction false} StripLeftSplits(s: string)
    ensures s == Leading(s) + StripLeft(s) && AllSpace(Leading(s))
    ensures StripLeft(s) != [] ==> !IsSpace(StripLeft(s)[0])
  {
    if s != [] && IsSpace(s[0]) {
      StripLeftSplits(s[1..]);
      ConsJoins(s, "");
    }
  }

  lemma {:induction false} StripRightSplits(s: string)
    ensures s == StripRight(s) + Trailing(s) && AllSpace(Trailing(s))
    ensures StripRight(s) != [] ==> !IsSpace(StripRight(s)[|StripRight(s)| - 1])
  {
    if s != [] && IsSpace(s[|s| - 1]) {
      StripRightSplits(s[..|s| - 1]);
    }
  }

  lemma {:induction false} StripLeftIs(a: string, b: string)
    requires AllSpace(a) && (b != [] ==> !IsSpace(b[0]))
    ensures StripLeft(a + b) == b
  {
    if a == [] {
      assert a + b == b;
    } else {
      StripLeftIs(a[1..], b);
      assert (a + b)[1..] == a[1..] + b;
    }
  }

  lemma {:induction false} StripRightIs(a: string, b: string)
    requires AllSpace(b) && (a != [] ==> !IsSpace(a[|a| - 1]))
    ensures StripRight(a + b) == a
  {
    if b == [] {
      assert a + b == a;
    } else {
      StripRightIs(a, b[..|b| - 1]);
      assert (a + b)[..|a + b| - 1] == a + b[..|b| - 1];
    }
  }

  function Core(s: string): string {
    StripRight(StripLeft(s))
  }

  /** A text with something in it is its core between white space. */
  lemma CoreSplits(s: string)
    requires Core(s) != []
    ensures AllSpace(Leading(s)) && AllSpace(Trailing(s))
    ensures s == Leading(s) + Core(s) + Trailing(s)
    ensures !IsSpace(Core(s)[0]) && !IsSpace(Core(s)[|Core(s)| - 1])
  {
    StripLeftSplits(s);
    var left := StripLeft(s);
    StripRightSplits(left);
    assert Core(s)[0] == left[0];
    StripRightSplits(s);
    StripRightIs(Leading(s) + Core(s), Trailing(left));
    assert Leading(s) + Core(s) + Trailing(left) == s;
  }

  lemma RegroupTexts(a: string, b: string, c: string, d: string, e: string, f: string)
    ensures (a + b + c) + (d + e + f) == a + ((b + (c + d) + e) + f)
  {
  }

  lemma EndsKept(a: string, b: string, c: string)
    requires a != [] && c != []
    ensures (a + b + c)[0] == a[0] && (a + b + c)[|a + b + c| - 1] == c[|c| - 1]
  {
  }

  /** Between the cores of two joined texts lies the white space of the joint. */
  lemma CoreJoins(s: string, t: string)
    requires Core(s) != [] && Core(t) != []
    ensures Core(s + t) == Core(s) + (Trailing(s) + Leading(t)) + Core(t)
  {
    CoreSplits(s);
    CoreSplits(t);
    var middle := Core(s) + (Trailing(s) + Leading(t)) + Core(t);
    RegroupTexts(Leading(s), Core(s), Trailing(s), Leading(t), Core(t), Trailing(t));
    EndsKept(Core(s), Trailing(s) + Leading(t), Core(t));
    StripLeftIs(Leading(s), middle + Trailing(t));
    StripRightIs(middle, Trailing(t));
  }

  lemma LowerJoins(s: string, t: string)
    ensures Lower(s + t) == Lower(s) + Lower(t)
  {
  }

  lemma LowerSpace(s: string)
    requires AllSpace(s)
    ensures Lower(s) == s
  {
  }

  /** The joined text is both texts with the white space of the joint between them. */
  lemma TextJoins(s: string, t: string)
    requires TextOf(s) != [] && TextOf(t) != []
    ensures AllSpace(Trailing(s) + Leading(t))
    ensures TextOf(s + t) == TextOf(s) + (Trailing(s) + Leading(t)) + TextOf(t)
  {
    var joint := Trailing(s) + Leading(t);
    CoreSplits(s);
    CoreSplits(t);
    CoreJoins(s, t);
    LowerJoins(Core(s) + joint, Core(t));
    LowerJoins(Core(s), joint);
    LowerSpace(joint);
  }
}
