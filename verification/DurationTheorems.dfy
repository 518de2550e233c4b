/** What the duration parser promises (app/core/settings.py:58-85): its grammar, and what it
    answers for two texts joined together. */
module DurationTheorems {
  import opened Base
  import opened Decimals
  import opened RoundedSums
  import opened Scanning
  import opened Durations

  predicate Ascii(s: string) {
    forall i :: 0 <= i < |s| ==> s[i] < 128 as char
  }

  // ---------------------------------------------------------------- the grammar

  /** What parts add up to in the decimals of the parser, at some grain. */
  function Rounded(parts: seq<string>, grain: nat): Option<nat> {
    Seconds(Sum(0, parts, PartValue, grain), grain)
  }

  /** The parser answers exactly for the texts spelled as parts with blanks between them whose
      rounded total is a whole number, and answers that number. */
  lemma DurationGrammar(raw: string, seconds: int)
    requires Ascii(raw)
    ensures ParseDuration(TextValue(raw)) == Some(seconds) <==>
            exists pieces, tail ::
              Spelled(TextOf(raw), pieces, tail) && Rounded(PartsOf(pieces), |TextOf(raw)|) == Some(seconds)
  {
    var text := TextOf(raw);
    if ParseDuration(TextValue(raw)) == Some(seconds) {
      var pieces, tail := AcceptedIsSpelled(text);
      StartsAtZero(text);
      assert Spelled(text, pieces, tail) && Rounded(PartsOf(pieces), |text|) == Some(seconds);
    }
    if pieces, tail :| Spelled(text, pieces, tail) && Rounded(PartsOf(pieces), |text|) == Some(seconds) {
      SpelledIsAccepted(text, pieces, tail);
      StartsAtZero(text);
    }
  }

  lemma StartsAtZero(text: string)
    ensures ParseText(text, PartLength, PartValue)
            == if Accepted(text, PartLength) then Rounded(Parts(text, PartLength), |text|) else None
  {
    assert 0 * Pow10(|text|) == 0;
  }

  // ---------------------------------------------------------------- parts at finer grains

  lemma UnitScales(a: nat, p: nat, c: char)
    ensures Scaled(a * p, c) == Scaled(a, c) * p
  {
    Regroup(60, a, p);
    Regroup(3600, a, p);
    Regroup(86400, a, p);
    Regroup(604800, a, p);
  }

  lemma NumberScales(s: string, g: nat)
    requires g >= Places(s)
    ensures NumberOf(s, g) == NumberOf(s, Places(s)) * Pow10(g - Places(s))
  {
    assert Pow10(0) == 1;
  }

  /** From its own decimal places on, a part is worth the same at every grain. */
  lemma PartScales(p: string)
    ensures ScalesFrom(p, PartValue, Places(p))
  {
    forall g: nat | g >= Places(p)
      ensures PartValue(p, g) == PartValue(p, Places(p)) * Pow10(g - Places(p))
    {
      if p != [] {
        NumberScales(p, g);
        UnitScales(NumberOf(p, Places(p)), Pow10(g - Places(p)), p[|p| - 1]);
      }
    }
  }

  lemma {:induction false} PartsFit(text: string, m: Matcher)
    ensures forall i :: 0 <= i < |Parts(text, m)| ==> |Parts(text, m)[i]| <= |text|
    decreases |text|
  {
    if text != [] {
      var n := m(text);
      PartsFit(if 0 < n <= |text| then text[n..] else text[1..], m);
    }
  }

  lemma PartsScale(text: string)
    ensures AllScale(Parts(text, PartLength), PartValue, |text|)
  {
    var parts := Parts(text, PartLength);
    PartsFit(text, PartLength);
    forall i | 0 <= i < |parts|
      ensures ScalesFrom(parts[i], PartValue, |text|)
    {
      PartScales(parts[i]);
      ScalesLater(parts[i], PartValue, Places(parts[i]), |text|);
    }
  }

  // ---------------------------------------------------------------- one part, read either way

  lemma TextTrimmed(raw: string)
    requires TextOf(raw) != []
    ensures var text := TextOf(raw); !IsSpace(text[0]) && !IsSpace(text[|text| - 1])
  {
    CoreSplits(raw);
  }

  /** A text is one part exactly when one unit letter follows its number. */
  lemma PartUnit(text: string)
    requires text != []
    ensures PartLength(text) == |text| <==>
            Digits(text) > 0 && UnitAt(text) == |text| - 1 && IsUnit(text[|text| - 1])
  {
    if PartLength(text) == |text| {
      PartEnds(text);
    }
  }

  lemma OnePartScan(text: string, m: Matcher, worth: Worth)
    requires Matched(text, m)
    ensures ParseText(text, m, worth) == Seconds(Round28(worth(text, |text|)), |text|)
    ensures Accepted(text, m) && Parts(text, m) == [text]
  {
    MatchedScan(text, m);
    AcceptedIffBlankGaps(text, m);
    assert 0 * Pow10(|text|) == 0;
    OneStep(0, text, worth, |text|);
    RoundIdempotent(worth(text, |text|));
  }

  lemma EndsOf(gap: string, part: string, tail: string)
    requires part != []
    ensures gap != [] ==> (gap + (part + tail))[0] == gap[0]
    ensures tail != [] ==> (gap + (part + tail))[|gap + (part + tail)| - 1] == tail[|tail| - 1]
  {
  }

  lemma NoBlankEnds(gap: string, part: string, tail: string)
    requires AllBlank(gap) && AllBlank(tail) && part != []
    requires var text := gap + (part + tail); !IsSpace(text[0]) && !IsSpace(text[|text| - 1])
    ensures gap == [] && tail == []
  {
    EndsOf(gap, part, tail);
  }

  /** A trimmed text that scans as a single part is that part. */
  lemma SinglePart(text: string, m: Matcher)
    requires Sane(m) && Accepted(text, m) && |Parts(text, m)| == 1
    requires text != [] && !IsSpace(text[0]) && !IsSpace(text[|text| - 1])
    ensures Matched(text, m)
  {
    AcceptedIffBlankGaps(text, m);
    var pieces, tail := Disassemble(text, m);
    PartsOfLength(pieces);
    assert Assemble(pieces[1..], tail) == tail;
    NoBlankEnds(pieces[0].gap, pieces[0].part, tail);
    assert text == pieces[0].part;
  }

  lemma {:induction false} PartsOfLength(pieces: seq<Piece>)
    ensures |PartsOf(pieces)| == |pieces|
  {
    if pieces != [] {
      PartsOfLength(pieces[1..]);
    }
  }

  /** Where something follows the number, the single-unit parser in duration units accepts
      exactly the durations of one part, and reads them the same. */
  lemma ScaledReadsOnePart(raw: string)
    requires var text := TextOf(raw); text != [] && NumberLength(text) < |text|
    ensures ParseScaled(TextValue(raw), DurationUnits, "s")
            == if |Parts(TextOf(raw), PartLength)| == 1 then ParseDuration(TextValue(raw)) else None
  {
    var text := TextOf(raw);
    TextTrimmed(raw);
    PartUnit(text);
    UnitFollows(text);
    if PartLength(text) == |text| {
      OnePartScan(text, PartLength, PartValue);
      OneUnit(text);
    } else {
      if Accepted(text, PartLength) && |Parts(text, PartLength)| == 1 {
        MatcherIsSane();
        SinglePart(text, PartLength);
      }
      OtherUnit(text);
    }
  }

  lemma UnitFollows(text: string)
    requires text != [] && NumberLength(text) < |text| && !IsSpace(text[|text| - 1])
    ensures UnitAt(text) < |text|
  {
    var rest := text[NumberLength(text)..];
    assert rest[|rest| - 1] == text[|text| - 1];
  }

  lemma OneUnit(text: string)
    requires text != [] && Digits(text) > 0 && UnitAt(text) == |text| - 1 && IsUnit(text[|text| - 1])
    ensures ScaledText(text, DurationUnits, "s") == Seconds(Round28(PartValue(text, |text|)), |text|)
  {
    var c := text[|text| - 1];
    assert text[UnitAt(text)..] == [c];
    InOneUnit(NumberOf(text, |text|), |text|, c);
  }

  lemma InOneUnit(amount: nat, grain: nat, c: char)
    requires IsUnit(c)
    ensures AllLetters([c]) && [c] != ""
    ensures InUnits(amount, grain, [c], DurationUnits) == Seconds(Round28(Scaled(amount, c)), grain)
  {
  }

  lemma OtherUnit(text: string)
    requires text != [] && UnitAt(text) < |text|
    requires !(Digits(text) > 0 && UnitAt(text) == |text| - 1 && IsUnit(text[|text| - 1]))
    ensures ScaledText(text, DurationUnits, "s") == None
  {
    var unit := text[UnitAt(text)..];
    assert |unit| == 1 ==> unit[0] == text[|text| - 1];
  }

  // ---------------------------------------------------------------- joining two texts

  lemma AcceptedText(text: string, m: Matcher)
    requires Accepted(text, m)
    ensures text != [] && AllBlank(Gaps(text, m))
  {
    AcceptedIffBlankGaps(text, m);
  }

  lemma Regrained(x: nat, grain: nat, finer: nat)
    requires grain <= finer
    ensures x * Pow10(grain) * Pow10(finer - grain) == x * Pow10(finer)
  {
    PowersAdd(grain, finer - grain);
    Regroup(x, Pow10(grain), Pow10(finer - grain));
  }

  lemma FirstSum(a: seq<string>, worth: Worth, x: nat, grain: nat, finer: nat)
    requires grain <= finer && AllScale(a, worth, grain)
    requires Seconds(Sum(0, a, worth, grain), grain) == Some(x)
    ensures Sum(0, a, worth, finer) == x * Pow10(finer)
  {
    assert 0 * Pow10(finer - grain) == 0;
    SumScales(0, a, worth, grain, finer);
    SecondsAre(Sum(0, a, worth, grain), grain, x);
    Regrained(x, grain, finer);
  }

  lemma NextSum(b: seq<string>, worth: Worth, x: nat, grain: nat, finer: nat)
    requires grain <= finer && AllScale(b, worth, grain)
    ensures Seconds(Sum(x * Pow10(finer), b, worth, finer), finer)
            == Seconds(Sum(x * Pow10(grain), b, worth, grain), grain)
  {
    Regrained(x, grain, finer);
    SumScales(x * Pow10(grain), b, worth, grain, finer);
    SecondsScale(Sum(x * Pow10(grain), b, worth, grain), grain, finer);
  }

  /** The sum of two texts one after the other, at the grain of both together. */
  lemma JoinedSum(a: seq<string>, b: seq<string>, worth: Worth, x: nat, near: nat, far: nat, grain: nat)
    requires near <= grain && far <= grain && AllScale(a, worth, near) && AllScale(b, worth, far)
    requires Seconds(Sum(0, a, worth, near), near) == Some(x)
    ensures Seconds(Sum(0, a + b, worth, grain), grain) == Seconds(Sum(x * Pow10(far), b, worth, far), far)
  {
    FirstSum(a, worth, x, near, grain);
    SumSplits(0, a, b, worth, grain);
    NextSum(b, worth, x, far, grain);
  }

  lemma JoinedParse(a: string, joint: string, b: string, whole: string, m: Matcher, worth: Worth, x: nat)
    requires Sane(m) && ParseText(a, m, worth) == Some(x) && Accepted(b, m)
    requires AllScale(Parts(a, m), worth, |a|) && AllScale(Parts(b, m), worth, |b|)
    requires AllSpace(joint) && whole == a + joint + b
    ensures ParseText(whole, m, worth) == if AllBlank(joint) then ParseFrom(x, b, m, worth) else None
  {
    AcceptedText(a, m);
    AcceptedText(b, m);
    JoinedScan(a, joint, b, m);
    AcceptedIffBlankGaps(whole, m);
    assert 0 * Pow10(|a|) == 0 && 0 * Pow10(|whole|) == 0;
    if AllBlank(joint) {
      JoinedSum(Parts(a, m), Parts(b, m), worth, x, |a|, |b|, |whole|);
    }
  }

  /** Joining two accepted texts: unless the white space at the joint is all blanks the joined
      text is rejected, and else the parser goes on adding where the first text left off. */
  lemma JoinAnswer(s: string, t: string, x: int)
    requires Ascii(s) && Ascii(t)
    requires ParseDuration(TextValue(s)) == Some(x) && Accepted(TextOf(t), PartLength)
    ensures x >= 0 && ParseDuration(TextValue(s + t)) ==
            if AllBlank(Trailing(s) + Leading(t)) then ParseFrom(x, TextOf(t), PartLength, PartValue) else None
  {
    AcceptedText(TextOf(s), PartLength);
    AcceptedText(TextOf(t), PartLength);
    TextJoins(s, t);
    MatcherIsSane();
    PartsScale(TextOf(s));
    PartsScale(TextOf(t));
    JoinedParse(TextOf(s), Trailing(s) + Leading(t), TextOf(t), TextOf(s + t), PartLength, PartValue, x);
  }

  lemma OnePartFrom(start: nat, part: string, m: Matcher, worth: Worth, y: nat)
    requires Matched(part, m) && ParseText(part, m, worth) == Some(y)
    ensures ParseFrom(start, part, m, worth) == Some(Round28(start + y))
  {
    var g := |part|;
    OnePartScan(part, m, worth);
    SecondsAre(Round28(worth(part, g)), g, y);
    OneStep(start * Pow10(g), part, worth, g);
    Distribute(start, y, Pow10(g));
    RoundScales(start + y, g);
    SecondsAre(Round28(start + y) * Pow10(g), g, Round28(start + y));
  }

  /** With one part in the second text the answer is the rounded sum: exact if and only if
      blanks alone lie between and the sum has at most 28 digits before its zeros. */
  lemma JoinedPartIff(s: string, t: string, x: int, y: int)
    requires Ascii(s) && Ascii(t) && |Parts(TextOf(t), PartLength)| == 1
    requires ParseDuration(TextValue(s)) == Some(x) && ParseDuration(TextValue(t)) == Some(y)
    ensures x >= 0 && y >= 0
    ensures ParseDuration(TextValue(s + t)) == if AllBlank(Trailing(s) + Leading(t)) then Some(Round28(x + y)) else None
    ensures ParseDuration(TextValue(s + t)) == Some(x + y) <==>
            AllBlank(Trailing(s) + Leading(t)) && Representable(x + y)
  {
    JoinAnswer(s, t, x);
    AcceptedText(TextOf(t), PartLength);
    TextTrimmed(t);
    MatcherIsSane();
    SinglePart(TextOf(t), PartLength);
    OnePartFrom(x, TextOf(t), PartLength, PartValue, y);
    FixedIffRepresentable(x + y);
  }
}
