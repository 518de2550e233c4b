/** Left-to-right scanning for matches, as `finditer` does it, and the test that nothing but
    blanks lies between them. */
module Scanning {
  import opened Base

  /** Length of the match at the start of a text; 0 if there is none. */
  type Matcher = string -> nat

  predicate IsDigit(c: char) {
    '0' <= c <= '9'
  }

  /** What `\s` matches and `strip` removes, among ASCII characters. */
  predicate IsSpace(c: char) {
    c == ' ' || 9 as char <= c <= 13 as char || 28 as char <= c <= 31 as char
  }

  /** Matches start with a digit, and do not depend on what follows them. */
  ghost predicate Sane(m: Matcher) {
    && (forall s :: m(s) <= |s| && (m(s) > 0 ==> IsDigit(s[0])))
    && (forall s, n {:trigger m(s[..n])} :: 0 < n == m(s) ==> m(s[..n]) == n)
    && (forall s, t {:trigger m(s + t)} :: m(s) > 0 ==> m(s + t) == m(s))
  }

  /** The matches from left to right, one character skipped where there is none. */
  function Parts(s: string, m: Matcher): seq<string>
    decreases |s|
  {
    if s == [] then []
    else
      var n := m(s);
      if 0 < n <= |s| then [s[..n]] + Parts(s[n..], m) else Parts(s[1..], m)
  }

  /** The characters the scan skips. */
  function Gaps(s: string, m: Matcher): string
    decreases |s|
  {
    if s == [] then []
    else
      var n := m(s);
      if 0 < n <= |s| then Gaps(s[n..], m) else [s[0]] + Gaps(s[1..], m)
  }

  /** `replace(" ", "")`. */
  function Squeeze(s: string): string {
    if s == [] then []
    else if s[0] == ' ' then Squeeze(s[1..])
    else [s[0]] + Squeeze(s[1..])
  }

  function SqueezeAll(parts: seq<string>): string {
    if parts == [] then [] else Squeeze(parts[0]) + SqueezeAll(parts[1..])
  }

  /** The matches, put together, are the text: blanks do not count. */
  predicate Accepted(text: string, m: Matcher) {
    Parts(text, m) != [] && SqueezeAll(Parts(text, m)) == Squeeze(text)
  }

  predicate AllBlank(s: string) {
    forall i :: 0 <= i < |s| ==> s[i] == ' '
  }

  predicate AllSpace(s: string) {
    forall i :: 0 <= i < |s| ==> IsSpace(s[i])
  }

  // ---------------------------------------------------------------- scanning and concatenation

  lemma MatchFirst(s: string, t: string, m: Matcher)
    requires Sane(m) && m(s) > 0
    ensures m(s) <= |s|
    ensures Parts(s + t, m) == [s[..m(s)]] + Parts(s[m(s)..] + t, m) && Gaps(s + t, m) == Gaps(s[m(s)..] + t, m)
  {
    var n := m(s);
    assert m(s + t) == n;
    assert (s + t)[..n] == s[..n] && (s + t)[n..] == s[n..] + t;
  }

  lemma SkipFirst(s: string, t: string, m: Matcher)
    requires Sane(m) && s != [] && !IsDigit(s[0])
    ensures Parts(s + t, m) == Parts(s[1..] + t, m) && Gaps(s + t, m) == [s[0]] + Gaps(s[1..] + t, m)
  {
    assert (s + t)[0] == s[0];
    assert m(s + t) == 0;
    assert (s + t)[1..] == s[1..] + t;
  }

  /** Scanning a text whose skipped characters are blanks, followed by another text, finds
      the parts of both, and skips what it skips in both. */
  lemma {:induction false} ScanJoins(s: string, t: string, m: Matcher)
    requires Sane(m) && AllBlank(Gaps(s, m))
    ensures Parts(s + t, m) == Parts(s, m) + Parts(t, m) && Gaps(s + t, m) == Gaps(s, m) + Gaps(t, m)
    decreases |s|
  {
    if s == [] {
      assert s + t == t;
    } else if m(s) > 0 {
      var part, rest := s[..m(s)], s[m(s)..];
      MatchFirst(s, t, m);
      ScanJoins(rest, t, m);
      JoinsAssociate([part], Parts(rest, m), Parts(t, m));
    } else {
      assert Gaps(s, m)[0] == ' ' && Gaps(s, m)[1..] == Gaps(s[1..], m);
      SkipFirst(s, t, m);
      ScanJoins(s[1..], t, m);
      JoinsAssociate([s[0]], Gaps(s[1..], m), Gaps(t, m));
    }
  }

  lemma {:induction false} ScanSkipsSpace(s: string, t: string, m: Matcher)
    requires Sane(m) && AllSpace(s)
    ensures Parts(s + t, m) == Parts(t, m) && Gaps(s + t, m) == s + Gaps(t, m)
  {
    if s == [] {
      assert s + t == t;
    } else {
      SkipFirst(s, t, m);
      ScanSkipsSpace(s[1..], t, m);
      ConsJoins(s, Gaps(t, m));
    }
  }

  // ---------------------------------------------------------------- the comparison

  lemma {:induction false} SqueezeJoins(s: string, t: string)
    ensures Squeeze(s + t) == Squeeze(s) + Squeeze(t)
  {
    if s == [] {
      assert s + t == t;
    } else {
      SqueezeJoins(s[1..], t);
      assert (s + t)[0] == s[0] && (s + t)[1..] == s[1..] + t;
      JoinsAssociate([s[0]], Squeeze(s[1..]), Squeeze(t));
    }
  }

  /** Characters other than blanks are either in a part or skipped. */
  lemma {:induction false} SqueezeCounts(s: string, m: Matcher)
    ensures |Squeeze(s)| == |SqueezeAll(Parts(s, m))| + |Squeeze(Gaps(s, m))|
    ensures AllBlank(Gaps(s, m)) ==> Squeeze(s) == SqueezeAll(Parts(s, m))
    decreases |s|
  {
    if s != [] {
      var n := m(s);
      if 0 < n <= |s| {
        SqueezeCounts(s[n..], m);
        SqueezeJoins(s[..n], s[n..]);
        assert s == s[..n] + s[n..];
        assert Parts(s, m)[1..] == Parts(s[n..], m);
      } else {
        SqueezeCounts(s[1..], m);
        assert Gaps(s, m)[0] == s[0] && Gaps(s, m)[1..] == Gaps(s[1..], m);
      }
    }
  }

  lemma {:induction false} SqueezedBlank(s: string)
    ensures Squeeze(s) == [] <==> AllBlank(s)
  {
    if s != [] {
      SqueezedBlank(s[1..]);
      assert forall i :: 0 < i < |s| ==> s[i] == s[1..][i - 1];
    }
  }

  /** The comparison with the text accepts exactly when the scan found something and skipped
      nothing but blanks. */
  lemma AcceptedIffBlankGaps(text: string, m: Matcher)
    ensures Accepted(text, m) <==> Parts(text, m) != [] && AllBlank(Gaps(text, m))
  {
    SqueezeCounts(text, m);
    SqueezedBlank(Gaps(text, m));
  }

  // ---------------------------------------------------------------- parts with blanks between them

  datatype Piece = Piece(gap: string, part: string)

  function Assemble(pieces: seq<Piece>, tail: string): string {
    if pieces == [] then tail else pieces[0].gap + (pieces[0].part + Assemble(pieces[1..], tail))
  }

  function PartsOf(pieces: seq<Piece>): seq<string> {
    if pieces == [] then [] else [pieces[0].part] + PartsOf(pieces[1..])
  }

  predicate Matched(p: string, m: Matcher) {
    |p| > 0 && m(p) == |p|
  }

  predicate Spaced(pieces: seq<Piece>, tail: string, m: Matcher) {
    AllBlank(tail) && forall i :: 0 <= i < |pieces| ==> AllBlank(pieces[i].gap) && Matched(pieces[i].part, m)
  }

  lemma MatchedScan(p: string, m: Matcher)
    requires Matched(p, m)
    ensures Parts(p, m) == [p] && Gaps(p, m) == []
  {
    assert p[..|p|] == p && p[|p|..] == [];
  }

  /** A text assembled from parts with blanks between them is scanned back into those parts. */
  lemma {:induction false} ScanOfAssembled(pieces: seq<Piece>, tail: string, m: Matcher)
    requires Sane(m) && Spaced(pieces, tail, m)
    ensures Parts(Assemble(pieces, tail), m) == PartsOf(pieces) && AllBlank(Gaps(Assemble(pieces, tail), m))
  {
    if pieces == [] {
      ScanSkipsSpace(tail, "", m);
      assert tail + "" == tail;
    } else {
      var first, rest := pieces[0], Assemble(pieces[1..], tail);
      ScanOfAssembled(pieces[1..], tail, m);
      MatchedScan(first.part, m);
      ScanJoins(first.part, rest, m);
      ScanSkipsSpace(first.gap, first.part + rest, m);
    }
  }

  lemma Widen(c: char, pieces: seq<Piece>, tail: string, m: Matcher) returns (wider: seq<Piece>, end: string)
    requires Spaced(pieces, tail, m) && c == ' '
    ensures Spaced(wider, end, m) && PartsOf(wider) == PartsOf(pieces)
    ensures Assemble(wider, end) == [c] + Assemble(pieces, tail)
  {
    if pieces == [] {
      wider, end := [], [c] + tail;
    } else {
      wider, end := [Piece([c] + pieces[0].gap, pieces[0].part)] + pieces[1..], tail;
      assert wider[1..] == pieces[1..];
      var rest := pieces[0].part + Assemble(pieces[1..], tail);
      assert ([c] + pieces[0].gap) + rest == [c] + (pieces[0].gap + rest);
    }
  }

  /** A text that skips only blanks is assembled from the parts the scan finds. */
  lemma {:induction false} Disassemble(text: string, m: Matcher) returns (pieces: seq<Piece>, tail: string)
    requires Sane(m) && AllBlank(Gaps(text, m))
    ensures Spaced(pieces, tail, m) && Assemble(pieces, tail) == text && PartsOf(pieces) == Parts(text, m)
    decreases |text|
  {
    if text == [] {
      pieces, tail := [], [];
    } else if m(text) > 0 {
      var n := m(text);
      var rest, end := Disassemble(text[n..], m);
      pieces, tail := [Piece([], text[..n])] + rest, end;
      assert pieces[1..] == rest;
      assert [] + (text[..n] + text[n..]) == text;
    } else {
      assert Gaps(text, m)[0] == text[0] && Gaps(text, m)[1..] == Gaps(text[1..], m);
      var rest, end := Disassemble(text[1..], m);
      pieces, tail := Widen(text[0], rest, end, m);
      assert [text[0]] + text[1..] == text;
    }
  }

  /** Two texts joined by white space are accepted exactly when it is all blanks. */
  lemma JoinedScan(a: string, joint: string, b: string, m: Matcher)
    requires Sane(m) && AllBlank(Gaps(a, m)) && AllSpace(joint) && AllBlank(Gaps(b, m))
    ensures Parts(a + joint + b, m) == Parts(a, m) + Parts(b, m)
    ensures AllBlank(Gaps(a + joint + b, m)) <==> AllBlank(joint)
  {
    ScanSkipsSpace(joint, b, m);
    ScanJoins(a, joint + b, m);
    JoinsAssociate(a, joint, b);
    BlankJoin(Gaps(a, m), joint, Gaps(b, m));
  }

  lemma BlankJoin(a: string, joint: string, b: string)
    requires AllBlank(a) && AllBlank(b)
    ensures AllBlank(a + (joint + b)) <==> AllBlank(joint)
  {
    var all := a + (joint + b);
    if AllBlank(all) {
      forall i | 0 <= i < |joint|
        ensures joint[i] == ' '
      {
        assert all[|a| + i] == joint[i];
      }
    }
  }
}
