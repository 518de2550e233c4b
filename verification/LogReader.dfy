/** The resumable log reader (app/usage.py:89-105): it hands out complete lines and the
    offset to continue from, over a file that other processes keep appending to. */
module LogReader {
  import opened Base

  newtype Byte = b: int | 0 <= b < 256

  type Bytes = seq<Byte>

  const NEWLINE: Byte := 10
  const MAX_LINE := 65536

  /** Where the first newline at or after a position is; the end of the file if there is none. */
  function NewlineAt(file: Bytes, pos: nat): (at: nat)
    requires pos <= |file|
    ensures pos <= at <= |file|
    ensures at < |file| ==> file[at] == NEWLINE
    ensures forall i :: pos <= i < at ==> file[i] != NEWLINE
    decreases |file| - pos
  {
    if pos == |file| || file[pos] == NEWLINE then pos else NewlineAt(file, pos + 1)
  }

  /** `readline` with a byte limit: up to and including the next newline, the limit, or the
      end of the file, whichever comes first. */
  function ReadLine(file: Bytes, pos: nat, limit: nat): Bytes {
    if pos >= |file| then []
    else
      var at := NewlineAt(file, pos);
      var end := if at < |file| then at + 1 else at;
      file[pos..Min(end, pos + limit)]
  }

  /** The next line, if it is complete and at most 64 KiB long with its newline. */
  function NextLine(file: Bytes, pos: nat): Option<Bytes> {
    if pos >= |file| then None
    else
      var at := NewlineAt(file, pos);
      if at < |file| && at - pos < MAX_LINE then Some(file[pos..at + 1]) else None
  }

  /** Reading one byte more than the longest line tells that line apart from everything else. */
  lemma ReadLineTells(file: Bytes, pos: nat)
    ensures var raw := ReadLine(file, pos, MAX_LINE + 1);
            NextLine(file, pos)
            == if |raw| == 0 || |raw| > MAX_LINE || raw[|raw| - 1] != NEWLINE then None else Some(raw)
  {
  }

  /** The raw lines of `read_complete_lines` and the offset behind them. */
  function ReadLines(file: Bytes, offset: nat, limit: int): (r: (seq<Bytes>, nat))
    decreases limit
  {
    var line := NextLine(file, offset);
    if limit <= 0 || line.None? then ([], offset)
    else
      var rest := ReadLines(file, offset + |line.value|, limit - 1);
      ([line.value] + rest.0, rest.1)
  }

  /** A line that is not valid text is handed out as the empty string. */
  function Text(raw: Bytes, decode: Bytes -> Option<string>): string {
    decode(raw).GetOr<string>("")
  }

  function Texts(raws: seq<Bytes>, decode: Bytes -> Option<string>): seq<string> {
    seq(|raws|, i requires 0 <= i < |raws| => Text(raws[i], decode))
  }

  lemma TextsAppend(raws: seq<Bytes>, raw: Bytes, decode: Bytes -> Option<string>)
    ensures Texts(raws + [raw], decode) == Texts(raws, decode) + [Text(raw, decode)]
  {
  }

  /** What has been read, and what reading on would add, is the whole. */
  ghost predicate ReadSoFar(whole: (seq<Bytes>, nat), raws: seq<Bytes>, rest: (seq<Bytes>, nat)) {
    whole == (raws + rest.0, rest.1)
  }

  lemma ReadOn(whole: (seq<Bytes>, nat), raws: seq<Bytes>, file: Bytes, offset: nat, limit: int, raw: Bytes)
    requires limit > 0 && NextLine(file, offset) == Some(raw)
    requires ReadSoFar(whole, raws, ReadLines(file, offset, limit))
    ensures ReadSoFar(whole, raws + [raw], ReadLines(file, offset + |raw|, limit - 1))
  {
    JoinsAssociate(raws, [raw], ReadLines(file, offset + |raw|, limit - 1).0);
  }

  lemma ReadDone(whole: (seq<Bytes>, nat), raws: seq<Bytes>, file: Bytes, offset: nat, limit: int)
    requires limit <= 0 || NextLine(file, offset).None?
    requires ReadSoFar(whole, raws, ReadLines(file, offset, limit))
    ensures whole == (raws, offset)
  {
    assert raws + [] == raws;
  }

  /** `read_complete_lines`; `position` is the file handle's. */
  method ReadCompleteLines(file: Bytes, offset: nat, limit: int, decode: Bytes -> Option<string>)
    returns (lines: seq<string>, position: nat)
    ensures lines == Texts(ReadLines(file, offset, limit).0, decode)
    ensures position == ReadLines(file, offset, limit).1
  {
    lines := [];
    position := offset;
    ghost var raws: seq<Bytes> := [];
    ghost var whole := ReadLines(file, offset, limit);
    assert raws + whole.0 == whole.0 && Texts(raws, decode) == [];
    while |lines| < limit
      invariant |lines| == |raws| <= Max(0, limit)
      invariant lines == Texts(raws, decode)
      invariant ReadSoFar(whole, raws, ReadLines(file, position, limit - |lines|))
    {
      var start := position;
      ReadLineTells(file, position);
      var raw := ReadLine(file, position, MAX_LINE + 1);
      position := position + |raw|;
      if |raw| == 0 {
        break;
      }
      if |raw| > MAX_LINE || raw[|raw| - 1] != NEWLINE {
        position := start;
        break;
      }
      ReadOn(whole, raws, file, start, limit - |lines|, raw);
      TextsAppend(raws, raw, decode);
      var decoded := decode(raw);
      if decoded.Some? {
        lines := lines + [decoded.value];
      } else {
        lines := lines + [""];
      }
      raws := raws + [raw];
    }
    ReadDone(whole, raws, file, position, limit - |lines|);
  }

  // ---------------------------------------------------------------- the newline split

  /** All complete lines of some bytes, of whatever length, each with its newline. */
  function Split(bytes: Bytes): seq<Bytes>
    decreases |bytes|
  {
    var at := NewlineAt(bytes, 0);
    if at == |bytes| then [] else [bytes[..at + 1]] + Split(bytes[at + 1..])
  }

  /** Nothing but complete lines. */
  predicate WholeLines(bytes: Bytes) {
    bytes == [] || bytes[|bytes| - 1] == NEWLINE
  }

  lemma NewlineAtUnique(bytes: Bytes, pos: nat, at: nat)
    requires pos <= at < |bytes| && bytes[at] == NEWLINE
    requires forall i :: pos <= i < at ==> bytes[i] != NEWLINE
    ensures NewlineAt(bytes, pos) == at
  {
  }

  function Flatten(lines: seq<Bytes>): Bytes {
    if lines == [] then [] else lines[0] + Flatten(lines[1..])
  }

  /** A newline at the end and nowhere else. */
  predicate OneLine(line: Bytes) {
    |line| > 0 && line[|line| - 1] == NEWLINE && forall i :: 0 <= i < |line| - 1 ==> line[i] != NEWLINE
  }

  lemma {:induction false} SplitInLines(bytes: Bytes)
    ensures forall i :: 0 <= i < |Split(bytes)| ==> OneLine(Split(bytes)[i])
    decreases |bytes|
  {
    var at := NewlineAt(bytes, 0);
    if at < |bytes| {
      SplitInLines(bytes[at + 1..]);
      assert Split(bytes)[0] == bytes[..at + 1] && Split(bytes)[1..] == Split(bytes[at + 1..]);
    }
  }

  /** No newline from an offset on. */
  predicate NoNewline(bytes: Bytes, from: nat) {
    forall i :: from <= i < |bytes| ==> bytes[i] != NEWLINE
  }

  lemma {:induction false} FlattenSplit(bytes: Bytes)
    ensures Flatten(Split(bytes)) <= bytes && NoNewline(bytes, |Flatten(Split(bytes))|)
    decreases |bytes|
  {
    var at := NewlineAt(bytes, 0);
    if at < |bytes| {
      var line, rest := bytes[..at + 1], bytes[at + 1..];
      FlattenSplit(rest);
      assert Split(bytes)[1..] == Split(rest);
      CutJoins(bytes, at + 1);
      FlattenOn(line, rest, Flatten(Split(rest)));
    }
  }

  lemma FlattenOn(line: Bytes, rest: Bytes, flat: Bytes)
    requires flat <= rest && NoNewline(rest, |flat|)
    ensures line + flat <= line + rest && NoNewline(line + rest, |line + flat|)
  {
    forall i | |line + flat| <= i < |line + rest|
      ensures (line + rest)[i] != NEWLINE
    {
      assert (line + rest)[i] == rest[i - |line|];
    }
  }

  /** The split loses and reorders nothing: its lines, put together again, are the bytes up
      to the last newline. */
  lemma SplitIsFaithful(bytes: Bytes)
    ensures forall i :: 0 <= i < |Split(bytes)| ==> OneLine(Split(bytes)[i])
    ensures Flatten(Split(bytes)) <= bytes
    ensures forall i :: |Flatten(Split(bytes))| <= i < |bytes| ==> bytes[i] != NEWLINE
  {
    SplitInLines(bytes);
    FlattenSplit(bytes);
  }

  /** A line that is complete in the file is the same in every longer file. */
  lemma {:induction false} SplitJoins(a: Bytes, b: Bytes)
    requires WholeLines(a)
    ensures Split(a + b) == Split(a) + Split(b)
    decreases |a|
  {
    if a == [] {
      assert a + b == b;
    } else {
      var at := NewlineAt(a, 0);
      NewlineAtUnique(a + b, 0, at);
      assert (a + b)[..at + 1] == a[..at + 1];
      assert (a + b)[at + 1..] == a[at + 1..] + b;
      SplitJoins(a[at + 1..], b);
    }
  }

  lemma NextLineIsSplit(file: Bytes, pos: nat)
    requires pos <= |file| && NextLine(file, pos).Some?
    ensures var line := NextLine(file, pos).value;
            && 0 < |line| <= MAX_LINE
            && pos + |line| <= |file|
            && file[pos..pos + |line|] == line
            && WholeLines(line)
            && Split(line) == [line]
  {
    var at := NewlineAt(file, pos);
    var line := NextLine(file, pos).value;
    assert line[|line| - 1] == file[pos + |line| - 1];
    NewlineAtUnique(line, 0, |line| - 1);
    assert line[..|line|] == line;
    assert Split(line[|line|..]) == [];
  }

  ghost predicate Bounded(lines: seq<Bytes>) {
    forall i :: 0 <= i < |lines| ==> |lines[i]| <= MAX_LINE
  }

  lemma Reaches(file: Bytes, start: nat, mid: nat, end: nat)
    requires start <= mid <= end <= |file| && WholeLines(file[start..mid]) && WholeLines(file[mid..end])
    ensures WholeLines(file[start..end]) && Split(file[start..end]) == Split(file[start..mid]) + Split(file[mid..end])
  {
    SliceJoins(file, start, mid, end);
    SplitJoins(file[start..mid], file[mid..end]);
    WholeLinesJoin(file[start..mid], file[mid..end]);
  }

  lemma WholeLinesJoin(a: Bytes, b: Bytes)
    requires WholeLines(a) && WholeLines(b)
    ensures WholeLines(a + b)
  {
    if b == [] {
      assert a + b == a;
    }
  }

  /** Lines between two offsets of a file. */
  ghost predicate Between(file: Bytes, start: nat, end: nat, lines: seq<Bytes>) {
    && start <= end <= |file|
    && WholeLines(file[start..end])
    && lines == Split(file[start..end])
    && Bounded(lines)
  }

  lemma BetweenJoins(file: Bytes, start: nat, mid: nat, end: nat, a: seq<Bytes>, b: seq<Bytes>)
    requires Between(file, start, mid, a) && Between(file, mid, end, b)
    ensures Between(file, start, end, a + b)
  {
    Reaches(file, start, mid, end);
  }

  lemma NextLineBetween(file: Bytes, pos: nat)
    requires pos <= |file| && NextLine(file, pos).Some?
    ensures var line := NextLine(file, pos).value; Between(file, pos, pos + |line|, [line])
  {
    NextLineIsSplit(file, pos);
  }

  lemma NothingBetween(file: Bytes, pos: nat)
    requires pos <= |file|
    ensures Between(file, pos, pos, [])
  {
    assert file[pos..pos] == [];
  }

  /** One read returns exactly the newline split of the bytes it moves over, in order. */
  lemma {:induction false} ReadIsSplit(file: Bytes, offset: nat, limit: int)
    requires offset <= |file|
    ensures var r := ReadLines(file, offset, limit); Between(file, offset, r.1, r.0) && |r.0| <= Max(0, limit)
    decreases limit
  {
    var line := NextLine(file, offset);
    if limit <= 0 || line.None? {
      NothingBetween(file, offset);
    } else {
      NextLineBetween(file, offset);
      var mid := offset + |line.value|;
      ReadIsSplit(file, mid, limit - 1);
      var rest := ReadLines(file, mid, limit - 1);
      BetweenJoins(file, offset, mid, rest.1, [line.value], rest.0);
    }
  }

  /** A read stops early only where no complete line of acceptable length follows. */
  lemma {:induction false} ReadStops(file: Bytes, offset: nat, limit: int)
    requires offset <= |file|
    ensures var r := ReadLines(file, offset, limit); |r.0| == Max(0, limit) || NextLine(file, r.1).None?
    decreases limit
  {
    var line := NextLine(file, offset);
    if limit > 0 && line.Some? {
      NextLineBetween(file, offset);
      ReadStops(file, offset + |line.value|, limit - 1);
    }
  }

  // ---------------------------------------------------------------- many reads of a growing file

  datatype Read = Read(file: Bytes, limit: int)

  /** Each read continues at the offset the one before returned. */
  function ReadAll(calls: seq<Read>, offset: nat): (seq<Bytes>, nat) {
    if calls == [] then ([], offset)
    else
      var first := ReadLines(calls[0].file, offset, calls[0].limit);
      var rest := ReadAll(calls[1..], first.1);
      (first.0 + rest.0, rest.1)
  }

  ghost predicate AppendOnly(calls: seq<Read>) {
    forall i, j :: 0 <= i < j < |calls| ==> calls[i].file <= calls[j].file
  }

  /** An offset sits at the start or just behind a newline. */
  predicate AtLineStart(file: Bytes, offset: nat) {
    offset <= |file| && (offset == 0 || file[offset - 1] == NEWLINE)
  }

  lemma BetweenGrows(file: Bytes, longer: Bytes, start: nat, end: nat, lines: seq<Bytes>)
    requires Between(file, start, end, lines) && file <= longer
    ensures Between(longer, start, end, lines)
  {
    assert longer[start..end] == file[start..end];
  }

  /** Successive reads of an append-only file, with any limits, return exactly the newline
      split of the bytes consumed: every line once, in order, none partial or over-long. */
  lemma {:induction false} ReadsAreSplit(calls: seq<Read>, offset: nat)
    requires calls != [] && AppendOnly(calls) && offset <= |calls[0].file|
    ensures var r := ReadAll(calls, offset); Between(calls[|calls| - 1].file, offset, r.1, r.0)
    decreases |calls|
  {
    var file := calls[0].file;
    var first := ReadLines(file, offset, calls[0].limit);
    ReadIsSplit(file, offset, calls[0].limit);
    if |calls| == 1 {
      assert first.0 + [] == first.0;
    } else {
      ReadsAreSplit(calls[1..], first.1);
      var rest := ReadAll(calls[1..], first.1);
      var last := calls[|calls| - 1].file;
      BetweenGrows(file, last, offset, first.1, first.0);
      BetweenJoins(last, offset, first.1, rest.1, first.0, rest.0);
    }
  }

  lemma BetweenStart(file: Bytes, end: nat, lines: seq<Bytes>)
    requires Between(file, 0, end, lines)
    ensures AtLineStart(file, end) && lines == Split(file[..end])
  {
    assert file[0..end] == file[..end];
    if end > 0 {
      assert file[..end][end - 1] == file[end - 1];
    }
  }

  /** From the start of the file, every offset handed out is a line start, and what has been
      returned is the split of everything before it. */
  lemma ReadsFromStart(calls: seq<Read>)
    requires calls != [] && AppendOnly(calls)
    ensures var r := ReadAll(calls, 0);
            AtLineStart(calls[|calls| - 1].file, r.1) && r.0 == Split(calls[|calls| - 1].file[..r.1])
  {
    ReadsAreSplit(calls, 0);
    var r := ReadAll(calls, 0);
    BetweenStart(calls[|calls| - 1].file, r.1, r.0);
  }

  // ---------------------------------------------------------------- when the reader is stuck

  /** The next line already has a full 64 KiB without a newline. */
  predicate TooLong(file: Bytes, offset: nat) {
    offset <= |file| && NewlineAt(file, offset) >= offset + MAX_LINE
  }

  lemma LineReady(file: Bytes, offset: nat)
    requires offset <= |file|
    ensures NextLine(file, offset).Some? <==> NewlineAt(file, offset) < Min(|file|, offset + MAX_LINE)
  {
  }

  lemma NewlineAtGrows(file: Bytes, offset: nat, more: Bytes)
    requires offset <= |file|
    ensures NewlineAt(file + more, offset) >= NewlineAt(file, offset)
    ensures NewlineAt(file, offset) < |file| ==> NewlineAt(file + more, offset) == NewlineAt(file, offset)
  {
    assert forall i :: offset <= i < NewlineAt(file, offset) ==> (file + more)[i] == file[i];
    if NewlineAt(file, offset) < |file| {
      NewlineAtUnique(file + more, offset, NewlineAt(file, offset));
    }
  }

  /** No growth of the file makes the reader move past a position exactly when the line
      there is too long: one over-long line blocks its file for good. */
  lemma StuckIffTooLong(file: Bytes, offset: nat)
    requires offset <= |file|
    ensures (forall more: Bytes :: NextLine(file + more, offset).None?) <==> TooLong(file, offset)
  {
    var at := NewlineAt(file, offset);
    if TooLong(file, offset) {
      forall more: Bytes
        ensures NextLine(file + more, offset).None?
      {
        NewlineAtGrows(file, offset, more);
        LineReady(file + more, offset);
      }
    } else if at < |file| {
      LineReady(file, offset);
      assert file + [] == file;
      assert NextLine(file + [], offset).Some?;
    } else {
      var more := [NEWLINE];
      NewlineAtGrows(file, offset, more);
      NewlineAtUnique(file + more, offset, |file|);
      LineReady(file + more, offset);
      assert NextLine(file + more, offset).Some?;
    }
  }

  /** 64 KiB without a newline block a file from its start, whatever is appended. */
  lemma StuckFile(file: Bytes)
    requires |file| == MAX_LINE && forall i :: 0 <= i < |file| ==> file[i] != NEWLINE
    ensures TooLong(file, 0) && forall more: Bytes :: NextLine(file + more, 0).None?
  {
    assert NewlineAt(file, 0) == MAX_LINE;
    StuckIffTooLong(file, 0);
  }

  /** Such a file. */
  lemma SomeStuckFile() returns (file: Bytes)
    ensures |file| == MAX_LINE && TooLong(file, 0)
    ensures forall more: Bytes :: NextLine(file + more, 0).None?
  {
    file := seq(MAX_LINE, i => 65);
    StuckFile(file);
  }
}
