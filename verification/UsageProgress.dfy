/** How far the collector (app/usage.py:159-253) gets with a log, and what it does to the
    connection counters on the way. */
module UsageProgress {
  import opened Base
  import opened LogReader
  import opened UsageCollector
  import opened UsageTheorems

  // ---------------------------------------------------------------- how far one read gets

  lemma SplitFrom(file: Bytes, start: nat, mid: nat)
    requires start <= mid <= |file| && WholeLines(file[start..mid])
    ensures Split(file[start..]) == Split(file[start..mid]) + Split(file[mid..])
  {
    assert file[start..] == file[start..mid] + file[mid..];
    SplitJoins(file[start..mid], file[mid..]);
  }

  lemma NewlineFrom(file: Bytes, pos: nat)
    requires pos <= |file|
    ensures NewlineAt(file, pos) == pos + NewlineAt(file[pos..], 0)
  {
    var at := NewlineAt(file[pos..], 0);
    if at < |file[pos..]| {
      forall i | pos <= i < pos + at
        ensures file[i] != NEWLINE
      {
        assert file[i] == file[pos..][i - pos];
      }
      NewlineAtUnique(file, pos, pos + at);
    } else {
      assert forall i :: pos <= i < |file| ==> file[i] == file[pos..][i - pos];
    }
  }

  lemma FirstFits(bytes: Bytes)
    requires Bounded(Split(bytes))
    ensures NewlineAt(bytes, 0) == |bytes| || NewlineAt(bytes, 0) < MAX_LINE
  {
    if NewlineAt(bytes, 0) < |bytes| {
      assert |Split(bytes)[0]| <= MAX_LINE;
    }
  }

  /** Where a line follows that is not too long, the reader does not stop. */
  lemma StopsAtEnd(file: Bytes, pos: nat)
    requires pos <= |file| && Bounded(Split(file[pos..])) && NextLine(file, pos).None?
    ensures Split(file[pos..]) == []
  {
    NewlineFrom(file, pos);
    FirstFits(file[pos..]);
  }

  /** Lines not read yet from an offset on. */
  function Ahead(file: Bytes, offset: nat): nat {
    if offset <= |file| then |Split(file[offset..])| else 0
  }

  /** With no line too long, a read leaves fewer lines by its limit, or none. */
  lemma ReadGetsOn(file: Bytes, offset: nat, limit: nat)
    requires offset <= |file| && Bounded(Split(file[offset..]))
    ensures var r := ReadLines(file, offset, limit);
            && offset <= r.1 <= |file| && Bounded(Split(file[r.1..]))
            && Ahead(file, r.1) == Max(0, Ahead(file, offset) - limit)
  {
    var r := ReadLines(file, offset, limit);
    ReadIsSplit(file, offset, limit);
    ReadStops(file, offset, limit);
    SplitFrom(file, offset, r.1);
    var all, rest := Split(file[offset..]), Split(file[r.1..]);
    assert all == r.0 + rest;
    assert forall i :: 0 <= i < |rest| ==> rest[i] == all[|r.0| + i];
    if |r.0| < limit {
      StopsAtEnd(file, r.1);
    }
  }

  // ---------------------------------------------------------------- catching up

  /** Steps that leave a log and its cursor to the collector. */
  predicate Leaves(step: Step, name: Name) {
    step.Cycle? || step.name != name
  }

  predicate Quiet(steps: seq<Step>, name: Name) {
    forall i :: 0 <= i < |steps| ==> Leaves(steps[i], name)
  }

  /** Cycles over a log that did not crash. */
  function CyclesDone(steps: seq<Step>, name: Name): nat {
    if steps == [] then 0
    else (if steps[0] == Cycle(name, NoCrash) then 1 else 0) + CyclesDone(steps[1..], name)
  }

  function CursorAhead(w: World, name: Name): nat {
    Ahead(FileOf(w, name), CursorOf(w, name))
  }

  ghost predicate Readable(w: World, name: Name) {
    CursorOf(w, name) <= |FileOf(w, name)| && Bounded(Split(FileOf(w, name)[CursorOf(w, name)..]))
  }

  /** The log is the same and fewer lines are ahead of the cursor. */
  ghost predicate GotOn(w: World, next: World, name: Name, lines: nat) {
    && FileOf(next, name) == FileOf(w, name) && PastOf(next, name) == PastOf(w, name)
    && CursorAhead(next, name) == Max(0, CursorAhead(w, name) - lines)
  }

  lemma StepGetsOn(w: World, step: Step, name: Name, dec: Decoders, sizes: nat -> Option<nat>)
    requires Readable(w, name) && Leaves(step, name)
    ensures Readable(Apply(w, step, dec, sizes), name)
    ensures GotOn(w, Apply(w, step, dec, sizes), name, if step == Cycle(name, NoCrash) then PAGE else 0)
  {
    if step.Cycle? && step.name == name {
      ReadGetsOn(FileOf(w, name), CursorOf(w, name), PAGE);
    }
  }

  lemma {:induction false} RunGetsOn(w: World, steps: seq<Step>, name: Name, dec: Decoders, sizes: nat -> Option<nat>)
    requires Readable(w, name) && Quiet(steps, name)
    ensures GotOn(w, Run(w, steps, dec, sizes), name, PAGE * CyclesDone(steps, name))
    decreases |steps|
  {
    if steps != [] {
      StepGetsOn(w, steps[0], name, dec, sizes);
      RunGetsOn(Apply(w, steps[0], dec, sizes), steps[1..], name, dec, sizes);
    }
  }

  /** Behind the last newline there are no events. */
  lemma NothingAhead(file: Bytes, end: nat, dec: Decoders)
    requires AtLineStart(file, end) && Split(file[end..]) == []
    ensures EventsOf(file[..end], dec) == EventsOf(file, dec)
  {
    assert file[0..] == file && file[0..end] == file[..end];
    WholeBetween(file, 0, end);
    SplitFrom(file, 0, end);
    assert Split(file[..end]) + [] == Split(file[..end]);
  }

  lemma NoneBehind(file: Bytes, cursor: nat, end: nat)
    requires AtLineStart(file, cursor) && AtLineStart(file, end) && cursor <= end
    requires Ahead(file, cursor) == 0
    ensures Split(file[end..]) == []
  {
    WholeBetween(file, cursor, end);
    SplitFrom(file, cursor, end);
  }

  /** A log with nothing ahead of the cursor is recorded to its last complete line. */
  lemma AllRecorded(w: World, name: Name, dec: Decoders)
    requires FileSound(w, name, dec) && CursorAhead(w, name) == 0
    ensures RowsOf(w.db.bandwidth, name) == FirstOccurrences(PastOf(w, name) + EventsOf(FileOf(w, name), dec))
  {
    NoneBehind(FileOf(w, name), CursorOf(w, name), CommittedOf(w, name));
    NothingAhead(FileOf(w, name), CommittedOf(w, name), dec);
  }

  /** While a log does not change and has no line too long ahead of its cursor, as many
      uncrashed cycles as it takes pages record all of it: over any steps in between, the
      requests recorded are the first occurrences among all the events of the log. */
  lemma CollectorCatchesUp(w: World, steps: seq<Step>, name: Name, dec: Decoders, sizes: nat -> Option<nat>)
    requires FileSound(w, name, dec) && Readable(w, name) && Quiet(steps, name)
    requires 1000 * CyclesDone(steps, name) >= CursorAhead(w, name)
    ensures RowsOf(Run(w, steps, dec, sizes).db.bandwidth, name)
            == FirstOccurrences(PastOf(w, name) + EventsOf(FileOf(w, name), dec))
  {
    RunGetsOn(w, steps, name, dec, sizes);
    RunSound(w, steps, dec, sizes, name);
    AllRecorded(Run(w, steps, dec, sizes), name, dec);
  }

  // ---------------------------------------------------------------- being blocked

  /** A read from a line start does not get past a line that is too long. */
  lemma {:induction false} ReadBlocked(file: Bytes, offset: nat, limit: int, wall: nat)
    requires AtLineStart(file, offset) && AtLineStart(file, wall) && offset <= wall && TooLong(file, wall)
    ensures ReadLines(file, offset, limit).1 <= wall
    decreases limit
  {
    var line := NextLine(file, offset);
    if limit > 0 && line.Some? {
      NextLineIsSplit(file, offset);
      var at := NewlineAt(file, offset);
      assert offset < wall ==> at <= wall - 1;
      ReadBlocked(file, offset + |line.value|, limit - 1, wall);
    }
  }

  lemma TooLongStays(file: Bytes, more: Bytes, wall: nat)
    requires TooLong(file, wall)
    ensures TooLong(file + more, wall)
  {
    NewlineAtGrows(file, wall, more);
  }

  predicate Keeps(step: Step, name: Name) {
    step != Rotate(name)
  }

  lemma StepBlocked(w: World, step: Step, name: Name, dec: Decoders, sizes: nat -> Option<nat>)
    requires FileSound(w, name, dec) && TooLong(FileOf(w, name), CommittedOf(w, name)) && Keeps(step, name)
    ensures var next := Apply(w, step, dec, sizes);
            && FileSound(next, name, dec) && TooLong(FileOf(next, name), CommittedOf(next, name))
            && RowsOf(next.db.bandwidth, name) == RowsOf(w.db.bandwidth, name)
  {
    var file, wall := FileOf(w, name), CommittedOf(w, name);
    var next := Apply(w, step, dec, sizes);
    StepSound(w, step, dec, sizes, name);
    if step.Append? && step.name == name {
      TooLongStays(file, step.more, wall);
      assert (file + step.more)[..wall] == file[..wall];
    } else if step.Cycle? && step.name == name {
      ReadBlocked(file, CursorOf(w, name), PAGE, wall);
    }
    assert CommittedOf(next, name) == wall;
    assert Committed(next, name, dec) == Committed(w, name, dec);
  }

  /** Once everything before a line that is too long is recorded, nothing more of that log
      ever is, whatever is appended, until it is rotated away. */
  lemma {:induction false} CollectorBlocked(w: World, steps: seq<Step>, name: Name, dec: Decoders,
                                            sizes: nat -> Option<nat>)
    requires FileSound(w, name, dec) && TooLong(FileOf(w, name), CommittedOf(w, name))
    requires forall i :: 0 <= i < |steps| ==> Keeps(steps[i], name)
    ensures RowsOf(Run(w, steps, dec, sizes).db.bandwidth, name) == RowsOf(w.db.bandwidth, name)
    decreases |steps|
  {
    if steps != [] {
      StepBlocked(w, steps[0], name, dec, sizes);
      CollectorBlocked(Apply(w, steps[0], dec, sizes), steps[1..], name, dec, sizes);
    }
  }

  // ---------------------------------------------------------------- connections

  function Count(keys: seq<SessionKey>, key: SessionKey): nat {
    if keys == [] then 0 else Count(keys[..|keys| - 1], key) + (if keys[|keys| - 1] == key then 1 else 0)
  }

  lemma {:induction false} CountJoins(a: seq<SessionKey>, b: seq<SessionKey>, key: SessionKey)
    ensures Count(a + b, key) == Count(a, key) + Count(b, key)
    decreases |b|
  {
    if b == [] {
      assert a + b == a;
    } else {
      assert (a + b)[..|a + b| - 1] == a + b[..|b| - 1];
      CountJoins(a, b[..|b| - 1], key);
    }
  }

  function ConnectionsOf(connections: Connections, key: SessionKey): nat {
    Get(connections, key, 0)
  }

  /** Releasing takes one connection off per call and stops at none. */
  lemma {:induction false} ReleasedCount(connections: Connections, keys: seq<SessionKey>, key: SessionKey)
    ensures ConnectionsOf(ReleaseAll(connections, keys), key)
            == Max(0, ConnectionsOf(connections, key) - Count(keys, key))
    decreases |keys|
  {
    if keys != [] {
      ReleasedCount(Release(connections, keys[0]), keys[1..], key);
      CountJoins([keys[0]], keys[1..], key);
      assert [keys[0]] + keys[1..] == keys;
      assert [keys[0]][..0] == [];
    }
  }

  lemma SessionsJoin(rows: seq<BandwidthRow>, n: nat)
    requires n <= |rows|
    ensures SessionsOf(rows) == SessionsOf(rows[..n]) + SessionsOf(rows[n..])
  {
  }

  /** No session is released more often than it has recorded requests; exactly as often if no
      cycle stopped between its commit and its cursor write. */
  predicate ReleasesCount(w: World, open: Connections, exact: bool, key: SessionKey) {
    && ConnectionsOf(w.connections, key) == Max(0, ConnectionsOf(open, key) - Count(w.released, key))
    && Count(w.released, key) <= Count(SessionsOf(w.db.bandwidth), key)
    && (exact ==> Count(w.released, key) == Count(SessionsOf(w.db.bandwidth), key))
  }

  ghost predicate ReleasesSound(w: World, open: Connections, exact: bool) {
    forall key :: ReleasesCount(w, open, exact, key)
  }

  predicate Uncut(step: Step) {
    step.Cycle? ==> !step.crash.BeforeCursor?
  }

  lemma SessionsAdded(db: UsageDb, after: UsageDb, key: SessionKey)
    requires db.bandwidth <= after.bandwidth
    ensures Count(SessionsOf(after.bandwidth), key)
            == Count(SessionsOf(db.bandwidth), key) + Count(NewSessions(db, after), key)
  {
    SessionsJoin(after.bandwidth, |db.bandwidth|);
    assert after.bandwidth[..|db.bandwidth|] == db.bandwidth;
    CountJoins(SessionsOf(db.bandwidth), NewSessions(db, after), key);
  }

  lemma PrefixCount(keys: seq<SessionKey>, n: nat, key: SessionKey)
    requires n <= |keys|
    ensures Count(keys[..n], key) <= Count(keys, key) && (n == |keys| ==> Count(keys[..n], key) == Count(keys, key))
  {
    CutJoins(keys, n);
    CountJoins(keys[..n], keys[n..], key);
    if n == |keys| {
      assert keys[..n] == keys;
    }
  }

  ghost predicate EffectCounts(db: UsageDb, connections: Connections, out: Outcome, crash: Crash) {
    var keys := NewSessions(db, out.db);
    && db.bandwidth <= out.db.bandwidth
    && out.released == keys[..Releases(crash, keys)]
    && out.connections == ReleaseAll(connections, out.released)
    && (crash == BeforeCommit ==> keys == [])
  }

  lemma EffectReleases(db: UsageDb, connections: Connections, cursors: map<Name, nat>, name: Name, file: Bytes,
                       crash: Crash, dec: Decoders, sizes: nat -> Option<nat>)
    ensures EffectCounts(db, connections, Effect(db, connections, cursors, name, file, crash, dec, sizes), crash)
  {
    var r := ReadLines(file, StartOffset(file, Get(cursors, name, 0)), PAGE);
    IngestAppends(db, name, Parsed(r.0, dec), sizes);
    assert db.bandwidth[|db.bandwidth|..] == [];
  }

  /** A cycle releases no session more often than it records requests of it, and exactly as
      often unless it stops before its cursor write. */
  lemma OutcomeReleases(db: UsageDb, connections: Connections, out: Outcome, crash: Crash, key: SessionKey)
    requires EffectCounts(db, connections, out, crash)
    ensures var added := Count(SessionsOf(out.db.bandwidth), key) - Count(SessionsOf(db.bandwidth), key);
            && Count(out.released, key) <= added && (!crash.BeforeCursor? ==> Count(out.released, key) == added)
            && ConnectionsOf(out.connections, key) == Max(0, ConnectionsOf(connections, key) - Count(out.released, key))
  {
    var keys := NewSessions(db, out.db);
    SessionsAdded(db, out.db, key);
    PrefixCount(keys, Releases(crash, keys), key);
    ReleasedCount(connections, out.released, key);
  }

  lemma OutcomeCounts(w: World, next: World, out: Outcome, crash: Crash, open: Connections, exact: bool,
                      key: SessionKey)
    requires ReleasesCount(w, open, exact, key) && (exact ==> !crash.BeforeCursor?)
    requires EffectCounts(w.db, w.connections, out, crash)
    requires next.db == out.db && next.connections == out.connections && next.released == w.released + out.released
    ensures ReleasesCount(next, open, exact, key)
  {
    OutcomeReleases(w.db, w.connections, out, crash, key);
    CountJoins(w.released, out.released, key);
  }

  lemma CycleReleases(w: World, name: Name, crash: Crash, dec: Decoders, sizes: nat -> Option<nat>, open: Connections,
                      exact: bool, next: World)
    requires ReleasesSound(w, open, exact) && (exact ==> !crash.BeforeCursor?)
    requires next == Consume(w, name, crash, dec, sizes)
    ensures ReleasesSound(next, open, exact)
  {
    var out := Effect(w.db, w.connections, w.cursors, name, FileOf(w, name), crash, dec, sizes);
    EffectReleases(w.db, w.connections, w.cursors, name, FileOf(w, name), crash, dec, sizes);
    forall key
      ensures ReleasesCount(next, open, exact, key)
    {
      assert ReleasesCount(w, open, exact, key);
      OutcomeCounts(w, next, out, crash, open, exact, key);
    }
  }

  lemma StepReleases(w: World, step: Step, dec: Decoders, sizes: nat -> Option<nat>, open: Connections, exact: bool)
    requires ReleasesSound(w, open, exact) && (exact ==> Uncut(step))
    ensures ReleasesSound(Apply(w, step, dec, sizes), open, exact)
  {
    if step.Cycle? {
      CycleReleases(w, step.name, step.crash, dec, sizes, open, exact, Consume(w, step.name, step.crash, dec, sizes));
    } else {
      SameCounts(w, Apply(w, step, dec, sizes), open, exact);
    }
  }

  lemma SameCounts(w: World, next: World, open: Connections, exact: bool)
    requires ReleasesSound(w, open, exact)
    requires next.db == w.db && next.connections == w.connections && next.released == w.released
    ensures ReleasesSound(next, open, exact)
  {
    forall key
      ensures ReleasesCount(next, open, exact, key)
    {
      assert ReleasesCount(w, open, exact, key);
    }
  }

  lemma {:induction false} RunReleases(w: World, steps: seq<Step>, dec: Decoders, sizes: nat -> Option<nat>,
                                       open: Connections, exact: bool)
    requires ReleasesSound(w, open, exact)
    requires exact ==> forall i :: 0 <= i < |steps| ==> Uncut(steps[i])
    ensures ReleasesSound(Run(w, steps, dec, sizes), open, exact)
    decreases |steps|
  {
    if steps != [] {
      StepReleases(w, steps[0], dec, sizes, open, exact);
      RunReleases(Apply(w, steps[0], dec, sizes), steps[1..], dec, sizes, open, exact);
    }
  }

  /** Over any schedule each recorded request releases at most one connection of its session,
      and exactly one unless a cycle crashed between its commit and its cursor write; the
      counter stands at what was open less what was released, and never below none. */
  lemma ConnectionsReleasedOnce(tracked: seq<TrackedSession>, open: Connections, steps: seq<Step>, dec: Decoders,
                                sizes: nat -> Option<nat>, key: SessionKey)
    ensures var w := Run(Start(tracked, open), steps, dec, sizes);
            && ConnectionsOf(w.connections, key) == Max(0, ConnectionsOf(open, key) - Count(w.released, key))
            && Count(w.released, key) <= Count(SessionsOf(w.db.bandwidth), key)
            && ((forall i :: 0 <= i < |steps| ==> Uncut(steps[i])) ==>
                  Count(w.released, key) == Count(SessionsOf(w.db.bandwidth), key))
  {
    RunReleases(Start(tracked, open), steps, dec, sizes, open, false);
    var w := Run(Start(tracked, open), steps, dec, sizes);
    assert ReleasesCount(w, open, false, key);
    if forall i :: 0 <= i < |steps| ==> Uncut(steps[i]) {
      RunReleases(Start(tracked, open), steps, dec, sizes, open, true);
      assert ReleasesCount(w, open, true, key);
    }
  }
}
