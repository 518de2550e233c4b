/** The collector refines a simple fold over the delivery logs: over any schedule of log
    writes, rotations, cycles, cursor losses and crashes, what is recorded is the first
    occurrence of every request, and every byte count in the database agrees with it. */
module UsageTheorems {
  import opened Base
  import opened LogReader
  import opened UsageCollector

  // ---------------------------------------------------------------- the reference fold

  predicate HasId(events: seq<UsageEvent>, requestId: string) {
    exists i :: 0 <= i < |events| && events[i].requestId == requestId
  }

  /** First occurrences of the requests of some events, after those already known. */
  function Extend(known: seq<UsageEvent>, events: seq<UsageEvent>): seq<UsageEvent>
    decreases |events|
  {
    if events == [] then known
    else Extend(AddFirst(known, events[0]), events[1..])
  }

  function AddFirst(known: seq<UsageEvent>, e: UsageEvent): seq<UsageEvent> {
    if HasId(known, e.requestId) then known else known + [e]
  }

  function FirstOccurrences(events: seq<UsageEvent>): seq<UsageEvent> {
    Extend([], events)
  }

  lemma {:induction false} ExtendSplits(known: seq<UsageEvent>, a: seq<UsageEvent>, b: seq<UsageEvent>)
    ensures Extend(known, a + b) == Extend(Extend(known, a), b)
    decreases |a|
  {
    if a == [] {
      assert a + b == b;
    } else {
      DropJoins(a, b, 1);
      ExtendSplits(AddFirst(known, a[0]), a[1..], b);
    }
  }

  /** Events whose requests are known add nothing. */
  lemma {:induction false} KnownAddNothing(known: seq<UsageEvent>, events: seq<UsageEvent>)
    requires forall i :: 0 <= i < |events| ==> HasId(known, events[i].requestId)
    ensures Extend(known, events) == known
    decreases |events|
  {
    if events != [] {
      assert HasId(known, events[0].requestId);
      forall i | 0 <= i < |events| - 1
        ensures HasId(known, events[1..][i].requestId)
      {
        assert events[1..][i] == events[i + 1];
      }
      KnownAddNothing(known, events[1..]);
    }
  }

  /** Extending knows exactly the requests that were known or occur. */
  lemma {:induction false} ExtendKnows(known: seq<UsageEvent>, events: seq<UsageEvent>, requestId: string)
    ensures HasId(Extend(known, events), requestId) <==> HasId(known, requestId) || HasId(events, requestId)
    decreases |events|
  {
    if events != [] {
      var next := AddFirst(known, events[0]);
      ExtendKnows(next, events[1..], requestId);
      HasIdSplits([events[0]], events[1..], requestId);
      HasIdSplits(known, [events[0]], requestId);
      assert [events[0]] + events[1..] == events;
      assert HasId([events[0]], requestId) <==> [events[0]][0].requestId == requestId;
    }
  }

  lemma HasIdSplits(a: seq<UsageEvent>, b: seq<UsageEvent>, requestId: string)
    ensures HasId(a + b, requestId) <==> HasId(a, requestId) || HasId(b, requestId)
  {
    if HasId(a, requestId) {
      var i :| 0 <= i < |a| && a[i].requestId == requestId;
      assert (a + b)[i].requestId == requestId;
    }
    if HasId(b, requestId) {
      var i :| 0 <= i < |b| && b[i].requestId == requestId;
      assert (a + b)[|a| + i].requestId == requestId;
    }
  }

  ghost predicate IdsDistinct(events: seq<UsageEvent>) {
    forall i, j :: 0 <= i < j < |events| ==> events[i].requestId != events[j].requestId
  }

  lemma {:induction false} ExtendDistinct(known: seq<UsageEvent>, events: seq<UsageEvent>)
    requires IdsDistinct(known)
    ensures IdsDistinct(Extend(known, events)) && known <= Extend(known, events)
    decreases |events|
  {
    if events != [] {
      ExtendDistinct(AddFirst(known, events[0]), events[1..]);
    }
  }

  /** The fold keeps, of every request that occurs, its first occurrence and only that. */
  lemma FirstOccurrenceKept(events: seq<UsageEvent>, k: nat)
    requires k < |events| && !HasId(events[..k], events[k].requestId)
    ensures events[k] in FirstOccurrences(events) && IdsDistinct(FirstOccurrences(events))
  {
    ExtendDistinct([], events);
    ExtendSplits([], events[..k], events[k..]);
    assert events[..k] + events[k..] == events;
    var before := Extend([], events[..k]);
    ExtendKnows([], events[..k], events[k].requestId);
    ExtendDistinct([], events[..k]);
    assert events[k..][0] == events[k];
    ExtendKnows(before, [events[k]], events[k].requestId);
    ExtendDistinct(before + [events[k]], events[k..][1..]);
    assert (before + [events[k]])[|before|] == events[k];
  }

  // ---------------------------------------------------------------- rows of one file

  /** The recorded events that came from a file of this name, in order. */
  function RowsOf(rows: seq<BandwidthRow>, name: Name): seq<UsageEvent> {
    if rows == [] then []
    else RowsOf(rows[..|rows| - 1], name) + (if rows[|rows| - 1].source == name then [rows[|rows| - 1].event] else [])
  }

  lemma RowsOfAppend(rows: seq<BandwidthRow>, row: BandwidthRow, name: Name)
    ensures RowsOf(rows + [row], name) == RowsOf(rows, name) + (if row.source == name then [row.event] else [])
  {
    assert (rows + [row])[..|rows|] == rows;
  }

  lemma {:induction false} RecordedIsKnown(rows: seq<BandwidthRow>, name: Name, requestId: string)
    ensures Recorded(rows, name, requestId) <==> HasId(RowsOf(rows, name), requestId)
  {
    if rows != [] {
      var init, last := rows[..|rows| - 1], rows[|rows| - 1];
      RecordedIsKnown(init, name, requestId);
      HasIdSplits(RowsOf(init, name), if last.source == name then [last.event] else [], requestId);
      assert last.source == name ==> (HasId([last.event], requestId) <==> [last.event][0].requestId == requestId);
      assert forall i :: 0 <= i < |init| ==> init[i] == rows[i];
    }
  }

  /** Ingesting extends the rows of its own file by the fold and leaves other files' alone. */
  lemma {:induction false} IngestExtends(db: UsageDb, source: Name, events: seq<UsageEvent>, sizes: nat -> Option<nat>,
                                         name: Name)
    ensures RowsOf(Ingest(db, source, events, sizes).bandwidth, name)
            == if name == source then Extend(RowsOf(db.bandwidth, name), events) else RowsOf(db.bandwidth, name)
    decreases |events|
  {
    if events != [] {
      RecordedIsKnown(db.bandwidth, source, events[0].requestId);
      RowsOfAppend(db.bandwidth, BandwidthRow(source, events[0]), name);
      IngestExtends(AddEvent(db, source, events[0], sizes), source, events[1..], sizes, name);
    }
  }

  // ---------------------------------------------------------------- stretches of log

  lemma {:induction false} ParsedSplits(a: seq<Bytes>, b: seq<Bytes>, dec: Decoders)
    ensures Parsed(a + b, dec) == Parsed(a, dec) + Parsed(b, dec)
  {
    if a == [] {
      assert a + b == b;
    } else {
      ParsedSplits(a[1..], b, dec);
      assert (a + b)[1..] == a[1..] + b;
    }
  }

  lemma EventsJoin(file: Bytes, start: nat, mid: nat, end: nat, dec: Decoders)
    requires start <= mid <= end <= |file| && WholeLines(file[start..mid]) && WholeLines(file[mid..end])
    ensures EventsOf(file[start..end], dec) == EventsOf(file[start..mid], dec) + EventsOf(file[mid..end], dec)
  {
    Reaches(file, start, mid, end);
    ParsedSplits(Split(file[start..mid]), Split(file[mid..end]), dec);
  }

  /** A stretch between two line starts consists of whole lines. */
  lemma WholeBetween(file: Bytes, start: nat, end: nat)
    requires AtLineStart(file, start) && AtLineStart(file, end) && start <= end
    ensures WholeLines(file[start..end])
  {
    if start < end {
      assert file[start..end][end - start - 1] == file[end - 1];
    }
  }

  /** Reading committed lines again changes nothing. */
  lemma ReplayAddsNothing(past: seq<UsageEvent>, file: Bytes, start: nat, middle: nat, high: nat, dec: Decoders)
    requires AtLineStart(file, start) && AtLineStart(file, middle) && AtLineStart(file, high)
    requires start <= middle <= high
    ensures var known := FirstOccurrences(past + EventsOf(file[..high], dec));
            Extend(known, EventsOf(file[start..middle], dec)) == known
  {
    WholeBetween(file, 0, start);
    WholeBetween(file, start, middle);
    WholeBetween(file, middle, high);
    SeenAgain(past, file, start, middle, high, dec);
    KnownAddNothing(FirstOccurrences(past + EventsOf(file[..high], dec)), EventsOf(file[start..middle], dec));
  }

  /** Reading on from the committed lines continues the fold. */
  lemma ReadingOnExtends(past: seq<UsageEvent>, file: Bytes, high: nat, end: nat, dec: Decoders)
    requires AtLineStart(file, high) && AtLineStart(file, end) && high <= end
    ensures Extend(FirstOccurrences(past + EventsOf(file[..high], dec)), EventsOf(file[high..end], dec))
            == FirstOccurrences(past + EventsOf(file[..end], dec))
  {
    FromStart(file, high, end, dec);
    FoldOn(past, EventsOf(file[..high], dec), EventsOf(file[high..end], dec));
  }

  lemma FromStart(file: Bytes, high: nat, end: nat, dec: Decoders)
    requires AtLineStart(file, high) && AtLineStart(file, end) && high <= end
    ensures EventsOf(file[..end], dec) == EventsOf(file[..high], dec) + EventsOf(file[high..end], dec)
  {
    assert file[0..high] == file[..high] && file[0..end] == file[..end];
    WholeBetween(file, 0, high);
    WholeBetween(file, high, end);
    EventsJoin(file, 0, high, end, dec);
  }

  lemma FoldOn(past: seq<UsageEvent>, a: seq<UsageEvent>, b: seq<UsageEvent>)
    ensures Extend(FirstOccurrences(past + a), b) == FirstOccurrences(past + (a + b))
  {
    ExtendSplits([], past + a, b);
    assert past + (a + b) == past + a + b;
  }

  /** Reading again from an earlier line start, to wherever, and folding what was read into
      the fold of everything up to `high`, gives the fold of everything up to the later of
      the two ends. */
  lemma ReplayIsIdle(past: seq<UsageEvent>, file: Bytes, start: nat, high: nat, end: nat, dec: Decoders)
    requires AtLineStart(file, start) && AtLineStart(file, high) && AtLineStart(file, end)
    requires start <= high && start <= end
    ensures Extend(FirstOccurrences(past + EventsOf(file[..high], dec)), EventsOf(file[start..end], dec))
            == FirstOccurrences(past + EventsOf(file[..Max(high, end)], dec))
  {
    if end <= high {
      ReplayAddsNothing(past, file, start, end, high, dec);
    } else {
      ReplayAddsNothing(past, file, start, high, high, dec);
      ReadingOnExtends(past, file, high, end, dec);
      WholeBetween(file, start, high);
      WholeBetween(file, high, end);
      EventsJoin(file, start, high, end, dec);
      ExtendSplits(FirstOccurrences(past + EventsOf(file[..high], dec)), EventsOf(file[start..high], dec),
                   EventsOf(file[high..end], dec));
    }
  }

  lemma SeenAgain(past: seq<UsageEvent>, file: Bytes, start: nat, middle: nat, high: nat, dec: Decoders)
    requires start <= middle <= high <= |file|
    requires WholeLines(file[0..start]) && WholeLines(file[start..middle]) && WholeLines(file[middle..high])
    ensures var known := FirstOccurrences(past + EventsOf(file[..high], dec));
            var again := EventsOf(file[start..middle], dec);
            forall i :: 0 <= i < |again| ==> HasId(known, again[i].requestId)
  {
    EventsJoin(file, start, middle, high, dec);
    Reaches(file, start, middle, high);
    EventsJoin(file, 0, start, high, dec);
    assert file[0..high] == file[..high];
    var again := EventsOf(file[start..middle], dec);
    forall i | 0 <= i < |again|
      ensures HasId(FirstOccurrences(past + EventsOf(file[..high], dec)), again[i].requestId)
    {
      var id := again[i].requestId;
      HasIdSplits(again, EventsOf(file[middle..high], dec), id);
      HasIdSplits(EventsOf(file[0..start], dec), EventsOf(file[start..high], dec), id);
      HasIdSplits(past, EventsOf(file[..high], dec), id);
      ExtendKnows([], past + EventsOf(file[..high], dec), id);
    }
  }

  // ---------------------------------------------------------------- any schedule

  datatype Step =
    | Append(name: Name, more: Bytes)
    | Rotate(name: Name)
    | LoseCursor(name: Name)
    | Cycle(name: Name, crash: Crash)

  function CommittedOf(w: World, name: Name): nat {
    Get(w.committed, name, 0)
  }

  function PastOf(w: World, name: Name): seq<UsageEvent> {
    Get(w.past, name, [])
  }

  function Apply(w: World, step: Step, dec: Decoders, sizes: nat -> Option<nat>): World {
    match step
    case Append(name, more) => w.(files := w.files[name := FileOf(w, name) + more])
    case Rotate(name) =>
      var high := Min(CommittedOf(w, name), |FileOf(w, name)|);
      w.(files := w.files[name := []], cursors := w.cursors - {name}, committed := w.committed - {name},
         past := w.past[name := PastOf(w, name) + EventsOf(FileOf(w, name)[..high], dec)])
    case LoseCursor(name) => w.(cursors := w.cursors - {name})
    case Cycle(name, crash) => Consume(w, name, crash, dec, sizes)
  }

  function Run(w: World, steps: seq<Step>, dec: Decoders, sizes: nat -> Option<nat>): World
    decreases |steps|
  {
    if steps == [] then w else Run(Apply(w, steps[0], dec, sizes), steps[1..], dec, sizes)
  }

  function Start(tracked: seq<TrackedSession>, open: Connections): World {
    World(map[], map[], open, UsageDb([], [], tracked), map[], map[], [])
  }

  /** The events committed so far from files of a name, replaced files first. */
  function Committed(w: World, name: Name, dec: Decoders): seq<UsageEvent>
    requires CommittedOf(w, name) <= |FileOf(w, name)|
  {
    PastOf(w, name) + EventsOf(FileOf(w, name)[..CommittedOf(w, name)], dec)
  }

  ghost predicate FileSound(w: World, name: Name, dec: Decoders) {
    && CursorOf(w, name) <= CommittedOf(w, name)
    && AtLineStart(FileOf(w, name), CursorOf(w, name))
    && AtLineStart(FileOf(w, name), CommittedOf(w, name))
    && RowsOf(w.db.bandwidth, name) == FirstOccurrences(Committed(w, name, dec))
  }

  lemma ConsumeOwn(w: World, name: Name, crash: Crash, dec: Decoders, sizes: nat -> Option<nat>)
    requires FileSound(w, name, dec)
    ensures FileSound(Consume(w, name, crash, dec, sizes), name, dec)
  {
    var file := FileOf(w, name);
    var start := StartOffset(file, CursorOf(w, name));
    var r := ReadLines(file, start, PAGE);
    ReadIsSplit(file, start, PAGE);
    BehindRead(file, start, r.1, r.0);
    var events := EventsOf(file[start..r.1], dec);
    IngestExtends(w.db, name, events, sizes, name);
    ReplayIsIdle(PastOf(w, name), file, start, CommittedOf(w, name), r.1, dec);
  }

  /** The end of a read from a line start is a line start. */
  lemma BehindRead(file: Bytes, start: nat, end: nat, lines: seq<Bytes>)
    requires AtLineStart(file, start) && Between(file, start, end, lines)
    ensures AtLineStart(file, end)
  {
    if start < end {
      assert file[start..end][end - start - 1] == file[end - 1];
    }
  }

  lemma ConsumeOther(w: World, name: Name, crash: Crash, dec: Decoders, sizes: nat -> Option<nat>, other: Name)
    requires FileSound(w, other, dec) && other != name
    ensures FileSound(Consume(w, name, crash, dec, sizes), other, dec)
  {
    var r := ReadLines(FileOf(w, name), StartOffset(FileOf(w, name), CursorOf(w, name)), PAGE);
    IngestExtends(w.db, name, Parsed(r.0, dec), sizes, other);
  }

  lemma AppendSound(w: World, name: Name, more: Bytes, dec: Decoders, sizes: nat -> Option<nat>, any: Name)
    requires FileSound(w, any, dec)
    ensures FileSound(Apply(w, Append(name, more), dec, sizes), any, dec)
  {
    var file := FileOf(w, name);
    assert name == any ==> (file + more)[..CommittedOf(w, any)] == file[..CommittedOf(w, any)];
  }

  lemma RotateSound(w: World, name: Name, dec: Decoders, sizes: nat -> Option<nat>, any: Name)
    requires FileSound(w, any, dec)
    ensures FileSound(Apply(w, Rotate(name), dec, sizes), any, dec)
  {
    if any == name {
      RotateOwn(w, name, dec, sizes);
    }
  }

  lemma RotateOwn(w: World, name: Name, dec: Decoders, sizes: nat -> Option<nat>)
    requires FileSound(w, name, dec)
    ensures FileSound(Apply(w, Rotate(name), dec, sizes), name, dec)
  {
    var next := Apply(w, Rotate(name), dec, sizes);
    var none: Bytes := [];
    assert none[..0] == none && Split(none) == [];
    assert FileOf(next, name) == none && CommittedOf(next, name) == 0;
    assert PastOf(next, name) + [] == PastOf(next, name);
  }

  lemma StepSound(w: World, step: Step, dec: Decoders, sizes: nat -> Option<nat>, any: Name)
    requires FileSound(w, any, dec)
    ensures FileSound(Apply(w, step, dec, sizes), any, dec)
  {
    match step
    case Append(name, more) => AppendSound(w, name, more, dec, sizes, any);
    case Rotate(name) => RotateSound(w, name, dec, sizes, any);
    case LoseCursor(name) =>
    case Cycle(name, crash) =>
      if any == name {
        ConsumeOwn(w, name, crash, dec, sizes);
      } else {
        ConsumeOther(w, name, crash, dec, sizes, any);
      }
  }

  lemma {:induction false} RunSound(w: World, steps: seq<Step>, dec: Decoders, sizes: nat -> Option<nat>, any: Name)
    requires FileSound(w, any, dec)
    ensures FileSound(Run(w, steps, dec, sizes), any, dec)
    decreases |steps|
  {
    if steps != [] {
      StepSound(w, steps[0], dec, sizes, any);
      RunSound(Apply(w, steps[0], dec, sizes), steps[1..], dec, sizes, any);
    }
  }

  /** Over any schedule the recorded requests of every log are the first occurrences among
      the events committed from it: nothing twice, nothing out of order, and nothing lost of
      what was committed. How far that gets is the subject of UsageProgress. */
  lemma CollectorIsFold(tracked: seq<TrackedSession>, open: Connections, steps: seq<Step>, dec: Decoders,
                        sizes: nat -> Option<nat>, name: Name)
    ensures var w := Run(Start(tracked, open), steps, dec, sizes);
            && CursorOf(w, name) <= CommittedOf(w, name) <= |FileOf(w, name)|
            && RowsOf(w.db.bandwidth, name) == FirstOccurrences(Committed(w, name, dec))
            && IdsDistinct(RowsOf(w.db.bandwidth, name))
  {
    var none: Bytes := [];
    assert none[..0] == none && Split(none) == [];
    RunSound(Start(tracked, open), steps, dec, sizes, name);
    ExtendDistinct([], Committed(Run(Start(tracked, open), steps, dec, sizes), name, dec));
  }

  // ---------------------------------------------------------------- the sums agree

  function TotalSent(rows: seq<BandwidthRow>): nat {
    if rows == [] then 0 else TotalSent(rows[..|rows| - 1]) + rows[|rows| - 1].event.responseBytes
  }

  function TotalEgress(records: seq<EgressRecord>): nat {
    if records == [] then 0 else TotalEgress(records[..|records| - 1]) + records[|records| - 1].amount
  }

  function TotalServed(sessions: seq<TrackedSession>): nat {
    if sessions == [] then 0 else TotalServed(sessions[..|sessions| - 1]) + sessions[|sessions| - 1].bytesServed
  }

  /** Bytes of the recorded requests whose session is among those tracked. */
  function SentTo(rows: seq<BandwidthRow>, sessions: seq<TrackedSession>): nat {
    if rows == [] then 0
    else SentTo(rows[..|rows| - 1], sessions)
         + (if SessionAt(sessions, rows[|rows| - 1].event.session).Some? then rows[|rows| - 1].event.responseBytes
            else 0)
  }

  /** The egress debits that the recorded requests stand for. */
  function Charges(rows: seq<BandwidthRow>): seq<EgressRecord> {
    if rows == [] then [] else Charges(rows[..|rows| - 1]) + ChargeOf(rows[|rows| - 1])
  }

  lemma ChargesAppend(rows: seq<BandwidthRow>, row: BandwidthRow)
    ensures Charges(rows + [row]) == Charges(rows) + ChargeOf(row)
    ensures TotalSent(rows + [row]) == TotalSent(rows) + row.event.responseBytes
  {
    assert (rows + [row])[..|rows|] == rows;
  }

  lemma {:induction false} ChargesTotal(rows: seq<BandwidthRow>)
    ensures TotalEgress(Charges(rows)) == TotalSent(rows)
  {
    if rows != [] {
      var init, last := rows[..|rows| - 1], rows[|rows| - 1];
      ChargesTotal(init);
      if last.event.responseBytes > 0 {
        assert (Charges(init) + ChargeOf(last))[..|Charges(init)|] == Charges(init);
      } else {
        assert Charges(init) + ChargeOf(last) == Charges(init);
      }
    }
  }

  lemma {:induction false} ChargeOfRow(rows: seq<BandwidthRow>, name: Name, e: UsageEvent)
    requires e in RowsOf(rows, name) && e.responseBytes > 0
    ensures EgressRecord(name, e.requestId, e.responseBytes) in Charges(rows)
  {
    var init, last := rows[..|rows| - 1], rows[|rows| - 1];
    if e in RowsOf(init, name) {
      ChargeOfRow(init, name, e);
    } else {
      assert ChargeOf(last) == [EgressRecord(name, e.requestId, e.responseBytes)];
    }
  }

  ghost predicate SameKeys(a: seq<TrackedSession>, b: seq<TrackedSession>) {
    |a| == |b| && forall i :: 0 <= i < |a| ==> a[i].key == b[i].key
  }

  lemma {:induction false} SameKeysFound(a: seq<TrackedSession>, b: seq<TrackedSession>, key: SessionKey)
    requires SameKeys(a, b)
    ensures SessionAt(a, key) == SessionAt(b, key)
  {
    if a != [] {
      SameKeysFound(a[..|a| - 1], b[..|b| - 1], key);
    }
  }

  lemma {:induction false} ServedReplaced(sessions: seq<TrackedSession>, at: nat, session: TrackedSession)
    requires at < |sessions| && session.bytesServed >= sessions[at].bytesServed
    ensures TotalServed(sessions[at := session])
            == TotalServed(sessions) + (session.bytesServed - sessions[at].bytesServed)
  {
    var last := |sessions| - 1;
    if at < last {
      ServedReplaced(sessions[..last], at, session);
      assert sessions[at := session][..last] == sessions[..last][at := session];
    } else {
      assert sessions[at := session][..last] == sessions[..last];
    }
  }

  /** What every event keeps: egress records are the charges of the recorded requests, and
      the served byte counters those of the requests whose session is tracked. */
  ghost predicate SumsAgree(db: UsageDb, tracked: seq<TrackedSession>) {
    && db.egress == Charges(db.bandwidth)
    && SameKeys(db.sessions, tracked)
    && TotalServed(db.sessions) == TotalServed(tracked) + SentTo(db.bandwidth, tracked)
  }

  lemma AddEventSums(db: UsageDb, source: Name, e: UsageEvent, sizes: nat -> Option<nat>, tracked: seq<TrackedSession>)
    requires SumsAgree(db, tracked)
    ensures SumsAgree(AddEvent(db, source, e, sizes), tracked)
  {
    var row := BandwidthRow(source, e);
    ChargesAppend(db.bandwidth, row);
    assert (db.bandwidth + [row])[..|db.bandwidth|] == db.bandwidth;
    SameKeysFound(db.sessions, tracked, e.session);
    var at := SessionAt(db.sessions, e.session);
    if at.Some? {
      ServedReplaced(db.sessions, at.value, Serve(db.sessions[at.value], e, sizes(e.file)));
    }
  }

  lemma {:induction false} IngestSums(db: UsageDb, source: Name, events: seq<UsageEvent>, sizes: nat -> Option<nat>,
                                      tracked: seq<TrackedSession>)
    requires SumsAgree(db, tracked)
    ensures SumsAgree(Ingest(db, source, events, sizes), tracked)
    decreases |events|
  {
    if events != [] {
      AddEventSums(db, source, events[0], sizes, tracked);
      IngestSums(AddEvent(db, source, events[0], sizes), source, events[1..], sizes, tracked);
    }
  }

  lemma {:induction false} RunSums(w: World, steps: seq<Step>, dec: Decoders, sizes: nat -> Option<nat>,
                                   tracked: seq<TrackedSession>)
    requires SumsAgree(w.db, tracked)
    ensures SumsAgree(Run(w, steps, dec, sizes).db, tracked)
    decreases |steps|
  {
    if steps != [] {
      if steps[0].Cycle? {
        var file := FileOf(w, steps[0].name);
        var r := ReadLines(file, StartOffset(file, CursorOf(w, steps[0].name)), PAGE);
        IngestSums(w.db, steps[0].name, Parsed(r.0, dec), sizes, tracked);
      }
      RunSums(Apply(w, steps[0], dec, sizes), steps[1..], dec, sizes, tracked);
    }
  }

  lemma {:induction false} AllTracked(rows: seq<BandwidthRow>, tracked: seq<TrackedSession>)
    requires forall i :: 0 <= i < |rows| ==> SessionAt(tracked, rows[i].event.session).Some?
    ensures SentTo(rows, tracked) == TotalSent(rows)
  {
    if rows != [] {
      AllTracked(rows[..|rows| - 1], tracked);
    }
  }

  /** Over any schedule, recorded bandwidth equals recorded egress; and it equals what the
      sessions' byte counters gained when every recorded request's session row exists. */
  lemma BytesAgree(tracked: seq<TrackedSession>, open: Connections, steps: seq<Step>, dec: Decoders,
                   sizes: nat -> Option<nat>)
    ensures var db := Run(Start(tracked, open), steps, dec, sizes).db;
            && TotalSent(db.bandwidth) == TotalEgress(db.egress)
            && ((forall i :: 0 <= i < |db.bandwidth| ==> SessionAt(tracked, db.bandwidth[i].event.session).Some?) ==>
                  TotalServed(db.sessions) - TotalServed(tracked) == TotalSent(db.bandwidth))
  {
    RunSums(Start(tracked, open), steps, dec, sizes, tracked);
    var db := Run(Start(tracked, open), steps, dec, sizes).db;
    ChargesTotal(db.bandwidth);
    if forall i :: 0 <= i < |db.bandwidth| ==> SessionAt(tracked, db.bandwidth[i].event.session).Some? {
      AllTracked(db.bandwidth, tracked);
    }
  }

  /** Each distinct request is charged once, with the bytes of its first occurrence. */
  lemma ChargedOnce(tracked: seq<TrackedSession>, open: Connections, steps: seq<Step>, dec: Decoders,
                    sizes: nat -> Option<nat>, name: Name, k: nat)
    requires var w := Run(Start(tracked, open), steps, dec, sizes);
             && CommittedOf(w, name) <= |FileOf(w, name)|
             && var events := Committed(w, name, dec);
             k < |events| && !HasId(events[..k], events[k].requestId)
    ensures var w := Run(Start(tracked, open), steps, dec, sizes);
            var first := Committed(w, name, dec)[k];
            && first in RowsOf(w.db.bandwidth, name) && IdsDistinct(RowsOf(w.db.bandwidth, name))
            && w.db.egress == Charges(w.db.bandwidth)
            && (first.responseBytes > 0 ==> EgressRecord(name, first.requestId, first.responseBytes) in w.db.egress)
  {
    var w := Run(Start(tracked, open), steps, dec, sizes);
    CollectorIsFold(tracked, open, steps, dec, sizes, name);
    FirstOccurrenceKept(Committed(w, name, dec), k);
    RunSums(Start(tracked, open), steps, dec, sizes, tracked);
    var first := Committed(w, name, dec)[k];
    if first.responseBytes > 0 {
      ChargeOfRow(w.db.bandwidth, name, first);
    }
  }
}
