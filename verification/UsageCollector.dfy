/** The usage collector (app/usage.py:28-85, 159-253): what it charges agrees with a plain
    fold over the delivery log, whatever cursors are lost and wherever a cycle crashes. */
module UsageCollector {
  import opened Base
  import opened LogReader

  type Name = nat  // of a log file

  datatype Purpose = Download | Stream

  datatype SessionKey = SessionKey(purpose: Purpose, id: nat)

  datatype UsageEvent = UsageEvent(requestId: string, responseBytes: nat, status: int, session: SessionKey, file: nat,
                                   rangeStart: Option<nat>, rangeEnd: Option<nat>)

  /** A JSON object of the log with the fields the collector needs, converted but not yet
      checked. Decoding the text is not part of this model. */
  datatype Item = Item(requestId: string, responseBytes: int, status: int, session: nat, file: nat, purpose: string,
                       rangeStart: Option<nat>, rangeEnd: Option<nat>)

  datatype Decoders = Decoders(text: Bytes -> Option<string>, item: string -> Option<Item>)

  predicate RequestIdChar(c: char) {
    'A' <= c <= 'Z' || 'a' <= c <= 'z' || '0' <= c <= '9' || c == '_' || c == '-'
  }

  predicate RequestIdValid(id: string) {
    8 <= |id| <= 160 && forall i :: 0 <= i < |id| ==> RequestIdChar(id[i])
  }

  /** `parse_usage_event`: nothing for a line that is not a valid event. */
  function ParseUsageEvent(value: string, load: string -> Option<Item>): (event: Option<UsageEvent>)
    ensures event.Some? ==> RequestIdValid(event.value.requestId) && 100 <= event.value.status <= 599
  {
    if |value| > MAX_LINE then None
    else
      var item := load(value);
      if item.None? || !RequestIdValid(item.value.requestId) then None
      else if item.value.responseBytes < 0 || item.value.status < 100 || item.value.status > 599 then None
      else if item.value.purpose != "download" && item.value.purpose != "stream" then None
      else
        var purpose := if item.value.purpose == "download" then Download else Stream;
        Some(UsageEvent(item.value.requestId, item.value.responseBytes, item.value.status,
                        SessionKey(purpose, item.value.session), item.value.file,
                        item.value.rangeStart, item.value.rangeEnd))
  }

  /** The events of some raw log lines, in order. */
  function Parsed(lines: seq<Bytes>, dec: Decoders): seq<UsageEvent> {
    if lines == [] then []
    else
      var event := ParseUsageEvent(Text(lines[0], dec.text), dec.item);
      (if event.Some? then [event.value] else []) + Parsed(lines[1..], dec)
  }

  /** The events of a stretch of log. */
  function EventsOf(log: Bytes, dec: Decoders): seq<UsageEvent> {
    Parsed(Split(log), dec)
  }

  // ---------------------------------------------------------------- the database

  datatype BandwidthRow = BandwidthRow(source: Name, event: UsageEvent)

  datatype EgressRecord = EgressRecord(source: Name, requestId: string, amount: nat)

  datatype TrackedSession = TrackedSession(key: SessionKey, bytesServed: nat, connections: nat, completed: bool)

  datatype UsageDb = UsageDb(bandwidth: seq<BandwidthRow>, egress: seq<EgressRecord>, sessions: seq<TrackedSession>)

  predicate Recorded(rows: seq<BandwidthRow>, source: Name, requestId: string) {
    exists i :: 0 <= i < |rows| && rows[i].source == source && rows[i].event.requestId == requestId
  }

  function SessionAt(sessions: seq<TrackedSession>, key: SessionKey): (at: Option<nat>)
    ensures at.Some? ==> at.value < |sessions| && sessions[at.value].key == key
    ensures at.None? ==> forall i :: 0 <= i < |sessions| ==> sessions[i].key != key
  {
    if sessions == [] then None
    else if sessions[|sessions| - 1].key == key then Some(|sessions| - 1)
    else SessionAt(sessions[..|sessions| - 1], key)
  }

  /** A whole-file download that delivered at least the file's size ends its session. */
  predicate Completes(e: UsageEvent, size: Option<nat>) {
    && e.session.purpose == Download && e.rangeStart.None? && e.rangeEnd.None?
    && size.Some? && e.status == 200 && e.responseBytes >= size.value
  }

  function Serve(session: TrackedSession, e: UsageEvent, size: Option<nat>): TrackedSession {
    session.(bytesServed := session.bytesServed + e.responseBytes,
             connections := Max(0, session.connections - 1),
             completed := session.completed || Completes(e, size))
  }

  function ChargeOf(row: BandwidthRow): seq<EgressRecord> {
    if row.event.responseBytes > 0 then [EgressRecord(row.source, row.event.requestId, row.event.responseBytes)] else []
  }

  /** One event of the log: ignored if its request was recorded before. */
  function AddEvent(db: UsageDb, source: Name, e: UsageEvent, sizes: nat -> Option<nat>): UsageDb {
    if Recorded(db.bandwidth, source, e.requestId) then db
    else
      var at := SessionAt(db.sessions, e.session);
      UsageDb(db.bandwidth + [BandwidthRow(source, e)],
              db.egress + ChargeOf(BandwidthRow(source, e)),
              if at.Some? then db.sessions[at.value := Serve(db.sessions[at.value], e, sizes(e.file))] else db.sessions)
  }

  function Ingest(db: UsageDb, source: Name, events: seq<UsageEvent>, sizes: nat -> Option<nat>): UsageDb
    decreases |events|
  {
    if events == [] then db else Ingest(AddEvent(db, source, events[0], sizes), source, events[1..], sizes)
  }

  // ---------------------------------------------------------------- the service

  const PAGE := 1000

  /** Where a cycle stops, if it does not finish: before its transaction commits, or between
      the commit and the cursor write, after some connections were released. */
  datatype Crash = NoCrash | BeforeCommit | BeforeCursor(releases: nat)

  /** Open connections by session, as Redis counts them. */
  type Connections = map<SessionKey, nat>

  /** The files being written, the cursors, the counters, the database; and, for the record
      only, how much of each file has been committed, the events of the files it replaced, and
      the connections released. */
  datatype World = World(files: map<Name, Bytes>, cursors: map<Name, nat>, connections: Connections, db: UsageDb,
                         committed: map<Name, nat>, past: map<Name, seq<UsageEvent>>, released: seq<SessionKey>)

  function Get<K, T>(m: map<K, T>, key: K, default: T): T {
    if key in m then m[key] else default
  }

  function FileOf(w: World, name: Name): Bytes {
    Get(w.files, name, [])
  }

  function CursorOf(w: World, name: Name): nat {
    Get(w.cursors, name, 0)
  }

  /** A cursor beyond the file starts over. */
  function StartOffset(file: Bytes, cursor: nat): nat {
    if cursor > |file| then 0 else cursor
  }

  /** The counter script: one connection less, and no key where none is left. */
  function Release(connections: Connections, key: SessionKey): Connections {
    var current := Get(connections, key, 0);
    if current <= 1 then connections - {key} else connections[key := current - 1]
  }

  function ReleaseAll(connections: Connections, keys: seq<SessionKey>): Connections
    decreases |keys|
  {
    if keys == [] then connections else ReleaseAll(Release(connections, keys[0]), keys[1..])
  }

  /** The sessions of some recorded requests. */
  function SessionsOf(rows: seq<BandwidthRow>): seq<SessionKey> {
    seq(|rows|, i requires 0 <= i < |rows| => rows[i].event.session)
  }

  lemma {:induction false} IngestAppends(db: UsageDb, source: Name, events: seq<UsageEvent>, sizes: nat -> Option<nat>)
    ensures db.bandwidth <= Ingest(db, source, events, sizes).bandwidth
    decreases |events|
  {
    if events != [] {
      IngestAppends(AddEvent(db, source, events[0], sizes), source, events[1..], sizes);
    }
  }

  /** The sessions of the requests that are new to the database: one connection each ends. */
  function NewSessions(db: UsageDb, after: UsageDb): seq<SessionKey> {
    if |db.bandwidth| <= |after.bandwidth| then SessionsOf(after.bandwidth[|db.bandwidth|..]) else []
  }

  /** How many of them a cycle gets to release. */
  function Releases(crash: Crash, keys: seq<SessionKey>): (n: nat)
    ensures n <= |keys|
  {
    match crash
    case NoCrash => |keys|
    case BeforeCommit => 0
    case BeforeCursor(releases) => Min(releases, |keys|)
  }

  datatype Outcome = Outcome(db: UsageDb, connections: Connections, cursors: map<Name, nat>, released: seq<SessionKey>)

  /** `_consume_file` for one file, up to where it crashes. */
  function Effect(db: UsageDb, connections: Connections, cursors: map<Name, nat>, name: Name, file: Bytes, crash: Crash,
                  dec: Decoders, sizes: nat -> Option<nat>): Outcome
  {
    var r := ReadLines(file, StartOffset(file, Get(cursors, name, 0)), PAGE);
    var after := if crash == BeforeCommit then db else Ingest(db, name, Parsed(r.0, dec), sizes);
    var keys := NewSessions(db, after);
    var released := keys[..Releases(crash, keys)];
    Outcome(after, ReleaseAll(connections, released),
            if crash == NoCrash then cursors[name := r.1] else cursors,
            released)
  }

  function Consume(w: World, name: Name, crash: Crash, dec: Decoders, sizes: nat -> Option<nat>): World {
    var file := FileOf(w, name);
    var after := Effect(w.db, w.connections, w.cursors, name, file, crash, dec, sizes);
    var end := ReadLines(file, StartOffset(file, CursorOf(w, name)), PAGE).1;
    w.(db := after.db, connections := after.connections, cursors := after.cursors,
       committed := if crash == BeforeCommit then w.committed
                    else w.committed[name := Max(Get(w.committed, name, 0), end)],
       released := w.released + after.released)
  }

  lemma RowAdded(db: UsageDb, before: UsageDb, after: UsageDb, row: BandwidthRow)
    requires |db.bandwidth| <= |before.bandwidth| && after.bandwidth == before.bandwidth + [row]
    ensures NewSessions(db, after) == NewSessions(db, before) + [row.event.session]
  {
    DropJoins(before.bandwidth, [row], |db.bandwidth|);
  }

  class Collector {
    var bandwidth: seq<BandwidthRow>
    var egress: seq<EgressRecord>
    var sessions: seq<TrackedSession>
    var connections: Connections
    var cursors: map<Name, nat>

    constructor (tracked: seq<TrackedSession>, open: Connections)
      ensures Contents() == UsageDb([], [], tracked) && connections == open && cursors == map[]
    {
      bandwidth, egress, sessions, connections, cursors := [], [], tracked, open, map[];
    }

    function Contents(): UsageDb
      reads this
    {
      UsageDb(bandwidth, egress, sessions)
    }

    /** One event: recorded with its charge and its session's counters, unless its request is
        known; whether it was new. */
    method IngestEvent(source: Name, e: UsageEvent, sizes: nat -> Option<nat>) returns (inserted: bool)
      modifies this`bandwidth, this`egress, this`sessions
      ensures Contents() == AddEvent(old(Contents()), source, e, sizes)
      ensures inserted <==> !Recorded(old(bandwidth), source, e.requestId)
    {
      if Recorded(bandwidth, source, e.requestId) {
        return false;
      }
      bandwidth := bandwidth + [BandwidthRow(source, e)];
      var at := SessionAt(sessions, e.session);
      if at.Some? {
        var tracked := sessions[at.value];
        tracked := tracked.(bytesServed := tracked.bytesServed + e.responseBytes,
                            connections := Max(0, tracked.connections - 1));
        if e.session.purpose == Download && e.rangeStart.None? && e.rangeEnd.None? {
          var size := sizes(e.file);
          if size.Some? && e.status == 200 && e.responseBytes >= size.value {
            tracked := tracked.(completed := true);
          }
        }
        sessions := sessions[at.value := tracked];
      }
      if e.responseBytes > 0 {
        egress := egress + [EgressRecord(source, e.requestId, e.responseBytes)];
      } else {
        assert egress + [] == egress;
      }
      return true;
    }

    /** The body of the transaction: rows and counters updated event by event, and the
        sessions whose requests were new. */
    method IngestEvents(source: Name, events: seq<UsageEvent>, sizes: nat -> Option<nat>)
      returns (released: seq<SessionKey>)
      modifies this`bandwidth, this`egress, this`sessions
      ensures Contents() == Ingest(old(Contents()), source, events, sizes)
      ensures released == NewSessions(old(Contents()), Contents())
    {
      released := [];
      ghost var db := Contents();
      var i := 0;
      assert events[0..] == events;
      while i < |events|
        invariant i <= |events| && |db.bandwidth| <= |bandwidth|
        invariant Ingest(db, source, events, sizes) == Ingest(Contents(), source, events[i..], sizes)
        invariant released == NewSessions(db, Contents())
      {
        assert events[i..][1..] == events[i + 1..];
        ghost var before := Contents();
        var inserted := IngestEvent(source, events[i], sizes);
        if inserted {
          RowAdded(db, before, Contents(), BandwidthRow(source, events[i]));
          released := released + [events[i].session];
        }
        i := i + 1;
      }
    }

    /** One call of the counter script per session, up to a crash. */
    method ReleaseConnections(keys: seq<SessionKey>, limit: nat)
      requires limit <= |keys|
      modifies this`connections
      ensures connections == ReleaseAll(old(connections), keys[..limit])
    {
      var i := 0;
      while i < limit
        invariant i <= limit
        invariant ReleaseAll(old(connections), keys[..limit]) == ReleaseAll(connections, keys[i..limit])
      {
        assert keys[i..limit][1..] == keys[i + 1..limit];
        var current := if keys[i] in connections then connections[keys[i]] else 0;
        if current <= 1 {
          connections := connections - {keys[i]};
        } else {
          connections := connections[keys[i] := current - 1];
        }
        i := i + 1;
      }
      assert keys[limit..limit] == [];
    }

    /** `_consume_file`; it returns how many lines it read. */
    method ConsumeFile(source: Name, file: Bytes, crash: Crash, dec: Decoders, sizes: nat -> Option<nat>)
      returns (count: nat)
      modifies this
      ensures var after := Effect(old(Contents()), old(connections), old(cursors), source, file, crash, dec, sizes);
              Contents() == after.db && connections == after.connections && cursors == after.cursors
    {
      var offset := if source in cursors then cursors[source] else 0;
      if offset > |file| {
        offset := 0;
      }
      var lines, next := ReadCompleteLines(file, offset, PAGE, dec.text);
      var events := ParseLines(lines, ReadLines(file, offset, PAGE).0, dec);
      count := |lines|;
      if crash == BeforeCommit {
        assert bandwidth[|bandwidth|..] == [];
        return;
      }
      var released := IngestEvents(source, events, sizes);
      ReleaseConnections(released, Releases(crash, released));
      if crash == NoCrash {
        cursors := cursors[source := next];
      }
    }
  }

  /** The events of the lines read, unparsable ones dropped. */
  method ParseLines(lines: seq<string>, ghost raws: seq<Bytes>, dec: Decoders) returns (events: seq<UsageEvent>)
    requires lines == Texts(raws, dec.text)
    ensures events == Parsed(raws, dec)
  {
    events := [];
    var i := 0;
    assert raws[0..] == raws;
    while i < |lines|
      invariant i <= |lines| == |raws|
      invariant events + Parsed(raws[i..], dec) == Parsed(raws, dec)
    {
      assert raws[i..][1..] == raws[i + 1..];
      var event := ParseUsageEvent(lines[i], dec.item);
      if event.Some? {
        assert events + ([event.value] + Parsed(raws[i + 1..], dec))
               == events + [event.value] + Parsed(raws[i + 1..], dec);
        events := events + [event.value];
      } else {
        assert [] + Parsed(raws[i + 1..], dec) == Parsed(raws[i + 1..], dec);
      }
      i := i + 1;
    }
  }
}
