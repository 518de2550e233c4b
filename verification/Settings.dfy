/** Versioned settings (app/core/settings.py:139-168, 202-357): every committed change is one
    version, one history row and one notice, and the cross-setting rules always hold. */
module Settings {
  import opened Base

  datatype Key =
    | StorageWarningPercent | StorageStopPercent | StorageEmergencyPercent
    | DownloadsSessionTtl | StreamSessionTtl | AdminSessionTtl
    | OtherKey(id: nat)

  /** A stored JSON value, as far as the rules look at it. */
  datatype Value = Null | Number(number: real) | Other(id: nat)

  datatype Setting = Setting(value: Value, version: nat, enabled: bool, editable: bool)

  /** A row of the settings history; the outbox notice of the change carries the same key
      and version. */
  datatype Change = Change(key: Key, version: nat, oldValue: Value, newValue: Value)

  type Table = map<Key, Setting>

  datatype Books = Books(settings: Table, history: seq<Change>)

  datatype Fault = Invalid | Conflict | Denied

  datatype Outcome = Done(books: Books, changes: seq<Change>) | Raised(fault: Fault)

  type Raw = nat

  /** Parsing a raw value for a setting, limits and allowed values included. */
  type Parser = (Key, Raw) -> Option<Value>

  // ---------------------------------------------------------------- cross-setting rules

  function ValueOf(values: map<Key, Value>, key: Key): Value {
    if key in values then values[key] else Null
  }

  predicate Ascending(a: Value, b: Value, c: Value) {
    a.Number? && b.Number? && c.Number? && a.number < b.number < c.number
  }

  predicate LifetimeBounded(v: Value) {
    v == Null || (v.Number? && 60.0 <= v.number <= 86400.0)
  }

  /** `validate_cross_setting_invariants` raises nothing. Values that do not compare raise. */
  predicate CrossValid(values: map<Key, Value>) {
    var a, b, c := ValueOf(values, StorageWarningPercent), ValueOf(values, StorageStopPercent),
                   ValueOf(values, StorageEmergencyPercent);
    && (a != Null && b != Null && c != Null ==> Ascending(a, b, c))
    && LifetimeBounded(ValueOf(values, DownloadsSessionTtl))
    && LifetimeBounded(ValueOf(values, StreamSessionTtl))
    && LifetimeBounded(ValueOf(values, AdminSessionTtl))
  }

  /** The snapshot: the values of the enabled settings. */
  function Snapshot(settings: Table): map<Key, Value> {
    map key | key in settings && settings[key].enabled :: settings[key].value
  }

  // ---------------------------------------------------------------- the operations

  function ChangeOf(settings: Table, key: Key, value: Value): Change
    requires key in settings
  {
    Change(key, settings[key].version + 1, settings[key].value, value)
  }

  /** One row written: new value, next version, one history row. */
  function Write(books: Books, key: Key, value: Value): Books
    requires key in books.settings
  {
    var row := books.settings[key];
    Books(books.settings[key := row.(value := value, version := row.version + 1)],
          books.history + [ChangeOf(books.settings, key, value)])
  }

  /** `update`; `reason` is the length of the stripped reason, `authorized` the verdict of the
      authorization service. */
  function Updated(books: Books, key: Key, raw: Raw, expected: int, reason: nat, authorized: bool,
                   parse: Parser): Outcome
  {
    if reason < 5 || reason > 2000 then Raised(Invalid)
    else if key !in books.settings || !books.settings[key].enabled then Raised(Invalid)
    else if !books.settings[key].editable then Raised(Invalid)
    else if books.settings[key].version != expected then Raised(Conflict)
    else if !authorized then Raised(Denied)
    else
      var parsed := parse(key, raw);
      if parsed.None? then Raised(Invalid)
      else if !CrossValid(Snapshot(books.settings)) then Raised(Invalid)
      else if !CrossValid(Snapshot(books.settings)[key := parsed.value]) then Raised(Invalid)
      else Done(Write(books, key, parsed.value), [ChangeOf(books.settings, key, parsed.value)])
  }

  datatype Entry = Entry(key: Key, raw: Raw)

  /** A profile is a dictionary taken in key order: no key occurs twice. */
  predicate KeysDistinct(entries: seq<Entry>) {
    forall i, j :: 0 <= i < j < |entries| ==> entries[i].key != entries[j].key
  }

  /** Parses the rows of a profile onto the snapshot, checking the versions on the way. */
  function Propose(settings: Table, entries: seq<Entry>, expected: map<Key, nat>, proposed: map<Key, Value>,
                   parse: Parser)
    : (r: (Option<Fault>, map<Key, Value>))
    requires forall i :: 0 <= i < |entries| ==> entries[i].key in settings
    ensures r.0.None? ==> r.1.Keys >= proposed.Keys && forall i :: 0 <= i < |entries| ==> entries[i].key in r.1
    decreases |entries|
  {
    if entries == [] then (None, proposed)
    else
      var key := entries[0].key;
      if key !in expected || settings[key].version != expected[key] then (Some(Conflict), proposed)
      else
        var parsed := parse(key, entries[0].raw);
        if parsed.None? then (Some(Invalid), proposed)
        else Propose(settings, entries[1..], expected, proposed[key := parsed.value], parse)
  }

  function WriteAll(books: Books, entries: seq<Entry>, values: map<Key, Value>): (Books, seq<Change>)
    requires forall i :: 0 <= i < |entries| ==> entries[i].key in books.settings && entries[i].key in values
    decreases |entries|
  {
    if entries == [] then (books, [])
    else
      var key := entries[0].key;
      var rest := WriteAll(Write(books, key, values[key]), entries[1..], values);
      (rest.0, [ChangeOf(books.settings, key, values[key])] + rest.1)
  }

  /** `apply_profile`; an absent profile is `None`. */
  function ProfileApplied(books: Books, profile: Option<seq<Entry>>, expected: map<Key, nat>, reason: nat,
                          authorized: bool, parse: Parser): Outcome
  {
    if reason < 5 || reason > 2000 then Raised(Invalid)
    else if profile.None? then Raised(Invalid)
    else if !authorized then Raised(Denied)
    else if exists i :: 0 <= i < |profile.value| && profile.value[i].key !in books.settings then Raised(Invalid)
    else if !CrossValid(Snapshot(books.settings)) then Raised(Invalid)
    else
      var r := Propose(books.settings, profile.value, expected, Snapshot(books.settings), parse);
      if r.0.Some? then Raised(r.0.value)
      else if !CrossValid(r.1) then Raised(Invalid)
      else
        var w := WriteAll(books, profile.value, r.1);
        Done(w.0, w.1)
  }

  // ---------------------------------------------------------------- the service

  class SettingsService {
    var settings: Table
    var history: seq<Change>

    constructor (seeds: Table)
      ensures Contents() == Books(seeds, [])
    {
      settings, history := seeds, [];
    }

    function Contents(): Books
      reads this
    {
      Books(settings, history)
    }

    method WriteRow(key: Key, value: Value) returns (change: Change)
      requires key in settings
      modifies this
      ensures Contents() == Write(old(Contents()), key, value)
      ensures change == ChangeOf(old(settings), key, value)
    {
      var row := settings[key];
      var oldValue, newVersion := row.value, row.version + 1;
      settings := settings[key := row.(value := value, version := newVersion)];
      change := Change(key, newVersion, oldValue, value);
      history := history + [change];
    }

    method Update(key: Key, raw: Raw, expected: int, reason: nat, authorized: bool, parse: Parser)
      returns (r: Outcome)
      modifies this
      ensures r == Updated(old(Contents()), key, raw, expected, reason, authorized, parse)
      ensures Contents() == if r.Done? then r.books else old(Contents())
    {
      if reason < 5 || reason > 2000 {
        return Raised(Invalid);
      }
      if key !in settings || !settings[key].enabled {
        return Raised(Invalid);
      }
      if !settings[key].editable {
        return Raised(Invalid);
      }
      if settings[key].version != expected {
        return Raised(Conflict);
      }
      if !authorized {
        return Raised(Denied);
      }
      var value := parse(key, raw);
      if value.None? {
        return Raised(Invalid);
      }
      var snapshot := Snapshot(settings);
      if !CrossValid(snapshot) || !CrossValid(snapshot[key := value.value]) {
        return Raised(Invalid);
      }
      var change := WriteRow(key, value.value);
      return Done(Contents(), [change]);
    }

    method ApplyProfile(profile: Option<seq<Entry>>, expected: map<Key, nat>, reason: nat, authorized: bool,
                        parse: Parser)
      returns (r: Outcome)
      modifies this
      ensures r == ProfileApplied(old(Contents()), profile, expected, reason, authorized, parse)
      ensures Contents() == if r.Done? then r.books else old(Contents())
    {
      if reason < 5 || reason > 2000 || profile.None? {
        return Raised(Invalid);
      }
      if !authorized {
        return Raised(Denied);
      }
      var entries := profile.value;
      if exists i :: 0 <= i < |entries| && entries[i].key !in settings {
        return Raised(Invalid);
      }
      var proposed := Snapshot(settings);
      if !CrossValid(proposed) {
        return Raised(Invalid);
      }
      var i := 0;
      assert entries[0..] == entries;
      ghost var whole := Propose(settings, entries, expected, proposed, parse);
      while i < |entries|
        invariant i <= |entries| && unchanged(this)
        invariant whole == Propose(settings, entries[i..], expected, proposed, parse)
      {
        var key := entries[i].key;
        assert entries[i..][1..] == entries[i + 1..];
        if key !in expected || settings[key].version != expected[key] {
          return Raised(Conflict);
        }
        var value := parse(key, entries[i].raw);
        if value.None? {
          return Raised(Invalid);
        }
        proposed := proposed[key := value.value];
        i := i + 1;
      }
      assert whole == (None, proposed);
      if !CrossValid(proposed) {
        return Raised(Invalid);
      }
      var changes := WriteRows(entries, proposed);
      return Done(Contents(), changes);
    }

    method WriteRows(entries: seq<Entry>, values: map<Key, Value>) returns (changes: seq<Change>)
      requires forall i :: 0 <= i < |entries| ==> entries[i].key in settings && entries[i].key in values
      modifies this
      ensures (Contents(), changes) == WriteAll(old(Contents()), entries, values)
    {
      changes := [];
      assert entries[0..] == entries;
      ghost var whole := WriteAll(Contents(), entries, values);
      assert changes + whole.1 == whole.1;
      var i := 0;
      while i < |entries|
        invariant i <= |entries|
        invariant forall j :: 0 <= j < |entries| ==> entries[j].key in settings
        invariant var rest := WriteAll(Contents(), entries[i..], values); whole == (rest.0, changes + rest.1)
      {
        assert entries[i..][1..] == entries[i + 1..];
        var change := WriteRow(entries[i].key, values[entries[i].key]);
        ghost var rest := WriteAll(Contents(), entries[i + 1..], values);
        assert changes + ([change] + rest.1) == changes + [change] + rest.1;
        changes := changes + [change];
        i := i + 1;
      }
      assert changes + [] == changes;
    }
  }

  // ---------------------------------------------------------------- runs

  datatype Call =
    | UpdateCall(key: Key, raw: Raw, expected: int, reason: nat, authorized: bool)
    | ProfileCall(profile: Option<seq<Entry>>, versions: map<Key, nat>, reason: nat, authorized: bool)

  function Answer(books: Books, call: Call, parse: Parser): Outcome {
    match call
    case UpdateCall(key, raw, expected, reason, authorized) =>
      Updated(books, key, raw, expected, reason, authorized, parse)
    case ProfileCall(profile, versions, reason, authorized) =>
      ProfileApplied(books, profile, versions, reason, authorized, parse)
  }

  function Next(books: Books, call: Call, parse: Parser): Books {
    var r := Answer(books, call, parse);
    if r.Done? then r.books else books
  }

  predicate Legal(call: Call) {
    call.ProfileCall? && call.profile.Some? ==> KeysDistinct(call.profile.value)
  }

  function Run(books: Books, calls: seq<Call>, parse: Parser): Books
    decreases |calls|
  {
    if calls == [] then books else Run(Next(books, calls[0], parse), calls[1..], parse)
  }

  function HistoryOf(history: seq<Change>, key: Key): seq<Change> {
    if history == [] then []
    else HistoryOf(history[..|history| - 1], key)
         + (if history[|history| - 1].key == key then [history[|history| - 1]] else [])
  }

  /** The value after the changes, replayed from the seed. */
  function Replay(seed: Value, changes: seq<Change>): Value {
    if changes == [] then seed else changes[|changes| - 1].newValue
  }

  /** Consecutive versions from the seed's, each old value the new value before it. */
  ghost predicate Chained(seed: Setting, changes: seq<Change>) {
    forall i :: 0 <= i < |changes| ==>
                  && changes[i].version == seed.version + 1 + i
                  && changes[i].oldValue == Replay(seed.value, changes[..i])
  }

  ghost predicate RowSound(seeds: Table, books: Books, key: Key) {
    && (key in books.settings <==> key in seeds)
    && (key in seeds ==>
          var changes := HistoryOf(books.history, key);
          && Chained(seeds[key], changes)
          && books.settings[key].version == seeds[key].version + |changes|
          && books.settings[key].value == Replay(seeds[key].value, changes)
          && books.settings[key].enabled == seeds[key].enabled
          && books.settings[key].editable == seeds[key].editable)
    && (key !in seeds ==> HistoryOf(books.history, key) == [])
  }

  ghost predicate Sound(seeds: Table, books: Books) {
    forall key :: RowSound(seeds, books, key)
  }

  lemma WriteRowSound(seeds: Table, books: Books, key: Key, value: Value, any: Key)
    requires RowSound(seeds, books, any) && key in books.settings
    ensures RowSound(seeds, Write(books, key, value), any)
  {
    HistoryAppend(books.history, ChangeOf(books.settings, key, value), any);
    if any == key {
      ChainExtends(seeds[key], HistoryOf(books.history, any), ChangeOf(books.settings, key, value));
    }
  }

  lemma HistoryAppend(history: seq<Change>, change: Change, key: Key)
    ensures HistoryOf(history + [change], key)
            == if change.key == key then HistoryOf(history, key) + [change] else HistoryOf(history, key)
  {
    assert (history + [change])[..|history|] == history;
    assert HistoryOf(history, key) + [] == HistoryOf(history, key);
  }

  lemma ChainExtends(seed: Setting, changes: seq<Change>, change: Change)
    requires Chained(seed, changes)
    requires change.version == seed.version + 1 + |changes| && change.oldValue == Replay(seed.value, changes)
    ensures Chained(seed, changes + [change]) && Replay(seed.value, changes + [change]) == change.newValue
  {
    var longer := changes + [change];
    forall i | 0 <= i < |longer|
      ensures longer[i].version == seed.version + 1 + i && longer[i].oldValue == Replay(seed.value, longer[..i])
    {
      assert longer[..i] == changes[..i];
    }
    assert changes[..|changes|] == changes;
  }

  lemma WriteSound(seeds: Table, books: Books, key: Key, value: Value)
    requires Sound(seeds, books) && key in books.settings
    ensures Sound(seeds, Write(books, key, value))
  {
    forall any
      ensures RowSound(seeds, Write(books, key, value), any)
    {
      WriteRowSound(seeds, books, key, value, any);
    }
  }

  lemma {:induction false} WriteAllSound(seeds: Table, books: Books, entries: seq<Entry>, values: map<Key, Value>)
    requires Sound(seeds, books)
    requires forall i :: 0 <= i < |entries| ==> entries[i].key in books.settings && entries[i].key in values
    ensures Sound(seeds, WriteAll(books, entries, values).0)
    decreases |entries|
  {
    if entries != [] {
      WriteSound(seeds, books, entries[0].key, values[entries[0].key]);
      WriteAllSound(seeds, Write(books, entries[0].key, values[entries[0].key]), entries[1..], values);
    }
  }

  // ---------------------------------------------------------------- the rules survive

  /** Fewer settings break no rule that more settings keep. */
  lemma FewerStillValid(some: map<Key, Value>, all: map<Key, Value>)
    requires CrossValid(all)
    requires forall key :: key in some ==> key in all && all[key] == some[key]
    ensures CrossValid(some)
  {
  }

  lemma {:induction false} ProposedValues(settings: Table, entries: seq<Entry>, expected: map<Key, nat>,
                                          proposed: map<Key, Value>, parse: Parser, key: Key)
    requires forall i :: 0 <= i < |entries| ==> entries[i].key in settings
    requires Propose(settings, entries, expected, proposed, parse).0.None?
    requires key in proposed && forall i :: 0 <= i < |entries| ==> entries[i].key != key
    ensures var r := Propose(settings, entries, expected, proposed, parse).1;
            key in r && r[key] == proposed[key]
    decreases |entries|
  {
    if entries != [] {
      ProposedValues(settings, entries[1..], expected,
                     proposed[entries[0].key := parse(entries[0].key, entries[0].raw).value],
                     parse, key);
    }
  }

  /** Writing the proposed values puts each of them in its row, and touches no other row. */
  lemma {:induction false} WriteAllValues(books: Books, entries: seq<Entry>, values: map<Key, Value>, key: Key)
    requires KeysDistinct(entries) && key in books.settings
    requires forall i :: 0 <= i < |entries| ==> entries[i].key in books.settings && entries[i].key in values
    ensures var after := WriteAll(books, entries, values).0;
            && after.settings.Keys == books.settings.Keys
            && after.settings[key].enabled == books.settings[key].enabled
            && ((exists i :: 0 <= i < |entries| && entries[i].key == key) ==>
                  key in values && after.settings[key].value == values[key])
            && ((forall i :: 0 <= i < |entries| ==> entries[i].key != key) ==>
                after.settings[key] == books.settings[key])
    decreases |entries|
  {
    if entries != [] {
      var first, rest := entries[0], entries[1..];
      assert forall i :: 0 <= i < |rest| ==> rest[i] == entries[i + 1];
      WriteAllValues(Write(books, first.key, values[first.key]), rest, values, key);
      if i :| 0 <= i < |entries| && entries[i].key == key {
        if i > 0 {
          assert rest[i - 1].key == key;
        }
      }
    }
  }

  lemma UpdateStaysValid(books: Books, key: Key, value: Value)
    requires key in books.settings && books.settings[key].enabled
    requires CrossValid(Snapshot(books.settings)[key := value])
    ensures CrossValid(Snapshot(Write(books, key, value).settings))
  {
    assert Snapshot(Write(books, key, value).settings) == Snapshot(books.settings)[key := value];
  }

  lemma ProfileStaysValid(books: Books, entries: seq<Entry>, expected: map<Key, nat>, parse: Parser)
    requires KeysDistinct(entries) && forall i :: 0 <= i < |entries| ==> entries[i].key in books.settings
    requires var r := Propose(books.settings, entries, expected, Snapshot(books.settings), parse);
             r.0.None? && CrossValid(r.1)
    ensures var r := Propose(books.settings, entries, expected, Snapshot(books.settings), parse);
            CrossValid(Snapshot(WriteAll(books, entries, r.1).0.settings))
  {
    var r := Propose(books.settings, entries, expected, Snapshot(books.settings), parse);
    var after := WriteAll(books, entries, r.1).0.settings;
    forall key | key in Snapshot(after)
      ensures key in r.1 && r.1[key] == Snapshot(after)[key]
    {
      if key in books.settings {
        WriteAllValues(books, entries, r.1, key);
        if forall i :: 0 <= i < |entries| ==> entries[i].key != key {
          ProposedValues(books.settings, entries, expected, Snapshot(books.settings), parse, key);
        }
      } else {
        WriteAllKeys(books, entries, r.1);
      }
    }
    FewerStillValid(Snapshot(after), r.1);
  }

  lemma {:induction false} WriteAllKeys(books: Books, entries: seq<Entry>, values: map<Key, Value>)
    requires forall i :: 0 <= i < |entries| ==> entries[i].key in books.settings && entries[i].key in values
    ensures WriteAll(books, entries, values).0.settings.Keys == books.settings.Keys
    decreases |entries|
  {
    if entries != [] {
      WriteAllKeys(Write(books, entries[0].key, values[entries[0].key]), entries[1..], values);
    }
  }

  lemma NextSound(seeds: Table, books: Books, call: Call, parse: Parser)
    requires Sound(seeds, books) && CrossValid(Snapshot(books.settings)) && Legal(call)
    ensures Sound(seeds, Next(books, call, parse)) && CrossValid(Snapshot(Next(books, call, parse).settings))
  {
    if Answer(books, call, parse).Done? {
      match call
      case UpdateCall(key, raw, _, _, _) =>
        WriteSound(seeds, books, key, parse(key, raw).value);
        UpdateStaysValid(books, key, parse(key, raw).value);
      case ProfileCall(profile, versions, _, _) =>
        var r := Propose(books.settings, profile.value, versions, Snapshot(books.settings), parse);
        WriteAllSound(seeds, books, profile.value, r.1);
        ProfileStaysValid(books, profile.value, versions, parse);
    }
  }

  ghost predicate AllLegal(calls: seq<Call>) {
    forall i :: 0 <= i < |calls| ==> Legal(calls[i])
  }

  lemma {:induction false} RunSound(seeds: Table, books: Books, calls: seq<Call>, parse: Parser)
    requires Sound(seeds, books) && CrossValid(Snapshot(books.settings)) && AllLegal(calls)
    ensures Sound(seeds, Run(books, calls, parse)) && CrossValid(Snapshot(Run(books, calls, parse).settings))
    decreases |calls|
  {
    if calls != [] {
      assert Legal(calls[0]);
      NextSound(seeds, books, calls[0], parse);
      RunSound(seeds, Next(books, calls[0], parse), calls[1..], parse);
    }
  }

  /** Over any serial run of updates and profiles: consecutive versions ending at the current
      one, each old value the previous new one, the replay gives the current value, and the
      enabled values keep the threshold order and the lifetime bounds. */
  lemma HistoryTellsAll(seeds: Table, calls: seq<Call>, parse: Parser, key: Key)
    requires CrossValid(Snapshot(seeds)) && AllLegal(calls) && key in seeds
    ensures var books := Run(Books(seeds, []), calls, parse);
            var changes := HistoryOf(books.history, key);
            && key in books.settings
            && Chained(seeds[key], changes)
            && books.settings[key].version == seeds[key].version + |changes|
            && books.settings[key].value == Replay(seeds[key].value, changes)
            && CrossValid(Snapshot(books.settings))
  {
    RunSound(seeds, Books(seeds, []), calls, parse);
    assert RowSound(seeds, Run(Books(seeds, []), calls, parse), key);
  }

  // ---------------------------------------------------------------- optimistic concurrency

  /** A call that expects any other version than a row's current one changes nothing. */
  lemma StaleChangesNothing(books: Books, call: Call, parse: Parser, key: Key)
    requires key in books.settings
    requires match call
             case UpdateCall(k, _, expected, _, _) => k == key && expected != books.settings[key].version
             case ProfileCall(profile, versions, _, _) =>
               && profile.Some? && (exists i :: 0 <= i < |profile.value| && profile.value[i].key == key)
               && (key !in versions || versions[key] != books.settings[key].version)
    ensures Answer(books, call, parse).Raised? && Next(books, call, parse) == books
  {
    if call.ProfileCall? {
      var entries := call.profile.value;
      if forall i :: 0 <= i < |entries| ==> entries[i].key in books.settings {
        StaleProposal(books.settings, entries, call.versions, Snapshot(books.settings), parse, key);
      }
    }
  }

  lemma {:induction false} StaleProposal(settings: Table, entries: seq<Entry>, expected: map<Key, nat>,
                                         proposed: map<Key, Value>, parse: Parser, key: Key)
    requires forall i :: 0 <= i < |entries| ==> entries[i].key in settings
    requires exists i :: 0 <= i < |entries| && entries[i].key == key
    requires key !in expected || expected[key] != settings[key].version
    ensures Propose(settings, entries, expected, proposed, parse).0.Some?
    decreases |entries|
  {
    if entries[0].key != key {
      var i :| 0 <= i < |entries| && entries[i].key == key;
      assert entries[1..][i - 1].key == key;
      var parsed := parse(entries[0].key, entries[0].raw);
      if parsed.Some? {
        StaleProposal(settings, entries[1..], expected, proposed[entries[0].key := parsed.value], parse, key);
      }
    }
  }

  lemma {:induction false} VersionsRise(seeds: Table, books: Books, calls: seq<Call>, parse: Parser, key: Key)
    requires Sound(seeds, books) && CrossValid(Snapshot(books.settings)) && AllLegal(calls) && key in seeds
    ensures var after := Run(books, calls, parse);
            && key in books.settings && key in after.settings
            && books.settings[key].version <= after.settings[key].version
            && HistoryOf(books.history, key) <= HistoryOf(after.history, key)
    decreases |calls|
  {
    assert RowSound(seeds, books, key);
    if calls != [] {
      assert Legal(calls[0]);
      NextSound(seeds, books, calls[0], parse);
      HistoryGrows(books, calls[0], parse, key);
      VersionsRise(seeds, Next(books, calls[0], parse), calls[1..], parse, key);
      assert RowSound(seeds, Next(books, calls[0], parse), key);
    }
  }

  lemma {:induction false} WriteAllGrows(books: Books, entries: seq<Entry>, values: map<Key, Value>, key: Key)
    requires forall i :: 0 <= i < |entries| ==> entries[i].key in books.settings && entries[i].key in values
    ensures HistoryOf(books.history, key) <= HistoryOf(WriteAll(books, entries, values).0.history, key)
    decreases |entries|
  {
    if entries != [] {
      var value := values[entries[0].key];
      WriteGrows(books, entries[0].key, value, key);
      WriteAllGrows(Write(books, entries[0].key, value), entries[1..], values, key);
    }
  }

  lemma WriteGrows(books: Books, written: Key, value: Value, key: Key)
    requires written in books.settings
    ensures HistoryOf(Write(books, written, value).history, key)
            == HistoryOf(books.history, key) + (if written == key then [ChangeOf(books.settings, key, value)] else [])
  {
    var change := ChangeOf(books.settings, written, value);
    assert (books.history + [change])[..|books.history|] == books.history;
  }

  lemma HistoryGrows(books: Books, call: Call, parse: Parser, key: Key)
    ensures HistoryOf(books.history, key) <= HistoryOf(Next(books, call, parse).history, key)
  {
    if Answer(books, call, parse).Done? {
      match call
      case UpdateCall(k, raw, _, _, _) => WriteGrows(books, k, parse(k, raw).value, key);
      case ProfileCall(profile, versions, _, _) =>
        var r := Propose(books.settings, profile.value, versions, Snapshot(books.settings), parse);
        WriteAllGrows(books, profile.value, r.1, key);
    }
  }

  /** Of all the updates that were based on one version of a setting, at most one is ever
      accepted: once one has been, every later call with that version is refused. */
  lemma OnePerVersion(seeds: Table, books: Books, won: Call, calls: seq<Call>, late: Call, parse: Parser)
    requires Sound(seeds, books) && CrossValid(Snapshot(books.settings)) && AllLegal(calls)
    requires won.UpdateCall? && late.UpdateCall? && late.key == won.key && late.expected == won.expected
    requires Answer(books, won, parse).Done?
    ensures Answer(Run(Next(books, won, parse), calls, parse), late, parse).Raised?
    ensures Run(Next(books, won, parse), calls + [late], parse) == Run(Next(books, won, parse), calls, parse)
  {
    var next := Next(books, won, parse);
    assert RowSound(seeds, books, won.key);
    NextSound(seeds, books, won, parse);
    VersionsRise(seeds, next, calls, parse, won.key);
    RunSplits(next, calls, [late], parse);
    assert [late][1..] == [];
  }

  lemma {:induction false} RunSplits(books: Books, a: seq<Call>, b: seq<Call>, parse: Parser)
    ensures Run(books, a + b, parse) == Run(Run(books, a, parse), b, parse)
    decreases |a|
  {
    if a == [] {
      assert a + b == b;
    } else {
      RunSplits(Next(books, a[0], parse), a[1..], b, parse);
      assert (a + b)[1..] == a[1..] + b;
    }
  }
}
