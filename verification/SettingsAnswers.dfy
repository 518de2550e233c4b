/** When a settings call is accepted and what it writes (app/core/settings.py:155-168, 210-357). */
module SettingsAnswers {
  import opened Base
  import opened Settings

  // ---------------------------------------------------------------- the rules

  /** Three storage thresholds that are set but do not rise from warning to stop to emergency. */
  predicate ThresholdsBroken(values: map<Key, Value>) {
    var a, b, c := ValueOf(values, StorageWarningPercent), ValueOf(values, StorageStopPercent),
                   ValueOf(values, StorageEmergencyPercent);
    && a != Null && b != Null && c != Null
    && (!a.Number? || !b.Number? || !c.Number? || a.number >= b.number || b.number >= c.number)
  }

  /** A session lifetime that is set but is not a number from 60 seconds to a day. */
  ghost predicate LifetimeBroken(values: map<Key, Value>) {
    exists key :: && (key == DownloadsSessionTtl || key == StreamSessionTtl || key == AdminSessionTtl)
                  && ValueOf(values, key) != Null
                  && (!ValueOf(values, key).Number?
                      || ValueOf(values, key).number < 60.0 || ValueOf(values, key).number > 86400.0)
  }

  /** The values that count are those of the settings that are enabled. */
  lemma SnapshotIs(settings: Table, key: Key)
    ensures key in Snapshot(settings) <==> key in settings && settings[key].enabled
    ensures key in Snapshot(settings) ==> Snapshot(settings)[key] == settings[key].value
  {
  }

  lemma RulesAre(values: map<Key, Value>)
    ensures CrossValid(values) <==> !ThresholdsBroken(values) && !LifetimeBroken(values)
  {
  }

  /** Over any run the enabled thresholds rise and the enabled lifetimes stay within bounds. */
  lemma RulesStand(seeds: Table, calls: seq<Call>, parse: Parser)
    requires !ThresholdsBroken(Snapshot(seeds)) && !LifetimeBroken(Snapshot(seeds)) && AllLegal(calls)
    ensures var values := Snapshot(Run(Books(seeds, []), calls, parse).settings);
            !ThresholdsBroken(values) && !LifetimeBroken(values)
  {
    RulesAre(Snapshot(seeds));
    forall key
      ensures RowSound(seeds, Books(seeds, []), key)
    {
    }
    RunSound(seeds, Books(seeds, []), calls, parse);
    RulesAre(Snapshot(Run(Books(seeds, []), calls, parse).settings));
  }

  // ---------------------------------------------------------------- one update

  predicate ReasonGiven(reason: nat) {
    5 <= reason <= 2000
  }

  predicate Editable(settings: Table, key: Key) {
    key in settings && settings[key].enabled && settings[key].editable
  }

  ghost predicate Lawful(values: map<Key, Value>) {
    !ThresholdsBroken(values) && !LifetimeBroken(values)
  }

  /** An update is a conflict exactly for an outdated version, denied exactly for want of
      authorization, and accepted exactly if the value parses and breaks no rule. */
  lemma UpdateDecides(books: Books, key: Key, raw: Raw, expected: int, reason: nat, authorized: bool, parse: Parser)
    ensures var r := Updated(books, key, raw, expected, reason, authorized, parse);
            var open := ReasonGiven(reason) && Editable(books.settings, key);
            && (r == Raised(Conflict) <==> open && books.settings[key].version != expected)
            && (r == Raised(Denied) <==> open && books.settings[key].version == expected && !authorized)
            && (r.Done? <==>
                  && open && books.settings[key].version == expected && authorized
                  && parse(key, raw).Some? && Lawful(Snapshot(books.settings))
                  && Lawful(Snapshot(books.settings)[key := parse(key, raw).value]))
  {
    RulesAre(Snapshot(books.settings));
    if parse(key, raw).Some? {
      RulesAre(Snapshot(books.settings)[key := parse(key, raw).value]);
    }
  }

  /** One row changed: the parsed value under the next version, with the change recorded. */
  predicate RowWritten(books: Books, after: Books, key: Key, value: Value)
    requires key in books.settings
  {
    var row := books.settings[key];
    && after.settings == books.settings[key := Setting(value, row.version + 1, row.enabled, row.editable)]
    && after.history == books.history + [Change(key, row.version + 1, row.value, value)]
  }

  /** An accepted update writes exactly that row. */
  lemma UpdateWrites(books: Books, key: Key, raw: Raw, expected: int, reason: nat, authorized: bool, parse: Parser)
    requires Updated(books, key, raw, expected, reason, authorized, parse).Done?
    ensures key in books.settings && parse(key, raw).Some?
    ensures var r := Updated(books, key, raw, expected, reason, authorized, parse);
            && RowWritten(books, r.books, key, parse(key, raw).value)
            && var row := books.settings[key];
            r.changes == [Change(key, row.version + 1, row.value, parse(key, raw).value)]
  {
  }

  // ---------------------------------------------------------------- a profile

  /** Every row has the version the caller expects, and its value parses. */
  predicate AllCurrent(settings: Table, entries: seq<Entry>, expected: map<Key, nat>, parse: Parser) {
    forall i :: 0 <= i < |entries| ==>
                  && entries[i].key in settings && entries[i].key in expected
                  && settings[entries[i].key].version == expected[entries[i].key]
                  && parse(entries[i].key, entries[i].raw).Some?
  }

  /** The values with those of the profile put in. */
  ghost predicate PutIn(values: map<Key, Value>, entries: seq<Entry>, parse: Parser, proposed: map<Key, Value>) {
    && (forall i :: 0 <= i < |entries| ==>
          && entries[i].key in proposed && parse(entries[i].key, entries[i].raw).Some?
          && proposed[entries[i].key] == parse(entries[i].key, entries[i].raw).value)
    && (forall key :: (forall i :: 0 <= i < |entries| ==> entries[i].key != key) ==>
          (key in proposed <==> key in values) && (key in values ==> proposed[key] == values[key]))
  }

  lemma {:induction false} ProposalIs(settings: Table, entries: seq<Entry>, expected: map<Key, nat>,
                                      values: map<Key, Value>, parse: Parser)
    requires KeysDistinct(entries) && forall i :: 0 <= i < |entries| ==> entries[i].key in settings
    ensures var r := Propose(settings, entries, expected, values, parse);
            && (r.0.None? <==> AllCurrent(settings, entries, expected, parse))
            && (r.0.None? ==> PutIn(values, entries, parse, r.1))
            && (r.0.Some? ==> r.0.value != Denied)
    decreases |entries|
  {
    if entries != [] {
      var first, rest := entries[0], entries[1..];
      var parsed := parse(first.key, first.raw);
      if first.key in expected && settings[first.key].version == expected[first.key] && parsed.Some? {
        ProposalIs(settings, rest, expected, values[first.key := parsed.value], parse);
        assert forall i :: 0 <= i < |rest| ==> rest[i] == entries[i + 1];
        FirstCurrent(settings, entries, expected, parse);
        var r := Propose(settings, entries, expected, values, parse);
        if r.0.None? {
          FirstPutIn(values, entries, parse, r.1);
        }
      } else {
        assert !AllCurrent(settings, entries, expected, parse);
      }
    }
  }

  lemma FirstCurrent(settings: Table, entries: seq<Entry>, expected: map<Key, nat>, parse: Parser)
    requires entries != [] && AllCurrent(settings, [entries[0]], expected, parse)
    ensures AllCurrent(settings, entries, expected, parse) <==> AllCurrent(settings, entries[1..], expected, parse)
  {
    assert [entries[0]][0] == entries[0];
    if AllCurrent(settings, entries[1..], expected, parse) {
      forall i | 0 < i < |entries|
        ensures AllCurrent(settings, [entries[i]], expected, parse)
      {
        assert entries[1..][i - 1] == entries[i];
      }
      assert forall i :: 0 < i < |entries| ==> [entries[i]][0] == entries[i];
    }
  }

  lemma FirstPutIn(values: map<Key, Value>, entries: seq<Entry>, parse: Parser, proposed: map<Key, Value>)
    requires entries != [] && KeysDistinct(entries) && parse(entries[0].key, entries[0].raw).Some?
    requires PutIn(values[entries[0].key := parse(entries[0].key, entries[0].raw).value], entries[1..], parse, proposed)
    ensures PutIn(values, entries, parse, proposed)
  {
    var first, rest := entries[0], entries[1..];
    assert forall i :: 0 <= i < |rest| ==> rest[i] == entries[i + 1];
    assert forall i :: 0 <= i < |rest| ==> rest[i].key != first.key;
    forall i | 0 <= i < |entries|
      ensures entries[i].key in proposed && parse(entries[i].key, entries[i].raw).Some?
      ensures proposed[entries[i].key] == parse(entries[i].key, entries[i].raw).value
    {
      assert i > 0 ==> rest[i - 1] == entries[i];
    }
  }

  /** A profile is denied exactly for want of authorization, and accepted exactly if all its rows
      exist, have the expected versions, parse, and break no rule together with the rest. */
  lemma ProfileDecides(books: Books, profile: Option<seq<Entry>>, expected: map<Key, nat>, reason: nat,
                       authorized: bool, parse: Parser, proposed: map<Key, Value>)
    requires profile.Some? ==>
               && KeysDistinct(profile.value)
               && (AllCurrent(books.settings, profile.value, expected, parse) ==>
                     PutIn(Snapshot(books.settings), profile.value, parse, proposed))
    ensures var r := ProfileApplied(books, profile, expected, reason, authorized, parse);
            var open := ReasonGiven(reason) && profile.Some?;
            && (r == Raised(Denied) <==> open && !authorized)
            && (r.Done? <==>
                  && open && authorized && AllCurrent(books.settings, profile.value, expected, parse)
                  && Lawful(Snapshot(books.settings)) && Lawful(proposed))
  {
    RulesAre(Snapshot(books.settings));
    if profile.Some? && forall i :: 0 <= i < |profile.value| ==> profile.value[i].key in books.settings {
      var values := Snapshot(books.settings);
      ProposalIs(books.settings, profile.value, expected, values, parse);
      var r := Propose(books.settings, profile.value, expected, values, parse);
      RulesAre(r.1);
      if r.0.None? {
        PutInOnce(values, profile.value, parse, r.1, proposed);
      }
    }
  }

  lemma PutInOnce(values: map<Key, Value>, entries: seq<Entry>, parse: Parser, a: map<Key, Value>, b: map<Key, Value>)
    requires PutIn(values, entries, parse, a) && PutIn(values, entries, parse, b)
    ensures a == b
  {
    forall key
      ensures key in a <==> key in b
      ensures key in a ==> a[key] == b[key]
    {
      if i :| 0 <= i < |entries| && entries[i].key == key {
        assert a[entries[i].key] == b[entries[i].key];
      }
    }
  }

  /** The rows of an accepted profile. */
  ghost predicate AllWritten(settings: Table, after: Table, entries: seq<Entry>, parse: Parser) {
    && after.Keys == settings.Keys
    && (forall i :: 0 <= i < |entries| && entries[i].key in settings ==>
          var row := settings[entries[i].key];
          && parse(entries[i].key, entries[i].raw).Some?
          && after[entries[i].key]
             == Setting(parse(entries[i].key, entries[i].raw).value, row.version + 1, row.enabled, row.editable))
    && (forall key :: key in settings && (forall i :: 0 <= i < |entries| ==> entries[i].key != key) ==>
          after[key] == settings[key])
  }

  lemma {:induction false} WritesAll(books: Books, entries: seq<Entry>, values: map<Key, Value>, parse: Parser)
    requires KeysDistinct(entries)
    requires forall i :: 0 <= i < |entries| ==>
               && entries[i].key in books.settings && entries[i].key in values
               && parse(entries[i].key, entries[i].raw) == Some(values[entries[i].key])
    ensures AllWritten(books.settings, WriteAll(books, entries, values).0.settings, entries, parse)
    decreases |entries|
  {
    if entries != [] {
      var first, rest := entries[0], entries[1..];
      var mid := Write(books, first.key, values[first.key]);
      assert forall i :: 0 <= i < |rest| ==> rest[i] == entries[i + 1] && rest[i].key != first.key;
      WritesAll(mid, rest, values, parse);
      WrittenFirst(books, mid, WriteAll(books, entries, values).0.settings, entries, values, parse);
    }
  }

  lemma {:induction false} ListsAll(books: Books, entries: seq<Entry>, values: map<Key, Value>)
    requires KeysDistinct(entries)
    requires forall i :: 0 <= i < |entries| ==> entries[i].key in books.settings && entries[i].key in values
    ensures var r := WriteAll(books, entries, values);
            && r.0.history == books.history + r.1 && |r.1| == |entries|
            && forall i :: 0 <= i < |entries| ==>
                 r.1[i] == Change(entries[i].key, books.settings[entries[i].key].version + 1,
                                  books.settings[entries[i].key].value, values[entries[i].key])
    decreases |entries|
  {
    if entries != [] {
      var first, rest := entries[0], entries[1..];
      var mid := Write(books, first.key, values[first.key]);
      assert forall i :: 0 <= i < |rest| ==> rest[i] == entries[i + 1] && rest[i].key != first.key;
      ListsAll(mid, rest, values);
      var r := WriteAll(books, entries, values);
      JoinsAssociate(books.history, [r.1[0]], r.1[1..]);
    }
  }

  lemma WrittenFirst(books: Books, mid: Books, after: Table, entries: seq<Entry>, values: map<Key, Value>,
                     parse: Parser)
    requires entries != [] && KeysDistinct(entries) && entries[0].key in books.settings && entries[0].key in values
    requires parse(entries[0].key, entries[0].raw) == Some(values[entries[0].key])
    requires mid == Write(books, entries[0].key, values[entries[0].key])
    requires AllWritten(mid.settings, after, entries[1..], parse)
    ensures AllWritten(books.settings, after, entries, parse)
  {
    var first, rest := entries[0], entries[1..];
    assert forall i :: 0 <= i < |rest| ==> rest[i] == entries[i + 1] && rest[i].key != first.key;
    forall i | 0 <= i < |entries| && entries[i].key in books.settings
      ensures parse(entries[i].key, entries[i].raw).Some?
      ensures var row := books.settings[entries[i].key];
              after[entries[i].key]
              == Setting(parse(entries[i].key, entries[i].raw).value, row.version + 1, row.enabled, row.editable)
    {
      if i > 0 {
        assert rest[i - 1] == entries[i] && mid.settings[entries[i].key] == books.settings[entries[i].key];
      }
    }
  }

  /** An accepted profile writes each of its rows with its parsed value and next version, records
      one change for each, and touches no other row. */
  lemma ProfileWrites(books: Books, entries: seq<Entry>, expected: map<Key, nat>, reason: nat, authorized: bool,
                      parse: Parser)
    requires KeysDistinct(entries)
    requires ProfileApplied(books, Some(entries), expected, reason, authorized, parse).Done?
    ensures var r := ProfileApplied(books, Some(entries), expected, reason, authorized, parse);
            && AllWritten(books.settings, r.books.settings, entries, parse)
            && r.books.history == books.history + r.changes && |r.changes| == |entries|
            && forall i :: 0 <= i < |entries| && entries[i].key in books.settings
                           && parse(entries[i].key, entries[i].raw).Some? ==>
                 r.changes[i] == Change(entries[i].key, books.settings[entries[i].key].version + 1,
                                        books.settings[entries[i].key].value,
                                        parse(entries[i].key, entries[i].raw).value)
  {
    ProposalIs(books.settings, entries, expected, Snapshot(books.settings), parse);
    var values := Propose(books.settings, entries, expected, Snapshot(books.settings), parse).1;
    WritesAll(books, entries, values, parse);
    ListsAll(books, entries, values);
  }
}
