/** Which log lines count, and what one of them does to its session (app/usage.py:44-86, 172-239). */
module UsageAnswers {
  import opened Base
  import opened LogReader
  import opened UsageCollector
  import opened UsageTheorems

  /** The characters of a request id, and how many of them there are. */
  predicate WellNamed(id: string) {
    && 8 <= |id| <= 160
    && forall i :: 0 <= i < |id| ==>
         || 'a' <= id[i] <= 'z' || 'A' <= id[i] <= 'Z' || '0' <= id[i] <= '9' || id[i] == '-' || id[i] == '_'
  }

  /** A line is an event exactly if it is not longer than 64 KiB, decodes, has a proper request id,
      no negative byte count, an HTTP status and a known purpose; and it is the event of those. */
  lemma EventDecides(value: string, load: string -> Option<Item>)
    ensures var e := ParseUsageEvent(value, load);
            && (e.Some? <==>
                  && |value| <= 65536 && load(value).Some?
                  && WellNamed(load(value).value.requestId) && load(value).value.responseBytes >= 0
                  && 100 <= load(value).value.status <= 599
                  && (load(value).value.purpose == "download" || load(value).value.purpose == "stream"))
            && (e.Some? ==>
                  var item := load(value).value;
                  && e.value.requestId == item.requestId && e.value.responseBytes == item.responseBytes
                  && e.value.status == item.status && e.value.file == item.file
                  && e.value.rangeStart == item.rangeStart && e.value.rangeEnd == item.rangeEnd
                  && e.value.session.id == item.session
                  && (e.value.session.purpose == Download <==> item.purpose == "download"))
  {
    if load(value).Some? {
      NamesAgree(load(value).value.requestId);
    }
  }

  lemma NamesAgree(id: string)
    ensures RequestIdValid(id) <==> WellNamed(id)
  {
    if RequestIdValid(id) {
      forall i | 0 <= i < |id|
        ensures || 'a' <= id[i] <= 'z' || 'A' <= id[i] <= 'Z' || '0' <= id[i] <= '9' || id[i] == '-' || id[i] == '_'
      {
        assert RequestIdChar(id[i]);
      }
    }
    if WellNamed(id) {
      forall i | 0 <= i < |id|
        ensures RequestIdChar(id[i])
      {
      }
    }
  }

  /** The whole of a file was delivered in one unranged answer. */
  predicate DeliversWhole(e: UsageEvent, size: Option<nat>) {
    && e.session.purpose == Download && e.rangeStart == None && e.rangeEnd == None
    && e.status == 200 && size.Some? && size.value <= e.responseBytes
  }

  /** A session after a delivery: its bytes counted, one connection less, completed by a delivery
      of the whole file and by nothing else. */
  predicate Tracked(s: TrackedSession, s': TrackedSession, e: UsageEvent, size: Option<nat>) {
    && s'.key == s.key
    && s'.bytesServed == s.bytesServed + e.responseBytes
    && s'.connections == (if s.connections > 0 then s.connections - 1 else 0)
    && (s'.completed <==> s.completed || DeliversWhole(e, size))
  }

  /** An event of a known request changes nothing. One of a new request is recorded with a charge
      for its bytes, if any, and is counted in its session, if there is one, and in no other. */
  lemma EventEffect(db: UsageDb, source: Name, e: UsageEvent, sizes: nat -> Option<nat>)
    ensures var next := AddEvent(db, source, e, sizes);
            var known := exists i :: 0 <= i < |db.bandwidth| && db.bandwidth[i].source == source
                                     && db.bandwidth[i].event.requestId == e.requestId;
            && (known ==> next == db)
            && (!known ==>
                  && next.bandwidth == db.bandwidth + [BandwidthRow(source, e)]
                  && (e.responseBytes == 0 ==> next.egress == db.egress)
                  && (e.responseBytes > 0 ==>
                        next.egress == db.egress + [EgressRecord(source, e.requestId, e.responseBytes)])
                  && |next.sessions| == |db.sessions|
                  && (var at := SessionAt(db.sessions, e.session);
                      if at.None? then next.sessions == db.sessions
                      else
                        && Tracked(db.sessions[at.value], next.sessions[at.value], e, sizes(e.file))
                        && forall k :: 0 <= k < |db.sessions| && k != at.value ==> next.sessions[k] == db.sessions[k]))
  {
    assert db.egress + [] == db.egress;
  }
}
