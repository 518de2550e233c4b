/** Which messages let a worker end its job (app/workers/control.py:273-327, 634-657, 751-776). */
module MessageFencing {
  import opened Base
  import opened JobModel
  import opened JobProtocol
  import opened JobInvariant
  import opened Dispatcher
  import opened JobSystem
  import opened JobHistory
  import opened ProtocolTheorems

  /** A published dispatch notice on the stream under the message id. */
  predicate Answers(e: OutboxEvent, stream: Stream, message: MessageId) {
    e.notice.DispatchedNotice? && e.stream == stream && e.messageId == Some(message) && e.state == Published
  }

  lemma {:induction false} FirstNotice(outbox: seq<OutboxEvent>, i: nat, stream: Stream, message: MessageId)
    requires i < |outbox| && Answers(outbox[i], stream, message)
    requires forall j :: 0 <= j < i ==> !Answers(outbox[j], stream, message)
    ensures PublishedNotice(outbox, stream, message) == Some(outbox[i])
  {
    if i > 0 {
      assert !Answers(outbox[0], stream, message);
      FirstNotice(outbox[1..], i - 1, stream, message);
    }
  }

  /** What is found is a row that answers, before which none does. */
  lemma {:induction false} NoticeFound(outbox: seq<OutboxEvent>, stream: Stream, message: MessageId) returns (i: nat)
    requires PublishedNotice(outbox, stream, message).Some?
    ensures i < |outbox| && Answers(outbox[i], stream, message)
    ensures PublishedNotice(outbox, stream, message) == Some(outbox[i])
    ensures forall j :: 0 <= j < i ==> !Answers(outbox[j], stream, message)
  {
    if Answers(outbox[0], stream, message) {
      i := 0;
    } else {
      var k := NoticeFound(outbox[1..], stream, message);
      i := k + 1;
    }
  }

  /** The message is the one under which the job's last dispatch notice was published, and no
      earlier notice of the job was published under the same id. */
  predicate CurrentMessage(d: Dossier, t: Transport) {
    && t.group == d.job.jobType && t.stream == JobStream(d.job.jobType, d.job.lane)
    && |d.outbox| > 0
    && Answers(d.outbox[|d.outbox| - 1], t.stream, t.message)
    && forall j :: 0 <= j < |d.outbox| - 1 ==> !Answers(d.outbox[j], t.stream, t.message)
  }

  /** Notices before the last belong to earlier generations. */
  lemma LastNotice(d: Dossier, i: nat)
    requires OutboxSound(d.job, d.outbox) && i < |d.outbox| && d.outbox[i].notice.DispatchedNotice?
    ensures d.outbox[i].notice.generation == d.job.generation <==> i == |d.outbox| - 1
  {
  }

  lemma MatchesIff(d: Dossier, t: Transport)
    requires OutboxSound(d.job, d.outbox) && d.job.generation > 0
    ensures TransportMatches(d, d.job.generation, t) <==> CurrentMessage(d, t)
  {
    if CurrentMessage(d, t) {
      FirstNotice(d.outbox, |d.outbox| - 1, t.stream, t.message);
      LastNotice(d, |d.outbox| - 1);
    }
    if TransportMatches(d, d.job.generation, t) {
      var i := NoticeFound(d.outbox, t.stream, t.message);
      LastNotice(d, i);
    }
  }

  /** The kind of result a job type ends with. */
  predicate ResultFits(jobType: JobType, result: Completion) {
    match jobType
    case TelegramUpload => result.UploadResult?
    case MediaProcess => result.MediaResult?
    case _ => result.DownloadResult?
  }

  /** A call under the valid lease is turned away exactly when its message is not the one the
      job's last notice was published under, or its result is of another kind. */
  lemma TurnedAwayIff(store: Store, id: JobId, generation: nat, lease: Digest, t: Transport, expected: Option<JobType>,
                      now: int, actual: nat, result: Completion)
    requires Inv(store) && Validated(store, id, generation, lease, expected, now)
    ensures Fail(store, id, generation, lease, actual, t, expected, now) == Ok((store, false))
            <==> !CurrentMessage(store.jobs[id], t)
    ensures Complete(store, id, generation, lease, result, t, expected, now) == Ok((store, false))
            <==> !CurrentMessage(store.jobs[id], t) || !ResultFits(store.jobs[id].job.jobType, result)
  {
    assert Sound(store.jobs[id]);
    RunningGeneration(store.jobs[id]);
    MatchesIff(store.jobs[id], t);
  }

  lemma RunningGeneration(d: Dossier)
    requires StatusSound(d.job) && IsRunning(d.job.status)
    ensures d.job.generation > 0
  {
  }

  /** The notice of a dispatch generation. */
  function NoticeRow(d: Dossier, generation: nat): int {
    NoticeOffset(d.job) + generation - 1
  }

  /** A call of a worker to end its job. */
  predicate EndCall(e: Event, id: JobId, generation: nat, message: MessageId) {
    match e.op
    case CompleteCall(i, g, _, _, t, _) => i == id && g == generation && t.message == message
    case FailCall(i, g, _, _, t, _) => i == id && g == generation && t.message == message
    case _ => false
  }

  /** The job is not at this generation, or its last notice is not out under this id. */
  predicate NotUnder(d: Dossier, generation: nat, message: MessageId) {
    d.job.generation == generation ==> |d.outbox| > 0 && d.outbox[|d.outbox| - 1].messageId != Some(message)
  }

  lemma CompleteTurnedAway(store: Store, id: JobId, generation: nat, lease: Digest, result: Completion, t: Transport,
                           expected: Option<JobType>, now: int)
    requires Inv(store) && id < |store.jobs| && NotUnder(store.jobs[id], generation, t.message)
    ensures Complete(store, id, generation, lease, result, t, expected, now) == Ok((store, false))
  {
    if Validated(store, id, generation, lease, expected, now) {
      TurnedAwayIff(store, id, generation, lease, t, expected, now, 0, result);
    }
  }

  lemma FailTurnedAway(store: Store, id: JobId, generation: nat, lease: Digest, actual: nat, t: Transport,
                       expected: Option<JobType>, now: int)
    requires Inv(store) && id < |store.jobs| && NotUnder(store.jobs[id], generation, t.message)
    ensures Fail(store, id, generation, lease, actual, t, expected, now) == Ok((store, false))
  {
    if Validated(store, id, generation, lease, expected, now) {
      TurnedAwayIff(store, id, generation, lease, t, expected, now, actual, UploadResult(0));
    }
  }

  lemma EndTurnedAway(sys: System, id: JobId, generation: nat, message: MessageId, e: Event)
    requires Inv(sys.store) && id < |sys.store.jobs| && EndCall(e, id, generation, message)
    requires NotUnder(sys.store.jobs[id], generation, message)
    ensures Apply(sys, e) == sys
  {
    match e.op
    case CompleteCall(_, _, lease, result, t, expected) =>
      CompleteTurnedAway(sys.store, id, generation, lease, result, t, expected, e.now);
    case FailCall(_, _, lease, actual, t, expected) =>
      FailTurnedAway(sys.store, id, generation, lease, actual, t, expected, e.now);
  }

  /** Once a dispatch is published under one id, a worker that took it up under another, left
      by a publication that did not commit, can never end the job, whatever happens. */
  lemma StrandedForever(sys: System, run: seq<Event>, id: JobId, generation: nat, message: MessageId, e: Event)
    requires Inv(sys.store) && LegalRun(sys, run)
    requires id < |sys.store.jobs| && 0 < generation <= sys.store.jobs[id].job.generation
    requires var d := sys.store.jobs[id];
             0 <= NoticeRow(d, generation) < |d.outbox|
             && d.outbox[NoticeRow(d, generation)].state == Published
             && d.outbox[NoticeRow(d, generation)].messageId != Some(message)
    requires EndCall(e, id, generation, message)
    ensures Apply(Exec(sys, run), e) == Exec(sys, run)
  {
    RunKeeps(sys, run);
    RunEvolves(sys, run);
    var after := Exec(sys, run).store.jobs[id];
    assert Follows(sys.store.jobs[id], after);
    assert Sound(after);
    StaysUnder(sys.store.jobs[id], after, generation, message);
    EndTurnedAway(Exec(sys, run), id, generation, message, e);
  }

  lemma StaysUnder(before: Dossier, after: Dossier, generation: nat, message: MessageId)
    requires 0 < generation <= before.job.generation && 0 <= NoticeRow(before, generation) < |before.outbox|
    requires before.outbox[NoticeRow(before, generation)].state == Published
    requires before.outbox[NoticeRow(before, generation)].messageId != Some(message)
    requires OutboxFollows(before.outbox, after.outbox) && SameIdentity(before.job, after.job)
    requires OutboxSound(after.job, after.outbox)
    ensures NotUnder(after, generation, message)
  {
    assert after.outbox[NoticeRow(before, generation)] == before.outbox[NoticeRow(before, generation)];
  }
}
