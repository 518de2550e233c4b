/** What the job protocol guarantees over every run: the status trigger is never met,
    stale workers are fenced off, claims and endings happen once, attempts and concurrency
    stay bounded, and admission is idempotent. */
module ProtocolTheorems {
  import opened Base
  import opened QuotaLedger
  import opened JobModel
  import opened JobTotals
  import opened JobProtocol
  import opened JobInvariant
  import opened Dispatcher
  import opened JobSystem
  import opened JobHistory

  // ---------------------------------------------------------------- the status trigger

  lemma FailErrors(store: Store, id: JobId, actual: nat)
    requires Inv(store) && id < |store.jobs| && IsRunning(store.jobs[id].job.status)
    ensures FailLocked(store, id, actual).Err? ==> FailLocked(store, id, actual).error == QuotaExceeded
  {
    SettleErrors(store.buckets, store.jobs[id].reservations, actual, false);
  }

  lemma CompleteDownloadErrors(store: Store, id: JobId, result: Completion, now: int)
    requires Inv(store) && id < |store.jobs| && result.DownloadResult?
    requires IsRunning(store.jobs[id].job.status) && IsDownload(store.jobs[id].job.jobType)
    ensures CompleteDownload(store, id, result, now).Err? ==>
            CompleteDownload(store, id, result, now).error == QuotaExceeded
  {
    FailErrors(store, id, result.size);
    FinishErrors(store.buckets, store.jobs[id], result.size, now);
  }

  lemma FinishErrors(buckets: Buckets, d: Dossier, size: nat, now: int)
    requires Sound(d) && IsRunning(d.job.status) && IsDownload(d.job.jobType)
    ensures FinishDownload(buckets, d, size, now).Err? ==>
            FinishDownload(buckets, d, size, now).error == QuotaExceeded
  {
    ActiveIsOpen(d);
    StoreDownloadShape(d, size, now);
    SettleErrors(buckets, d.reservations, size, true);
  }

  lemma CompleteMediaErrors(store: Store, id: JobId, result: Completion)
    requires id < |store.jobs| && result.MediaResult? && store.jobs[id].job.status == Processing
    ensures CompleteMedia(store, id, result).Err? ==> CompleteMedia(store, id, result).error == InvalidResult
  {
    var source := store.jobs[id].job.payload.file;
    if source.Some? && HasFile(store, source.value) {
      FinishMediaShape(MarkPlayable(store, source.value, result.directPlay).jobs[id],
                       store.jobs[source.value.job].files[source.value.index].size);
    }
  }

  lemma CompleteErrors(store: Store, id: JobId, generation: nat, lease: Digest, result: Completion, t: Transport,
                       expected: Option<JobType>, now: int)
    requires Inv(store)
    ensures var r := Complete(store, id, generation, lease, result, t, expected, now);
            r.Err? ==> r.error == QuotaExceeded || r.error == InvalidResult
  {
    if Validated(store, id, generation, lease, expected, now) {
      var d := store.jobs[id];
      RunningMatches(d);
      if d.job.jobType == TelegramUpload {
      } else if d.job.jobType == MediaProcess {
        if result.MediaResult? {
          CompleteMediaErrors(store, id, result);
        }
      } else if result.DownloadResult? {
        CompleteDownloadErrors(store, id, result, now);
      }
    }
  }

  lemma HeartbeatErrors(store: Store, id: JobId, generation: nat, lease: Digest, progress: Option<Progress>,
                        expected: Option<JobType>, now: int)
    ensures var r := Heartbeat(store, id, generation, lease, progress, expected, now);
            r.Err? ==> r.error == QuotaExceeded
  {
    if Validated(store, id, generation, lease, expected, now) && progress.Some? {
      var d := store.jobs[id];
      var requested := progress.value.bytes.GetOr<nat>(d.job.bytesTransferred);
      TopUpErrors(store.buckets, TouchRows(d.reservations, now), requested);
    }
  }

  /** Dispatch, publication, claim, recovery and the expiry sweep never raise at all. */
  lemma SchedulersNeverRaise(sys: System, e: Event)
    requires Inv(sys.store) && Legal(sys, e)
    requires e.op.Dispatch? || e.op.Publication? || e.op.ClaimCall? || e.op.Recovery? || e.op.Expiry?
    ensures Outcome(sys, e).Ok?
  {
    match e.op
    case Dispatch(jobType, tuning, lease, leaseSeconds) =>
      DispatchKeeps(sys, jobType, tuning, lease, leaseSeconds, e.now);
    case ClaimCall(id, generation, lease, jobType) => ClaimKeeps(sys.store, id, generation, lease, jobType, e.now);
    case Recovery(page) => RecoverKeeps(sys.store, page, e.now);
    case Expiry(page) => ExpiryKeeps(sys.store, page, e.now);
    case _ =>
  }

  /** In every reachable state, every status write of every service is one the database
      trigger allows: no transaction is ever refused for an invalid transition. */
  lemma TriggerNeverRefuses(run: seq<Event>, e: Event)
    requires LegalRun(EMPTY, run) && Legal(Exec(EMPTY, run), e)
    ensures Outcome(Exec(EMPTY, run), e) != Err(InvalidTransition)
  {
    RunKeeps(EMPTY, run);
    var sys := Exec(EMPTY, run);
    match e.op
    case Admission(req, settings, plan) =>
      if plan.Some? {
        ReserveErrors(sys.store.buckets, Specifications(req.user, plan.value, req.estimatedBytes, e.now), e.now);
      }
    case HeartbeatCall(id, generation, lease, progress, expected) =>
      HeartbeatErrors(sys.store, id, generation, lease, progress, expected, e.now);
    case CompleteCall(id, generation, lease, result, transport, expected) =>
      CompleteErrors(sys.store, id, generation, lease, result, transport, expected, e.now);
    case FailCall(id, generation, lease, actual, transport, expected) =>
      if Validated(sys.store, id, generation, lease, expected, e.now) {
        FailErrors(sys.store, id, actual);
      }
    case _ => SchedulersNeverRaise(sys, e);
  }

  /** After any run, a job's events are one connected path of allowed transitions from its
      admission to its status, or to `Failed` where the sweep dead-lettered it unlogged. */
  lemma EventsReachStatus(run: seq<Event>, id: JobId)
    requires LegalRun(EMPTY, run) && id < |Exec(EMPTY, run).store.jobs|
    ensures var d := Exec(EMPTY, run).store.jobs[id];
            && Connected(d.events)
            && (d.job.status != DeadLetter ==> LastStatus(d.events) == d.job.status)
            && (d.job.status == DeadLetter ==> LastStatus(d.events) == DeadLetter || LastStatus(d.events) == Failed)
            && (IsRunning(d.job.status) ==> d.job.status == RunningState(d.job.jobType))
  {
    RunKeeps(EMPTY, run);
    var d := Exec(EMPTY, run).store.jobs[id];
    assert Sound(d);
    SoundEvents(d);
  }

  lemma SoundEvents(d: Dossier)
    requires StatusSound(d.job) && EventsSound(d.job, d.events)
    ensures Connected(d.events)
    ensures d.job.status != DeadLetter ==> LastStatus(d.events) == d.job.status
    ensures d.job.status == DeadLetter ==> LastStatus(d.events) == DeadLetter || LastStatus(d.events) == Failed
    ensures IsRunning(d.job.status) ==> d.job.status == RunningState(d.job.jobType)
  {
  }

  /** The sweep is what leaves a dead letter's events at `Failed`. */
  lemma SweptEvents(d: Dossier)
    requires StatusSound(d.job) && EventsSound(d.job, d.events) && IsLeased(d.job.status)
    ensures CloseStale(d).Ok?
    ensures var swept := CloseStale(d).value; swept.job.status == DeadLetter && LastStatus(swept.events) == Failed
  {
  }

  /** Recovery logs the status it leaves, dead letter included. */
  lemma RecoveredEvents(d: Dossier, now: int)
    requires StatusSound(d.job) && IsLeased(d.job.status)
    ensures RecoverJob(d, now).Ok?
    ensures var recovered := RecoverJob(d, now).value;
            |recovered.events| > 0 && LastStatus(recovered.events) == recovered.job.status
  {
    RecoverShape(d, now);
  }

  // ---------------------------------------------------------------- attempts

  /** After any run: waiting and handed-out jobs have an attempt left, attempts never exceed
      the limit or the dispatches, and are numbered from one under rising generations. */
  lemma AttemptsBounded(run: seq<Event>, id: JobId)
    requires LegalRun(EMPTY, run) && id < |Exec(EMPTY, run).store.jobs|
    ensures var d := Exec(EMPTY, run).store.jobs[id];
            && (d.job.status == Queued || d.job.status == Dispatched ==> d.job.attemptCount < d.job.maxAttempts)
            && d.job.attemptCount <= d.job.maxAttempts
            && d.job.attemptCount <= d.job.generation
            && |d.attempts| == d.job.attemptCount
            && (forall i :: 0 <= i < |d.attempts| ==> d.attempts[i].number == i + 1)
            && (forall i, j :: 0 <= i < j < |d.attempts| ==> d.attempts[i].generation < d.attempts[j].generation)
  {
    RunKeeps(EMPTY, run);
    assert Sound(Exec(EMPTY, run).store.jobs[id]);
  }

  /** Dispatch notices are those of generations 1, 2, ... in order, so their deduplication
      keys never repeat, and each holds a raw lease exactly until it is published. */
  lemma DispatchNoticesUnique(run: seq<Event>, id: JobId)
    requires LegalRun(EMPTY, run) && id < |Exec(EMPTY, run).store.jobs|
    ensures NoticesUnique(Exec(EMPTY, run).store.jobs[id])
  {
    RunKeeps(EMPTY, run);
    assert Sound(Exec(EMPTY, run).store.jobs[id]);
    NoticesInOrder(Exec(EMPTY, run).store.jobs[id]);
  }

  /** Only the first notice may be one of admission; dispatch notices carry ever newer
      generations up to the job's, and no published one a lease. */
  ghost predicate NoticesUnique(d: Dossier) {
    && (forall i :: 0 <= i < |d.outbox| ==> d.outbox[i].notice.DispatchedNotice? || i == 0)
    && (forall i :: 0 <= i < |d.outbox| && d.outbox[i].notice.DispatchedNotice? ==>
          && 1 <= d.outbox[i].notice.generation <= d.job.generation
          && (d.outbox[i].state == Published <==> d.outbox[i].notice.lease.None?))
    && (forall i, j :: 0 <= i < j < |d.outbox| && d.outbox[i].notice.DispatchedNotice? ==>
          d.outbox[i].notice.generation < d.outbox[j].notice.generation)
  }

  lemma NoticesInOrder(d: Dossier)
    requires OutboxSound(d.job, d.outbox)
    ensures NoticesUnique(d)
  {
  }

  lemma {:induction false} PowersUpTo(n: nat)
    requires n <= 8
    ensures 1 <= Pow2(n) <= 256 && (n > 0 ==> 2 <= Pow2(n)) && Pow2(8) == 256
    decreases 8 - n
  {
    if n < 8 {
      PowersUpTo(n + 1);
    } else {
      assert Pow2(3) == 8;
      assert Pow2(6) == 64;
    }
  }

  /** A row that could not be delivered waits two seconds, twice as long after each further
      failure, and 256 seconds from the eighth on: the cap of 300 is never met. */
  lemma RetryDelays(e: OutboxEvent, now: int)
    ensures var failed := PublishEvent(e, None, now);
            var again := PublishEvent(failed, None, now);
            && failed.attempts == e.attempts + 1 && failed.notice == e.notice && failed.state == Undelivered
            && 2 * SECOND <= failed.availableAt - now <= 256 * SECOND
            && (failed.attempts < 8 ==> again.availableAt - now == 2 * (failed.availableAt - now))
            && (failed.attempts >= 8 ==> failed.availableAt - now == 256 * SECOND)
  {
    PowersUpTo(Min(e.attempts + 1, 8));
  }

  /** No row is ever tried more than twenty times without success. */
  lemma RetriesBounded(run: seq<Event>, id: JobId, i: nat)
    requires LegalRun(EMPTY, run) && id < |Exec(EMPTY, run).store.jobs|
    requires i < |Exec(EMPTY, run).store.jobs[id].outbox|
    ensures Exec(EMPTY, run).store.jobs[id].outbox[i].attempts <= 20
  {
    RunKeeps(EMPTY, run);
    assert Sound(Exec(EMPTY, run).store.jobs[id]);
  }

  // ---------------------------------------------------------------- fencing

  /** The job has moved past this dispatch generation, or lies unleased within it. */
  predicate Retired(store: Store, id: JobId, generation: nat) {
    && id < |store.jobs|
    && (generation < store.jobs[id].job.generation
        || (generation == store.jobs[id].job.generation && !IsLeased(store.jobs[id].job.status)))
  }

  lemma RetiredForever(sys: System, run: seq<Event>, id: JobId, generation: nat)
    requires Inv(sys.store) && LegalRun(sys, run) && Retired(sys.store, id, generation)
    ensures Retired(Exec(sys, run).store, id, generation)
  {
    RunEvolves(sys, run);
    assert Follows(sys.store.jobs[id], Exec(sys, run).store.jobs[id]);
  }

  /** Whether the event is a worker's call for this job under this generation. */
  predicate CallFor(e: Event, id: JobId, generation: nat) {
    match e.op
    case ClaimCall(i, g, _, _) => i == id && g == generation
    case HeartbeatCall(i, g, _, _, _) => i == id && g == generation
    case CompleteCall(i, g, _, _, _, _) => i == id && g == generation
    case FailCall(i, g, _, _, _, _) => i == id && g == generation
    case _ => false
  }

  /** Once a generation is over, no call under it ever changes anything again: not after any
      run, not with any lease, message, result or clock. */
  lemma StaleCallsIgnored(sys: System, run: seq<Event>, id: JobId, generation: nat, e: Event)
    requires Inv(sys.store) && LegalRun(sys, run)
    requires Retired(sys.store, id, generation) && CallFor(e, id, generation)
    ensures Apply(Exec(sys, run), e) == Exec(sys, run)
  {
    RetiredForever(sys, run, id, generation);
  }

  /** A lease that has run out is as good as none, even before anyone recovers the job. */
  lemma ExpiredLeaseIgnored(sys: System, id: JobId, generation: nat, e: Event)
    requires Inv(sys.store) && id < |sys.store.jobs| && CallFor(e, id, generation)
    requires sys.store.jobs[id].job.leaseExpiresAt.Some? ==> sys.store.jobs[id].job.leaseExpiresAt.value <= e.now
    ensures Apply(sys, e) == sys
  {
  }

  /** The claim hands the job to the worker. */
  predicate ClaimWins(sys: System, e: Event, id: JobId, generation: nat) {
    && e.op.ClaimCall? && e.op.id == id && e.op.generation == generation
    && Claim(sys.store, id, generation, e.op.lease, e.op.jobType, e.now).Ok?
    && Claim(sys.store, id, generation, e.op.lease, e.op.jobType, e.now).value.1
  }

  function ClaimCount(sys: System, run: seq<Event>, id: JobId, generation: nat): nat
    decreases |run|
  {
    if run == [] then 0
    else (if ClaimWins(sys, run[0], id, generation) then 1 else 0)
         + ClaimCount(Apply(sys, run[0]), run[1..], id, generation)
  }

  /** The generation has been claimed or passed over. */
  predicate SpentGeneration(store: Store, id: JobId, generation: nat) {
    && id < |store.jobs|
    && (generation < store.jobs[id].job.generation
        || (generation == store.jobs[id].job.generation && store.jobs[id].job.status != Dispatched))
  }

  lemma {:induction false} SpentNeverClaimed(sys: System, run: seq<Event>, id: JobId, generation: nat)
    requires Inv(sys.store) && LegalRun(sys, run) && SpentGeneration(sys.store, id, generation)
    ensures ClaimCount(sys, run, id, generation) == 0
    decreases |run|
  {
    if run != [] {
      StepKeeps(sys, run[0]);
      StepEvolves(sys, run[0]);
      assert Follows(sys.store.jobs[id], Apply(sys, run[0]).store.jobs[id]);
      SpentNeverClaimed(Apply(sys, run[0]), run[1..], id, generation);
    }
  }

  lemma WinningClaimSpends(sys: System, e: Event, id: JobId, generation: nat)
    requires Inv(sys.store) && ClaimWins(sys, e, id, generation)
    ensures SpentGeneration(Apply(sys, e).store, id, generation)
  {
    ClaimSpends(sys.store, id, generation, e.op.lease, e.op.jobType, e.now);
  }

  lemma ClaimSpends(store: Store, id: JobId, generation: nat, lease: Digest, jobType: JobType, now: int)
    requires var r := Claim(store, id, generation, lease, jobType, now); r.Ok? && r.value.1
    ensures SpentGeneration(Claim(store, id, generation, lease, jobType, now).value.0, id, generation)
  {
  }

  /** Under any interleaving, with any duplicated or invented message, each dispatch of a
      job is claimed at most once. */
  lemma {:induction false} ClaimedAtMostOnce(sys: System, run: seq<Event>, id: JobId, generation: nat)
    requires Inv(sys.store) && LegalRun(sys, run)
    ensures ClaimCount(sys, run, id, generation) <= 1
    decreases |run|
  {
    if run != [] {
      StepKeeps(sys, run[0]);
      if ClaimWins(sys, run[0], id, generation) {
        WinningClaimSpends(sys, run[0], id, generation);
        SpentNeverClaimed(Apply(sys, run[0]), run[1..], id, generation);
      } else {
        ClaimedAtMostOnce(Apply(sys, run[0]), run[1..], id, generation);
      }
    }
  }

  // ---------------------------------------------------------------- endings

  /** The call is accepted and ends the job. */
  predicate EndWins(sys: System, e: Event, id: JobId) {
    match e.op
    case CompleteCall(i, g, lease, result, transport, expected) =>
      var r := Complete(sys.store, i, g, lease, result, transport, expected, e.now);
      i == id && r.Ok? && r.value.1
    case FailCall(i, g, lease, actual, transport, expected) =>
      var r := Fail(sys.store, i, g, lease, actual, transport, expected, e.now);
      i == id && r.Ok? && r.value.1
    case _ => false
  }

  function EndCount(sys: System, run: seq<Event>, id: JobId): nat
    decreases |run|
  {
    if run == [] then 0
    else (if EndWins(sys, run[0], id) then 1 else 0) + EndCount(Apply(sys, run[0]), run[1..], id)
  }

  predicate HasEnded(store: Store, id: JobId) {
    id < |store.jobs| && Ended(store.jobs[id].job.status)
  }

  /** Scheduling children leaves the jobs there are. */
  lemma ChildrenLeave(done: Store, parent: Job, id: JobId, file: FileId, size: nat, playable: bool, now: int)
    requires id < |done.jobs|
    ensures var next := ScheduleMedia(ScheduleUpload(done, parent, id, file, size, now), parent, file, size, playable,
                                      now);
            id < |next.jobs| && next.jobs[id] == done.jobs[id]
  {
  }

  lemma CompletedDownloadEnds(store: Store, id: JobId, result: Completion, now: int)
    requires Inv(store) && id < |store.jobs| && result.DownloadResult?
    requires IsRunning(store.jobs[id].job.status) && IsDownload(store.jobs[id].job.jobType)
    requires CompleteDownload(store, id, result, now).Ok?
    ensures HasEnded(CompleteDownload(store, id, result, now).value, id)
  {
    var d := store.jobs[id];
    if ScanRejects(d.job.policy, result.scan) {
      FailedEnds(store, id, result.size);
    } else {
      assert Sound(d);
      FinishDownloadSound(store.buckets, d, result.size, now);
      var posting := FinishDownload(store.buckets, d, result.size, now).value;
      var done := Replace(store, id, posting.dossier).(buckets := posting.buckets);
      ChildrenLeave(done, posting.dossier.job, id, FileId(id, |d.files|), result.size, result.playable, now);
    }
  }

  lemma FailedEnds(store: Store, id: JobId, actual: nat)
    requires id < |store.jobs| && FailLocked(store, id, actual).Ok?
    ensures HasEnded(FailLocked(store, id, actual).value, id)
  {
  }

  lemma MediaEnds(store: Store, id: JobId, result: Completion)
    requires id < |store.jobs| && result.MediaResult? && store.jobs[id].job.status == Processing
    requires CompleteMedia(store, id, result).Ok?
    ensures HasEnded(CompleteMedia(store, id, result).value, id)
  {
    var file := store.jobs[id].job.payload.file.value;
    FinishMediaShape(MarkPlayable(store, file, result.directPlay).jobs[id],
                     store.jobs[file.job].files[file.index].size);
  }

  lemma WinningCompletionEnds(store: Store, id: JobId, generation: nat, lease: Digest, result: Completion, t: Transport,
                              expected: Option<JobType>, now: int)
    requires Inv(store)
    requires var r := Complete(store, id, generation, lease, result, t, expected, now); r.Ok? && r.value.1
    ensures HasEnded(Complete(store, id, generation, lease, result, t, expected, now).value.0, id)
  {
    RunningMatches(store.jobs[id]);
    if store.jobs[id].job.jobType == MediaProcess {
      MediaEnds(store, id, result);
    } else if IsDownload(store.jobs[id].job.jobType) {
      CompletedDownloadEnds(store, id, result, now);
    }
  }

  lemma WinningEndEnds(sys: System, e: Event, id: JobId)
    requires Inv(sys.store) && EndWins(sys, e, id)
    ensures HasEnded(Apply(sys, e).store, id)
  {
    if e.op.FailCall? {
      FailedEnds(sys.store, id, e.op.actual);
    } else {
      WinningCompletionEnds(sys.store, id, e.op.generation, e.op.lease, e.op.result, e.op.transport, e.op.expected,
                            e.now);
    }
  }

  lemma {:induction false} EndedNeverEndsAgain(sys: System, run: seq<Event>, id: JobId)
    requires Inv(sys.store) && LegalRun(sys, run) && HasEnded(sys.store, id)
    ensures EndCount(sys, run, id) == 0
    decreases |run|
  {
    if run != [] {
      StepKeeps(sys, run[0]);
      StepEvolves(sys, run[0]);
      assert Follows(sys.store.jobs[id], Apply(sys, run[0]).store.jobs[id]);
      assert !EndWins(sys, run[0], id);
      EndedNeverEndsAgain(Apply(sys, run[0]), run[1..], id);
    }
  }

  /** Over any run, at most one worker call ends a job, whether as completed or as failed. */
  lemma {:induction false} EndsAtMostOnce(sys: System, run: seq<Event>, id: JobId)
    requires Inv(sys.store) && LegalRun(sys, run)
    ensures EndCount(sys, run, id) <= 1
    decreases |run|
  {
    if run != [] {
      StepKeeps(sys, run[0]);
      if EndWins(sys, run[0], id) {
        WinningEndEnds(sys, run[0], id);
        EndedNeverEndsAgain(Apply(sys, run[0]), run[1..], id);
      } else {
        EndsAtMostOnce(Apply(sys, run[0]), run[1..], id);
      }
    }
  }

  /** After any run a job has a file exactly when it is a completed download, and then one. */
  lemma AtMostOneFile(run: seq<Event>, id: JobId)
    requires LegalRun(EMPTY, run) && id < |Exec(EMPTY, run).store.jobs|
    ensures var d := Exec(EMPTY, run).store.jobs[id];
            && |d.files| <= 1
            && (|d.files| == 1 <==> d.job.status == Completed && IsDownload(d.job.jobType))
            && (|d.files| == 1 ==> d.files[0].owner == d.job.user && d.job.resultSize == Some(d.files[0].size))
  {
    RunKeeps(EMPTY, run);
    assert Sound(Exec(EMPTY, run).store.jobs[id]);
  }

  // ---------------------------------------------------------------- admission

  /** Every admission of the user in the run is under a plan with at most `limit` jobs. */
  predicate PlansAllow(run: seq<Event>, user: UserId, limit: int) {
    forall i :: 0 <= i < |run| && run[i].op.Admission? && run[i].op.req.user == user && run[i].op.plan.Some? ==>
                  run[i].op.plan.value.concurrentJobs <= limit
  }

  lemma ActiveOnlyIfActive(d: Dossier, d': Dossier)
    requires Sound(d) && Follows(d, d')
    ensures IsActive(d'.job.status) ==> IsActive(d.job.status)
    ensures SameIdentity(d.job, d'.job)
  {
  }

  lemma IntakeNotRaised(store: Store, next: Store, user: UserId)
    requires AllSound(store.jobs) && Evolves(store, next) && OnlyChildrenAdded(store, next)
    ensures Total(next.jobs, IntakeOf(user)) <= Total(store.jobs, IntakeOf(user))
  {
    forall i | 0 <= i < |store.jobs|
      ensures Weight(IntakeOf(user), next.jobs[i]) <= Weight(IntakeOf(user), store.jobs[i])
    {
      ActiveOnlyIfActive(store.jobs[i], next.jobs[i]);
    }
    TotalNotRaised(store.jobs, next.jobs, IntakeOf(user));
  }

  lemma AdmissionCounted(store: Store, req: Intake, settings: IntakeSettings, plan: Option<Plan>, now: int,
                         user: UserId, limit: int)
    requires Admit(store, req, settings, plan, now).Ok? && !KeyUsed(store.jobs, req.key)
    requires req.user == user ==> plan.value.concurrentJobs <= limit
    requires Total(store.jobs, IntakeOf(user)) <= limit
    ensures Total(Admit(store, req, settings, plan, now).value.jobs, IntakeOf(user)) <= limit
  {
    var next := Admit(store, req, settings, plan, now).value;
    var d := next.jobs[|store.jobs|];
    assert next.jobs == store.jobs + [d];
    TotalAppend(store.jobs, d, IntakeOf(user));
    if req.user == user {
      TotalsOrdered(store.jobs, IntakeOf(user), ActiveOf(user));
    }
  }

  lemma StepRespects(sys: System, e: Event, user: UserId, limit: int)
    requires Inv(sys.store) && Legal(sys, e) && PlansAllow([e], user, limit)
    requires Total(sys.store.jobs, IntakeOf(user)) <= limit
    ensures Total(Apply(sys, e).store.jobs, IntakeOf(user)) <= limit
  {
    if e.op.Admission? {
      assert [e][0] == e;
      if Outcome(sys, e).Ok? && !KeyUsed(sys.store.jobs, e.op.req.key) {
        AdmissionCounted(sys.store, e.op.req, e.op.settings, e.op.plan, e.now, user, limit);
      }
    } else {
      StepEvolves(sys, e);
      OnlyAdmissionAdds(sys, e);
      IntakeNotRaised(sys.store, Apply(sys, e).store, user);
    }
  }

  /** With plans that allow `limit` concurrent jobs, a user never has more submitted jobs
      active than that, at any point of any run. */
  lemma {:induction false} ConcurrencyRespected(sys: System, run: seq<Event>, user: UserId, limit: int)
    requires Inv(sys.store) && LegalRun(sys, run) && PlansAllow(run, user, limit)
    requires Total(sys.store.jobs, IntakeOf(user)) <= limit
    ensures Total(Exec(sys, run).store.jobs, IntakeOf(user)) <= limit
    decreases |run|
  {
    if run != [] {
      StepKeeps(sys, run[0]);
      assert PlansAllow([run[0]], user, limit);
      StepRespects(sys, run[0], user, limit);
      assert PlansAllow(run[1..], user, limit);
      ConcurrencyRespected(Apply(sys, run[0]), run[1..], user, limit);
    }
  }

  /** Once a request key is used, submitting it again after any run adds no job, no
      reservation, no event and no outbox row, whatever the request and the plan. */
  lemma AdmissionIdempotent(sys: System, run: seq<Event>, req: Intake, settings: IntakeSettings, plan: Option<Plan>,
                            now: int)
    requires Inv(sys.store) && LegalRun(sys, run) && KeyUsed(sys.store.jobs, req.key)
    ensures Outcome(Exec(sys, run), Event(now, Admission(req, settings, plan))) == Ok(Exec(sys, run))
  {
    RunEvolves(sys, run);
    var i :| 0 <= i < |sys.store.jobs| && sys.store.jobs[i].job.key == req.key;
    assert Follows(sys.store.jobs[i], Exec(sys, run).store.jobs[i]);
    assert Exec(sys, run).store.jobs[i].job.key == req.key;
  }

  /** An accepted admission uses up its key. */
  lemma AdmissionUsesKey(store: Store, req: Intake, settings: IntakeSettings, plan: Option<Plan>, now: int)
    requires Admit(store, req, settings, plan, now).Ok?
    ensures KeyUsed(Admit(store, req, settings, plan, now).value.jobs, req.key)
  {
    var admitted := Admit(store, req, settings, plan, now).value;
    if !KeyUsed(store.jobs, req.key) {
      assert admitted.jobs[|store.jobs|].job.key == req.key;
    }
  }
}
