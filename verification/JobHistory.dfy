/** What no later transaction can undo: how a dossier may evolve over a run, and the
    fencing and exactly-once results that follow. */
module JobHistory {
  import opened Base
  import opened QuotaLedger
  import opened JobModel
  import opened JobTotals
  import opened JobProtocol
  import opened JobInvariant
  import opened Dispatcher
  import opened JobSystem

  /** Reservations keep their buckets, and closed ones stay as they are. */
  ghost predicate RowsFollow(rows: seq<Reservation>, rows': seq<Reservation>) {
    && |rows'| == |rows|
    && (forall i :: 0 <= i < |rows| ==> rows'[i].bucket == rows[i].bucket)
    && (forall i :: 0 <= i < |rows| && rows[i].state != Active ==> rows'[i] == rows[i])
  }

  /** Files stay, except for what is known about playing them. */
  ghost predicate FilesFollow(files: seq<File>, files': seq<File>) {
    && |files| <= |files'|
    && forall i :: 0 <= i < |files| ==> files'[i] == files[i].(directPlay := files'[i].directPlay)
  }

  /** A published notice is never touched again. */
  ghost predicate OutboxFollows(outbox: seq<OutboxEvent>, outbox': seq<OutboxEvent>) {
    && |outbox| <= |outbox'|
    && forall i {:trigger outbox'[i]} :: 0 <= i < |outbox| && outbox[i].state == Published ==> outbox'[i] == outbox[i]
  }

  /** Within one dispatch generation a job is handed out, claimed and released only once. */
  predicate JobFollows(job: Job, job': Job) {
    && SameIdentity(job, job')
    && job.generation <= job'.generation
    && (Ended(job.status) ==> job'.status == job.status)
    && (job'.generation == job.generation && job.status != Dispatched ==> job'.status != Dispatched)
    && (job'.generation == job.generation && !IsLeased(job.status) ==> !IsLeased(job'.status))
    && (!Ended(job'.status) ==> job.bytesTransferred <= job'.bytesTransferred)
  }

  ghost predicate Follows(d: Dossier, d': Dossier) {
    && JobFollows(d.job, d'.job)
    && d.attempts <= d'.attempts
    && d.events <= d'.events
    && RowsFollow(d.reservations, d'.reservations)
    && FilesFollow(d.files, d'.files)
    && OutboxFollows(d.outbox, d'.outbox)
  }

  ghost predicate Evolves(store: Store, store': Store) {
    |store.jobs| <= |store'.jobs|
    && forall i {:trigger Follows(store.jobs[i], store'.jobs[i])} ::
         0 <= i < |store.jobs| ==> Follows(store.jobs[i], store'.jobs[i])
  }

  lemma FollowsTransitive(a: Dossier, b: Dossier, c: Dossier)
    requires Follows(a, b) && Follows(b, c)
    ensures Follows(a, c)
  {
  }

  lemma EvolvesTransitive(a: Store, b: Store, c: Store)
    requires Evolves(a, b) && Evolves(b, c)
    ensures Evolves(a, c)
  {
    forall i | 0 <= i < |a.jobs|
      ensures Follows(a.jobs[i], c.jobs[i])
    {
      FollowsTransitive(a.jobs[i], b.jobs[i], c.jobs[i]);
    }
  }

  lemma EvolvesReflexive(store: Store)
    ensures Evolves(store, store)
  {
  }

  lemma ReplaceEvolves(store: Store, id: JobId, d: Dossier)
    requires id < |store.jobs| && Follows(store.jobs[id], d)
    ensures forall buckets :: Evolves(store, Replace(store, id, d).(buckets := buckets))
    ensures Evolves(store, Replace(store, id, d))
  {
  }

  lemma ScheduleEvolves(store: Store, child: Dossier)
    ensures Evolves(store, Schedule(store, child))
  {
  }

  // ---------------------------------------------------------------- one dossier

  lemma ReconcileFollows(buckets: Buckets, d: Dossier, actual: int, success: bool)
    requires Reconcile(buckets, d, actual, success).Ok? && ConsumptionsClear(d.reservations)
    ensures var after := Reconcile(buckets, d, actual, success).value.dossier;
            after == d.(reservations := after.reservations, usage := after.usage)
            && RowsFollow(d.reservations, after.reservations)
  {
    SettleEffect(buckets, d.reservations, actual, success);
  }

  lemma SoundRowsClear(d: Dossier)
    requires Sound(d)
    ensures ConsumptionsClear(d.reservations)
  {
    forall i | 0 <= i < |d.reservations| && d.reservations[i].state == Active
      ensures d.reservations[i].consumed == 0
    {
      assert Accounted(d.reservations[i]);
    }
  }

  lemma HeldPostingFollows(store: Store, id: JobId, requested: nat, now: int)
    requires id < |store.jobs| && HeldPosting(store, id, requested, now).Ok?
    ensures var d := store.jobs[id];
            var held := HeldPosting(store, id, requested, now).value.dossier;
            && RowsFollow(d.reservations, held.reservations)
            && held.job == d.job.(leaseExpiresAt := Some(now + LEASE), totalBytes := held.job.totalBytes)
            && held == d.(job := held.job, reservations := held.reservations)
  {
    var d := store.jobs[id];
    var held := Touch(d.(job := d.job.(leaseExpiresAt := Some(now + LEASE))), now);
    if requested > d.job.totalBytes.GetOr<nat>(0) {
      TopUpEffect(store.buckets, held.reservations, requested);
    }
  }

  lemma FailFollows(store: Store, id: JobId, actual: nat)
    requires id < |store.jobs| && IsRunning(store.jobs[id].job.status)
    requires ConsumptionsClear(store.jobs[id].reservations)
    requires FailLocked(store, id, actual).Ok?
    ensures Evolves(store, FailLocked(store, id, actual).value)
  {
    var d := store.jobs[id];
    var moved := Move(d, Failed).value;
    var noted := moved.(job := moved.job.(bytesTransferred := Max(moved.job.bytesTransferred, actual)));
    ReconcileFollows(store.buckets, noted, actual, false);
    ReplaceEvolves(store, id, Reconcile(store.buckets, noted, actual, false).value.dossier);
  }

  lemma FailCallEvolves(store: Store, id: JobId, generation: nat, lease: Digest, actual: nat, t: Transport,
                        expected: Option<JobType>, now: int)
    requires Inv(store) && Fail(store, id, generation, lease, actual, t, expected, now).Ok?
    ensures Evolves(store, Fail(store, id, generation, lease, actual, t, expected, now).value.0)
  {
    EvolvesReflexive(store);
    if Validated(store, id, generation, lease, expected, now) && TransportMatches(store.jobs[id], generation, t) {
      SoundRowsClear(store.jobs[id]);
      FailFollows(store, id, actual);
    }
  }

  lemma StoreDownloadFollows(d: Dossier, size: nat, now: int)
    requires d.job.status == Downloading || d.job.status == Receiving
    ensures StoreDownload(d, size, now).Ok?
    ensures Follows(d, StoreDownload(d, size, now).value)
    ensures StoreDownload(d, size, now).value.reservations == d.reservations
  {
    StoreDownloadRow(d, size, now);
    StoredFollows(d, StoreDownload(d, size, now).value, size);
  }

  lemma StoredFollows(d: Dossier, stored: Dossier, size: nat)
    requires d.job.status == Downloading || d.job.status == Receiving
    requires stored == d.(job := d.job.(status := Completed, resultSize := Some(size), progressPercent := 100),
                          events := stored.events, files := stored.files)
    requires |stored.files| == |d.files| + 1 && stored.files[..|d.files|] == d.files
    requires d.events <= stored.events
    ensures Follows(d, stored)
  {
    forall i | 0 <= i < |d.files|
      ensures stored.files[i] == d.files[i]
    {
      assert stored.files[i] == stored.files[..|d.files|][i];
    }
  }

  lemma FinishDownloadFollows(buckets: Buckets, d: Dossier, size: nat, now: int)
    requires d.job.status == Downloading || d.job.status == Receiving
    requires ConsumptionsClear(d.reservations)
    requires FinishDownload(buckets, d, size, now).Ok?
    ensures Follows(d, FinishDownload(buckets, d, size, now).value.dossier)
  {
    StoreDownloadFollows(d, size, now);
    ReconcileFollows(buckets, StoreDownload(d, size, now).value, size, true);
  }

  lemma StaleFollows(buckets: Buckets, d: Dossier)
    requires StatusSound(d.job) && EventsSound(d.job, d.events) && IsActive(d.job.status)
    requires ConsumptionsClear(d.reservations)
    requires CloseStale(d).Ok? && Reconcile(buckets, CloseStale(d).value, d.job.bytesTransferred, false).Ok?
    ensures Follows(d, Reconcile(buckets, CloseStale(d).value, d.job.bytesTransferred, false).value.dossier)
  {
    CloseStaleRow(d);
    ReconcileFollows(buckets, CloseStale(d).value, d.job.bytesTransferred, false);
  }

  lemma TouchFollows(d: Dossier, now: int)
    ensures Follows(d, Touch(d, now))
  {
  }

  lemma CloseFollows(buckets: Buckets, d: Dossier, now: int)
    requires Sound(d) && ReconcileJob(buckets, d, now).Ok?
    ensures Follows(d, ReconcileJob(buckets, d, now).value.dossier)
  {
    SoundRowsClear(d);
    ReconcileJobBranches(buckets, d, now);
    if HeldByWorker(d.job, now) {
      TouchFollows(d, now);
    } else if IsActive(d.job.status) {
      CloseStaleRow(d);
      StaleFollows(buckets, d);
    } else {
      ReconcileFollows(buckets, d, d.job.resultSize.GetOr<nat>(d.job.bytesTransferred), d.job.status == Completed);
    }
  }

  // ---------------------------------------------------------------- one transaction

  lemma AdmitEvolves(store: Store, req: Intake, settings: IntakeSettings, plan: Option<Plan>, now: int)
    requires Admit(store, req, settings, plan, now).Ok?
    ensures Evolves(store, Admit(store, req, settings, plan, now).value)
  {
  }

  lemma DispatchEvolves(sys: System, jobType: JobType, tuning: Tuning, lease: Digest, leaseSeconds: int, now: int)
    requires Inv(sys.store) && DispatchOne(sys, jobType, tuning, lease, leaseSeconds, now).Ok?
    ensures Evolves(sys.store, DispatchOne(sys, jobType, tuning, lease, leaseSeconds, now).value.0.store)
  {
    var selected := Selection(sys, jobType, tuning, now);
    if selected.Some? {
      var bonus := AgingBonus(sys.store.jobs[selected.value].job, now, tuning.agingStep);
      var expires := now + leaseSeconds * SECOND;
      assert DispatchOne(sys, jobType, tuning, lease, leaseSeconds, now)
             == DispatchSelected(sys, selected.value, bonus, lease, expires, now);
      DispatchSelectedEvolves(sys, selected.value, bonus, lease, expires, now);
    } else {
      assert DispatchOne(sys, jobType, tuning, lease, leaseSeconds, now) == Ok((sys, None));
      EvolvesReflexive(sys.store);
    }
  }

  lemma DispatchSelectedEvolves(sys: System, id: JobId, bonus: int, lease: Digest, expires: int, now: int)
    requires Inv(sys.store) && id < |sys.store.jobs| && sys.store.jobs[id].job.status == Queued
    ensures DispatchSelected(sys, id, bonus, lease, expires, now).Ok?
    ensures Evolves(sys.store, DispatchSelected(sys, id, bonus, lease, expires, now).value.0.store)
  {
    DispatchSound(sys.store.jobs[id], bonus, lease, expires, now);
    ReplaceEvolves(sys.store, id, DispatchJob(sys.store.jobs[id], bonus, lease, expires, now).value);
  }

  lemma {:induction false} PublishEvolves(store: Store, page: seq<Delivery>, now: int)
    requires PublishPage(store, page, now)
    ensures Evolves(store, PublishBatch(store, page, now))
    decreases |page|
  {
    if page != [] {
      var p := page[0];
      var next := PublishOne(store, p, now);
      ReplaceEvolves(store, p.job, next.jobs[p.job]);
      PublishEvolves(next, page[1..], now);
      EvolvesTransitive(store, next, PublishBatch(next, page[1..], now));
    }
  }

  lemma ClaimFollows(d: Dossier, jobType: JobType, generation: nat, now: int)
    requires d.job.status == Dispatched && d.job.jobType == jobType
    ensures Move(d, RunningState(jobType)).Ok?
    ensures var moved := Move(d, RunningState(jobType)).value;
            var count := d.job.attemptCount + 1;
            Follows(d, moved.(job := moved.job.(attemptCount := count, leaseExpiresAt := Some(now + LEASE)),
                              attempts := d.attempts + [Attempt(count, generation)]))
  {
  }

  lemma ClaimEvolves(store: Store, id: JobId, generation: nat, lease: Digest, jobType: JobType, now: int)
    requires Claimable(store, id, generation, lease, jobType, now) ==>
               store.jobs[id].job.attemptCount < store.jobs[id].job.maxAttempts
    ensures Claim(store, id, generation, lease, jobType, now).Ok?
    ensures Evolves(store, Claim(store, id, generation, lease, jobType, now).value.0)
  {
    EvolvesReflexive(store);
    if Claimable(store, id, generation, lease, jobType, now) {
      ClaimFollows(store.jobs[id], jobType, generation, now);
      var claimed := Claim(store, id, generation, lease, jobType, now).value.0;
      ReplaceEvolves(store, id, claimed.jobs[id]);
      assert claimed == Replace(store, id, claimed.jobs[id]);
    }
  }

  lemma HeartbeatEvolves(store: Store, id: JobId, generation: nat, lease: Digest, progress: Option<Progress>,
                         expected: Option<JobType>, now: int)
    requires Heartbeat(store, id, generation, lease, progress, expected, now).Ok?
    ensures Evolves(store, Heartbeat(store, id, generation, lease, progress, expected, now).value.0)
  {
    if Validated(store, id, generation, lease, expected, now) {
      var d := store.jobs[id];
      if progress.None? {
        HeldPostingFollows(store, id, 0, now);
        ReplaceEvolves(store, id, HeldPosting(store, id, 0, now).value.dossier);
      } else {
        HeldPostingFollows(store, id, progress.value.bytes.GetOr<nat>(d.job.bytesTransferred), now);
        var after := Heartbeat(store, id, generation, lease, progress, expected, now).value.0;
        ReplaceEvolves(store, id, after.jobs[id]);
      }
    }
  }

  lemma ChildrenEvolve(store: Store, done: Store, parent: Job, id: JobId, file: FileId, size: nat, playable: bool,
                       now: int)
    requires Evolves(store, done)
    ensures Evolves(store, ScheduleMedia(ScheduleUpload(done, parent, id, file, size, now), parent, file, size,
                                         playable, now))
  {
    var uploading := ScheduleUpload(done, parent, id, file, size, now);
    var scheduled := ScheduleMedia(uploading, parent, file, size, playable, now);
    EvolvesReflexive(done);
    ScheduleEvolves(done, ChildJob(parent, TelegramUpload, UploadKey(id), file, size, now));
    EvolvesReflexive(uploading);
    ScheduleEvolves(uploading, ChildJob(parent, MediaProcess, MediaKey(file), file, size, now));
    EvolvesTransitive(store, done, uploading);
    EvolvesTransitive(store, uploading, scheduled);
  }

  lemma CompleteDownloadEvolves(store: Store, id: JobId, result: Completion, now: int)
    requires Inv(store) && id < |store.jobs| && result.DownloadResult?
    requires IsRunning(store.jobs[id].job.status) && IsDownload(store.jobs[id].job.jobType)
    requires CompleteDownload(store, id, result, now).Ok?
    ensures Evolves(store, CompleteDownload(store, id, result, now).value)
  {
    var d := store.jobs[id];
    if ScanRejects(d.job.policy, result.scan) {
      SoundRowsClear(d);
      FailFollows(store, id, result.size);
    } else {
      SoundRowsClear(d);
      FinishDownloadFollows(store.buckets, d, result.size, now);
      var posting := FinishDownload(store.buckets, d, result.size, now).value;
      var done := Replace(store, id, posting.dossier).(buckets := posting.buckets);
      ReplaceEvolves(store, id, posting.dossier);
      ChildrenEvolve(store, done, posting.dossier.job, id, FileId(id, |d.files|), result.size, result.playable, now);
    }
  }

  lemma CompleteMediaEvolves(store: Store, id: JobId, result: Completion)
    requires id < |store.jobs| && result.MediaResult? && store.jobs[id].job.status == Processing
    requires CompleteMedia(store, id, result).Ok?
    ensures Evolves(store, CompleteMedia(store, id, result).value)
  {
    var file := store.jobs[id].job.payload.file.value;
    var parent := store.jobs[file.job];
    var marked := MarkPlayable(store, file, result.directPlay);
    MarkedFollows(parent, file.index, result.directPlay);
    ReplaceEvolves(store, file.job, marked.jobs[file.job]);
    var size := parent.files[file.index].size;
    FinishMediaFollows(marked.jobs[id], size);
    var done := Replace(marked, id, FinishMedia(marked.jobs[id], size).value);
    ReplaceEvolves(marked, id, FinishMedia(marked.jobs[id], size).value);
    EvolvesTransitive(store, marked, done);
    assert CompleteMedia(store, id, result) == Ok(done);
  }

  lemma FinishMediaFollows(d: Dossier, size: nat)
    requires d.job.status == Processing
    ensures FinishMedia(d, size).Ok? && Follows(d, FinishMedia(d, size).value)
  {
    FinishMediaShape(d, size);
  }

  lemma MarkedFollows(d: Dossier, index: nat, directPlay: bool)
    requires index < |d.files|
    ensures Follows(d, d.(files := d.files[index := d.files[index].(directPlay := directPlay)]))
  {
  }

  lemma RunningMatches(d: Dossier)
    requires Sound(d) && IsRunning(d.job.status)
    ensures d.job.status == RunningState(d.job.jobType)
  {
  }

  lemma CompleteEvolves(store: Store, id: JobId, generation: nat, lease: Digest, result: Completion, t: Transport,
                        expected: Option<JobType>, now: int)
    requires Inv(store)
    requires Complete(store, id, generation, lease, result, t, expected, now).Ok?
    ensures Evolves(store, Complete(store, id, generation, lease, result, t, expected, now).value.0)
  {
    EvolvesReflexive(store);
    if Validated(store, id, generation, lease, expected, now) && TransportMatches(store.jobs[id], generation, t) {
      var d := store.jobs[id];
      RunningMatches(d);
      if d.job.jobType == TelegramUpload && result.UploadResult? {
        ReplaceEvolves(store, id, FinishUpload(d, result.size).value);
      } else if d.job.jobType == MediaProcess && result.MediaResult? {
        CompleteMediaEvolves(store, id, result);
      } else if IsDownload(d.job.jobType) && result.DownloadResult? {
        CompleteDownloadEvolves(store, id, result, now);
      }
    }
  }

  lemma {:induction false} RecoverEvolves(store: Store, page: seq<JobId>, now: int)
    requires Inv(store) && RecoveryPage(store, page, now)
    ensures RecoverJobs(store, page, now).Ok?
    ensures Evolves(store, RecoverJobs(store, page, now).value)
    decreases |page|
  {
    if page != [] {
      RecoverStep(store, page, now);
      var recovered := RecoverJob(store.jobs[page[0]], now).value;
      var next := Replace(store, page[0], recovered);
      assert Sound(store.jobs[page[0]]);
      RecoverFollows(store.jobs[page[0]], now);
      ReplaceEvolves(store, page[0], recovered);
      RecoverEvolves(next, page[1..], now);
      EvolvesTransitive(store, next, RecoverJobs(next, page[1..], now).value);
    }
  }

  lemma RecoverFollows(d: Dossier, now: int)
    requires StatusSound(d.job) && IsLeased(d.job.status)
    ensures RecoverJob(d, now).Ok? && Follows(d, RecoverJob(d, now).value)
  {
    RecoverShape(d, now);
  }

  lemma {:induction false} ExpiryEvolves(store: Store, page: seq<JobId>, now: int)
    requires Inv(store)
    ensures ReconcileExpired(store, page, now).Ok?
    ensures Evolves(store, ReconcileExpired(store, page, now).value)
    decreases |page|
  {
    if page != [] {
      if page[0] < |store.jobs| {
        var d := store.jobs[page[0]];
        assert Sound(d);
        OpenRowsBacked(store, page[0]);
        ReconcileJobSound(store.buckets, d, now);
        var posting := ReconcileJob(store.buckets, d, now).value;
        var next := Replace(store, page[0], posting.dossier).(buckets := posting.buckets);
        ReplaceKeeps(store, page[0], posting.dossier, posting.buckets);
        CloseFollows(store.buckets, d, now);
        ReplaceEvolves(store, page[0], posting.dossier);
        ExpiryEvolves(next, page[1..], now);
        EvolvesTransitive(store, next, ReconcileExpired(next, page[1..], now).value);
      } else {
        ExpiryEvolves(store, page[1..], now);
      }
    }
  }

  lemma HoldingCallEvolves(sys: System, e: Event)
    requires Inv(sys.store) && Outcome(sys, e).Ok?
    requires e.op.ClaimCall? || e.op.HeartbeatCall?
    ensures Evolves(sys.store, Apply(sys, e).store)
  {
    match e.op
    case ClaimCall(id, generation, lease, jobType) =>
      ClaimKeeps(sys.store, id, generation, lease, jobType, e.now);
      ClaimEvolves(sys.store, id, generation, lease, jobType, e.now);
    case HeartbeatCall(id, generation, lease, progress, expected) =>
      HeartbeatEvolves(sys.store, id, generation, lease, progress, expected, e.now);
  }

  lemma EndCallEvolves(sys: System, e: Event)
    requires Inv(sys.store) && Outcome(sys, e).Ok?
    requires e.op.CompleteCall? || e.op.FailCall?
    ensures Evolves(sys.store, Apply(sys, e).store)
  {
    match e.op
    case CompleteCall(id, generation, lease, result, transport, expected) =>
      CompleteEvolves(sys.store, id, generation, lease, result, transport, expected, e.now);
    case FailCall(id, generation, lease, actual, transport, expected) =>
      FailCallEvolves(sys.store, id, generation, lease, actual, transport, expected, e.now);
  }

  lemma StepEvolves(sys: System, e: Event)
    requires Inv(sys.store) && Legal(sys, e)
    ensures Evolves(sys.store, Apply(sys, e).store)
  {
    if Outcome(sys, e).Err? {
      EvolvesReflexive(sys.store);
    } else {
      match e.op
      case Admission(req, settings, plan) => AdmitEvolves(sys.store, req, settings, plan, e.now);
      case Dispatch(jobType, tuning, lease, leaseSeconds) =>
        DispatchEvolves(sys, jobType, tuning, lease, leaseSeconds, e.now);
      case Publication(page) => PublishEvolves(sys.store, page, e.now);
      case Recovery(page) => RecoverEvolves(sys.store, page, e.now);
      case Expiry(page) => ExpiryEvolves(sys.store, page, e.now);
      case ClaimCall(_, _, _, _) => HoldingCallEvolves(sys, e);
      case HeartbeatCall(_, _, _, _, _) => HoldingCallEvolves(sys, e);
      case _ => EndCallEvolves(sys, e);
    }
  }

  /** Over any legal run, every dossier only evolves: generations never fall back, logs only
      grow, ended jobs stay ended, closed reservations and files stay. */
  lemma {:induction false} RunEvolves(sys: System, run: seq<Event>)
    requires Inv(sys.store) && LegalRun(sys, run)
    ensures Evolves(sys.store, Exec(sys, run).store)
    decreases |run|
  {
    EvolvesReflexive(sys.store);
    if run != [] {
      var next := Apply(sys, run[0]);
      StepKeeps(sys, run[0]);
      StepEvolves(sys, run[0]);
      RunEvolves(next, run[1..]);
      EvolvesTransitive(sys.store, next.store, Exec(next, run[1..]).store);
    }
  }

  // ---------------------------------------------------------------- new dossiers

  /** Everything past the known jobs was scheduled by the system itself. */
  predicate OnlyChildrenAdded(store: Store, store': Store) {
    |store.jobs| <= |store'.jobs|
    && forall i :: |store.jobs| <= i < |store'.jobs| ==> store'.jobs[i].job.source == Internal
  }

  lemma {:induction false} PublishAddsNone(store: Store, page: seq<Delivery>, now: int)
    ensures |PublishBatch(store, page, now).jobs| == |store.jobs|
    decreases |page|
  {
    if page != [] {
      PublishAddsNone(PublishOne(store, page[0], now), page[1..], now);
    }
  }

  lemma {:induction false} RecoverAddsNone(store: Store, page: seq<JobId>, now: int)
    requires RecoverJobs(store, page, now).Ok?
    ensures |RecoverJobs(store, page, now).value.jobs| == |store.jobs|
    decreases |page|
  {
    if page != [] {
      if page[0] < |store.jobs| {
        RecoverAddsNone(Replace(store, page[0], RecoverJob(store.jobs[page[0]], now).value), page[1..], now);
      } else {
        RecoverAddsNone(store, page[1..], now);
      }
    }
  }

  lemma {:induction false} ExpiryAddsNone(store: Store, page: seq<JobId>, now: int)
    requires ReconcileExpired(store, page, now).Ok?
    ensures |ReconcileExpired(store, page, now).value.jobs| == |store.jobs|
    decreases |page|
  {
    if page != [] {
      if page[0] < |store.jobs| {
        var posting := ReconcileJob(store.buckets, store.jobs[page[0]], now).value;
        ExpiryAddsNone(Replace(store, page[0], posting.dossier).(buckets := posting.buckets), page[1..], now);
      } else {
        ExpiryAddsNone(store, page[1..], now);
      }
    }
  }

  lemma DispatchAddsNone(sys: System, jobType: JobType, tuning: Tuning, lease: Digest, leaseSeconds: int, now: int)
    requires DispatchOne(sys, jobType, tuning, lease, leaseSeconds, now).Ok?
    ensures |DispatchOne(sys, jobType, tuning, lease, leaseSeconds, now).value.0.store.jobs| == |sys.store.jobs|
  {
  }

  lemma ClaimAddsNone(store: Store, id: JobId, generation: nat, lease: Digest, jobType: JobType, now: int)
    requires Claim(store, id, generation, lease, jobType, now).Ok?
    ensures |Claim(store, id, generation, lease, jobType, now).value.0.jobs| == |store.jobs|
  {
  }

  lemma HeartbeatAddsNone(store: Store, id: JobId, generation: nat, lease: Digest, progress: Option<Progress>,
                          expected: Option<JobType>, now: int)
    requires Heartbeat(store, id, generation, lease, progress, expected, now).Ok?
    ensures |Heartbeat(store, id, generation, lease, progress, expected, now).value.0.jobs| == |store.jobs|
  {
  }

  lemma FailAddsNone(store: Store, id: JobId, generation: nat, lease: Digest, actual: nat, t: Transport,
                     expected: Option<JobType>, now: int)
    requires Fail(store, id, generation, lease, actual, t, expected, now).Ok?
    ensures |Fail(store, id, generation, lease, actual, t, expected, now).value.0.jobs| == |store.jobs|
  {
  }

  lemma OthersAddNone(sys: System, e: Event)
    requires !e.op.Admission? && !e.op.CompleteCall?
    ensures |Apply(sys, e).store.jobs| == |sys.store.jobs|
  {
    if Outcome(sys, e).Ok? {
      match e.op
      case Publication(page) => PublishAddsNone(sys.store, page, e.now);
      case Recovery(page) => RecoverAddsNone(sys.store, page, e.now);
      case Expiry(page) => ExpiryAddsNone(sys.store, page, e.now);
      case Dispatch(jobType, tuning, lease, leaseSeconds) =>
        DispatchAddsNone(sys, jobType, tuning, lease, leaseSeconds, e.now);
      case _ => CallsAddNone(sys, e);
    }
  }

  lemma CallsAddNone(sys: System, e: Event)
    requires e.op.ClaimCall? || e.op.HeartbeatCall? || e.op.FailCall?
    ensures |Apply(sys, e).store.jobs| == |sys.store.jobs|
  {
    if Outcome(sys, e).Ok? {
      match e.op
      case ClaimCall(id, generation, lease, jobType) =>
        ClaimAddsNone(sys.store, id, generation, lease, jobType, e.now);
      case HeartbeatCall(id, generation, lease, progress, expected) =>
        HeartbeatAddsNone(sys.store, id, generation, lease, progress, expected, e.now);
      case FailCall(id, generation, lease, actual, transport, expected) =>
        FailAddsNone(sys.store, id, generation, lease, actual, transport, expected, e.now);
    }
  }

  /** Only admission adds jobs that a user submitted. */
  lemma OnlyAdmissionAdds(sys: System, e: Event)
    requires !e.op.Admission?
    ensures OnlyChildrenAdded(sys.store, Apply(sys, e).store)
  {
    if e.op.CompleteCall? {
      if Outcome(sys, e).Ok? {
        CompleteAddsChildren(sys.store, e.op.id, e.op.generation, e.op.lease, e.op.result, e.op.transport,
                             e.op.expected, e.now);
      }
    } else {
      OthersAddNone(sys, e);
    }
  }

  lemma ScheduleAddsChild(store: Store, known: Store, child: Dossier)
    requires OnlyChildrenAdded(known, store) && child.job.source == Internal
    ensures OnlyChildrenAdded(known, Schedule(store, child))
  {
  }

  lemma CompleteDownloadAddsChildren(store: Store, id: JobId, result: Completion, now: int)
    requires id < |store.jobs| && result.DownloadResult? && CompleteDownload(store, id, result, now).Ok?
    ensures OnlyChildrenAdded(store, CompleteDownload(store, id, result, now).value)
  {
    var d := store.jobs[id];
    if !ScanRejects(d.job.policy, result.scan) {
      var posting := FinishDownload(store.buckets, d, result.size, now).value;
      var done := Replace(store, id, posting.dossier).(buckets := posting.buckets);
      var file := FileId(id, |d.files|);
      var parent := posting.dossier.job;
      var upload := ChildJob(parent, TelegramUpload, UploadKey(id), file, result.size, now);
      var media := ChildJob(parent, MediaProcess, MediaKey(file), file, result.size, now);
      assert OnlyChildrenAdded(store, done);
      ScheduleAddsChild(done, store, upload);
      var uploading := ScheduleUpload(done, parent, id, file, result.size, now);
      assert OnlyChildrenAdded(store, uploading);
      ScheduleAddsChild(uploading, store, media);
    }
  }

  lemma CompleteAddsChildren(store: Store, id: JobId, generation: nat, lease: Digest, result: Completion, t: Transport,
                             expected: Option<JobType>, now: int)
    requires Complete(store, id, generation, lease, result, t, expected, now).Ok?
    ensures OnlyChildrenAdded(store, Complete(store, id, generation, lease, result, t, expected, now).value.0)
  {
    if Validated(store, id, generation, lease, expected, now) && TransportMatches(store.jobs[id], generation, t) {
      match store.jobs[id].job.jobType
      case TelegramUpload =>
      case MediaProcess =>
        if result.MediaResult? {
          CompleteMediaAddsNone(store, id, result);
        }
      case _ =>
        if result.DownloadResult? {
          CompleteDownloadAddsChildren(store, id, result, now);
        }
    }
  }

  lemma CompleteMediaAddsNone(store: Store, id: JobId, result: Completion)
    requires id < |store.jobs| && result.MediaResult? && CompleteMedia(store, id, result).Ok?
    ensures |CompleteMedia(store, id, result).value.jobs| == |store.jobs|
  {
  }

  lemma {:induction false} TotalLowered(jobs: seq<Dossier>, jobs': seq<Dossier>, m: Measure)
    requires |jobs| == |jobs'| && forall i :: 0 <= i < |jobs| ==> Weight(m, jobs'[i]) <= Weight(m, jobs[i])
    ensures Total(jobs', m) <= Total(jobs, m)
  {
    if jobs != [] {
      TotalLowered(jobs[..|jobs| - 1], jobs'[..|jobs| - 1], m);
    }
  }

  lemma {:induction false} TotalSplits(a: seq<Dossier>, b: seq<Dossier>, m: Measure)
    requires forall i :: 0 <= i < |b| ==> Weight(m, b[i]) <= 0
    ensures Total(a + b, m) <= Total(a, m)
    decreases |b|
  {
    if b == [] {
      assert a + b == a;
    } else {
      TotalSplits(a, b[..|b| - 1], m);
      TotalAppend(a + b[..|b| - 1], b[|b| - 1], m);
      assert a + b == (a + b[..|b| - 1]) + [b[|b| - 1]];
    }
  }

  /** A total over a store whose known jobs weigh no more, and whose new jobs weigh nothing,
      has not grown. */
  lemma TotalNotRaised(jobs: seq<Dossier>, jobs': seq<Dossier>, m: Measure)
    requires |jobs| <= |jobs'|
    requires forall i :: 0 <= i < |jobs| ==> Weight(m, jobs'[i]) <= Weight(m, jobs[i])
    requires forall i :: |jobs| <= i < |jobs'| ==> Weight(m, jobs'[i]) <= 0
    ensures Total(jobs', m) <= Total(jobs, m)
  {
    var old', new' := jobs'[..|jobs|], jobs'[|jobs|..];
    forall i | 0 <= i < |jobs|
      ensures Weight(m, old'[i]) <= Weight(m, jobs[i])
    {
      assert old'[i] == jobs'[i];
    }
    TotalLowered(jobs, old', m);
    TotalSplits(old', new', m);
    CutJoins(jobs', |jobs|);
  }
}
