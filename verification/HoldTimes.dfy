/** How long reservations are held (app/services/quota.py:89-112, 357-369): while clocks do not
    step back, every one expires at least four hours after its job was admitted. */
module HoldTimes {
  import opened Base
  import opened QuotaLedger
  import opened JobModel
  import opened JobProtocol
  import opened JobInvariant
  import opened Dispatcher
  import opened JobSystem
  import opened JobHistory

  predicate RowLasts(job: Job, r: Reservation) {
    r.expiresAt >= job.createdAt + HOLD
  }

  /** The job was admitted by then, and its reservations last four hours from its admission. */
  ghost predicate Lasts(d: Dossier, clock: int) {
    && d.job.createdAt <= clock
    && forall i {:trigger RowLasts(d.job, d.reservations[i])} ::
         0 <= i < |d.reservations| ==> RowLasts(d.job, d.reservations[i])
  }

  ghost predicate AllLast(store: Store, clock: int) {
    forall i {:trigger Lasts(store.jobs[i], clock)} :: 0 <= i < |store.jobs| ==> Lasts(store.jobs[i], clock)
  }

  // ---------------------------------------------------------------- one dossier

  /** Neither admission time nor reservations changed. */
  predicate SameHolds(d: Dossier, d': Dossier) {
    d'.reservations == d.reservations && d'.job.createdAt == d.job.createdAt
  }

  lemma SameLasts(d: Dossier, d': Dossier, clock: int, now: int)
    requires Lasts(d, clock) && clock <= now && SameHolds(d, d')
    ensures Lasts(d', now)
  {
    forall i | 0 <= i < |d'.reservations|
      ensures RowLasts(d'.job, d'.reservations[i])
    {
      assert RowLasts(d.job, d.reservations[i]);
    }
  }

  /** Rows that expire when they did, or four hours from now. */
  lemma RenewedLasts(d: Dossier, d': Dossier, clock: int, now: int)
    requires Lasts(d, clock) && clock <= now && d'.job.createdAt == d.job.createdAt
    requires |d'.reservations| == |d.reservations|
    requires forall i :: 0 <= i < |d.reservations| ==>
               d'.reservations[i].expiresAt == d.reservations[i].expiresAt || d'.reservations[i].expiresAt == now + HOLD
    ensures Lasts(d', now)
  {
    forall i | 0 <= i < |d'.reservations|
      ensures RowLasts(d'.job, d'.reservations[i])
    {
      assert RowLasts(d.job, d.reservations[i]);
    }
  }

  lemma ReconcileLasts(buckets: Buckets, d: Dossier, actual: int, success: bool, clock: int, now: int)
    requires Lasts(d, clock) && clock <= now && ConsumptionsClear(d.reservations)
    requires Reconcile(buckets, d, actual, success).Ok?
    ensures Lasts(Reconcile(buckets, d, actual, success).value.dossier, now)
  {
    SettleEffect(buckets, d.reservations, actual, success);
    RenewedLasts(d, Reconcile(buckets, d, actual, success).value.dossier, clock, now);
  }

  lemma TouchLasts(d: Dossier, clock: int, now: int)
    requires Lasts(d, clock) && clock <= now
    ensures Lasts(Touch(d, now), now)
  {
    RenewedLasts(d, Touch(d, now), clock, now);
  }

  lemma TopUpLasts(buckets: Buckets, d: Dossier, required: nat, now: int)
    requires Lasts(d, now) && TopUp(buckets, d, required).Ok?
    ensures Lasts(TopUp(buckets, d, required).value.dossier, now)
  {
    TopUpEffect(buckets, d.reservations, required);
    RenewedLasts(d, TopUp(buckets, d, required).value.dossier, now, now);
  }

  lemma {:induction false} MoveAlongHolds(d: Dossier, path: seq<Status>)
    requires MoveAlong(d, path).Ok?
    ensures SameHolds(d, MoveAlong(d, path).value)
    decreases |path|
  {
    if path != [] {
      MoveAlongHolds(Move(d, path[0]).value, path[1..]);
    }
  }

  // ---------------------------------------------------------------- one transaction

  lemma ReplaceLasts(store: Store, id: JobId, d: Dossier, buckets: Buckets, clock: int, now: int)
    requires AllLast(store, clock) && clock <= now && id < |store.jobs| && Lasts(d, now)
    ensures AllLast(Replace(store, id, d).(buckets := buckets), now)
    ensures AllLast(Replace(store, id, d), now)
  {
    forall i | 0 <= i < |store.jobs| && i != id
      ensures Lasts(store.jobs[i], now)
    {
      assert Lasts(store.jobs[i], clock);
      SameLasts(store.jobs[i], store.jobs[i], clock, now);
    }
  }

  lemma LaterLasts(store: Store, clock: int, now: int)
    requires AllLast(store, clock) && clock <= now
    ensures AllLast(store, now)
  {
    forall i | 0 <= i < |store.jobs|
      ensures Lasts(store.jobs[i], now)
    {
      assert Lasts(store.jobs[i], clock);
      SameLasts(store.jobs[i], store.jobs[i], clock, now);
    }
  }

  lemma AppendLasts(store: Store, d: Dossier, now: int)
    requires AllLast(store, now) && Lasts(d, now)
    ensures forall buckets :: AllLast(Store(store.jobs + [d], buckets), now)
  {
    forall i | 0 <= i < |store.jobs|
      ensures Lasts((store.jobs + [d])[i], now)
    {
      assert Lasts(store.jobs[i], now);
    }
  }

  lemma AdmitLasts(store: Store, req: Intake, settings: IntakeSettings, plan: Option<Plan>, now: int)
    requires AllLast(store, now) && Admit(store, req, settings, plan, now).Ok?
    ensures AllLast(Admit(store, req, settings, plan, now).value, now)
  {
    if !KeyUsed(store.jobs, req.key) {
      var specs := Specifications(req.user, plan.value, req.estimatedBytes, now);
      ReserveEffect(store.buckets, specs, now);
      var next := Admit(store, req, settings, plan, now).value;
      var d := next.jobs[|store.jobs|];
      assert Lasts(d, now);
      AppendLasts(store, d, now);
      assert next == Store(store.jobs + [d], next.buckets);
    }
  }

  lemma DispatchHolds(d: Dossier, bonus: int, lease: Digest, expires: int, now: int)
    requires DispatchJob(d, bonus, lease, expires, now).Ok?
    ensures SameHolds(d, DispatchJob(d, bonus, lease, expires, now).value)
  {
  }

  lemma DispatchLasts(sys: System, jobType: JobType, tuning: Tuning, lease: Digest, leaseSeconds: int, now: int)
    requires AllLast(sys.store, now) && DispatchOne(sys, jobType, tuning, lease, leaseSeconds, now).Ok?
    ensures AllLast(DispatchOne(sys, jobType, tuning, lease, leaseSeconds, now).value.0.store, now)
  {
    var selected := Selection(sys, jobType, tuning, now);
    if selected.Some? {
      var d := sys.store.jobs[selected.value];
      var bonus := AgingBonus(d.job, now, tuning.agingStep);
      var expires := now + leaseSeconds * SECOND;
      assert DispatchOne(sys, jobType, tuning, lease, leaseSeconds, now)
             == DispatchSelected(sys, selected.value, bonus, lease, expires, now);
      var dispatched := DispatchJob(d, bonus, lease, expires, now).value;
      DispatchHolds(d, bonus, lease, expires, now);
      assert Lasts(d, now);
      SameLasts(d, dispatched, now, now);
      ReplaceLasts(sys.store, selected.value, dispatched, sys.store.buckets, now, now);
    } else {
      assert DispatchOne(sys, jobType, tuning, lease, leaseSeconds, now) == Ok((sys, None));
    }
  }

  lemma {:induction false} PublishLasts(store: Store, page: seq<Delivery>, now: int)
    requires AllLast(store, now)
    ensures AllLast(PublishBatch(store, page, now), now)
    decreases |page|
  {
    if page != [] {
      var p := page[0];
      var next := PublishOne(store, p, now);
      if p.job < |store.jobs| && p.index < |store.jobs[p.job].outbox| {
        assert Lasts(store.jobs[p.job], now);
        SameLasts(store.jobs[p.job], next.jobs[p.job], now, now);
        ReplaceLasts(store, p.job, next.jobs[p.job], store.buckets, now, now);
      }
      PublishLasts(next, page[1..], now);
    }
  }

  lemma ClaimLasts(store: Store, id: JobId, generation: nat, lease: Digest, jobType: JobType, now: int)
    requires Inv(store) && AllLast(store, now)
    ensures Claim(store, id, generation, lease, jobType, now).Ok?
    ensures AllLast(Claim(store, id, generation, lease, jobType, now).value.0, now)
  {
    ClaimKeeps(store, id, generation, lease, jobType, now);
    if Claimable(store, id, generation, lease, jobType, now) {
      var claimed := Claim(store, id, generation, lease, jobType, now).value.0;
      assert Lasts(store.jobs[id], now);
      SameLasts(store.jobs[id], claimed.jobs[id], now, now);
      ReplaceLasts(store, id, claimed.jobs[id], store.buckets, now, now);
      assert claimed == Replace(store, id, claimed.jobs[id]);
    }
  }

  lemma HeldPostingLasts(store: Store, id: JobId, requested: nat, now: int)
    requires id < |store.jobs| && Lasts(store.jobs[id], now) && HeldPosting(store, id, requested, now).Ok?
    ensures Lasts(HeldPosting(store, id, requested, now).value.dossier, now)
  {
    var d := store.jobs[id];
    var leased := d.(job := d.job.(leaseExpiresAt := Some(now + LEASE)));
    SameLasts(d, leased, now, now);
    TouchLasts(leased, now, now);
    if requested > d.job.totalBytes.GetOr<nat>(0) {
      TopUpLasts(store.buckets, Touch(leased, now), requested, now);
    }
  }

  lemma HeartbeatLasts(store: Store, id: JobId, generation: nat, lease: Digest, progress: Option<Progress>,
                       expected: Option<JobType>, now: int)
    requires AllLast(store, now) && Heartbeat(store, id, generation, lease, progress, expected, now).Ok?
    ensures AllLast(Heartbeat(store, id, generation, lease, progress, expected, now).value.0, now)
  {
    if Validated(store, id, generation, lease, expected, now) {
      var d := store.jobs[id];
      assert Lasts(d, now);
      var next := Heartbeat(store, id, generation, lease, progress, expected, now).value.0;
      var requested := if progress.None? then 0 else progress.value.bytes.GetOr<nat>(d.job.bytesTransferred);
      HeldPostingLasts(store, id, requested, now);
      SameLasts(HeldPosting(store, id, requested, now).value.dossier, next.jobs[id], now, now);
      ReplaceLasts(store, id, next.jobs[id], next.buckets, now, now);
      assert next == Replace(store, id, next.jobs[id]).(buckets := next.buckets);
    }
  }

  lemma FailLasts(store: Store, id: JobId, actual: nat, now: int)
    requires Inv(store) && AllLast(store, now) && id < |store.jobs| && FailLocked(store, id, actual).Ok?
    ensures AllLast(FailLocked(store, id, actual).value, now)
  {
    var d := store.jobs[id];
    assert Lasts(d, now) && Sound(d);
    SoundRowsClear(d);
    var moved := Move(d, Failed).value;
    var noted := moved.(job := moved.job.(bytesTransferred := Max(moved.job.bytesTransferred, actual)));
    SameLasts(d, noted, now, now);
    ReconcileLasts(store.buckets, noted, actual, false, now, now);
    var posting := Reconcile(store.buckets, noted, actual, false).value;
    ReplaceLasts(store, id, posting.dossier, posting.buckets, now, now);
  }

  lemma ScheduleLasts(store: Store, parent: Job, jobType: JobType, key: IdempotencyKey, file: FileId, size: nat,
                      now: int)
    requires AllLast(store, now)
    ensures AllLast(Schedule(store, ChildJob(parent, jobType, key, file, size, now)), now)
  {
    var child := ChildJob(parent, jobType, key, file, size, now);
    assert Lasts(child, now);
    AppendLasts(store, child, now);
  }

  lemma FinishDownloadLasts(buckets: Buckets, d: Dossier, size: nat, now: int)
    requires Sound(d) && Lasts(d, now) && FinishDownload(buckets, d, size, now).Ok?
    ensures Lasts(FinishDownload(buckets, d, size, now).value.dossier, now)
  {
    SoundRowsClear(d);
    MoveAlongHolds(d, DOWNLOAD_PATH);
    var stored := StoreDownload(d, size, now).value;
    SameLasts(d, stored, now, now);
    ReconcileLasts(buckets, stored, size, true, now, now);
  }

  lemma CompleteDownloadLasts(store: Store, id: JobId, result: Completion, now: int)
    requires Inv(store) && AllLast(store, now) && id < |store.jobs| && result.DownloadResult?
    requires CompleteDownload(store, id, result, now).Ok?
    ensures AllLast(CompleteDownload(store, id, result, now).value, now)
  {
    var d := store.jobs[id];
    if ScanRejects(d.job.policy, result.scan) {
      FailLasts(store, id, result.size, now);
    } else {
      assert Sound(d) && Lasts(d, now);
      FinishDownloadLasts(store.buckets, d, result.size, now);
      var posting := FinishDownload(store.buckets, d, result.size, now).value;
      var done := Replace(store, id, posting.dossier).(buckets := posting.buckets);
      ReplaceLasts(store, id, posting.dossier, posting.buckets, now, now);
      ChildrenLast(done, posting.dossier.job, id, FileId(id, |d.files|), result.size, result.playable, now);
    }
  }

  lemma ChildrenLast(store: Store, parent: Job, id: JobId, file: FileId, size: nat, playable: bool, now: int)
    requires AllLast(store, now)
    ensures AllLast(ScheduleMedia(ScheduleUpload(store, parent, id, file, size, now), parent, file, size, playable,
                                  now), now)
  {
    ScheduleLasts(store, parent, TelegramUpload, UploadKey(id), file, size, now);
    ScheduleLasts(ScheduleUpload(store, parent, id, file, size, now), parent, MediaProcess, MediaKey(file), file, size,
                  now);
  }

  lemma CompleteMediaLasts(store: Store, id: JobId, result: Completion, now: int)
    requires AllLast(store, now) && id < |store.jobs| && result.MediaResult? && CompleteMedia(store, id, result).Ok?
    ensures AllLast(CompleteMedia(store, id, result).value, now)
  {
    var file := store.jobs[id].job.payload.file.value;
    var marked := MarkPlayable(store, file, result.directPlay);
    assert Lasts(store.jobs[file.job], now);
    SameLasts(store.jobs[file.job], marked.jobs[file.job], now, now);
    ReplaceLasts(store, file.job, marked.jobs[file.job], store.buckets, now, now);
    MoveAlongHolds(marked.jobs[id], MEDIA_PATH);
    var finished := FinishMedia(marked.jobs[id], store.jobs[file.job].files[file.index].size).value;
    assert Lasts(marked.jobs[id], now);
    SameLasts(marked.jobs[id], finished, now, now);
    ReplaceLasts(marked, id, finished, marked.buckets, now, now);
  }

  lemma CompleteLasts(store: Store, id: JobId, generation: nat, lease: Digest, result: Completion, t: Transport,
                      expected: Option<JobType>, now: int)
    requires Inv(store) && AllLast(store, now)
    requires Complete(store, id, generation, lease, result, t, expected, now).Ok?
    ensures AllLast(Complete(store, id, generation, lease, result, t, expected, now).value.0, now)
  {
    if Validated(store, id, generation, lease, expected, now) && TransportMatches(store.jobs[id], generation, t) {
      var d := store.jobs[id];
      if d.job.jobType == TelegramUpload && result.UploadResult? {
        assert Lasts(d, now);
        SameLasts(d, FinishUpload(d, result.size).value, now, now);
        ReplaceLasts(store, id, FinishUpload(d, result.size).value, store.buckets, now, now);
      } else if d.job.jobType == MediaProcess && result.MediaResult? {
        CompleteMediaLasts(store, id, result, now);
      } else if IsDownload(d.job.jobType) && result.DownloadResult? {
        CompleteDownloadLasts(store, id, result, now);
      }
    }
  }

  lemma FailCallLasts(store: Store, id: JobId, generation: nat, lease: Digest, actual: nat, t: Transport,
                      expected: Option<JobType>, now: int)
    requires Inv(store) && AllLast(store, now) && Fail(store, id, generation, lease, actual, t, expected, now).Ok?
    ensures AllLast(Fail(store, id, generation, lease, actual, t, expected, now).value.0, now)
  {
    if Validated(store, id, generation, lease, expected, now) && TransportMatches(store.jobs[id], generation, t) {
      FailLasts(store, id, actual, now);
    }
  }

  lemma {:induction false} RecoverLasts(store: Store, page: seq<JobId>, now: int)
    requires Inv(store) && RecoveryPage(store, page, now) && AllLast(store, now)
    ensures RecoverJobs(store, page, now).Ok? && AllLast(RecoverJobs(store, page, now).value, now)
    decreases |page|
  {
    if page != [] {
      var d := store.jobs[page[0]];
      assert Sound(d) && Lasts(d, now);
      RecoverStep(store, page, now);
      RecoverShape(d, now);
      var recovered := RecoverJob(d, now).value;
      SameLasts(d, recovered, now, now);
      ReplaceLasts(store, page[0], recovered, store.buckets, now, now);
      RecoverLasts(Replace(store, page[0], recovered), page[1..], now);
    }
  }

  lemma SweptLasts(buckets: Buckets, d: Dossier, now: int)
    requires Sound(d) && Backed(buckets, d.reservations) && Lasts(d, now)
    ensures ReconcileJob(buckets, d, now).Ok? && Lasts(ReconcileJob(buckets, d, now).value.dossier, now)
  {
    ReconcileJobSound(buckets, d, now);
    ReconcileJobBranches(buckets, d, now);
    SoundRowsClear(d);
    if HeldByWorker(d.job, now) {
      TouchLasts(d, now, now);
    } else if IsActive(d.job.status) {
      CloseStaleRow(d);
      SameLasts(d, CloseStale(d).value, now, now);
      ReconcileLasts(buckets, CloseStale(d).value, d.job.bytesTransferred, false, now, now);
    } else {
      ReconcileLasts(buckets, d, d.job.resultSize.GetOr<nat>(d.job.bytesTransferred), d.job.status == Completed, now,
                     now);
    }
  }

  lemma {:induction false} ExpiryLasts(store: Store, page: seq<JobId>, now: int)
    requires Inv(store) && ExpiryPage(store, page, now) && AllLast(store, now)
    ensures ReconcileExpired(store, page, now).Ok? && AllLast(ReconcileExpired(store, page, now).value, now)
    decreases |page|
  {
    if page != [] {
      var d := store.jobs[page[0]];
      assert Sound(d) && Lasts(d, now);
      OpenRowsBacked(store, page[0]);
      SweptLasts(store.buckets, d, now);
      ReconcileJobSound(store.buckets, d, now);
      var posting := ReconcileJob(store.buckets, d, now).value;
      var next := Replace(store, page[0], posting.dossier).(buckets := posting.buckets);
      ReplaceKeeps(store, page[0], posting.dossier, posting.buckets);
      ReplaceLasts(store, page[0], posting.dossier, posting.buckets, now, now);
      ExpiryLasts(next, page[1..], now);
    }
  }

  lemma WorkerCallLasts(sys: System, e: Event)
    requires Inv(sys.store) && AllLast(sys.store, e.now) && Outcome(sys, e).Ok?
    requires e.op.ClaimCall? || e.op.HeartbeatCall? || e.op.CompleteCall? || e.op.FailCall?
    ensures AllLast(Apply(sys, e).store, e.now)
  {
    match e.op
    case ClaimCall(id, generation, lease, jobType) => ClaimLasts(sys.store, id, generation, lease, jobType, e.now);
    case HeartbeatCall(id, generation, lease, progress, expected) =>
      HeartbeatLasts(sys.store, id, generation, lease, progress, expected, e.now);
    case CompleteCall(id, generation, lease, result, transport, expected) =>
      CompleteLasts(sys.store, id, generation, lease, result, transport, expected, e.now);
    case FailCall(id, generation, lease, actual, transport, expected) =>
      FailCallLasts(sys.store, id, generation, lease, actual, transport, expected, e.now);
  }

  lemma StepLasts(sys: System, e: Event, clock: int)
    requires Inv(sys.store) && Legal(sys, e) && AllLast(sys.store, clock) && clock <= e.now
    ensures AllLast(Apply(sys, e).store, e.now)
  {
    LaterLasts(sys.store, clock, e.now);
    if Outcome(sys, e).Ok? {
      match e.op
      case Admission(req, settings, plan) => AdmitLasts(sys.store, req, settings, plan, e.now);
      case Dispatch(jobType, tuning, lease, leaseSeconds) =>
        DispatchLasts(sys, jobType, tuning, lease, leaseSeconds, e.now);
      case Publication(page) => PublishLasts(sys.store, page, e.now);
      case Recovery(page) => RecoverLasts(sys.store, page, e.now);
      case Expiry(page) => ExpiryLasts(sys.store, page, e.now);
      case _ => WorkerCallLasts(sys, e);
    }
  }

  // ---------------------------------------------------------------- any run

  /** Clocks that never step back, from an instant on. */
  predicate Forward(run: seq<Event>, clock: int)
    decreases |run|
  {
    run == [] || (clock <= run[0].now && Forward(run[1..], run[0].now))
  }

  function LastClock(run: seq<Event>, clock: int): int {
    if run == [] then clock else run[|run| - 1].now
  }

  lemma {:induction false} RunLasts(sys: System, run: seq<Event>, clock: int)
    requires Inv(sys.store) && LegalRun(sys, run) && Forward(run, clock) && AllLast(sys.store, clock)
    ensures AllLast(Exec(sys, run).store, LastClock(run, clock))
    decreases |run|
  {
    if run != [] {
      StepKeeps(sys, run[0]);
      StepLasts(sys, run[0], clock);
      RunLasts(Apply(sys, run[0]), run[1..], run[0].now);
    }
  }

  /** While clocks do not step back, every reservation expires at least four hours after its
      job was admitted, whatever renewed it: the declared order of the two instants holds. */
  lemma HoldsOutlastAdmission(run: seq<Event>, clock: int, id: JobId, row: nat)
    requires LegalRun(EMPTY, run) && Forward(run, clock)
    requires id < |Exec(EMPTY, run).store.jobs| && row < |Exec(EMPTY, run).store.jobs[id].reservations|
    ensures var d := Exec(EMPTY, run).store.jobs[id];
            d.reservations[row].expiresAt >= d.job.createdAt + HOLD > d.job.createdAt
  {
    RunLasts(EMPTY, run, clock);
    var d := Exec(EMPTY, run).store.jobs[id];
    assert Lasts(d, LastClock(run, clock));
    assert RowLasts(d.job, d.reservations[row]);
  }
}
