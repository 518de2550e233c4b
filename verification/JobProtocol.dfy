/** The transactions of the job protocol as functions on the committed store. A raised
    exception is an `Err`: the transaction rolls back and the store stays as it was. */
module JobProtocol {
  import opened Base
  import opened QuotaLedger
  import opened JobModel
  import opened JobTotals

  const LEASE := 120_000_000  // the two-minute worker lease

  const DEFAULT_MAX_ATTEMPTS := 3

  const MAX_OUTBOX_ATTEMPTS := 20

  function Replace(store: Store, id: JobId, d: Dossier): Store
    requires id < |store.jobs|
  {
    store.(jobs := store.jobs[id := d])
  }

  // ---------------------------------------------------------------- quota on a dossier

  datatype Posting = Posting(buckets: Buckets, dossier: Dossier)

  /** `QuotaService.reconcile` for one job. */
  function Reconcile(buckets: Buckets, d: Dossier, actual: int, success: bool): Result<Posting> {
    var s :- SettleRows(buckets, d.reservations, actual, success);
    Ok(Posting(s.buckets, d.(reservations := s.rows, usage := d.usage + s.records)))
  }

  /** `QuotaService.top_up` for one job. */
  function TopUp(buckets: Buckets, d: Dossier, required: nat): Result<Posting> {
    if required == 0 then Err(QuotaExceeded)
    else
      var s :- TopUpRows(buckets, d.reservations, required);
      Ok(Posting(s.buckets, d.(reservations := s.rows, job := d.job.(totalBytes := Some(required)))))
  }

  /** `QuotaService.touch` for one job. */
  function Touch(d: Dossier, now: int): Dossier {
    d.(reservations := TouchRows(d.reservations, now))
  }

  // ---------------------------------------------------------------- admission

  datatype Intake = Intake(user: UserId, source: Source, jobType: JobType, payload: Payload, policy: Policy,
                           estimatedBytes: int, key: IdempotencyKey)

  datatype IntakeSettings = IntakeSettings(maintenance: bool, admissionEnabled: bool, hardMax: int)

  predicate KeyUsed(jobs: seq<Dossier>, key: IdempotencyKey) {
    exists i :: 0 <= i < |jobs| && jobs[i].job.key == key
  }

  function LaneOf(priority: int): Lane {
    if priority >= 100 then Vip else Normal
  }

  function NewJob(req: Intake, plan: Plan, now: int): Job {
    Job(req.user, req.source, req.jobType, Queued, LaneOf(plan.queuePriority), plan.queuePriority, plan.queuePriority,
        req.policy, req.payload, req.key, 0, DEFAULT_MAX_ATTEMPTS, 0, None, None, now, now, 0, 0,
        if req.payload.sizeKnown && req.estimatedBytes >= 0 then Some(req.estimatedBytes) else None, None)
  }

  /** `AdmissionService.create_job`: a request key already used changes nothing. `plan` is
      the outcome of the plan lookup. */
  function Admit(store: Store, req: Intake, settings: IntakeSettings, plan: Option<Plan>, now: int): Result<Store> {
    if KeyUsed(store.jobs, req.key) then Ok(store)
    else if settings.maintenance || !settings.admissionEnabled then Err(AdmissionDenied)
    else if req.estimatedBytes <= 0 || req.estimatedBytes > settings.hardMax then Err(AdmissionDenied)
    else if plan.None? then Err(QuotaExceeded)
    else if req.estimatedBytes > plan.value.maxFileSize then Err(AdmissionDenied)
    else if req.source == ExternalUrl && !plan.value.externalUrlEnabled then Err(AdmissionDenied)
    else if plan.value.queuePriority < 0 then Err(ConstraintViolation)
    else if Total(store.jobs, ActiveOf(req.user)) >= plan.value.concurrentJobs then Err(QuotaExceeded)
    else
      var s :- ReserveRows(store.buckets, Specifications(req.user, plan.value, req.estimatedBytes, now), now);
      var d := Dossier(NewJob(req, plan.value, now), [JobEvent(None, Queued)], [], s.rows, [], [],
                       [OutboxEvent(Admitted, AdmissionStream, Unsent, 0, now, None)]);
      Ok(Store(store.jobs + [d], s.buckets))
  }

  // ---------------------------------------------------------------- dispatch

  /** The row changes of `dispatch_one` for the selected job. */
  function DispatchJob(d: Dossier, bonus: int, lease: Digest, leaseExpiresAt: int, now: int): Result<Dossier> {
    var moved :- Move(d, Dispatched);
    var job := moved.job.(effectivePriority := d.job.basePriority + bonus,
                          generation := d.job.generation + 1,
                          leaseHash := Some(lease),
                          leaseExpiresAt := Some(leaseExpiresAt));
    Ok(moved.(job := job,
              outbox := d.outbox + [OutboxEvent(DispatchedNotice(job.generation, Some(lease)),
                                                JobStream(job.jobType, job.lane), Unsent, 0, now, None)]))
  }

  // ---------------------------------------------------------------- outbox

  predicate Publishable(e: OutboxEvent, now: int) {
    e.state != Published && e.availableAt <= now && e.attempts < MAX_OUTBOX_ATTEMPTS
  }

  function Pow2(n: nat): nat {
    if n == 0 then 1 else 2 * Pow2(n - 1)
  }

  /** One event of `publish_batch`: delivered under a message id, or scheduled again. The
      raw lease leaves the row once it is delivered. */
  function PublishEvent(e: OutboxEvent, delivery: Option<MessageId>, now: int): OutboxEvent {
    match delivery
    case Some(message) =>
      e.(state := Published, messageId := Some(message),
         notice := match e.notice case Admitted => Admitted case DispatchedNotice(g, _) => DispatchedNotice(g, None))
    case None =>
      var attempts := e.attempts + 1;
      e.(state := Undelivered, attempts := attempts,
         availableAt := now + Min(300, Pow2(Min(attempts, 8))) * SECOND)
  }

  /** Position of one outbox row and what the stream said to it. */
  datatype Delivery = Delivery(job: JobId, index: nat, message: Option<MessageId>)

  function PublishOne(store: Store, p: Delivery, now: int): Store {
    if p.job < |store.jobs| && p.index < |store.jobs[p.job].outbox| then
      var d := store.jobs[p.job];
      Replace(store, p.job, d.(outbox := d.outbox[p.index := PublishEvent(d.outbox[p.index], p.message, now)]))
    else store
  }

  function PublishBatch(store: Store, page: seq<Delivery>, now: int): Store
    decreases |page|
  {
    if page == [] then store
    else PublishBatch(PublishOne(store, page[0], now), page[1..], now)
  }

  // ---------------------------------------------------------------- worker calls

  /** `_claim_durable`; the flag says whether the worker got the job. */
  function Claim(store: Store, id: JobId, generation: nat, lease: Digest, jobType: JobType, now: int)
    : Result<(Store, bool)>
  {
    if !Claimable(store, id, generation, lease, jobType, now) then Ok((store, false))
    else
      var d := store.jobs[id];
      if d.job.attemptCount >= d.job.maxAttempts then
        var moved :- Move(d, DeadLetter);
        var posting :- Reconcile(store.buckets,
                                 moved.(job := moved.job.(leaseHash := None, leaseExpiresAt := None)),
                                 d.job.bytesTransferred, false);
        Ok((Replace(store, id, posting.dossier).(buckets := posting.buckets), false))
      else
        var moved :- Move(d, RunningState(jobType));
        var count := d.job.attemptCount + 1;
        Ok((Replace(store, id,
                    moved.(job := moved.job.(attemptCount := count, leaseExpiresAt := Some(now + LEASE)),
                           attempts := d.attempts + [Attempt(count, generation)])),
            true))
  }

  predicate Claimable(store: Store, id: JobId, generation: nat, lease: Digest, jobType: JobType, now: int) {
    && id < |store.jobs|
    && var job := store.jobs[id].job;
    && job.status == Dispatched
    && job.jobType == jobType
    && job.generation == generation
    && job.leaseHash == Some(lease)
    && job.leaseExpiresAt.Some? && job.leaseExpiresAt.value > now
  }

  /** `_validated_job`: whether a worker call may touch the job. */
  predicate Validated(store: Store, id: JobId, generation: nat, lease: Digest, expected: Option<JobType>, now: int) {
    && id < |store.jobs|
    && var job := store.jobs[id].job;
    && job.generation == generation
    && job.leaseHash == Some(lease)
    && IsRunning(job.status)
    && job.leaseExpiresAt.Some? && job.leaseExpiresAt.value > now
    && (expected.Some? ==> job.jobType == expected.value)
  }

  /** A progress report; an absent byte count stands for the job's own. */
  datatype Progress = Progress(bytes: Option<nat>, percent: Option<int>)

  function Heartbeat(store: Store, id: JobId, generation: nat, lease: Digest, progress: Option<Progress>,
                     expected: Option<JobType>, now: int): Result<(Store, bool)>
  {
    if !Validated(store, id, generation, lease, expected, now) then Ok((store, false))
    else
      var d := store.jobs[id];
      var held := Touch(d.(job := d.job.(leaseExpiresAt := Some(now + LEASE))), now);
      if progress.None? then Ok((Replace(store, id, held), true))
      else
        var requested := progress.value.bytes.GetOr<nat>(d.job.bytesTransferred);
        var posting :- if requested > d.job.totalBytes.GetOr<nat>(0) then TopUp(store.buckets, held, requested)
                       else Ok(Posting(store.buckets, held));
        var job := posting.dossier.job;
        var percent := Max(0, Min(100, progress.value.percent.GetOr<int>(job.progressPercent)));
        var reported := job.(progressPercent := percent,
                             bytesTransferred := Max(job.bytesTransferred, requested));
        Ok((Replace(store, id, posting.dossier.(job := reported)).(buckets := posting.buckets), true))
  }

  /** `_fail_locked`. */
  function FailLocked(store: Store, id: JobId, actual: nat): Result<Store>
    requires id < |store.jobs|
  {
    var moved :- Move(store.jobs[id], Failed);
    var posting :- Reconcile(store.buckets,
                             moved.(job := moved.job.(bytesTransferred := Max(moved.job.bytesTransferred, actual))),
                             actual, false);
    Ok(Replace(store, id, posting.dossier).(buckets := posting.buckets))
  }

  datatype ScanStatus = Clean | Skipped | Infected | Suspicious | ScanFailed

  datatype Completion =
    | DownloadResult(size: nat, scan: ScanStatus, playable: bool)
    | UploadResult(size: nat)
    | MediaResult(size: nat, metadataValid: bool, directPlay: bool)

  /** Where a worker says its message came from. */
  datatype Transport = Transport(stream: Stream, group: JobType, message: MessageId)

  /** The first published dispatch notice on the stream with this message id. */
  function PublishedNotice(outbox: seq<OutboxEvent>, stream: Stream, message: MessageId): Option<OutboxEvent> {
    if outbox == [] then None
    else if && outbox[0].notice.DispatchedNotice? && outbox[0].stream == stream
            && outbox[0].messageId == Some(message) && outbox[0].state == Published then Some(outbox[0])
    else PublishedNotice(outbox[1..], stream, message)
  }

  /** `_transport_matches`. */
  predicate TransportMatches(d: Dossier, generation: nat, t: Transport) {
    && t.group == d.job.jobType
    && t.stream == JobStream(d.job.jobType, d.job.lane)
    && var notice := PublishedNotice(d.outbox, t.stream, t.message);
    && notice.Some? && notice.value.notice.DispatchedNotice? && notice.value.notice.generation == generation
  }

  function ChildJob(parent: Job, jobType: JobType, key: IdempotencyKey, file: FileId, size: nat, now: int): Dossier {
    Dossier(Job(parent.user, Internal, jobType, Queued, parent.lane, parent.basePriority, parent.effectivePriority,
                parent.policy, Payload(true, parent.payload.hasChat, Some(file)), key, 0, DEFAULT_MAX_ATTEMPTS, 0,
                None, None, now, now, 0, 0, Some(size), None),
            [JobEvent(None, Queued)], [], [], [], [], [])
  }

  function Schedule(store: Store, child: Dossier): Store {
    if KeyUsed(store.jobs, child.job.key) then store else store.(jobs := store.jobs + [child])
  }

  /** `_schedule_telegram_upload`. */
  function ScheduleUpload(store: Store, parent: Job, id: JobId, file: FileId, size: nat, now: int): Store {
    if parent.source != ExternalUrl || !parent.payload.hasChat then store
    else if parent.policy.uploadLimit <= 0 || size > parent.policy.uploadLimit then store
    else Schedule(store, ChildJob(parent, TelegramUpload, UploadKey(id), file, size, now))
  }

  /** `_schedule_media_processing`. */
  function ScheduleMedia(store: Store, parent: Job, file: FileId, size: nat, playable: bool, now: int): Store {
    if !playable then store
    else Schedule(store, ChildJob(parent, MediaProcess, MediaKey(file), file, size, now))
  }

  predicate ScanRejects(policy: Policy, scan: ScanStatus) {
    (scan != Clean && scan != Skipped) || (policy.scanRequired && scan != Clean)
  }

  const DOWNLOAD_PATH := [Scanning, Processing, GeneratingLink, Completed]

  const MEDIA_PATH := [GeneratingLink, Completed]

  /** A download's dossier moved to completion, with its file added. */
  function StoreDownload(d: Dossier, size: nat, now: int): Result<Dossier> {
    var moved :- MoveAlong(d, DOWNLOAD_PATH);
    Ok(moved.(job := moved.job.(resultSize := Some(size), progressPercent := 100),
              files := d.files + [File(d.job.user, size, now + d.job.policy.retentionSeconds * SECOND, true, false)]))
  }

  /** The completed dossier of a download, before its children are scheduled. */
  function FinishDownload(buckets: Buckets, d: Dossier, size: nat, now: int): Result<Posting> {
    var stored :- StoreDownload(d, size, now);
    Reconcile(buckets, stored, size, true)
  }

  /** `_complete_download_locked`. */
  function CompleteDownload(store: Store, id: JobId, result: Completion, now: int): Result<Store>
    requires id < |store.jobs| && result.DownloadResult?
  {
    var d := store.jobs[id];
    if ScanRejects(d.job.policy, result.scan) then FailLocked(store, id, result.size)
    else
      var posting :- FinishDownload(store.buckets, d, result.size, now);
      var done := Replace(store, id, posting.dossier).(buckets := posting.buckets);
      var file := FileId(id, |d.files|);
      var uploading := ScheduleUpload(done, posting.dossier.job, id, file, result.size, now);
      Ok(ScheduleMedia(uploading, posting.dossier.job, file, result.size, result.playable, now))
  }

  predicate HasFile(store: Store, file: FileId) {
    file.job < |store.jobs| && file.index < |store.jobs[file.job].files|
  }

  function FinishMedia(d: Dossier, size: nat): Result<Dossier> {
    var moved :- MoveAlong(d, MEDIA_PATH);
    Ok(moved.(job := moved.job.(resultSize := None, progressPercent := 100, bytesTransferred := size)))
  }

  function MarkPlayable(store: Store, file: FileId, directPlay: bool): Store
    requires HasFile(store, file)
  {
    var d := store.jobs[file.job];
    Replace(store, file.job, d.(files := d.files[file.index := d.files[file.index].(directPlay := directPlay)]))
  }

  /** `_complete_media_locked`. */
  function CompleteMedia(store: Store, id: JobId, result: Completion): Result<Store>
    requires id < |store.jobs| && result.MediaResult?
  {
    var source := store.jobs[id].job.payload.file;
    if source.None? || !HasFile(store, source.value) then Err(InvalidResult)
    else
      var file := store.jobs[source.value.job].files[source.value.index];
      if !file.available || result.size != file.size || !result.metadataValid then Err(InvalidResult)
      else
        var marked := MarkPlayable(store, source.value, result.directPlay);
        var finished :- FinishMedia(marked.jobs[id], file.size);
        Ok(Replace(marked, id, finished))
  }

  /** `_complete_upload_locked`. */
  function FinishUpload(d: Dossier, size: nat): Result<Dossier> {
    var moved :- Move(d, Completed);
    Ok(moved.(job := moved.job.(resultSize := Some(size), progressPercent := 100, bytesTransferred := size)))
  }

  function Complete(store: Store, id: JobId, generation: nat, lease: Digest, result: Completion, t: Transport,
                    expected: Option<JobType>, now: int): Result<(Store, bool)>
  {
    if !Validated(store, id, generation, lease, expected, now) then Ok((store, false))
    else if !TransportMatches(store.jobs[id], generation, t) then Ok((store, false))
    else match store.jobs[id].job.jobType
      case TelegramUpload =>
        if !result.UploadResult? then Ok((store, false))
        else
          var finished :- FinishUpload(store.jobs[id], result.size);
          Ok((Replace(store, id, finished), true))
      case MediaProcess =>
        if !result.MediaResult? then Ok((store, false))
        else
          var done :- CompleteMedia(store, id, result);
          Ok((done, true))
      case _ =>
        if !result.DownloadResult? then Ok((store, false))
        else
          var done :- CompleteDownload(store, id, result, now);
          Ok((done, true))
  }

  function Fail(store: Store, id: JobId, generation: nat, lease: Digest, actual: nat, t: Transport,
                expected: Option<JobType>, now: int): Result<(Store, bool)>
  {
    if !Validated(store, id, generation, lease, expected, now) then Ok((store, false))
    else if !TransportMatches(store.jobs[id], generation, t) then Ok((store, false))
    else
      var failed :- FailLocked(store, id, actual);
      Ok((failed, true))
  }

  // ---------------------------------------------------------------- schedulers

  predicate LeaseExpired(job: Job, now: int) {
    IsLeased(job.status) && job.leaseExpiresAt.Some? && job.leaseExpiresAt.value <= now
  }

  /** Recovery's second status write: back to the queue, or buried for want of attempts. */
  function Requeue(failed: Dossier, now: int): Result<Dossier> {
    var target := if failed.job.attemptCount >= failed.job.maxAttempts then DeadLetter else Queued;
    var moved :- Move(failed, target);
    Ok(moved.(job := moved.job.(queuedAt := if target == Queued then now else failed.job.queuedAt,
                                leaseHash := None, leaseExpiresAt := None)))
  }

  /** One job of `recover_expired_jobs`. */
  function RecoverJob(d: Dossier, now: int): Result<Dossier> {
    var failed :- Move(d, Failed);
    Requeue(failed, now)
  }

  /** `recover_expired_jobs` over the selected page of job ids. */
  function RecoverJobs(store: Store, page: seq<JobId>, now: int): Result<Store>
    decreases |page|
  {
    if page == [] then Ok(store)
    else if page[0] < |store.jobs| then
      var recovered :- RecoverJob(store.jobs[page[0]], now);
      RecoverJobs(Replace(store, page[0], recovered), page[1..], now)
    else RecoverJobs(store, page[1..], now)
  }

  /** The status half of `reconcile_expired` for one job. */
  function CloseStale(d: Dossier): Result<Dossier> {
    if d.job.status == Queued then Move(d, Expired)
    else if IsActive(d.job.status) then
      var failed :- Move(d, Failed);
      MoveUnlogged(failed, DeadLetter)
    else Ok(d)
  }

  /** The jobs `reconcile_expired` only renews: a worker holds a lease that has not run out. */
  predicate HeldByWorker(job: Job, now: int) {
    IsActive(job.status) && job.leaseExpiresAt.Some? && job.leaseExpiresAt.value > now
  }

  /** One job of `reconcile_expired`. */
  function ReconcileJob(buckets: Buckets, d: Dossier, now: int): Result<Posting> {
    if HeldByWorker(d.job, now) then
      Ok(Posting(buckets, Touch(d, now)))
    else
      var closed :- CloseStale(d);
      Reconcile(buckets, closed, d.job.resultSize.GetOr<nat>(d.job.bytesTransferred), d.job.status == Completed)
  }

  /** `reconcile_expired` over the selected job ids. */
  function ReconcileExpired(store: Store, page: seq<JobId>, now: int): Result<Store>
    decreases |page|
  {
    if page == [] then Ok(store)
    else if page[0] < |store.jobs| then
      var posting :- ReconcileJob(store.buckets, store.jobs[page[0]], now);
      ReconcileExpired(Replace(store, page[0], posting.dossier).(buckets := posting.buckets), page[1..], now)
    else ReconcileExpired(store, page[1..], now)
  }

  /** How many jobs the sweep reports: those it did not merely renew. */
  function ClosedCount(store: Store, page: seq<JobId>, now: int): nat
    decreases |page|
  {
    if page == [] then 0
    else if page[0] < |store.jobs| then
      var posting := ReconcileJob(store.buckets, store.jobs[page[0]], now);
      if posting.Err? then 0
      else
        var next := Replace(store, page[0], posting.value.dossier).(buckets := posting.value.buckets);
        (if HeldByWorker(store.jobs[page[0]].job, now) then 0 else 1) + ClosedCount(next, page[1..], now)
    else ClosedCount(store, page[1..], now)
  }
}
