/** The rows of the durable job protocol (app/db/models/jobs.py) and the database trigger
    that guards job status writes. */
module JobModel {
  import opened Base
  import opened QuotaLedger

  type JobId = nat
  type Digest = nat
  type MessageId = nat

  datatype Status =
    | Pending | QuotaReserved | Queued | Dispatched
    | Downloading | Receiving | Scanning | Processing | Remuxing | Transcoding | Uploading | GeneratingLink
    | Completed | Failed | Cancelled | Expired | CancelledByMigration | DeadLetter

  datatype JobType = ExternalDownload | TelegramDownload | TelegramUpload | MediaProcess

  datatype Lane = Normal | Vip

  datatype Source = Telegram | ExternalUrl | Internal

  /** The status trigger `validate_job_state_transition`: which writes the database accepts. */
  predicate TransitionAllowed(from: Status, to: Status) {
    if to == from then true
    else if to == CancelledByMigration then
      from != Completed && from != Expired && from != DeadLetter
    else match from
      case Pending => to == QuotaReserved || to == Failed || to == Cancelled
      case QuotaReserved => to == Queued || to == Failed || to == Cancelled
      case Queued => to == Dispatched || to == Cancelled || to == Expired
      case Dispatched =>
        || to == Downloading || to == Receiving || to == Scanning || to == Processing
        || to == Uploading || to == Failed || to == Cancelled || to == DeadLetter
      case Downloading => to == Scanning || to == Processing || to == Failed || to == Cancelled
      case Receiving => to == Scanning || to == Processing || to == Failed || to == Cancelled
      case Scanning => to == Processing || to == GeneratingLink || to == Failed || to == Cancelled
      case Processing =>
        || to == Remuxing || to == Transcoding || to == Uploading || to == GeneratingLink || to == Failed
        || to == Cancelled
      case Remuxing => to == Uploading || to == GeneratingLink || to == Completed || to == Failed || to == Cancelled
      case Transcoding =>
        to == Uploading || to == GeneratingLink || to == Completed || to == Failed || to == Cancelled
      case Uploading => to == GeneratingLink || to == Completed || to == Failed || to == Cancelled
      case GeneratingLink => to == Completed || to == Failed || to == Cancelled
      case Failed => to == Queued || to == DeadLetter || to == Expired
      case Completed => to == Expired
      case Cancelled => to == Expired
      case Expired => false
      case CancelledByMigration => false
      case DeadLetter => false
  }

  /** RUNNING_STATE of app/workers/control.py. */
  function RunningState(jobType: JobType): Status {
    match jobType
    case ExternalDownload => Downloading
    case TelegramDownload => Receiving
    case TelegramUpload => Uploading
    case MediaProcess => Processing
  }

  predicate IsRunning(status: Status) {
    status == Downloading || status == Receiving || status == Uploading || status == Processing
  }

  /** ACTIVE_JOB_STATES of app/services/quota.py. */
  predicate IsActive(status: Status) {
    || status == Pending || status == QuotaReserved || status == Queued || status == Dispatched
    || status == Downloading || status == Receiving || status == Scanning || status == Processing
    || status == Remuxing || status == Transcoding || status == Uploading || status == GeneratingLink
  }

  /** The statuses `recover_expired_jobs` looks for. */
  predicate IsLeased(status: Status) {
    || status == Dispatched || status == Downloading || status == Receiving || status == Scanning
    || status == Processing || status == Remuxing || status == Transcoding || status == Uploading
    || status == GeneratingLink
  }

  predicate IsDownload(jobType: JobType) {
    jobType == ExternalDownload || jobType == TelegramDownload
  }

  /** A file is named by the job that created it and its position among that job's files. */
  datatype FileId = FileId(job: JobId, index: nat)

  datatype IdempotencyKey = RequestKey(id: nat) | UploadKey(parent: JobId) | MediaKey(file: FileId)

  datatype Policy = Policy(scanRequired: bool, uploadLimit: int, retentionSeconds: int)

  /** The parts of a job payload the services branch on. */
  datatype Payload = Payload(sizeKnown: bool, hasChat: bool, file: Option<FileId>)

  datatype Job = Job(
    user: UserId,
    source: Source,
    jobType: JobType,
    status: Status,
    lane: Lane,
    basePriority: int,
    effectivePriority: int,
    policy: Policy,
    payload: Payload,
    key: IdempotencyKey,
    attemptCount: nat,
    maxAttempts: nat,
    generation: nat,
    leaseHash: Option<Digest>,
    leaseExpiresAt: Option<int>,
    createdAt: int,
    queuedAt: int,
    progressPercent: int,
    bytesTransferred: nat,
    totalBytes: Option<nat>,
    resultSize: Option<nat>)

  datatype JobEvent = JobEvent(from: Option<Status>, to: Status)

  datatype Attempt = Attempt(number: nat, generation: nat)

  datatype File = File(owner: UserId, size: nat, expiresAt: int, available: bool, directPlay: bool)

  datatype Notice = Admitted | DispatchedNotice(generation: nat, lease: Option<Digest>)

  datatype Stream = AdmissionStream | JobStream(jobType: JobType, lane: Lane)

  datatype OutboxState = Unsent | Published | Undelivered

  datatype OutboxEvent = OutboxEvent(notice: Notice, stream: Stream, state: OutboxState, attempts: nat,
                                     availableAt: int, messageId: Option<MessageId>)

  /** Every row of the database that carries one job's id, table by table. */
  datatype Dossier = Dossier(
    job: Job,
    events: seq<JobEvent>,
    attempts: seq<Attempt>,
    reservations: seq<Reservation>,
    usage: seq<UsageRecord>,
    files: seq<File>,
    outbox: seq<OutboxEvent>)

  /** The committed database: dossiers by job id, and the bucket table they share. */
  datatype Store = Store(jobs: seq<Dossier>, buckets: Buckets)

  /** A status write that is logged as a job event, as the database accepts or rejects it. */
  function Move(d: Dossier, to: Status): Result<Dossier> {
    if TransitionAllowed(d.job.status, to) then
      Ok(d.(job := d.job.(status := to), events := d.events + [JobEvent(Some(d.job.status), to)]))
    else
      Err(InvalidTransition)
  }

  /** A status write without a job event. */
  function MoveUnlogged(d: Dossier, to: Status): Result<Dossier> {
    if TransitionAllowed(d.job.status, to) then Ok(d.(job := d.job.(status := to)))
    else Err(InvalidTransition)
  }

  function MoveAlong(d: Dossier, path: seq<Status>): Result<Dossier>
    decreases |path|
  {
    if path == [] then Ok(d)
    else
      var next :- Move(d, path[0]);
      MoveAlong(next, path[1..])
  }
}
