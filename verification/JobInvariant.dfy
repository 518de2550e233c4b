/** What every committed dossier satisfies, and that each service keeps it. The lemmas
    here look at one dossier; JobSystem lifts them to whole runs. */
module JobInvariant {
  import opened Base
  import opened QuotaWindows
  import opened QuotaLedger
  import opened JobModel
  import opened JobTotals
  import opened JobProtocol

  /** The job row: reachable statuses, retry arithmetic, lease fields, lane. */
  ghost predicate StatusSound(job: Job) {
    && (|| job.status == Queued || job.status == Dispatched || job.status == RunningState(job.jobType)
        || job.status == Completed || job.status == Failed || job.status == Expired || job.status == DeadLetter)
    && (job.source == Internal <==> !IsDownload(job.jobType))
    && job.basePriority >= 0 && job.lane == LaneOf(job.basePriority)
    && 0 <= job.progressPercent <= 100
    && 0 < job.maxAttempts && job.attemptCount <= job.maxAttempts
    && job.attemptCount <= job.generation
    && ((job.status == Queued || job.status == Dispatched) ==> job.attemptCount < job.maxAttempts)
    && (job.status == Dispatched ==> job.attemptCount < job.generation)
    && (IsRunning(job.status) ==> 0 < job.attemptCount)
    && (job.status == Queued ==> job.leaseHash.None? && job.leaseExpiresAt.None?)
    && (IsLeased(job.status) ==> job.leaseHash.Some? && job.leaseExpiresAt.Some?)
    && (job.status == Completed && IsDownload(job.jobType) ==> job.resultSize.Some?)
    && (job.status != Completed ==> job.resultSize.None?)
  }

  /** Attempts are numbered from one, under ever newer dispatch generations. */
  ghost predicate AttemptsSound(job: Job, attempts: seq<Attempt>) {
    && |attempts| == job.attemptCount
    && (forall i :: 0 <= i < |attempts| ==>
                      attempts[i].number == i + 1 && 1 <= attempts[i].generation <= job.generation)
    && (forall i, j :: 0 <= i < j < |attempts| ==> attempts[i].generation < attempts[j].generation)
    && (job.status == Dispatched ==> forall i :: 0 <= i < |attempts| ==> attempts[i].generation < job.generation)
    && (IsRunning(job.status) ==> |attempts| > 0 && attempts[|attempts| - 1].generation == job.generation)
  }

  /** Events form one connected path of allowed transitions from admission. */
  ghost predicate Connected(events: seq<JobEvent>) {
    && |events| > 0
    && events[0] == JobEvent(None, Queued)
    && forall i, j :: 0 <= i && j == i + 1 < |events| ==>
                        && events[j].from == Some(events[i].to)
                        && TransitionAllowed(events[i].to, events[j].to)
  }

  function LastStatus(events: seq<JobEvent>): Status
    requires |events| > 0
  {
    events[|events| - 1].to
  }

  /** The path ends at the job's status, or one unlogged step before the dead letter. */
  ghost predicate EventsSound(job: Job, events: seq<JobEvent>) {
    && Connected(events)
    && (LastStatus(events) == job.status || (job.status == DeadLetter && LastStatus(events) == Failed))
  }

  ghost predicate AllClosed(rows: seq<Reservation>) {
    forall i :: 0 <= i < |rows| ==> rows[i].state != Active
  }

  /** The reservation sits in the bucket of its dimension for the job's admission time. */
  predicate RowKeyed(job: Job, r: Reservation) {
    && r.bucket.user == job.user
    && r.bucket.window == QuotaWindow(r.bucket.window.kind, job.createdAt)
    && match r.bucket.dimension
       case Ingress => r.bucket.window.kind != Lifetime
       case JobCount => r.bucket.window.kind == Daily
       case Storage => r.bucket.window.kind == Lifetime
  }

  /** A byte reservation still open covers the declared size and everything transferred. */
  predicate RowCovers(job: Job, r: Reservation) {
    if r.bucket.dimension == JobCount then r.amount == 1
    else r.state == Active ==> job.totalBytes.GetOr<nat>(0) <= r.amount && job.bytesTransferred <= r.amount
  }

  predicate SameAmount(r: Reservation, s: Reservation) {
    r.bucket.dimension != JobCount && s.bucket.dimension != JobCount ==> r.amount == s.amount
  }

  predicate SameFate(r: Reservation, s: Reservation) {
    r.bucket.dimension == Ingress && s.bucket.dimension == Ingress ==> r.consumed == s.consumed && r.state == s.state
  }

  ghost predicate BytesAlike(rows: seq<Reservation>) {
    && (forall i, j {:trigger SameAmount(rows[i], rows[j])} ::
          0 <= i < |rows| && 0 <= j < |rows| ==> SameAmount(rows[i], rows[j]))
    && (forall i, j {:trigger SameFate(rows[i], rows[j])} ::
          0 <= i < |rows| && 0 <= j < |rows| ==> SameFate(rows[i], rows[j]))
  }

  ghost predicate DistinctBuckets(rows: seq<Reservation>) {
    forall i, j :: 0 <= i < j < |rows| ==> rows[i].bucket != rows[j].bucket
  }

  ghost predicate RowsShaped(job: Job, rows: seq<Reservation>) {
    && (job.source == Internal ==> rows == [])
    && (forall i {:trigger Accounted(rows[i])} {:trigger RowKeyed(job, rows[i])} {:trigger RowCovers(job, rows[i])} ::
          0 <= i < |rows| ==> Accounted(rows[i]) && RowKeyed(job, rows[i]) && RowCovers(job, rows[i]))
    && DistinctBuckets(rows)
    && BytesAlike(rows)
  }

  /** Reservations are all open while the job is active and all closed once it has ended;
      only a dead letter may have either, and open ones only if recovery buried it for want of
      attempts. Usage is exactly what the closed ones consumed. */
  ghost predicate RowsSound(job: Job, rows: seq<Reservation>, usage: seq<UsageRecord>) {
    && RowsShaped(job, rows)
    && (IsActive(job.status) ==> AllActive(rows))
    && ((job.status == Completed || job.status == Failed || job.status == Expired) ==> AllClosed(rows))
    && (AllActive(rows) || AllClosed(rows))
    && (job.status == DeadLetter && !AllClosed(rows) ==> job.attemptCount >= job.maxAttempts)
    && usage == RecordsOf(rows)
  }

  /** A file exists exactly for a completed download, and closed reservations were charged
      for exactly its size; a job that ended otherwise is charged for ingress alone. */
  ghost predicate FilesSound(job: Job, files: seq<File>, rows: seq<Reservation>) {
    && |files| == (if job.status == Completed && IsDownload(job.jobType) then 1 else 0)
    && (forall i :: 0 <= i < |files| ==> files[i].owner == job.user)
    && (|files| == 1 ==>
          && job.resultSize == Some(files[0].size)
          && forall i :: 0 <= i < |rows| ==> rows[i].consumed == Charge(rows[i].bucket.dimension, files[0].size, true))
    && (job.status != Completed ==>
          forall i :: 0 <= i < |rows| && rows[i].bucket.dimension != Ingress ==> rows[i].consumed == 0)
  }

  function NoticeOffset(job: Job): nat {
    if job.source == Internal then 0 else 1
  }

  /** One dispatch notice per generation, in order, each on the job's own stream; the raw
      lease is in the row exactly until the row is published. */
  ghost predicate OutboxSound(job: Job, outbox: seq<OutboxEvent>) {
    && |outbox| == NoticeOffset(job) + job.generation
    && (job.source != Internal ==> outbox[0].notice == Admitted)
    && (forall i :: 0 <= i < |outbox| ==> outbox[i].attempts <= MAX_OUTBOX_ATTEMPTS)
    && (forall i :: NoticeOffset(job) <= i < |outbox| ==>
                      && outbox[i].notice.DispatchedNotice?
                      && outbox[i].notice.generation == i - NoticeOffset(job) + 1
                      && outbox[i].stream == JobStream(job.jobType, job.lane)
                      && (outbox[i].state == Published <==> outbox[i].notice.lease.None?))
    && (IsLeased(job.status) ==>
          && job.generation > 0
          && var last := outbox[|outbox| - 1]; last.state != Published ==> last.notice.lease == job.leaseHash)
  }

  /** Nothing but lease, queue time, priority, status and progress fields may differ. */
  predicate SameIdentity(job: Job, job': Job) {
    && job'.user == job.user && job'.source == job.source && job'.jobType == job.jobType && job'.lane == job.lane
    && job'.basePriority == job.basePriority && job'.createdAt == job.createdAt && job'.key == job.key
    && job'.maxAttempts == job.maxAttempts && job'.policy == job.policy && job'.payload == job.payload
  }

  ghost predicate Sound(d: Dossier) {
    && StatusSound(d.job)
    && AttemptsSound(d.job, d.attempts)
    && EventsSound(d.job, d.events)
    && RowsSound(d.job, d.reservations, d.usage)
    && FilesSound(d.job, d.files, d.reservations)
    && OutboxSound(d.job, d.outbox)
  }

  // ---------------------------------------------------------------- events

  /** A logged move extends a connected path. */
  lemma MoveConnects(d: Dossier, to: Status)
    requires Connected(d.events) && LastStatus(d.events) == d.job.status
    requires TransitionAllowed(d.job.status, to)
    ensures var moved := Move(d, to).value; Connected(moved.events) && LastStatus(moved.events) == to
  {
  }

  // ---------------------------------------------------------------- admission and children

  lemma SpecificationsShaped(user: UserId, plan: Plan, bytes: int, now: int)
    requires bytes > 0
    ensures var specs := Specifications(user, plan, bytes, now);
            && (forall i :: 0 <= i < |specs| ==>
                  && specs[i].key.user == user
                  && specs[i].key.window == QuotaWindow(specs[i].key.window.kind, now)
                  && specs[i].amount == (if specs[i].key.dimension == JobCount then 1 else bytes)
                  && (match specs[i].key.dimension
                      case Ingress => specs[i].key.window.kind != Lifetime
                      case JobCount => specs[i].key.window.kind == Daily
                      case Storage => specs[i].key.window.kind == Lifetime))
            && (forall i, j :: 0 <= i < j < |specs| ==> specs[i].key != specs[j].key)
  {
  }

  lemma FreshRowsSound(job: Job, specs: seq<Specification>, rows: seq<Reservation>, now: int)
    requires job.source != Internal && job.status == Queued && job.createdAt == now
    requires job.bytesTransferred == 0
    requires |rows| == |specs|
    requires forall i :: 0 <= i < |specs| ==>
               && rows[i] == Reservation(specs[i].key, specs[i].amount, 0, Active, now + HOLD)
               && RowKeyed(job, rows[i]) && RowCovers(job, rows[i]) && specs[i].amount > 0
    requires forall i, j :: 0 <= i < j < |specs| ==> specs[i].key != specs[j].key
    requires forall i, j :: 0 <= i < |specs| && 0 <= j < |specs|
                            && specs[i].key.dimension != JobCount && specs[j].key.dimension != JobCount ==>
                              specs[i].amount == specs[j].amount
    ensures RowsSound(job, rows, [])
  {
    OpenRowsHaveNoRecords(rows);
  }

  /** The dossier that admission creates is sound. */
  lemma AdmittedSound(store: Store, req: Intake, settings: IntakeSettings, plan: Option<Plan>, now: int)
    requires !KeyUsed(store.jobs, req.key) && Admit(store, req, settings, plan, now).Ok?
    requires req.source != Internal && IsDownload(req.jobType)
    ensures var admitted := Admit(store, req, settings, plan, now).value;
            && |admitted.jobs| == |store.jobs| + 1
            && admitted.jobs[..|store.jobs|] == store.jobs
            && Sound(admitted.jobs[|store.jobs|])
            && admitted.jobs[|store.jobs|].job.key == req.key
            && SameBackdrop(store.buckets, [], admitted.buckets, admitted.jobs[|store.jobs|].reservations)
            && (WithinLimits(store.buckets) ==> WithinLimits(admitted.buckets))
  {
    var specs := Specifications(req.user, plan.value, req.estimatedBytes, now);
    var rows := ReserveRows(store.buckets, specs, now).value.rows;
    ReserveEffect(store.buckets, specs, now);
    AdmittedRowsSound(req, plan.value, rows, now);
    AdmittedJobSound(req, plan.value, rows, now);
  }

  lemma AdmittedRowsSound(req: Intake, plan: Plan, rows: seq<Reservation>, now: int)
    requires req.source != Internal && req.estimatedBytes > 0
    requires var specs := Specifications(req.user, plan, req.estimatedBytes, now);
             && |rows| == |specs|
             && forall i :: 0 <= i < |specs| ==>
                  rows[i] == Reservation(specs[i].key, specs[i].amount, 0, Active, now + HOLD)
    ensures RowsSound(NewJob(req, plan, now), rows, [])
  {
    SpecificationsShaped(req.user, plan, req.estimatedBytes, now);
    FreshRowsSound(NewJob(req, plan, now), Specifications(req.user, plan, req.estimatedBytes, now), rows, now);
  }

  lemma AdmittedJobSound(req: Intake, plan: Plan, rows: seq<Reservation>, now: int)
    requires req.source != Internal && IsDownload(req.jobType) && plan.queuePriority >= 0
    requires RowsSound(NewJob(req, plan, now), rows, [])
    ensures Sound(Dossier(NewJob(req, plan, now), [JobEvent(None, Queued)], [], rows, [], [],
                          [OutboxEvent(Admitted, AdmissionStream, Unsent, 0, now, None)]))
  {
    FilesOpen(NewJob(req, plan, now), [], rows);
    NewJobSound(req, plan, now);
    Assemble(Dossier(NewJob(req, plan, now), [JobEvent(None, Queued)], [], rows, [], [],
                     [OutboxEvent(Admitted, AdmissionStream, Unsent, 0, now, None)]));
  }

  lemma NewJobSound(req: Intake, plan: Plan, now: int)
    requires req.source != Internal && IsDownload(req.jobType) && plan.queuePriority >= 0
    ensures var job := NewJob(req, plan, now);
            && StatusSound(job) && AttemptsSound(job, []) && EventsSound(job, [JobEvent(None, Queued)])
            && OutboxSound(job, [OutboxEvent(Admitted, AdmissionStream, Unsent, 0, now, None)])
  {
  }

  lemma ChildSound(parent: Job, jobType: JobType, key: IdempotencyKey, file: FileId, size: nat, now: int)
    requires parent.basePriority >= 0 && parent.lane == LaneOf(parent.basePriority) && !IsDownload(jobType)
    ensures Sound(ChildJob(parent, jobType, key, file, size, now))
  {
  }

  // ---------------------------------------------------------------- reconcile

  lemma ShapedRowsClear(job: Job, rows: seq<Reservation>)
    requires RowsShaped(job, rows)
    ensures ConsumptionsClear(rows)
  {
    forall i | 0 <= i < |rows| && rows[i].state == Active
      ensures rows[i].consumed == 0
    {
      assert Accounted(rows[i]);
    }
  }

  ghost predicate ChargedAs(rows: seq<Reservation>, actual: int, success: bool) {
    forall i :: 0 <= i < |rows| ==> rows[i].consumed == Charge(rows[i].bucket.dimension, actual, success)
  }

  /** Closing the open reservations of a job whose row was just moved to an end state. */
  lemma ReconcileSound(buckets: Buckets, job: Job, d: Dossier, actual: nat, success: bool, posting: Posting)
    requires Reconcile(buckets, d, actual, success) == Ok(posting)
    requires RowsShaped(job, d.reservations) && SameIdentity(job, d.job)
    requires AllActive(d.reservations) && d.usage == []
    requires !IsActive(d.job.status)
    ensures posting.dossier == d.(reservations := posting.dossier.reservations, usage := posting.dossier.usage)
    ensures RowsSound(d.job, posting.dossier.reservations, posting.dossier.usage)
    ensures AllClosed(posting.dossier.reservations)
    ensures ChargedAs(posting.dossier.reservations, actual, success)
    ensures SameBackdrop(buckets, d.reservations, posting.buckets, posting.dossier.reservations)
    ensures WithinLimits(buckets) ==> WithinLimits(posting.buckets)
  {
    ShapedRowsClear(job, d.reservations);
    SettleEffect(buckets, d.reservations, actual, success);
    var s := SettleRows(buckets, d.reservations, actual, success).value;
    ReconcilePosts(buckets, d, actual, success, s);
    ClosedRowsSound(buckets, job, d, actual, success, s);
  }

  lemma ClosedRowsSound(buckets: Buckets, job: Job, d: Dossier, actual: nat, success: bool, s: Settlement)
    requires SettleRows(buckets, d.reservations, actual, success) == Ok(s)
    requires RowsShaped(job, d.reservations) && SameIdentity(job, d.job)
    requires AllActive(d.reservations) && !IsActive(d.job.status) && ConsumptionsClear(d.reservations)
    ensures RowsSound(d.job, s.rows, s.records) && AllClosed(s.rows)
    ensures ChargedAs(s.rows, actual, success)
  {
    SettleEffect(buckets, d.reservations, actual, success);
    SettleRecords(buckets, d.reservations, actual, success);
    ClosedShaped(job, d.job, d.reservations, s.rows, actual, success);
  }

  lemma ReconcilePosts(buckets: Buckets, d: Dossier, actual: int, success: bool, s: Settlement)
    requires SettleRows(buckets, d.reservations, actual, success) == Ok(s) && d.usage == []
    ensures Reconcile(buckets, d, actual, success)
            == Ok(Posting(s.buckets, d.(reservations := s.rows, usage := s.records)))
  {
    assert [] + s.records == s.records;
  }

  lemma ClosedShaped(job: Job, job': Job, rows: seq<Reservation>, closed: seq<Reservation>, actual: nat, success: bool)
    requires RowsShaped(job, rows) && AllActive(rows) && SameIdentity(job, job')
    requires |closed| == |rows|
    requires forall i :: 0 <= i < |rows| ==>
               && closed[i] == Finalised(rows[i], Charge(rows[i].bucket.dimension, actual, success))
               && Charge(rows[i].bucket.dimension, actual, success) <= rows[i].amount
    ensures RowsShaped(job', closed) && AllClosed(closed)
    ensures ChargedAs(closed, actual, success)
  {
    forall i | 0 <= i < |closed|
      ensures Accounted(closed[i]) && RowKeyed(job', closed[i]) && RowCovers(job', closed[i])
    {
      assert Accounted(rows[i]) && RowKeyed(job, rows[i]) && RowCovers(job, rows[i]);
    }
    forall i, j | 0 <= i < |closed| && 0 <= j < |closed|
      ensures SameAmount(closed[i], closed[j]) && SameFate(closed[i], closed[j])
    {
      assert SameAmount(rows[i], rows[j]) && SameFate(rows[i], rows[j]);
    }
  }

  /** Closing again what is closed already changes nothing. */
  lemma ReconcileIdle(buckets: Buckets, d: Dossier, actual: int, success: bool)
    requires AllClosed(d.reservations)
    ensures Reconcile(buckets, d, actual, success) == Ok(Posting(buckets, d))
  {
    SettleIdle(buckets, d.reservations, actual, success);
    assert d.usage + [] == d.usage;
  }

  lemma {:induction false} SettleIdle(buckets: Buckets, rows: seq<Reservation>, actual: int, success: bool)
    requires AllClosed(rows)
    ensures SettleRows(buckets, rows, actual, success) == Ok(Settlement(buckets, rows, []))
  {
    if rows != [] {
      SettleIdle(buckets, rows[1..], actual, success);
      assert [rows[0]] + rows[1..] == rows;
      assert rows[0].state != Active;
      var none: seq<UsageRecord> := [];
      assert none + none == none;
    }
  }

  // ---------------------------------------------------------------- what a job row change leaves intact

  lemma AttemptsCarryOver(job: Job, job': Job, attempts: seq<Attempt>)
    requires AttemptsSound(job, attempts)
    requires job'.attemptCount == job.attemptCount && job'.generation == job.generation
    requires job'.status == job.status || (job'.status != Dispatched && !IsRunning(job'.status))
    ensures AttemptsSound(job', attempts)
  {
  }

  lemma RowsCarryOver(job: Job, job': Job, rows: seq<Reservation>)
    requires RowsShaped(job, rows) && SameIdentity(job, job')
    requires job'.totalBytes == job.totalBytes
    requires job'.bytesTransferred == job.bytesTransferred || AllClosed(rows)
             || job'.bytesTransferred <= job.totalBytes.GetOr<nat>(0)
    ensures RowsShaped(job', rows)
  {
    forall i | 0 <= i < |rows|
      ensures Accounted(rows[i]) && RowKeyed(job', rows[i]) && RowCovers(job', rows[i])
    {
      assert Accounted(rows[i]) && RowKeyed(job, rows[i]) && RowCovers(job, rows[i]);
    }
  }

  lemma OutboxCarryOver(job: Job, job': Job, outbox: seq<OutboxEvent>)
    requires OutboxSound(job, outbox) && SameIdentity(job, job')
    requires job'.generation == job.generation
    requires IsLeased(job'.status) ==> IsLeased(job.status) && job'.leaseHash == job.leaseHash
    ensures OutboxSound(job', outbox)
  {
  }

  /** Open reservations have been charged nothing, and only a completed job has a file. */
  lemma FilesCarryOver(job: Job, job': Job, files: seq<File>, rows: seq<Reservation>)
    requires FilesSound(job, files, rows)
    requires job.status != Completed && job'.status != Completed
    ensures FilesSound(job', files, rows)
  {
  }

  lemma FilesOpen(job': Job, files: seq<File>, rows: seq<Reservation>)
    requires files == [] && job'.status != Completed
    requires AllActive(rows) && forall i :: 0 <= i < |rows| ==> Accounted(rows[i])
    ensures FilesSound(job', files, rows)
  {
  }

  /** The six parts put together. */
  lemma Assemble(d: Dossier)
    requires StatusSound(d.job) && AttemptsSound(d.job, d.attempts) && EventsSound(d.job, d.events)
    requires RowsSound(d.job, d.reservations, d.usage) && FilesSound(d.job, d.files, d.reservations)
    requires OutboxSound(d.job, d.outbox)
    ensures Sound(d)
  {
  }

  // ---------------------------------------------------------------- one job, step by step

  /** Where dispatch leaves the job row. */
  function DispatchedRow(job: Job, bonus: int, lease: Digest, expires: int): Job {
    job.(status := Dispatched, effectivePriority := job.basePriority + bonus, generation := job.generation + 1,
         leaseHash := Some(lease), leaseExpiresAt := Some(expires))
  }

  lemma DispatchJobRow(job: Job, attempts: seq<Attempt>, events: seq<JobEvent>, bonus: int, lease: Digest, expires: int)
    requires StatusSound(job) && job.status == Queued
    requires AttemptsSound(job, attempts) && EventsSound(job, events)
    ensures var job' := DispatchedRow(job, bonus, lease, expires);
            && StatusSound(job') && AttemptsSound(job', attempts)
            && EventsSound(job', events + [JobEvent(Some(Queued), Dispatched)])
  {
    EventExtends(events, Dispatched);
  }

  lemma DispatchOutbox(job: Job, outbox: seq<OutboxEvent>, bonus: int, lease: Digest, expires: int, now: int)
    requires OutboxSound(job, outbox)
    ensures var job' := DispatchedRow(job, bonus, lease, expires);
            OutboxSound(job', outbox + [OutboxEvent(DispatchedNotice(job'.generation, Some(lease)),
                                                    JobStream(job.jobType, job.lane), Unsent, 0, now, None)])
  {
  }

  /** The dispatched dossier, table by table. */
  function DispatchedDossier(d: Dossier, bonus: int, lease: Digest, expires: int, now: int): Dossier {
    d.(job := DispatchedRow(d.job, bonus, lease, expires),
       events := d.events + [JobEvent(Some(d.job.status), Dispatched)],
       outbox := d.outbox + [OutboxEvent(DispatchedNotice(d.job.generation + 1, Some(lease)),
                                         JobStream(d.job.jobType, d.job.lane), Unsent, 0, now, None)])
  }

  lemma DispatchWrites(d: Dossier, bonus: int, lease: Digest, expires: int, now: int)
    requires d.job.status == Queued
    ensures DispatchJob(d, bonus, lease, expires, now) == Ok(DispatchedDossier(d, bonus, lease, expires, now))
  {
  }

  lemma DispatchSound(d: Dossier, bonus: int, lease: Digest, expires: int, now: int)
    requires Sound(d) && d.job.status == Queued
    ensures DispatchJob(d, bonus, lease, expires, now).Ok?
    ensures var dispatched := DispatchJob(d, bonus, lease, expires, now).value;
            && Sound(dispatched)
            && dispatched.job == DispatchedRow(d.job, bonus, lease, expires)
            && dispatched.reservations == d.reservations && dispatched.attempts == d.attempts
            && dispatched.files == d.files && dispatched.usage == d.usage
            && d.events <= dispatched.events
  {
    DispatchWrites(d, bonus, lease, expires, now);
    DispatchedIsSound(d, bonus, lease, expires, now);
  }

  lemma DispatchedIsSound(d: Dossier, bonus: int, lease: Digest, expires: int, now: int)
    requires Sound(d) && d.job.status == Queued
    ensures Sound(DispatchedDossier(d, bonus, lease, expires, now))
  {
    var job := DispatchedRow(d.job, bonus, lease, expires);
    DispatchJobRow(d.job, d.attempts, d.events, bonus, lease, expires);
    DispatchOutbox(d.job, d.outbox, bonus, lease, expires, now);
    RowsCarryOver(d.job, job, d.reservations);
    FilesCarryOver(d.job, job, d.files, d.reservations);
    Assemble(DispatchedDossier(d, bonus, lease, expires, now));
  }

  lemma PublishOutbox(job: Job, outbox: seq<OutboxEvent>, index: nat, delivery: Option<MessageId>, now: int)
    requires OutboxSound(job, outbox) && index < |outbox| && Publishable(outbox[index], now)
    ensures OutboxSound(job, outbox[index := PublishEvent(outbox[index], delivery, now)])
  {
  }

  lemma PublishSound(d: Dossier, index: nat, delivery: Option<MessageId>, now: int)
    requires Sound(d) && index < |d.outbox| && Publishable(d.outbox[index], now)
    ensures Sound(d.(outbox := d.outbox[index := PublishEvent(d.outbox[index], delivery, now)]))
  {
    PublishOutbox(d.job, d.outbox, index, delivery, now);
  }

  /** Where recovery leaves the job row. */
  function Recovered(job: Job, now: int): Job {
    if job.attemptCount >= job.maxAttempts
    then job.(status := DeadLetter, leaseHash := None, leaseExpiresAt := None)
    else job.(status := Queued, queuedAt := now, leaseHash := None, leaseExpiresAt := None)
  }

  /** Recovery never meets the trigger: it writes two allowed statuses and logs both. */
  lemma RecoverShape(d: Dossier, now: int)
    requires StatusSound(d.job) && IsLeased(d.job.status)
    ensures RecoverJob(d, now) ==
            Ok(d.(job := Recovered(d.job, now),
                  events := d.events + [JobEvent(Some(d.job.status), Failed)]
                            + [JobEvent(Some(Failed), Recovered(d.job, now).status)]))
  {
  }

  lemma RecoverJobRow(job: Job, events: seq<JobEvent>, now: int)
    requires StatusSound(job) && IsLeased(job.status) && EventsSound(job, events)
    ensures StatusSound(Recovered(job, now))
    ensures EventsSound(Recovered(job, now),
                        events + [JobEvent(Some(job.status), Failed)]
                        + [JobEvent(Some(Failed), Recovered(job, now).status)])
  {
    var failed := events + [JobEvent(Some(job.status), Failed)];
    EventExtends(events, Failed);
    EventExtends(failed, Recovered(job, now).status);
  }

  lemma EventExtends(events: seq<JobEvent>, to: Status)
    requires Connected(events) && TransitionAllowed(LastStatus(events), to)
    ensures var longer := events + [JobEvent(Some(LastStatus(events)), to)];
            Connected(longer) && LastStatus(longer) == to
  {
  }

  lemma RecoverSound(d: Dossier, now: int)
    requires Sound(d) && IsLeased(d.job.status)
    ensures RecoverJob(d, now).Ok?
    ensures Sound(RecoverJob(d, now).value)
  {
    var job := Recovered(d.job, now);
    RecoverShape(d, now);
    RecoverJobRow(d.job, d.events, now);
    AttemptsCarryOver(d.job, job, d.attempts);
    RowsCarryOver(d.job, job, d.reservations);
    FilesCarryOver(d.job, job, d.files, d.reservations);
    OutboxCarryOver(d.job, job, d.outbox);
    Assemble(RecoverJob(d, now).value);
  }

  lemma TouchShaped(job: Job, rows: seq<Reservation>, touched: seq<Reservation>, now: int)
    requires RowsShaped(job, rows)
    requires |touched| == |rows| && forall i :: 0 <= i < |rows| ==> touched[i] == TouchRow(rows[i], now)
    ensures RowsShaped(job, touched)
  {
    forall i | 0 <= i < |touched|
      ensures Accounted(touched[i]) && RowKeyed(job, touched[i]) && RowCovers(job, touched[i])
    {
      assert Accounted(rows[i]) && RowKeyed(job, rows[i]) && RowCovers(job, rows[i]);
    }
    forall i, j | 0 <= i < |touched| && 0 <= j < |touched|
      ensures SameAmount(touched[i], touched[j]) && SameFate(touched[i], touched[j])
    {
      assert SameAmount(rows[i], rows[j]) && SameFate(rows[i], rows[j]);
    }
  }

  lemma TouchBackdrop(buckets: Buckets, rows: seq<Reservation>, now: int)
    ensures SameBackdrop(buckets, rows, buckets, TouchRows(rows, now))
  {
    forall key {
      TouchAmounts(rows, now, key);
    }
  }

  lemma TouchedRows(job: Job, rows: seq<Reservation>, usage: seq<UsageRecord>, touched: seq<Reservation>, now: int)
    requires RowsSound(job, rows, usage) && touched == TouchRows(rows, now)
    ensures RowsSound(job, touched, usage)
  {
    TouchAmounts(rows, now, BucketKey(0, Ingress, QuotaWindow(Daily, 0)));
    TouchShaped(job, rows, touched, now);
  }

  lemma TouchSound(buckets: Buckets, d: Dossier, now: int)
    requires Sound(d)
    ensures Sound(Touch(d, now))
    ensures SameBackdrop(buckets, d.reservations, buckets, Touch(d, now).reservations)
    ensures !HasExpiredHold(Touch(d, now), now)
  {
    TouchBackdrop(buckets, d.reservations, now);
    TouchedRows(d.job, d.reservations, d.usage, TouchRows(d.reservations, now), now);
  }

  lemma ToppedShaped(job: Job, rows: seq<Reservation>, topped: seq<Reservation>, required: nat)
    requires RowsShaped(job, rows) && AllActive(rows) && required > job.totalBytes.GetOr<nat>(0)
    requires |topped| == |rows|
    requires forall i :: 0 <= i < |rows| ==>
               topped[i] == if Extendable(rows[i], required) then rows[i].(amount := required) else rows[i]
    ensures RowsShaped(job.(totalBytes := Some(required)), topped) && AllActive(topped)
  {
    var extended := job.(totalBytes := Some(required));
    forall i | 0 <= i < |topped|
      ensures Accounted(topped[i]) && RowKeyed(extended, topped[i]) && RowCovers(extended, topped[i])
    {
      assert Accounted(rows[i]) && RowKeyed(job, rows[i]) && RowCovers(job, rows[i]);
    }
    forall i, j | 0 <= i < |topped| && 0 <= j < |topped|
      ensures SameAmount(topped[i], topped[j]) && SameFate(topped[i], topped[j])
    {
      assert SameAmount(rows[i], rows[j]) && SameFate(rows[i], rows[j]);
    }
  }

  lemma TopUpSound(buckets: Buckets, d: Dossier, required: nat)
    requires Sound(d) && IsRunning(d.job.status)
    requires TopUp(buckets, d, required).Ok?
    requires required > d.job.totalBytes.GetOr<nat>(0)
    ensures var posting := TopUp(buckets, d, required).value;
            && Sound(posting.dossier)
            && posting.dossier.job == d.job.(totalBytes := Some(required))
            && SameBackdrop(buckets, d.reservations, posting.buckets, posting.dossier.reservations)
            && (WithinLimits(buckets) ==> WithinLimits(posting.buckets))
  {
    var rows := TopUpRows(buckets, d.reservations, required).value.rows;
    TopUpEffect(buckets, d.reservations, required);
    ToppedShaped(d.job, d.reservations, rows, required);
    OpenRowsHaveNoRecords(d.reservations);
    OpenRowsHaveNoRecords(rows);
    var job := d.job.(totalBytes := Some(required));
    AttemptsCarryOver(d.job, job, d.attempts);
    FilesOpen(job, d.files, rows);
    OutboxCarryOver(d.job, job, d.outbox);
    Assemble(TopUp(buckets, d, required).value.dossier);
  }

  // ---------------------------------------------------------------- claim and heartbeat

  function ClaimedRow(job: Job, now: int): Job {
    job.(status := RunningState(job.jobType), attemptCount := job.attemptCount + 1, leaseExpiresAt := Some(now + LEASE))
  }

  lemma ClaimJobRow(job: Job, attempts: seq<Attempt>, events: seq<JobEvent>, now: int)
    requires StatusSound(job) && job.status == Dispatched
    requires AttemptsSound(job, attempts) && EventsSound(job, events)
    ensures var job' := ClaimedRow(job, now);
            && StatusSound(job')
            && AttemptsSound(job', attempts + [Attempt(job.attemptCount + 1, job.generation)])
            && EventsSound(job', events + [JobEvent(Some(Dispatched), job'.status)])
  {
  }

  lemma ClaimSound(d: Dossier, now: int)
    requires Sound(d) && d.job.status == Dispatched
    ensures var claimed := d.(job := ClaimedRow(d.job, now),
                              attempts := d.attempts + [Attempt(d.job.attemptCount + 1, d.job.generation)],
                              events := d.events + [JobEvent(Some(Dispatched), RunningState(d.job.jobType))]);
            Sound(claimed)
  {
    var job := ClaimedRow(d.job, now);
    ClaimJobRow(d.job, d.attempts, d.events, now);
    RowsCarryOver(d.job, job, d.reservations);
    FilesCarryOver(d.job, job, d.files, d.reservations);
    OutboxCarryOver(d.job, job, d.outbox);
  }

  /** Extending the lease and recording progress within the declared size. */
  lemma ProgressSound(d: Dossier, expires: int, percent: int, bytes: nat)
    requires Sound(d) && IsRunning(d.job.status) && 0 <= percent <= 100
    requires bytes == d.job.bytesTransferred || bytes <= d.job.totalBytes.GetOr<nat>(0)
    ensures Sound(d.(job := d.job.(leaseExpiresAt := Some(expires), progressPercent := percent,
                                   bytesTransferred := bytes)))
  {
    var job := d.job.(leaseExpiresAt := Some(expires), progressPercent := percent, bytesTransferred := bytes);
    AttemptsCarryOver(d.job, job, d.attempts);
    RowsCarryOver(d.job, job, d.reservations);
    FilesCarryOver(d.job, job, d.files, d.reservations);
    OutboxCarryOver(d.job, job, d.outbox);
  }

  // ---------------------------------------------------------------- endings

  predicate Ended(status: Status) {
    status == Completed || status == Failed || status == Expired || status == DeadLetter
  }

  /** While a job is active nothing has been consumed, recorded or stored for it. */
  lemma ActiveIsOpen(d: Dossier)
    requires Sound(d) && (IsActive(d.job.status) || (d.job.status == DeadLetter && AllActive(d.reservations)))
    ensures AllActive(d.reservations) && d.usage == [] && d.files == []
  {
    OpenRowsHaveNoRecords(d.reservations);
  }

  /** A job whose row was moved to an end state without a file, with its open reservations
      reconciled. */
  lemma EndSound(buckets: Buckets, job: Job, d: Dossier, actual: nat, posting: Posting)
    requires AttemptsSound(job, d.attempts) && OutboxSound(job, d.outbox) && RowsShaped(job, d.reservations)
    requires AllActive(d.reservations) && d.usage == [] && d.files == []
    requires SameIdentity(job, d.job) && d.job.generation == job.generation && d.job.attemptCount == job.attemptCount
    requires StatusSound(d.job) && EventsSound(d.job, d.events)
    requires Ended(d.job.status) && d.job.status != Completed
    requires Reconcile(buckets, d, actual, false) == Ok(posting)
    ensures Sound(posting.dossier) && posting.dossier.job == d.job
    ensures AllClosed(posting.dossier.reservations)
    ensures SameBackdrop(buckets, d.reservations, posting.buckets, posting.dossier.reservations)
    ensures WithinLimits(buckets) ==> WithinLimits(posting.buckets)
  {
    ReconcileSound(buckets, job, d, actual, false, posting);
    EndPosted(job, d, actual, posting.dossier);
  }

  lemma EndPosted(job: Job, d: Dossier, actual: nat, closed: Dossier)
    requires AttemptsSound(job, d.attempts) && OutboxSound(job, d.outbox) && d.files == []
    requires SameIdentity(job, d.job) && d.job.generation == job.generation && d.job.attemptCount == job.attemptCount
    requires StatusSound(d.job) && EventsSound(d.job, d.events)
    requires Ended(d.job.status) && d.job.status != Completed
    requires closed == d.(reservations := closed.reservations, usage := closed.usage)
    requires RowsSound(d.job, closed.reservations, closed.usage)
    requires ChargedAs(closed.reservations, actual, false)
    ensures Sound(closed) && closed.job == d.job
  {
    EndFiles(d.job, d.files, closed.reservations, actual);
    EndAssembled(job, d, closed.reservations, closed.usage);
  }

  lemma EndAssembled(job: Job, d: Dossier, rows: seq<Reservation>, usage: seq<UsageRecord>)
    requires AttemptsSound(job, d.attempts) && OutboxSound(job, d.outbox)
    requires SameIdentity(job, d.job) && d.job.generation == job.generation && d.job.attemptCount == job.attemptCount
    requires StatusSound(d.job) && EventsSound(d.job, d.events) && Ended(d.job.status)
    requires RowsSound(d.job, rows, usage) && FilesSound(d.job, d.files, rows)
    ensures Sound(d.(reservations := rows, usage := usage))
  {
    AttemptsCarryOver(job, d.job, d.attempts);
    OutboxCarryOver(job, d.job, d.outbox);
    Assemble(d.(reservations := rows, usage := usage));
  }

  lemma EndFiles(job: Job, files: seq<File>, rows: seq<Reservation>, actual: nat)
    requires files == [] && job.status != Completed
    requires ChargedAs(rows, actual, false)
    ensures FilesSound(job, files, rows)
  {
  }

  lemma FailedRow(job: Job, events: seq<JobEvent>, bytes: nat)
    requires StatusSound(job) && EventsSound(job, events)
    requires IsLeased(job.status)
    ensures var job' := job.(status := Failed, bytesTransferred := bytes);
            StatusSound(job') && EventsSound(job', events + [JobEvent(Some(job.status), Failed)])
  {
  }

  /** `_fail_locked` on a leased job. */
  lemma FailSound(store: Store, id: JobId, actual: nat)
    requires id < |store.jobs| && Sound(store.jobs[id]) && IsLeased(store.jobs[id].job.status)
    requires FailLocked(store, id, actual).Ok?
    ensures var failed := FailLocked(store, id, actual).value;
            && failed.jobs == store.jobs[id := failed.jobs[id]]
            && Sound(failed.jobs[id]) && failed.jobs[id].job.status == Failed
            && SameIdentity(store.jobs[id].job, failed.jobs[id].job)
            && SameBackdrop(store.buckets, store.jobs[id].reservations, failed.buckets, failed.jobs[id].reservations)
            && (WithinLimits(store.buckets) ==> WithinLimits(failed.buckets))
  {
    var d := store.jobs[id];
    var bytes := Max(d.job.bytesTransferred, actual);
    FailedRow(d.job, d.events, bytes);
    ActiveIsOpen(d);
    var failed := d.(job := d.job.(status := Failed, bytesTransferred := bytes),
                     events := d.events + [JobEvent(Some(d.job.status), Failed)]);
    EndSound(store.buckets, d.job, failed, actual, Reconcile(store.buckets, failed, actual, false).value);
  }

  // ---------------------------------------------------------------- completions

  predicate PathAllowed(from: Status, path: seq<Status>)
    decreases |path|
  {
    path == [] || (TransitionAllowed(from, path[0]) && PathAllowed(path[0], path[1..]))
  }

  /** Logged moves along a path the trigger allows all succeed and touch nothing else. */
  lemma {:induction false} MoveAlongShape(d: Dossier, path: seq<Status>)
    requires PathAllowed(d.job.status, path)
    ensures MoveAlong(d, path).Ok?
    ensures var moved := MoveAlong(d, path).value;
            && moved == d.(job := d.job.(status := if path == [] then d.job.status else path[|path| - 1]),
                           events := moved.events)
            && d.events <= moved.events
    decreases |path|
  {
    if path != [] {
      MoveAlongShape(Move(d, path[0]).value, path[1..]);
    }
  }

  lemma FinishMediaShape(d: Dossier, size: nat)
    requires d.job.status == Processing
    ensures FinishMedia(d, size).Ok?
    ensures var done := FinishMedia(d, size).value;
            && done == d.(job := d.job.(status := Completed, resultSize := None, progressPercent := 100,
                                        bytesTransferred := size),
                          events := done.events)
            && d.events <= done.events
  {
    CompletionPathsAllowed();
    MoveAlongShape(d, MEDIA_PATH);
  }

  /** Logged moves along such a path keep the events connected. */
  lemma {:induction false} MoveAlongConnects(d: Dossier, path: seq<Status>)
    requires Connected(d.events) && LastStatus(d.events) == d.job.status
    requires PathAllowed(d.job.status, path)
    ensures MoveAlong(d, path).Ok?
    ensures var moved := MoveAlong(d, path).value;
            && moved == d.(job := d.job.(status := if path == [] then d.job.status else path[|path| - 1]),
                           events := moved.events)
            && Connected(moved.events) && LastStatus(moved.events) == moved.job.status
            && d.events <= moved.events
    decreases |path|
  {
    if path != [] {
      MoveConnects(d, path[0]);
      MoveAlongConnects(Move(d, path[0]).value, path[1..]);
    }
  }

  /** Neither completion path meets the trigger, from the running status of its job type. */
  lemma CompletionPathsAllowed()
    ensures PathAllowed(Downloading, DOWNLOAD_PATH) && PathAllowed(Receiving, DOWNLOAD_PATH)
    ensures PathAllowed(Processing, MEDIA_PATH)
  {
    assert DOWNLOAD_PATH[1..] == [Processing, GeneratingLink, Completed];
    assert DOWNLOAD_PATH[1..][1..] == MEDIA_PATH;
    assert MEDIA_PATH[1..] == [Completed];
    assert MEDIA_PATH[1..][1..] == [];
  }

  lemma FinishedDownloadRow(job: Job, events: seq<JobEvent>, size: nat)
    requires StatusSound(job) && IsRunning(job.status) && IsDownload(job.jobType)
    requires Connected(events) && LastStatus(events) == Completed
    ensures var job' := job.(status := Completed, resultSize := Some(size), progressPercent := 100);
            StatusSound(job') && EventsSound(job', events)
  {
  }

  lemma FinishedFiles(job: Job, file: File, rows: seq<Reservation>)
    requires job.status == Completed && IsDownload(job.jobType)
    requires file.owner == job.user && job.resultSize == Some(file.size)
    requires ChargedAs(rows, file.size, true)
    ensures FilesSound(job, [file], rows)
  {
  }

  /** A download whose moves succeeded, with its file added and its reservations charged. */
  lemma DoneSound(buckets: Buckets, job: Job, d: Dossier, file: File)
    requires AttemptsSound(job, d.attempts) && OutboxSound(job, d.outbox) && RowsShaped(job, d.reservations)
    requires AllActive(d.reservations) && d.usage == [] && d.files == [file]
    requires SameIdentity(job, d.job) && d.job.generation == job.generation && d.job.attemptCount == job.attemptCount
    requires StatusSound(d.job) && EventsSound(d.job, d.events)
    requires d.job.status == Completed && IsDownload(d.job.jobType)
    requires file.owner == d.job.user && d.job.resultSize == Some(file.size)
    requires Reconcile(buckets, d, file.size, true).Ok?
    ensures var posting := Reconcile(buckets, d, file.size, true).value;
            && Sound(posting.dossier) && posting.dossier.job == d.job
            && SameBackdrop(buckets, d.reservations, posting.buckets, posting.dossier.reservations)
            && (WithinLimits(buckets) ==> WithinLimits(posting.buckets))
  {
    ReconcileSound(buckets, job, d, file.size, true, Reconcile(buckets, d, file.size, true).value);
    DoneParts(job, d, file, Reconcile(buckets, d, file.size, true).value.dossier.reservations);
    Assemble(Reconcile(buckets, d, file.size, true).value.dossier);
  }

  lemma DoneParts(job: Job, d: Dossier, file: File, rows: seq<Reservation>)
    requires AttemptsSound(job, d.attempts) && OutboxSound(job, d.outbox)
    requires SameIdentity(job, d.job) && d.job.generation == job.generation && d.job.attemptCount == job.attemptCount
    requires d.job.status == Completed && IsDownload(d.job.jobType)
    requires file.owner == d.job.user && d.job.resultSize == Some(file.size)
    requires ChargedAs(rows, file.size, true)
    ensures AttemptsSound(d.job, d.attempts) && OutboxSound(d.job, d.outbox) && FilesSound(d.job, [file], rows)
  {
    AttemptsCarryOver(job, d.job, d.attempts);
    OutboxCarryOver(job, d.job, d.outbox);
    FinishedFiles(d.job, file, rows);
  }

  lemma StoreDownloadRow(d: Dossier, size: nat, now: int)
    requires d.job.status == Downloading || d.job.status == Receiving
    ensures StoreDownload(d, size, now).Ok?
    ensures var stored := StoreDownload(d, size, now).value;
            && stored == d.(job := d.job.(status := Completed, resultSize := Some(size), progressPercent := 100),
                            events := stored.events, files := stored.files)
            && |stored.files| == |d.files| + 1 && stored.files[..|d.files|] == d.files
            && stored.files[|d.files|].size == size && stored.files[|d.files|].owner == d.job.user
            && stored.events == MoveAlong(d, DOWNLOAD_PATH).value.events
            && d.events <= stored.events
  {
    CompletionPathsAllowed();
    MoveAlongShape(d, DOWNLOAD_PATH);
  }

  lemma StoreDownloadEvents(d: Dossier, size: nat, now: int)
    requires d.job.status == Downloading || d.job.status == Receiving
    requires Connected(d.events) && LastStatus(d.events) == d.job.status
    ensures StoreDownload(d, size, now).Ok?
    ensures var events := StoreDownload(d, size, now).value.events; Connected(events) && LastStatus(events) == Completed
  {
    CompletionPathsAllowed();
    MoveAlongConnects(d, DOWNLOAD_PATH);
  }

  lemma StoreDownloadShape(d: Dossier, size: nat, now: int)
    requires StatusSound(d.job) && EventsSound(d.job, d.events) && d.files == []
    requires IsDownload(d.job.jobType) && IsRunning(d.job.status)
    ensures StoreDownload(d, size, now).Ok?
    ensures var stored := StoreDownload(d, size, now).value;
            && stored == d.(job := d.job.(status := Completed, resultSize := Some(size), progressPercent := 100),
                            events := stored.events, files := stored.files)
            && |stored.files| == 1 && stored.files == [stored.files[0]]
            && stored.files[0].size == size && stored.files[0].owner == d.job.user
            && StatusSound(stored.job) && EventsSound(stored.job, stored.events)
  {
    StoreDownloadRow(d, size, now);
    StoreDownloadEvents(d, size, now);
    FinishedDownloadRow(d.job, StoreDownload(d, size, now).value.events, size);
  }

  lemma FinishDownloadSound(buckets: Buckets, d: Dossier, size: nat, now: int)
    requires Sound(d) && IsDownload(d.job.jobType) && IsRunning(d.job.status)
    requires FinishDownload(buckets, d, size, now).Ok?
    ensures var posting := FinishDownload(buckets, d, size, now).value;
            && Sound(posting.dossier) && posting.dossier.job.status == Completed
            && SameIdentity(d.job, posting.dossier.job)
            && SameBackdrop(buckets, d.reservations, posting.buckets, posting.dossier.reservations)
            && (WithinLimits(buckets) ==> WithinLimits(posting.buckets))
  {
    ActiveIsOpen(d);
    StoreDownloadShape(d, size, now);
    var stored := StoreDownload(d, size, now).value;
    DoneSound(buckets, d.job, stored, stored.files[0]);
  }

  /** A child job ends without reservations to close. */
  lemma ChildEndSound(d: Dossier, job: Job, events: seq<JobEvent>)
    requires Sound(d) && d.job.source == Internal && IsRunning(d.job.status)
    requires SameIdentity(d.job, job) && job.generation == d.job.generation && job.attemptCount == d.job.attemptCount
    requires job.status == Completed && 0 <= job.progressPercent <= 100
    requires EventsSound(job, events)
    ensures Sound(d.(job := job, events := events))
  {
    AttemptsCarryOver(d.job, job, d.attempts);
    OutboxCarryOver(d.job, job, d.outbox);
  }

  lemma FinishMediaSound(d: Dossier, size: nat)
    requires Sound(d) && d.job.jobType == MediaProcess && IsRunning(d.job.status)
    ensures FinishMedia(d, size).Ok?
    ensures Sound(FinishMedia(d, size).value)
    ensures var done := FinishMedia(d, size).value;
            done.job.status == Completed && SameIdentity(d.job, done.job) && done.reservations == d.reservations
  {
    CompletionPathsAllowed();
    MoveAlongConnects(d, MEDIA_PATH);
    var done := FinishMedia(d, size).value;
    ChildEndSound(d, done.job, done.events);
  }

  lemma FinishUploadSound(d: Dossier, size: nat)
    requires Sound(d) && d.job.jobType == TelegramUpload && IsRunning(d.job.status)
    ensures FinishUpload(d, size).Ok?
    ensures Sound(FinishUpload(d, size).value)
    ensures var done := FinishUpload(d, size).value;
            done.job.status == Completed && SameIdentity(d.job, done.job) && done.reservations == d.reservations
  {
    MoveConnects(d, Completed);
    var done := FinishUpload(d, size).value;
    ChildEndSound(d, done.job, done.events);
  }

  lemma MarkedSound(d: Dossier, index: nat, directPlay: bool)
    requires Sound(d) && index < |d.files|
    ensures Sound(d.(files := d.files[index := d.files[index].(directPlay := directPlay)]))
  {
    var marked := d.(files := d.files[index := d.files[index].(directPlay := directPlay)]);
    assert FilesSound(marked.job, marked.files, marked.reservations);
  }

  // ---------------------------------------------------------------- expiry

  /** Every open reservation of the dossier has its bucket. */
  ghost predicate Backed(buckets: Buckets, rows: seq<Reservation>) {
    forall i :: 0 <= i < |rows| && rows[i].state == Active ==> rows[i].bucket in buckets
  }

  ghost predicate StaleClosed(d: Dossier, closed: Dossier) {
    && closed == d.(job := d.job.(status := closed.job.status), events := closed.events)
    && (closed.job.status == Expired || closed.job.status == DeadLetter)
    && StatusSound(closed.job) && EventsSound(closed.job, closed.events)
    && d.events <= closed.events
  }

  lemma QueuedClosed(d: Dossier)
    requires StatusSound(d.job) && EventsSound(d.job, d.events) && d.job.status == Queued
    ensures CloseStale(d).Ok? && StaleClosed(d, CloseStale(d).value)
  {
    EventExtends(d.events, Expired);
  }

  lemma RunningClosed(d: Dossier)
    requires StatusSound(d.job) && EventsSound(d.job, d.events) && IsActive(d.job.status) && d.job.status != Queued
    ensures CloseStale(d).Ok? && StaleClosed(d, CloseStale(d).value)
  {
    var status := d.job.status;
    FailureAllowed(d.job);
    BuriedStatus(d.job);
    assert CloseStale(d) == Ok(d.(job := d.job.(status := DeadLetter),
                                  events := d.events + [JobEvent(Some(status), Failed)]));
    EventExtends(d.events, Failed);
  }

  lemma FailureAllowed(job: Job)
    requires StatusSound(job) && IsActive(job.status) && job.status != Queued
    ensures TransitionAllowed(job.status, Failed)
  {
  }

  lemma BuriedStatus(job: Job)
    requires StatusSound(job) && IsActive(job.status) && job.status != Queued
    ensures StatusSound(job.(status := DeadLetter))
  {
  }

  /** The job row and events after the status half of `reconcile_expired`. */
  lemma CloseStaleRow(d: Dossier)
    requires StatusSound(d.job) && EventsSound(d.job, d.events) && IsActive(d.job.status)
    ensures CloseStale(d).Ok? && StaleClosed(d, CloseStale(d).value)
  {
    if d.job.status == Queued {
      QueuedClosed(d);
    } else {
      RunningClosed(d);
    }
  }

  /** Open byte reservations cover what was transferred, so charging them never raises. */
  lemma OpenRowsCover(buckets: Buckets, d: Dossier, closed: Dossier)
    requires Sound(d) && Backed(buckets, d.reservations)
    requires closed.reservations == d.reservations
    ensures Reconcile(buckets, closed, d.job.bytesTransferred, false).Ok?
  {
    SettleSucceedsIff(buckets, d.reservations, d.job.bytesTransferred, false);
    forall i | 0 <= i < |d.reservations| && d.reservations[i].state == Active
      ensures Charge(d.reservations[i].bucket.dimension, d.job.bytesTransferred, false) <= d.reservations[i].amount
    {
      assert RowCovers(d.job, d.reservations[i]) && Accounted(d.reservations[i]);
    }
  }

  /** `reconcile_expired` on an active job that no worker holds. */
  lemma StaleReconciled(buckets: Buckets, d: Dossier)
    requires Sound(d) && Backed(buckets, d.reservations) && IsActive(d.job.status)
    ensures CloseStale(d).Ok?
    ensures Reconcile(buckets, CloseStale(d).value, d.job.bytesTransferred, false).Ok?
    ensures var posting := Reconcile(buckets, CloseStale(d).value, d.job.bytesTransferred, false).value;
            && Sound(posting.dossier) && SameIdentity(d.job, posting.dossier.job)
            && (posting.dossier.job.status == Expired || posting.dossier.job.status == DeadLetter)
            && AllClosed(posting.dossier.reservations)
            && SameBackdrop(buckets, d.reservations, posting.buckets, posting.dossier.reservations)
            && (WithinLimits(buckets) ==> WithinLimits(posting.buckets))
  {
    CloseStaleRow(d);
    var closed := CloseStale(d).value;
    OpenRowsCover(buckets, d, closed);
    ActiveIsOpen(d);
    EndSound(buckets, d.job, closed, d.job.bytesTransferred,
             Reconcile(buckets, closed, d.job.bytesTransferred, false).value);
  }

  /** The reservations that recovery's dead letter left open are closed later. */
  lemma DeadLetterReconciled(buckets: Buckets, d: Dossier)
    requires Sound(d) && Backed(buckets, d.reservations)
    requires d.job.status == DeadLetter && AllActive(d.reservations)
    ensures Reconcile(buckets, d, d.job.bytesTransferred, false).Ok?
    ensures var posting := Reconcile(buckets, d, d.job.bytesTransferred, false).value;
            && Sound(posting.dossier) && posting.dossier.job == d.job
            && AllClosed(posting.dossier.reservations)
            && SameBackdrop(buckets, d.reservations, posting.buckets, posting.dossier.reservations)
            && (WithinLimits(buckets) ==> WithinLimits(posting.buckets))
  {
    OpenRowsCover(buckets, d, d);
    ActiveIsOpen(d);
    EndSound(buckets, d.job, d, d.job.bytesTransferred, Reconcile(buckets, d, d.job.bytesTransferred, false).value);
  }

  lemma EndedReconciled(buckets: Buckets, d: Dossier)
    requires Sound(d) && Backed(buckets, d.reservations) && !IsActive(d.job.status)
    ensures var actual := d.job.resultSize.GetOr<nat>(d.job.bytesTransferred);
            Reconcile(buckets, d, actual, d.job.status == Completed).Ok?
    ensures var actual := d.job.resultSize.GetOr<nat>(d.job.bytesTransferred);
            var posting := Reconcile(buckets, d, actual, d.job.status == Completed).value;
            && Sound(posting.dossier) && posting.dossier.job == d.job
            && AllClosed(posting.dossier.reservations)
            && SameBackdrop(buckets, d.reservations, posting.buckets, posting.dossier.reservations)
            && (WithinLimits(buckets) ==> WithinLimits(posting.buckets))
  {
    if AllClosed(d.reservations) {
      ReconcileIdle(buckets, d, d.job.resultSize.GetOr<nat>(d.job.bytesTransferred), d.job.status == Completed);
    } else {
      DeadLetterReconciled(buckets, d);
    }
  }

  lemma ReconcileJobBranches(buckets: Buckets, d: Dossier, now: int)
    requires StatusSound(d.job)
    ensures HeldByWorker(d.job, now) ==> ReconcileJob(buckets, d, now) == Ok(Posting(buckets, Touch(d, now)))
    ensures IsActive(d.job.status) && !HeldByWorker(d.job, now) && CloseStale(d).Ok? ==>
              ReconcileJob(buckets, d, now) == Reconcile(buckets, CloseStale(d).value, d.job.bytesTransferred, false)
    ensures !IsActive(d.job.status) ==>
              ReconcileJob(buckets, d, now)
              == Reconcile(buckets, d, d.job.resultSize.GetOr<nat>(d.job.bytesTransferred), d.job.status == Completed)
  {
  }

  /** `reconcile_expired` never raises, and leaves every job it looks at either with a
      renewed hold or with nothing open. */
  lemma ReconcileJobSound(buckets: Buckets, d: Dossier, now: int)
    requires Sound(d) && Backed(buckets, d.reservations)
    ensures ReconcileJob(buckets, d, now).Ok?
    ensures var posting := ReconcileJob(buckets, d, now).value;
            && Sound(posting.dossier)
            && SameIdentity(d.job, posting.dossier.job)
            && !HasExpiredHold(posting.dossier, now)
            && SameBackdrop(buckets, d.reservations, posting.buckets, posting.dossier.reservations)
            && (WithinLimits(buckets) ==> WithinLimits(posting.buckets))
  {
    ReconcileJobBranches(buckets, d, now);
    if HeldByWorker(d.job, now) {
      TouchSound(buckets, d, now);
    } else if IsActive(d.job.status) {
      StaleReconciled(buckets, d);
    } else {
      EndedReconciled(buckets, d);
    }
  }
}
