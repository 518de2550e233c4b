/** The whole system as a state machine: one step per database transaction, in any order
    and interleaving, and the invariant that every run keeps. */
module JobSystem {
  import opened Base
  import opened QuotaLedger
  import opened JobModel
  import opened JobTotals
  import opened JobProtocol
  import opened JobInvariant
  import opened Dispatcher

  /** One transaction. Pages are the rows a query with a limit and SKIP LOCKED returned;
      leases, message ids and worker arguments are whatever the outside world supplies. */
  datatype Op =
    | Admission(req: Intake, settings: IntakeSettings, plan: Option<Plan>)
    | Dispatch(jobType: JobType, tuning: Tuning, lease: Digest, leaseSeconds: int)
    | Publication(deliveries: seq<Delivery>)
    | ClaimCall(id: JobId, generation: nat, lease: Digest, jobType: JobType)
    | HeartbeatCall(id: JobId, generation: nat, lease: Digest, progress: Option<Progress>, expected: Option<JobType>)
    | CompleteCall(id: JobId, generation: nat, lease: Digest, result: Completion, transport: Transport,
                   expected: Option<JobType>)
    | FailCall(id: JobId, generation: nat, lease: Digest, actual: nat, transport: Transport, expected: Option<JobType>)
    | Recovery(page: seq<JobId>)
    | Expiry(page: seq<JobId>)

  datatype Event = Event(now: int, op: Op)

  /** What the transaction computes; an `Err` rolls it back. */
  function Outcome(sys: System, e: Event): Result<System> {
    match e.op
    case Admission(req, settings, plan) =>
      var store :- Admit(sys.store, req, settings, plan, e.now);
      Ok(sys.(store := store))
    case Dispatch(jobType, tuning, lease, leaseSeconds) =>
      var r :- DispatchOne(sys, jobType, tuning, lease, leaseSeconds, e.now);
      Ok(r.0)
    case Publication(page) => Ok(sys.(store := PublishBatch(sys.store, page, e.now)))
    case ClaimCall(id, generation, lease, jobType) =>
      var r :- Claim(sys.store, id, generation, lease, jobType, e.now);
      Ok(sys.(store := r.0))
    case HeartbeatCall(id, generation, lease, progress, expected) =>
      var r :- Heartbeat(sys.store, id, generation, lease, progress, expected, e.now);
      Ok(sys.(store := r.0))
    case CompleteCall(id, generation, lease, result, transport, expected) =>
      var r :- Complete(sys.store, id, generation, lease, result, transport, expected, e.now);
      Ok(sys.(store := r.0))
    case FailCall(id, generation, lease, actual, transport, expected) =>
      var r :- Fail(sys.store, id, generation, lease, actual, transport, expected, e.now);
      Ok(sys.(store := r.0))
    case Recovery(page) =>
      var store :- RecoverJobs(sys.store, page, e.now);
      Ok(sys.(store := store))
    case Expiry(page) =>
      var store :- ReconcileExpired(sys.store, page, e.now);
      Ok(sys.(store := store))
  }

  function Apply(sys: System, e: Event): System {
    var outcome := Outcome(sys, e);
    if outcome.Ok? then outcome.value else sys
  }

  /** The page lists publishable rows, none twice: each still qualifies at its turn. */
  predicate PublishPage(store: Store, page: seq<Delivery>, now: int)
    decreases |page|
  {
    page == [] ||
    (&& page[0].job < |store.jobs| && page[0].index < |store.jobs[page[0].job].outbox|
     && Publishable(store.jobs[page[0].job].outbox[page[0].index], now)
     && PublishPage(PublishOne(store, page[0], now), page[1..], now))
  }

  /** The page lists jobs whose lease has run out, none twice. */
  predicate RecoveryPage(store: Store, page: seq<JobId>, now: int) {
    && (forall i :: 0 <= i < |page| ==> page[i] < |store.jobs| && LeaseExpired(store.jobs[page[i]].job, now))
    && (forall i, j :: 0 <= i < j < |page| ==> page[i] != page[j])
  }

  /** The page lists jobs with an expired open reservation, none twice. */
  predicate ExpiryPage(store: Store, page: seq<JobId>, now: int) {
    && (forall i :: 0 <= i < |page| ==> page[i] < |store.jobs| && HasExpiredHold(store.jobs[page[i]], now))
    && (forall i, j :: 0 <= i < j < |page| ==> page[i] != page[j])
  }

  /** What the callers of the services guarantee: users submit downloads only, and pages
      hold what their queries select. */
  predicate Legal(sys: System, e: Event) {
    match e.op
    case Admission(req, _, _) => req.source != Internal && IsDownload(req.jobType)
    case Publication(page) => PublishPage(sys.store, page, e.now)
    case Recovery(page) => RecoveryPage(sys.store, page, e.now)
    case Expiry(page) => ExpiryPage(sys.store, page, e.now)
    case _ => true
  }

  predicate LegalRun(sys: System, run: seq<Event>)
    decreases |run|
  {
    run == [] || (Legal(sys, run[0]) && LegalRun(Apply(sys, run[0]), run[1..]))
  }

  function Exec(sys: System, run: seq<Event>): System
    decreases |run|
  {
    if run == [] then sys else Exec(Apply(sys, run[0]), run[1..])
  }

  const EMPTY := System(Store([], map[]), map[])

  // ---------------------------------------------------------------- the invariant

  /** The bucket table is the sum of all reservations. */
  ghost predicate Balanced(store: Store) {
    forall key ::
      && ReservedAt(store.buckets, key) == Total(store.jobs, OpenIn(key))
      && CommittedAt(store.buckets, key) == Total(store.jobs, SpentIn(key))
  }

  ghost predicate AllSound(jobs: seq<Dossier>) {
    forall i {:trigger Sound(jobs[i])} :: 0 <= i < |jobs| ==> Sound(jobs[i])
  }

  ghost predicate KeysUnique(jobs: seq<Dossier>) {
    forall i, j :: 0 <= i < j < |jobs| ==> jobs[i].job.key != jobs[j].job.key
  }

  ghost predicate Inv(store: Store) {
    AllSound(store.jobs) && KeysUnique(store.jobs) && Balanced(store) && WithinLimits(store.buckets)
  }

  /** Replacing one dossier keeps the books as long as the buckets moved with its rows. */
  lemma ReplaceKeeps(store: Store, id: JobId, d: Dossier, buckets: Buckets)
    requires Inv(store) && id < |store.jobs|
    requires Sound(d) && SameIdentity(store.jobs[id].job, d.job)
    requires SameBackdrop(store.buckets, store.jobs[id].reservations, buckets, d.reservations)
    requires WithinLimits(buckets)
    ensures Inv(Replace(store, id, d).(buckets := buckets))
  {
    var next := Replace(store, id, d).(buckets := buckets);
    forall key
      ensures ReservedAt(buckets, key) == Total(next.jobs, OpenIn(key))
      ensures CommittedAt(buckets, key) == Total(next.jobs, SpentIn(key))
    {
      TotalReplace(store.jobs, id, d, OpenIn(key));
      TotalReplace(store.jobs, id, d, SpentIn(key));
    }
  }

  /** The same when neither buckets nor reservations change. */
  lemma ReplaceRowKeeps(store: Store, id: JobId, d: Dossier)
    requires Inv(store) && id < |store.jobs|
    requires Sound(d) && SameIdentity(store.jobs[id].job, d.job) && d.reservations == store.jobs[id].reservations
    ensures Inv(Replace(store, id, d))
  {
    ReplaceKeeps(store, id, d, store.buckets);
    assert Replace(store, id, d) == Replace(store, id, d).(buckets := store.buckets);
  }

  lemma AppendKeeps(store: Store, d: Dossier, buckets: Buckets)
    requires Inv(store) && Sound(d) && !KeyUsed(store.jobs, d.job.key)
    requires SameBackdrop(store.buckets, [], buckets, d.reservations)
    requires WithinLimits(buckets)
    ensures Inv(Store(store.jobs + [d], buckets))
  {
    forall key
      ensures ReservedAt(buckets, key) == Total(store.jobs + [d], OpenIn(key))
      ensures CommittedAt(buckets, key) == Total(store.jobs + [d], SpentIn(key))
    {
      TotalAppend(store.jobs, d, OpenIn(key));
      TotalAppend(store.jobs, d, SpentIn(key));
    }
  }

  lemma WeightsNonnegative(store: Store, key: BucketKey)
    requires AllSound(store.jobs)
    ensures forall i :: 0 <= i < |store.jobs| ==>
              Weight(OpenIn(key), store.jobs[i]) >= 0 && Weight(SpentIn(key), store.jobs[i]) >= 0
  {
    forall i | 0 <= i < |store.jobs|
      ensures Weight(OpenIn(key), store.jobs[i]) >= 0 && Weight(SpentIn(key), store.jobs[i]) >= 0
    {
      assert Sound(store.jobs[i]);
      MeasuresNonnegative(store.jobs[i].reservations, key);
    }
  }

  lemma {:induction false} OpenRowHeld(rows: seq<Reservation>, i: nat)
    requires i < |rows| && rows[i].state == Active
    requires forall j :: 0 <= j < |rows| ==> Accounted(rows[j])
    ensures Held(rows, rows[i].bucket) > 0
  {
    MeasuresNonnegative(rows[1..], rows[i].bucket);
    if i > 0 {
      OpenRowHeld(rows[1..], i - 1);
    }
  }

  /** An open reservation's bucket exists, because its amount is part of the bucket. */
  lemma OpenRowsBacked(store: Store, id: JobId)
    requires Inv(store) && id < |store.jobs|
    ensures Backed(store.buckets, store.jobs[id].reservations)
  {
    var rows := store.jobs[id].reservations;
    assert Sound(store.jobs[id]);
    forall i | 0 <= i < |rows| && rows[i].state == Active
      ensures rows[i].bucket in store.buckets
    {
      OpenRowHeld(rows, i);
      WeightsNonnegative(store, rows[i].bucket);
      TotalCovers(store.jobs, id, OpenIn(rows[i].bucket));
      assert ReservedAt(store.buckets, rows[i].bucket) > 0;
    }
  }

  // ---------------------------------------------------------------- every step keeps it

  lemma AdmitKeeps(store: Store, req: Intake, settings: IntakeSettings, plan: Option<Plan>, now: int)
    requires Inv(store) && req.source != Internal && IsDownload(req.jobType)
    requires Admit(store, req, settings, plan, now).Ok?
    ensures Inv(Admit(store, req, settings, plan, now).value)
  {
    if !KeyUsed(store.jobs, req.key) {
      AdmittedSound(store, req, settings, plan, now);
      var admitted := Admit(store, req, settings, plan, now).value;
      var d := admitted.jobs[|store.jobs|];
      AppendKeeps(store, d, admitted.buckets);
      assert admitted == Store(store.jobs + [d], admitted.buckets);
    }
  }

  lemma DispatchKeeps(sys: System, jobType: JobType, tuning: Tuning, lease: Digest, leaseSeconds: int, now: int)
    requires Inv(sys.store)
    ensures DispatchOne(sys, jobType, tuning, lease, leaseSeconds, now).Ok?
    ensures Inv(DispatchOne(sys, jobType, tuning, lease, leaseSeconds, now).value.0.store)
  {
    var selected := Selection(sys, jobType, tuning, now);
    if selected.Some? {
      var bonus := AgingBonus(sys.store.jobs[selected.value].job, now, tuning.agingStep);
      var expires := now + leaseSeconds * SECOND;
      assert DispatchOne(sys, jobType, tuning, lease, leaseSeconds, now)
             == DispatchSelected(sys, selected.value, bonus, lease, expires, now);
      DispatchSelectedKeeps(sys, selected.value, bonus, lease, expires, now);
    } else {
      assert DispatchOne(sys, jobType, tuning, lease, leaseSeconds, now) == Ok((sys, None));
    }
  }

  lemma DispatchSelectedKeeps(sys: System, id: JobId, bonus: int, lease: Digest, expires: int, now: int)
    requires Inv(sys.store) && id < |sys.store.jobs| && sys.store.jobs[id].job.status == Queued
    ensures DispatchSelected(sys, id, bonus, lease, expires, now).Ok?
    ensures Inv(DispatchSelected(sys, id, bonus, lease, expires, now).value.0.store)
  {
    DispatchSound(sys.store.jobs[id], bonus, lease, expires, now);
    ReplaceRowKeeps(sys.store, id, DispatchJob(sys.store.jobs[id], bonus, lease, expires, now).value);
  }

  lemma {:induction false} PublishKeeps(store: Store, page: seq<Delivery>, now: int)
    requires Inv(store) && PublishPage(store, page, now)
    ensures Inv(PublishBatch(store, page, now))
    decreases |page|
  {
    if page != [] {
      var p := page[0];
      var d := store.jobs[p.job];
      PublishSound(d, p.index, p.message, now);
      ReplaceRowKeeps(store, p.job, d.(outbox := d.outbox[p.index := PublishEvent(d.outbox[p.index], p.message, now)]));
      PublishKeeps(PublishOne(store, p, now), page[1..], now);
    }
  }

  /** A claim never exhausts attempts: the dead-letter branch of claim is unreachable. */
  lemma ClaimKeeps(store: Store, id: JobId, generation: nat, lease: Digest, jobType: JobType, now: int)
    requires Inv(store)
    ensures Claim(store, id, generation, lease, jobType, now).Ok?
    ensures Inv(Claim(store, id, generation, lease, jobType, now).value.0)
    ensures Claimable(store, id, generation, lease, jobType, now) ==>
              && store.jobs[id].job.attemptCount < store.jobs[id].job.maxAttempts
              && Claim(store, id, generation, lease, jobType, now).value.1
  {
    if Claimable(store, id, generation, lease, jobType, now) {
      var d := store.jobs[id];
      assert Sound(d);
      ClaimSound(d, now);
      ReplaceRowKeeps(store, id, Claim(store, id, generation, lease, jobType, now).value.0.jobs[id]);
    }
  }

  /** The dossier and buckets after the top-up half of an accepted heartbeat. */
  function HeldPosting(store: Store, id: JobId, requested: nat, now: int): Result<Posting>
    requires id < |store.jobs|
  {
    var d := store.jobs[id];
    var held := Touch(d.(job := d.job.(leaseExpiresAt := Some(now + LEASE))), now);
    if requested > d.job.totalBytes.GetOr<nat>(0) then TopUp(store.buckets, held, requested)
    else Ok(Posting(store.buckets, held))
  }

  lemma HeldPostingSound(store: Store, id: JobId, requested: nat, now: int)
    requires Inv(store) && id < |store.jobs| && IsRunning(store.jobs[id].job.status)
    requires HeldPosting(store, id, requested, now).Ok?
    ensures var d := store.jobs[id];
            var posting := HeldPosting(store, id, requested, now).value;
            && Sound(posting.dossier)
            && posting.dossier.job == d.job.(leaseExpiresAt := Some(now + LEASE),
                                             totalBytes := posting.dossier.job.totalBytes)
            && (posting.dossier.job.totalBytes == if requested > d.job.totalBytes.GetOr<nat>(0) then Some(requested)
                                                  else d.job.totalBytes)
            && SameBackdrop(store.buckets, d.reservations, posting.buckets, posting.dossier.reservations)
            && WithinLimits(posting.buckets)
  {
    var d := store.jobs[id];
    var leased := d.(job := d.job.(leaseExpiresAt := Some(now + LEASE)));
    ProgressSound(d, now + LEASE, d.job.progressPercent, d.job.bytesTransferred);
    assert leased == d.(job := d.job.(leaseExpiresAt := Some(now + LEASE), progressPercent := d.job.progressPercent,
                                      bytesTransferred := d.job.bytesTransferred));
    TouchSound(store.buckets, leased, now);
    var held := Touch(leased, now);
    if requested > d.job.totalBytes.GetOr<nat>(0) {
      TopUpSound(store.buckets, held, requested);
    }
  }

  lemma HeartbeatKeeps(store: Store, id: JobId, generation: nat, lease: Digest, progress: Option<Progress>,
                       expected: Option<JobType>, now: int)
    requires Inv(store)
    requires Heartbeat(store, id, generation, lease, progress, expected, now).Ok?
    ensures Inv(Heartbeat(store, id, generation, lease, progress, expected, now).value.0)
  {
    if Validated(store, id, generation, lease, expected, now) {
      var d := store.jobs[id];
      var requested := if progress.None? then 0 else progress.value.bytes.GetOr<nat>(d.job.bytesTransferred);
      if progress.None? {
        HeldPostingSound(store, id, 0, now);
        ReplaceKeeps(store, id, HeldPosting(store, id, 0, now).value.dossier, store.buckets);
      } else {
        HeldPostingSound(store, id, requested, now);
        var posting := HeldPosting(store, id, requested, now).value;
        var job := posting.dossier.job;
        var percent := Max(0, Min(100, progress.value.percent.GetOr<int>(job.progressPercent)));
        ProgressSound(posting.dossier, now + LEASE, percent, Max(job.bytesTransferred, requested));
        var reported := posting.dossier.(job := job.(progressPercent := percent,
                                                     bytesTransferred := Max(job.bytesTransferred, requested)));
        assert reported == posting.dossier.(job := job.(leaseExpiresAt := Some(now + LEASE), progressPercent := percent,
                                                        bytesTransferred := Max(job.bytesTransferred, requested)));
        ReplaceKeeps(store, id, reported, posting.buckets);
      }
    }
  }

  lemma FailKeeps(store: Store, id: JobId, actual: nat)
    requires Inv(store) && id < |store.jobs| && IsRunning(store.jobs[id].job.status)
    requires FailLocked(store, id, actual).Ok?
    ensures Inv(FailLocked(store, id, actual).value)
  {
    FailSound(store, id, actual);
    var failed := FailLocked(store, id, actual).value;
    ReplaceKeeps(store, id, failed.jobs[id], failed.buckets);
    assert failed == Replace(store, id, failed.jobs[id]).(buckets := failed.buckets);
  }

  lemma ScheduleKeeps(store: Store, parent: Job, jobType: JobType, key: IdempotencyKey, file: FileId, size: nat,
                      now: int)
    requires Inv(store) && StatusSound(parent) && !IsDownload(jobType)
    ensures Inv(Schedule(store, ChildJob(parent, jobType, key, file, size, now)))
  {
    var child := ChildJob(parent, jobType, key, file, size, now);
    ChildSound(parent, jobType, key, file, size, now);
    if !KeyUsed(store.jobs, key) {
      AppendKeeps(store, child, store.buckets);
    }
  }

  lemma CompleteDownloadKeeps(store: Store, id: JobId, result: Completion, now: int)
    requires Inv(store) && id < |store.jobs| && result.DownloadResult?
    requires IsRunning(store.jobs[id].job.status) && IsDownload(store.jobs[id].job.jobType)
    requires CompleteDownload(store, id, result, now).Ok?
    ensures Inv(CompleteDownload(store, id, result, now).value)
  {
    var d := store.jobs[id];
    if ScanRejects(d.job.policy, result.scan) {
      FailKeeps(store, id, result.size);
    } else {
      FinishDownloadSound(store.buckets, d, result.size, now);
      var posting := FinishDownload(store.buckets, d, result.size, now).value;
      var done := Replace(store, id, posting.dossier).(buckets := posting.buckets);
      ReplaceKeeps(store, id, posting.dossier, posting.buckets);
      ChildrenKeep(done, posting.dossier.job, id, FileId(id, |d.files|), result.size, result.playable, now);
    }
  }

  lemma ChildrenKeep(store: Store, parent: Job, id: JobId, file: FileId, size: nat, playable: bool, now: int)
    requires Inv(store) && StatusSound(parent)
    ensures Inv(ScheduleMedia(ScheduleUpload(store, parent, id, file, size, now), parent, file, size, playable, now))
  {
    ScheduleKeeps(store, parent, TelegramUpload, UploadKey(id), file, size, now);
    var uploading := ScheduleUpload(store, parent, id, file, size, now);
    ScheduleKeeps(uploading, parent, MediaProcess, MediaKey(file), file, size, now);
  }

  lemma CompleteMediaKeeps(store: Store, id: JobId, result: Completion)
    requires Inv(store) && id < |store.jobs| && result.MediaResult?
    requires IsRunning(store.jobs[id].job.status) && store.jobs[id].job.jobType == MediaProcess
    requires CompleteMedia(store, id, result).Ok?
    ensures Inv(CompleteMedia(store, id, result).value)
  {
    var file := store.jobs[id].job.payload.file.value;
    var parent := store.jobs[file.job];
    var marked := MarkPlayable(store, file, result.directPlay);
    MarkedSound(parent, file.index, result.directPlay);
    ReplaceRowKeeps(store, file.job, marked.jobs[file.job]);
    FinishMediaSound(marked.jobs[id], parent.files[file.index].size);
    ReplaceRowKeeps(marked, id, FinishMedia(marked.jobs[id], parent.files[file.index].size).value);
  }

  lemma CompleteKeeps(store: Store, id: JobId, generation: nat, lease: Digest, result: Completion, t: Transport,
                      expected: Option<JobType>, now: int)
    requires Inv(store)
    requires Complete(store, id, generation, lease, result, t, expected, now).Ok?
    ensures Inv(Complete(store, id, generation, lease, result, t, expected, now).value.0)
  {
    if Validated(store, id, generation, lease, expected, now) && TransportMatches(store.jobs[id], generation, t) {
      var jobType := store.jobs[id].job.jobType;
      if jobType == TelegramUpload && result.UploadResult? {
        FinishUploadSound(store.jobs[id], result.size);
        ReplaceRowKeeps(store, id, FinishUpload(store.jobs[id], result.size).value);
      } else if jobType == MediaProcess && result.MediaResult? {
        CompleteMediaKeeps(store, id, result);
      } else if IsDownload(jobType) && result.DownloadResult? {
        CompleteDownloadKeeps(store, id, result, now);
      }
    }
  }

  /** One job of the recovery page; the rest of the page still qualifies afterwards. */
  lemma RecoverStep(store: Store, page: seq<JobId>, now: int)
    requires Inv(store) && page != [] && RecoveryPage(store, page, now)
    ensures RecoverJob(store.jobs[page[0]], now).Ok?
    ensures var next := Replace(store, page[0], RecoverJob(store.jobs[page[0]], now).value);
            Inv(next) && RecoveryPage(next, page[1..], now)
  {
    var d := store.jobs[page[0]];
    RecoverSound(d, now);
    RecoverShape(d, now);
    ReplaceRowKeeps(store, page[0], RecoverJob(d, now).value);
  }

  lemma {:induction false} RecoverKeeps(store: Store, page: seq<JobId>, now: int)
    requires Inv(store) && RecoveryPage(store, page, now)
    ensures RecoverJobs(store, page, now).Ok?
    ensures Inv(RecoverJobs(store, page, now).value)
    decreases |page|
  {
    if page != [] {
      RecoverStep(store, page, now);
      RecoverKeeps(Replace(store, page[0], RecoverJob(store.jobs[page[0]], now).value), page[1..], now);
    }
  }

  /** The sweep over expired reservations never raises, on any page of any sound store. */
  lemma {:induction false} ExpiryKeeps(store: Store, page: seq<JobId>, now: int)
    requires Inv(store)
    ensures ReconcileExpired(store, page, now).Ok?
    ensures Inv(ReconcileExpired(store, page, now).value)
    decreases |page|
  {
    if page != [] {
      if page[0] < |store.jobs| {
        var d := store.jobs[page[0]];
        assert Sound(d);
        OpenRowsBacked(store, page[0]);
        ReconcileJobSound(store.buckets, d, now);
        var posting := ReconcileJob(store.buckets, d, now).value;
        ReplaceKeeps(store, page[0], posting.dossier, posting.buckets);
        ExpiryKeeps(Replace(store, page[0], posting.dossier).(buckets := posting.buckets), page[1..], now);
      } else {
        ExpiryKeeps(store, page[1..], now);
      }
    }
  }

  /** Every transaction keeps the invariant, whether it commits or rolls back. */
  lemma StepKeeps(sys: System, e: Event)
    requires Inv(sys.store) && Legal(sys, e)
    ensures Inv(Apply(sys, e).store)
  {
    if Outcome(sys, e).Ok? {
      match e.op
      case Admission(req, settings, plan) => AdmitKeeps(sys.store, req, settings, plan, e.now);
      case Dispatch(jobType, tuning, lease, leaseSeconds) =>
        DispatchKeeps(sys, jobType, tuning, lease, leaseSeconds, e.now);
      case Publication(page) => PublishKeeps(sys.store, page, e.now);
      case ClaimCall(id, generation, lease, jobType) => ClaimKeeps(sys.store, id, generation, lease, jobType, e.now);
      case HeartbeatCall(id, generation, lease, progress, expected) =>
        HeartbeatKeeps(sys.store, id, generation, lease, progress, expected, e.now);
      case CompleteCall(id, generation, lease, result, transport, expected) =>
        CompleteKeeps(sys.store, id, generation, lease, result, transport, expected, e.now);
      case FailCall(id, generation, lease, actual, transport, expected) =>
        if Validated(sys.store, id, generation, lease, expected, e.now)
           && TransportMatches(sys.store.jobs[id], generation, transport) {
          FailKeeps(sys.store, id, actual);
        }
      case Recovery(page) => RecoverKeeps(sys.store, page, e.now);
      case Expiry(page) => ExpiryKeeps(sys.store, page, e.now);
    }
  }

  /** Over every legal run from a sound system the invariant holds at the end. */
  lemma {:induction false} RunKeeps(sys: System, run: seq<Event>)
    requires Inv(sys.store) && LegalRun(sys, run)
    ensures Inv(Exec(sys, run).store)
    decreases |run|
  {
    if run != [] {
      StepKeeps(sys, run[0]);
      RunKeeps(Apply(sys, run[0]), run[1..]);
    }
  }
}
