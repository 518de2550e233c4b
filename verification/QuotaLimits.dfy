/** What a plan's quotas bound over whole runs (app/services/quota.py:261-472). */
module QuotaLimits {
  import opened Base
  import opened QuotaWindows
  import opened QuotaLedger
  import opened JobModel
  import opened JobTotals
  import opened JobProtocol
  import opened JobInvariant
  import opened Dispatcher
  import opened JobSystem
  import opened JobHistory
  import opened QuotaTheorems
  import opened Admissions
  import Fairness

  // ---------------------------------------------------------------- only admission sets limits

  ghost predicate LimitsKept(buckets: Buckets, after: Buckets) {
    forall key {:trigger key in after} ::
      key in after ==> key in buckets && after[key].quotaLimit == buckets[key].quotaLimit
  }

  lemma {:induction false} SettleKeepsLimits(buckets: Buckets, rows: seq<Reservation>, actual: int, success: bool)
    requires SettleRows(buckets, rows, actual, success).Ok?
    ensures LimitsKept(buckets, SettleRows(buckets, rows, actual, success).value.buckets)
  {
    if rows != [] {
      SettleKeepsLimits(SettleRow(buckets, rows[0], actual, success).value.buckets, rows[1..], actual, success);
    }
  }

  lemma {:induction false} TopUpKeepsLimits(buckets: Buckets, rows: seq<Reservation>, required: int)
    requires TopUpRows(buckets, rows, required).Ok?
    ensures LimitsKept(buckets, TopUpRows(buckets, rows, required).value.buckets)
  {
    if rows != [] {
      TopUpKeepsLimits(TopUpRow(buckets, rows[0], required).value.buckets, rows[1..], required);
    }
  }

  lemma {:induction false} PublishKeepsBuckets(store: Store, page: seq<Delivery>, now: int)
    ensures PublishBatch(store, page, now).buckets == store.buckets
    decreases |page|
  {
    if page != [] {
      PublishKeepsBuckets(PublishOne(store, page[0], now), page[1..], now);
    }
  }

  lemma {:induction false} RecoverKeepsBuckets(store: Store, page: seq<JobId>, now: int)
    requires RecoverJobs(store, page, now).Ok?
    ensures RecoverJobs(store, page, now).value.buckets == store.buckets
    decreases |page|
  {
    if page != [] {
      if page[0] < |store.jobs| {
        RecoverKeepsBuckets(Replace(store, page[0], RecoverJob(store.jobs[page[0]], now).value), page[1..], now);
      } else {
        RecoverKeepsBuckets(store, page[1..], now);
      }
    }
  }

  lemma SweepKeepsLimits(buckets: Buckets, d: Dossier, now: int)
    requires ReconcileJob(buckets, d, now).Ok?
    ensures LimitsKept(buckets, ReconcileJob(buckets, d, now).value.buckets)
  {
    if !HeldByWorker(d.job, now) {
      SettleKeepsLimits(buckets, CloseStale(d).value.reservations, d.job.resultSize.GetOr<nat>(d.job.bytesTransferred),
                        d.job.status == Completed);
    }
  }

  lemma {:induction false} ExpiryKeepsLimits(store: Store, page: seq<JobId>, now: int)
    requires ReconcileExpired(store, page, now).Ok?
    ensures LimitsKept(store.buckets, ReconcileExpired(store, page, now).value.buckets)
    decreases |page|
  {
    if page != [] {
      if page[0] < |store.jobs| {
        SweepKeepsLimits(store.buckets, store.jobs[page[0]], now);
        var posting := ReconcileJob(store.buckets, store.jobs[page[0]], now).value;
        ExpiryKeepsLimits(Replace(store, page[0], posting.dossier).(buckets := posting.buckets), page[1..], now);
      } else {
        ExpiryKeepsLimits(store, page[1..], now);
      }
    }
  }

  lemma ClaimKeepsLimits(store: Store, id: JobId, generation: nat, lease: Digest, jobType: JobType, now: int)
    requires Claim(store, id, generation, lease, jobType, now).Ok?
    ensures LimitsKept(store.buckets, Claim(store, id, generation, lease, jobType, now).value.0.buckets)
  {
    if Claimable(store, id, generation, lease, jobType, now) {
      var job := store.jobs[id].job;
      if job.attemptCount >= job.maxAttempts {
        SettleKeepsLimits(store.buckets, store.jobs[id].reservations, job.bytesTransferred, false);
      }
    }
  }

  lemma HeartbeatKeepsLimits(store: Store, id: JobId, generation: nat, lease: Digest, progress: Option<Progress>,
                             expected: Option<JobType>, now: int)
    requires Heartbeat(store, id, generation, lease, progress, expected, now).Ok?
    ensures LimitsKept(store.buckets, Heartbeat(store, id, generation, lease, progress, expected, now).value.0.buckets)
  {
    if Validated(store, id, generation, lease, expected, now) && progress.Some? {
      var d := store.jobs[id];
      var requested := progress.value.bytes.GetOr<nat>(d.job.bytesTransferred);
      if requested > d.job.totalBytes.GetOr<nat>(0) {
        TopUpKeepsLimits(store.buckets, TouchRows(d.reservations, now), requested);
      }
    }
  }

  lemma FailKeepsLimits(store: Store, id: JobId, actual: nat)
    requires id < |store.jobs| && FailLocked(store, id, actual).Ok?
    ensures LimitsKept(store.buckets, FailLocked(store, id, actual).value.buckets)
  {
    SettleKeepsLimits(store.buckets, store.jobs[id].reservations, actual, false);
  }

  lemma {:induction false} MoveAlongRows(d: Dossier, path: seq<Status>)
    requires MoveAlong(d, path).Ok?
    ensures MoveAlong(d, path).value.reservations == d.reservations
    decreases |path|
  {
    if path != [] {
      MoveAlongRows(Move(d, path[0]).value, path[1..]);
    }
  }

  lemma CompleteDownloadKeepsLimits(store: Store, id: JobId, result: Completion, now: int)
    requires id < |store.jobs| && result.DownloadResult? && CompleteDownload(store, id, result, now).Ok?
    ensures LimitsKept(store.buckets, CompleteDownload(store, id, result, now).value.buckets)
  {
    if ScanRejects(store.jobs[id].job.policy, result.scan) {
      FailKeepsLimits(store, id, result.size);
    } else {
      MoveAlongRows(store.jobs[id], DOWNLOAD_PATH);
      SettleKeepsLimits(store.buckets, store.jobs[id].reservations, result.size, true);
    }
  }

  lemma CompleteKeepsLimits(store: Store, id: JobId, generation: nat, lease: Digest, result: Completion, t: Transport,
                            expected: Option<JobType>, now: int)
    requires Complete(store, id, generation, lease, result, t, expected, now).Ok?
    ensures LimitsKept(store.buckets, Complete(store, id, generation, lease, result, t, expected, now).value.0.buckets)
  {
    if Validated(store, id, generation, lease, expected, now) && TransportMatches(store.jobs[id], generation, t) {
      if IsDownload(store.jobs[id].job.jobType) && result.DownloadResult? {
        CompleteDownloadKeepsLimits(store, id, result, now);
      }
    }
  }

  lemma CallKeepsLimits(sys: System, e: Event)
    requires Outcome(sys, e).Ok?
    requires e.op.ClaimCall? || e.op.HeartbeatCall? || e.op.CompleteCall? || e.op.FailCall?
    ensures LimitsKept(sys.store.buckets, Apply(sys, e).store.buckets)
  {
    match e.op
    case ClaimCall(id, generation, lease, jobType) =>
      ClaimKeepsLimits(sys.store, id, generation, lease, jobType, e.now);
    case HeartbeatCall(id, generation, lease, progress, expected) =>
      HeartbeatKeepsLimits(sys.store, id, generation, lease, progress, expected, e.now);
    case CompleteCall(id, generation, lease, result, t, expected) =>
      CompleteKeepsLimits(sys.store, id, generation, lease, result, t, expected, e.now);
    case FailCall(id, generation, lease, actual, t, expected) =>
      if Validated(sys.store, id, generation, lease, expected, e.now)
         && TransportMatches(sys.store.jobs[id], generation, t) {
        FailKeepsLimits(sys.store, id, actual);
      }
  }

  /** No transaction but an admission adds a bucket or changes a limit. */
  lemma OthersKeepLimits(sys: System, e: Event)
    requires !e.op.Admission?
    ensures LimitsKept(sys.store.buckets, Apply(sys, e).store.buckets)
  {
    if Outcome(sys, e).Ok? {
      match e.op
      case Dispatch(jobType, tuning, lease, leaseSeconds) =>
        Fairness.DispatchShape(sys, jobType, tuning, lease, leaseSeconds, e.now);
      case Publication(page) => PublishKeepsBuckets(sys.store, page, e.now);
      case Recovery(page) => RecoverKeepsBuckets(sys.store, page, e.now);
      case Expiry(page) => ExpiryKeepsLimits(sys.store, page, e.now);
      case _ => CallKeepsLimits(sys, e);
    }
  }

  // ---------------------------------------------------------------- any run

  /** Every plan that sets this quota for the user in the run sets it between two bounds. */
  predicate PlansBetween(run: seq<Event>, user: UserId, dimension: Dimension, kind: WindowKind, low: int, high: int) {
    forall i :: 0 <= i < |run| && run[i].op.Admission? && run[i].op.req.user == user && run[i].op.plan.Some?
                && QuotaFor(run[i].op.plan.value, dimension, kind).Some? ==>
                  low <= QuotaFor(run[i].op.plan.value, dimension, kind).value <= high
  }

  ghost predicate LimitsBetween(buckets: Buckets, user: UserId, dimension: Dimension, kind: WindowKind, low: int,
                                high: int)
  {
    forall key {:trigger key in buckets} ::
      key in buckets && key.user == user && key.dimension == dimension && key.window.kind == kind ==>
        low <= buckets[key].quotaLimit <= high
  }

  lemma AdmissionLimits(store: Store, req: Intake, settings: IntakeSettings, plan: Option<Plan>, now: int,
                        user: UserId, dimension: Dimension, kind: WindowKind, low: int, high: int)
    requires !KeyUsed(store.jobs, req.key) && Admit(store, req, settings, plan, now).Ok?
    requires LimitsBetween(store.buckets, user, dimension, kind, low, high)
    requires req.user == user && plan.Some? && QuotaFor(plan.value, dimension, kind).Some? ==>
               low <= QuotaFor(plan.value, dimension, kind).value <= high
    ensures LimitsBetween(Admit(store, req, settings, plan, now).value.buckets, user, dimension, kind, low, high)
  {
    AdmissionTakesQuotas(store, req, settings, plan, now);
    var after := Admit(store, req, settings, plan, now).value.buckets;
    forall key | key in after && key.user == user && key.dimension == dimension && key.window.kind == kind
      ensures low <= after[key].quotaLimit <= high
    {
      assert QuotaTaken(store.buckets, after, req.user, plan.value, req.estimatedBytes, dimension, kind, now);
      assert !Unquotaed(key, req.user, plan.value, now) || key in store.buckets;
    }
  }

  lemma StepLimits(sys: System, e: Event, user: UserId, dimension: Dimension, kind: WindowKind, low: int, high: int)
    requires LimitsBetween(sys.store.buckets, user, dimension, kind, low, high)
    requires PlansBetween([e], user, dimension, kind, low, high)
    ensures LimitsBetween(Apply(sys, e).store.buckets, user, dimension, kind, low, high)
  {
    if e.op.Admission? {
      assert [e][0] == e;
      if Outcome(sys, e).Ok? && !KeyUsed(sys.store.jobs, e.op.req.key) {
        AdmissionLimits(sys.store, e.op.req, e.op.settings, e.op.plan, e.now, user, dimension, kind, low, high);
      }
    } else {
      OthersKeepLimits(sys, e);
    }
  }

  lemma {:induction false} RunLimits(sys: System, run: seq<Event>, user: UserId, dimension: Dimension, kind: WindowKind,
                                     low: int, high: int)
    requires LimitsBetween(sys.store.buckets, user, dimension, kind, low, high)
    requires PlansBetween(run, user, dimension, kind, low, high)
    ensures LimitsBetween(Exec(sys, run).store.buckets, user, dimension, kind, low, high)
    decreases |run|
  {
    if run != [] {
      assert PlansBetween([run[0]], user, dimension, kind, low, high);
      StepLimits(sys, run[0], user, dimension, kind, low, high);
      RunLimits(Apply(sys, run[0]), run[1..], user, dimension, kind, low, high);
    }
  }

  /** Under plans that set a quota between two bounds, each of the user's buckets of that kind
      has a limit between them and never holds more than the upper one, after any run. */
  lemma QuotaNeverExceeded(run: seq<Event>, user: UserId, dimension: Dimension, kind: WindowKind, low: int, high: int,
                           t: int)
    requires LegalRun(EMPTY, run) && PlansBetween(run, user, dimension, kind, low, high)
    ensures var buckets := Exec(EMPTY, run).store.buckets;
            var key := BucketAt(user, dimension, kind, t);
            && (key in buckets ==> low <= buckets[key].quotaLimit <= high)
            && UsedAt(buckets, key) <= Max(0, high)
            && (key in buckets ==> UsedAt(buckets, key) <= high)
  {
    RunKeeps(EMPTY, run);
    RunLimits(EMPTY, run, user, dimension, kind, low, high);
    var buckets := Exec(EMPTY, run).store.buckets;
    var key := BucketAt(user, dimension, kind, t);
    assert key in buckets ==> buckets[key].committed + buckets[key].reserved <= buckets[key].quotaLimit;
  }

  // ---------------------------------------------------------------- what a download costs

  /** What a settled row was charged, by dimension, for a success or a failure. */
  predicate ChargedFor(r: Reservation, bytes: int, success: bool) {
    && (r.bucket.dimension == JobCount ==> r.consumed == if success then 1 else 0)
    && (r.bucket.dimension == Storage ==> r.consumed == if success then bytes else 0)
    && (r.bucket.dimension == Ingress ==> r.consumed == bytes)
    && r.state == (if r.consumed > 0 then Committed else Released)
  }

  /** Open rows are settled so, the rest of their hold given back; closed ones stay. */
  ghost predicate AllCharged(rows: seq<Reservation>, after: seq<Reservation>, bytes: int, success: bool) {
    && |after| == |rows|
    && forall i :: 0 <= i < |after| ==>
         if rows[i].state != Active then after[i] == rows[i]
         else
           && ChargedFor(after[i], bytes, success) && after[i].consumed <= after[i].amount
           && after[i] == rows[i].(consumed := after[i].consumed, state := after[i].state)
  }

  /** A success costs one file, its size in storage and its size in ingress; a failure costs
      the reported bytes in ingress and nothing else. */
  lemma ReconcileCharges(buckets: Buckets, d: Dossier, bytes: int, success: bool)
    requires ConsumptionsClear(d.reservations) && Reconcile(buckets, d, bytes, success).Ok?
    ensures var after := Reconcile(buckets, d, bytes, success).value.dossier;
            && after == d.(reservations := after.reservations, usage := after.usage)
            && AllCharged(d.reservations, after.reservations, bytes, success)
  {
    SettleEffect(buckets, d.reservations, bytes, success);
  }

  lemma CountMatchesSpent(d: Dossier, user: UserId, t: int)
    requires Sound(d)
    requires d.job.user == user && d.job.source != Internal ==> HasRow(d.reservations, JobCount, Daily)
    ensures Weight(SpentIn(BucketAt(user, JobCount, Daily, t)), d)
            == Weight(CompletedIn(user, QuotaWindow(Daily, t)), d)
  {
    var key := BucketAt(user, JobCount, Daily, t);
    var rows := d.reservations;
    RowsAreKeyed(d);
    if d.job.user != user || d.job.source == Internal || QuotaWindow(Daily, d.job.createdAt) != QuotaWindow(Daily, t) {
      NothingElsewhere(rows, key);
    } else {
      var i :| 0 <= i < |rows| && rows[i].bucket.dimension == JobCount && rows[i].bucket.window.kind == Daily;
      assert rows[i].bucket == key;
      SpentByOneRow(rows, i);
      CountRowCharge(d, i);
    }
  }

  lemma CountRowCharge(d: Dossier, i: nat)
    requires Sound(d) && i < |d.reservations| && d.reservations[i].bucket.dimension == JobCount
    requires d.job.source != Internal
    ensures d.reservations[i].consumed == if d.job.status == Completed then 1 else 0
  {
  }

  /** The user's downloads that completed, of those admitted on the day of an instant. */
  function CompletedDownloads(jobs: seq<Dossier>, user: UserId, t: int): set<JobId> {
    set i: JobId | 0 <= i < |jobs| && jobs[i].job.user == user && jobs[i].job.source != Internal
                   && jobs[i].job.status == Completed
                   && QuotaWindow(Daily, jobs[i].job.createdAt) == QuotaWindow(Daily, t)
  }

  /** For a user whose plans limit the files per day, the job-count bucket of a day has
      committed exactly the number of downloads admitted that day that completed. */
  lemma FilesCounted(run: seq<Event>, user: UserId, t: int)
    requires LegalRun(EMPTY, run) && PlansSet(run, user, JobCount, Daily)
    ensures var store := Exec(EMPTY, run).store;
            CommittedAt(store.buckets, BucketAt(user, JobCount, Daily, t)) == |CompletedDownloads(store.jobs, user, t)|
  {
    RunKeeps(EMPTY, run);
    RunReserves(EMPTY, run, user, JobCount, Daily);
    var store := Exec(EMPTY, run).store;
    var key, counted := BucketAt(user, JobCount, Daily, t), CompletedIn(user, QuotaWindow(Daily, t));
    forall i | 0 <= i < |store.jobs|
      ensures Weight(SpentIn(key), store.jobs[i]) == Weight(counted, store.jobs[i])
    {
      CountMatchesSpent(store.jobs[i], user, t);
    }
    TotalsAgree(store.jobs, SpentIn(key), counted);
    TotalIsCount(store.jobs, counted, CompletedDownloads(store.jobs, user, t));
  }

  lemma ReservedNonnegative(run: seq<Event>, key: BucketKey)
    requires LegalRun(EMPTY, run)
    ensures ReservedAt(Exec(EMPTY, run).store.buckets, key) >= 0
  {
    QuotaConserved(run, key);
  }

  /** Under plans of at most `most` files a day, no more downloads of one day complete. */
  lemma DailyFilesBounded(run: seq<Event>, user: UserId, t: int, least: int, most: int)
    requires LegalRun(EMPTY, run) && PlansSet(run, user, JobCount, Daily)
    requires PlansBetween(run, user, JobCount, Daily, least, most)
    ensures |CompletedDownloads(Exec(EMPTY, run).store.jobs, user, t)| <= Max(0, most)
  {
    FilesCounted(run, user, t);
    ReservedNonnegative(run, BucketAt(user, JobCount, Daily, t));
    QuotaNeverExceeded(run, user, JobCount, Daily, least, most, t);
  }

  /** Under plans of at most `most` bytes of storage, the files created never pass it. */
  lemma StorageBounded(run: seq<Event>, user: UserId, least: int, most: int)
    requires LegalRun(EMPTY, run) && PlansSet(run, user, Storage, Lifetime)
    requires PlansBetween(run, user, Storage, Lifetime, least, most)
    ensures Total(Exec(EMPTY, run).store.jobs, StoredBy(user)) <= Max(0, most)
  {
    StorageAgrees(run, user);
    ReservedNonnegative(run, BucketKey(user, Storage, LIFETIME));
    QuotaNeverExceeded(run, user, Storage, Lifetime, least, most, 0);
    assert BucketAt(user, Storage, Lifetime, 0) == BucketKey(user, Storage, LIFETIME);
  }
}
