/** What the quota ledger guarantees over every run of the system. */
module QuotaTheorems {
  import opened Base
  import opened QuotaWindows
  import opened QuotaLedger
  import opened JobModel
  import opened JobTotals
  import opened JobProtocol
  import opened JobInvariant
  import opened Dispatcher
  import opened JobSystem
  import opened JobHistory

  // ---------------------------------------------------------------- conservation

  lemma DebitsMatchSpending(store: Store, key: BucketKey)
    requires AllSound(store.jobs)
    ensures Total(store.jobs, DebitedIn(key)) == Total(store.jobs, SpentIn(key))
  {
    forall i | 0 <= i < |store.jobs|
      ensures Weight(DebitedIn(key), store.jobs[i]) == Weight(SpentIn(key), store.jobs[i])
    {
      assert Sound(store.jobs[i]);
      RecordsMatchSpending(store.jobs[i].reservations, key);
    }
    TotalsAgree(store.jobs, DebitedIn(key), SpentIn(key));
  }

  /** After any run, every bucket holds exactly the open reservations, has committed exactly
      what closed reservations consumed and usage records debit, and is within its limit. */
  lemma QuotaConserved(run: seq<Event>, key: BucketKey)
    requires LegalRun(EMPTY, run)
    ensures var store := Exec(EMPTY, run).store;
            && ReservedAt(store.buckets, key) == Total(store.jobs, OpenIn(key))
            && CommittedAt(store.buckets, key) == Total(store.jobs, SpentIn(key))
            && CommittedAt(store.buckets, key) == Total(store.jobs, DebitedIn(key))
            && 0 <= ReservedAt(store.buckets, key) && 0 <= CommittedAt(store.buckets, key)
            && (key in store.buckets ==>
                  store.buckets[key].committed + store.buckets[key].reserved <= store.buckets[key].quotaLimit)
  {
    RunKeeps(EMPTY, run);
    var store := Exec(EMPTY, run).store;
    DebitsMatchSpending(store, key);
    WeightsNonnegative(store, key);
    TotalNonnegative(store.jobs, OpenIn(key));
    TotalNonnegative(store.jobs, SpentIn(key));
  }

  lemma {:induction false} RecordsComeFromRows(rows: seq<Reservation>, i: nat)
    requires i < |RecordsOf(rows)|
    ensures exists j :: 0 <= j < |rows| && rows[j].bucket == RecordsOf(rows)[i].bucket
  {
    var offset := if rows[0].state == Committed then 1 else 0;
    if i >= offset {
      RecordsComeFromRows(rows[1..], i - offset);
      var j :| 0 <= j < |rows[1..]| && rows[1..][j].bucket == RecordsOf(rows[1..])[i - offset].bucket;
      assert rows[j + 1].bucket == RecordsOf(rows)[i].bucket;
    } else {
      assert rows[0].bucket == RecordsOf(rows)[i].bucket;
    }
  }

  lemma {:induction false} RecordsDistinct(rows: seq<Reservation>)
    requires DistinctBuckets(rows)
    ensures forall i, j :: 0 <= i < j < |RecordsOf(rows)| ==> RecordsOf(rows)[i].bucket != RecordsOf(rows)[j].bucket
  {
    if rows != [] {
      RecordsDistinct(rows[1..]);
      var rest := RecordsOf(rows[1..]);
      forall j | 0 <= j < |rest|
        ensures rest[j].bucket != rows[0].bucket
      {
        RecordsComeFromRows(rows[1..], j);
      }
    }
  }

  /** No job is ever debited twice for one bucket, so the unique usage key never collides. */
  lemma UsageKeysUnique(run: seq<Event>, id: JobId)
    requires LegalRun(EMPTY, run) && id < |Exec(EMPTY, run).store.jobs|
    ensures var usage := Exec(EMPTY, run).store.jobs[id].usage;
            forall i, j :: 0 <= i < j < |usage| ==> usage[i].bucket != usage[j].bucket
  {
    RunKeeps(EMPTY, run);
    assert Sound(Exec(EMPTY, run).store.jobs[id]);
    RecordsDistinct(Exec(EMPTY, run).store.jobs[id].reservations);
  }

  /** The declared row constraints hold without the database having to enforce them: holds
      are positive, consumption lies within the hold, and usage amounts are positive. */
  lemma RowConstraintsHold(run: seq<Event>, id: JobId, row: nat)
    requires LegalRun(EMPTY, run) && id < |Exec(EMPTY, run).store.jobs|
    requires row < |Exec(EMPTY, run).store.jobs[id].reservations|
    ensures var d := Exec(EMPTY, run).store.jobs[id];
            var r := d.reservations[row];
            && 0 < r.amount && 0 <= r.consumed <= r.amount
            && (r.state == Active ==> r.consumed == 0)
            && (r.state == Committed <==> r.consumed > 0)
            && r.bucket.user == d.job.user
            && r.bucket.window == QuotaWindow(r.bucket.window.kind, d.job.createdAt)
            && r.bucket.window.start < r.bucket.window.end
  {
    RunKeeps(EMPTY, run);
    var d := Exec(EMPTY, run).store.jobs[id];
    assert Sound(d);
    assert Accounted(d.reservations[row]) && RowKeyed(d.job, d.reservations[row]);
  }

  // ---------------------------------------------------------------- coupling

  /** After any run, an active job has all its reservations open; a completed, failed or
      expired one has none; a dead letter has all or none, and all only where recovery found
      its attempts used up. */
  lemma ReservationsFollowStatus(run: seq<Event>, id: JobId)
    requires LegalRun(EMPTY, run) && id < |Exec(EMPTY, run).store.jobs|
    ensures var d := Exec(EMPTY, run).store.jobs[id];
            && (IsActive(d.job.status) || Ended(d.job.status))
            && (IsActive(d.job.status) ==> AllActive(d.reservations) && d.usage == [])
            && ((d.job.status == Completed || d.job.status == Failed || d.job.status == Expired) ==>
                  AllClosed(d.reservations))
            && (AllActive(d.reservations) || AllClosed(d.reservations))
            && (!IsActive(d.job.status) && !AllClosed(d.reservations) ==>
                  d.job.status == DeadLetter && d.job.attemptCount == d.job.maxAttempts)
            && (d.job.source == Internal ==> d.reservations == [])
  {
    RunKeeps(EMPTY, run);
    var d := Exec(EMPTY, run).store.jobs[id];
    assert Sound(d);
    if IsActive(d.job.status) {
      ActiveIsOpen(d);
    }
  }

  /** Reservations are finalised once: whatever follows, a closed row never changes again. */
  lemma ClosedOnce(sys: System, run: seq<Event>, id: JobId, row: nat)
    requires Inv(sys.store) && LegalRun(sys, run)
    requires id < |sys.store.jobs| && row < |sys.store.jobs[id].reservations|
    requires sys.store.jobs[id].reservations[row].state != Active
    ensures id < |Exec(sys, run).store.jobs|
    ensures row < |Exec(sys, run).store.jobs[id].reservations|
    ensures Exec(sys, run).store.jobs[id].reservations[row] == sys.store.jobs[id].reservations[row]
  {
    RunEvolves(sys, run);
    assert Follows(sys.store.jobs[id], Exec(sys, run).store.jobs[id]);
  }

  // ---------------------------------------------------------------- the expiry sweep ends

  /** A page of the sweep that is not empty while anything is left to sweep. */
  predicate SweepPage(store: Store, page: seq<JobId>, now: int) {
    ExpiryPage(store, page, now) && (Total(store.jobs, ExpiredHolds(now)) > 0 ==> page != [])
  }

  predicate SweepPages(store: Store, pages: seq<seq<JobId>>, now: int)
    decreases |pages|
  {
    pages == [] ||
    (&& SweepPage(store, pages[0], now)
     && ReconcileExpired(store, pages[0], now).Ok?
     && SweepPages(ReconcileExpired(store, pages[0], now).value, pages[1..], now))
  }

  function Sweep(store: Store, pages: seq<seq<JobId>>, now: int): Store
    requires SweepPages(store, pages, now)
    decreases |pages|
  {
    if pages == [] then store else Sweep(ReconcileExpired(store, pages[0], now).value, pages[1..], now)
  }

  /** One job of a sweep; the rest of the page still qualifies afterwards. */
  lemma SweepStep(store: Store, page: seq<JobId>, now: int)
    requires Inv(store) && page != [] && ExpiryPage(store, page, now)
    ensures ReconcileJob(store.buckets, store.jobs[page[0]], now).Ok?
    ensures var posting := ReconcileJob(store.buckets, store.jobs[page[0]], now).value;
            var next := Replace(store, page[0], posting.dossier).(buckets := posting.buckets);
            && Inv(next) && ExpiryPage(next, page[1..], now) && !HasExpiredHold(posting.dossier, now)
            && Total(next.jobs, ExpiredHolds(now)) == Total(store.jobs, ExpiredHolds(now)) - 1
  {
    OpenRowsBacked(store, page[0]);
    ReconcileJobSound(store.buckets, store.jobs[page[0]], now);
    var posting := ReconcileJob(store.buckets, store.jobs[page[0]], now).value;
    ReplaceKeeps(store, page[0], posting.dossier, posting.buckets);
    PageShrinks(store, page, posting.dossier, now);
    assert Replace(store, page[0], posting.dossier).(buckets := posting.buckets).jobs
           == Replace(store, page[0], posting.dossier).jobs;
  }

  lemma PageShrinks(store: Store, page: seq<JobId>, d: Dossier, now: int)
    requires page != [] && ExpiryPage(store, page, now) && !HasExpiredHold(d, now)
    ensures forall buckets :: ExpiryPage(Replace(store, page[0], d).(buckets := buckets), page[1..], now)
    ensures Total(Replace(store, page[0], d).jobs, ExpiredHolds(now)) == Total(store.jobs, ExpiredHolds(now)) - 1
  {
    TotalReplace(store.jobs, page[0], d, ExpiredHolds(now));
  }

  /** The jobs of the page have no expired hold any more, and every other job is as it was. */
  ghost predicate PageCleared(store: Store, swept: Store, page: seq<JobId>, now: int)
    requires forall i :: 0 <= i < |page| ==> page[i] < |store.jobs|
  {
    && |swept.jobs| == |store.jobs|
    && (forall i :: 0 <= i < |page| ==> !HasExpiredHold(swept.jobs[page[i]], now))
    && (forall j :: 0 <= j < |store.jobs| && j !in page ==> swept.jobs[j] == store.jobs[j])
  }

  lemma ClearedOn(store: Store, next: Store, swept: Store, page: seq<JobId>, now: int)
    requires page != [] && (forall i, j :: 0 <= i < j < |page| ==> page[i] != page[j])
    requires forall i :: 0 <= i < |page| ==> page[i] < |store.jobs|
    requires |next.jobs| == |store.jobs| && next.jobs == store.jobs[page[0] := next.jobs[page[0]]]
    requires !HasExpiredHold(next.jobs[page[0]], now) && PageCleared(next, swept, page[1..], now)
    ensures PageCleared(store, swept, page, now)
  {
    assert page[0] !in page[1..];
    forall i | 0 <= i < |page|
      ensures !HasExpiredHold(swept.jobs[page[i]], now)
    {
      if i > 0 {
        assert !HasExpiredHold(swept.jobs[page[1..][i - 1]], now);
      }
    }
    forall j | 0 <= j < |store.jobs| && j !in page
      ensures swept.jobs[j] == store.jobs[j]
    {
      assert j != page[0] && j !in page[1..];
    }
  }

  /** One sweep clears exactly the jobs on its page and leaves every other job as it was. */
  lemma {:induction false} SweepClearsPage(store: Store, page: seq<JobId>, now: int)
    requires Inv(store) && ExpiryPage(store, page, now)
    ensures ReconcileExpired(store, page, now).Ok?
    ensures var swept := ReconcileExpired(store, page, now).value;
            && Inv(swept) && PageCleared(store, swept, page, now)
            && Total(swept.jobs, ExpiredHolds(now)) == Total(store.jobs, ExpiredHolds(now)) - |page|
    decreases |page|
  {
    if page != [] {
      SweepStep(store, page, now);
      var posting := ReconcileJob(store.buckets, store.jobs[page[0]], now).value;
      var next := Replace(store, page[0], posting.dossier).(buckets := posting.buckets);
      SweepClearsPage(next, page[1..], now);
      ClearedOn(store, next, ReconcileExpired(next, page[1..], now).value, page, now);
    }
  }

  /** Jobs on a page that no worker holds. */
  function Unheld(jobs: seq<Dossier>, page: seq<JobId>, now: int): nat {
    if page == [] then 0
    else (if page[0] < |jobs| && !HeldByWorker(jobs[page[0]].job, now) then 1 else 0) + Unheld(jobs, page[1..], now)
  }

  lemma {:induction false} UnheldAgree(jobs: seq<Dossier>, jobs': seq<Dossier>, page: seq<JobId>, now: int)
    requires |jobs| == |jobs'| && forall i :: 0 <= i < |page| && page[i] < |jobs| ==> jobs[page[i]] == jobs'[page[i]]
    ensures Unheld(jobs, page, now) == Unheld(jobs', page, now)
  {
    if page != [] {
      UnheldAgree(jobs, jobs', page[1..], now);
    }
  }

  /** The sweep reports the jobs of its page that no worker held when it began. */
  lemma {:induction false} SweepReports(store: Store, page: seq<JobId>, now: int)
    requires Inv(store) && ExpiryPage(store, page, now)
    ensures ClosedCount(store, page, now) == Unheld(store.jobs, page, now)
    decreases |page|
  {
    if page != [] {
      SweepStep(store, page, now);
      var posting := ReconcileJob(store.buckets, store.jobs[page[0]], now).value;
      var next := Replace(store, page[0], posting.dossier).(buckets := posting.buckets);
      SweepReports(next, page[1..], now);
      UnheldAgree(store.jobs, next.jobs, page[1..], now);
    }
  }

  /** Repeated sweeps at one instant end with no expired reservation open, after at most as
      many sweeps as there were jobs with one. */
  lemma {:induction false} SweepsFinish(store: Store, pages: seq<seq<JobId>>, now: int)
    requires Inv(store) && SweepPages(store, pages, now)
    requires |pages| >= Total(store.jobs, ExpiredHolds(now))
    ensures forall i :: 0 <= i < |Sweep(store, pages, now).jobs| ==>
            !HasExpiredHold(Sweep(store, pages, now).jobs[i], now)
    decreases |pages|
  {
    if Total(store.jobs, ExpiredHolds(now)) <= 0 && pages == [] {
      forall i | 0 <= i < |store.jobs|
        ensures !HasExpiredHold(store.jobs[i], now)
      {
        TotalCovers(store.jobs, i, ExpiredHolds(now));
      }
    } else {
      SweepClearsPage(store, pages[0], now);
      SweepsFinish(ReconcileExpired(store, pages[0], now).value, pages[1..], now);
    }
  }

  // ---------------------------------------------------------------- coverage

  /** What a job may still be charged without raising. */
  function Covered(job: Job): nat {
    Max(job.bytesTransferred, job.totalBytes.GetOr<nat>(0))
  }

  /** Failing a running job raises exactly when the reported bytes exceed an open ingress
      reservation. */
  lemma FailRaisesIff(store: Store, id: JobId, actual: nat)
    requires Inv(store) && id < |store.jobs| && IsRunning(store.jobs[id].job.status)
    ensures FailLocked(store, id, actual).Ok? <==>
            forall i :: 0 <= i < |store.jobs[id].reservations|
                        && store.jobs[id].reservations[i].bucket.dimension == Ingress ==>
                          actual <= store.jobs[id].reservations[i].amount
  {
    var d := store.jobs[id];
    ActiveIsOpen(d);
    OpenRowsBacked(store, id);
    SettleSucceedsIff(store.buckets, d.reservations, actual, false);
    forall i | 0 <= i < |d.reservations|
      ensures d.reservations[i].amount > 0
    {
      assert Accounted(d.reservations[i]);
    }
  }

  /** Completing a download raises exactly when the size exceeds an open byte reservation. */
  lemma CompletionRaisesIff(store: Store, id: JobId, size: nat, now: int)
    requires Inv(store) && id < |store.jobs|
    requires IsRunning(store.jobs[id].job.status) && IsDownload(store.jobs[id].job.jobType)
    ensures FinishDownload(store.buckets, store.jobs[id], size, now).Ok? <==>
            forall i :: 0 <= i < |store.jobs[id].reservations|
                        && store.jobs[id].reservations[i].bucket.dimension != JobCount ==>
                          size <= store.jobs[id].reservations[i].amount
  {
    var d := store.jobs[id];
    ActiveIsOpen(d);
    OpenRowsBacked(store, id);
    StoreDownloadShape(d, size, now);
    SettleSucceedsIff(store.buckets, d.reservations, size, true);
    forall i | 0 <= i < |d.reservations|
      ensures d.reservations[i].bucket.dimension == JobCount ==> d.reservations[i].amount == 1
    {
      assert RowCovers(d.job, d.reservations[i]);
    }
  }

  /** Whatever was declared or reported can be charged: neither ending raises. */
  lemma CoveredBytesFinish(store: Store, id: JobId, actual: nat, now: int)
    requires Inv(store) && id < |store.jobs| && IsRunning(store.jobs[id].job.status)
    requires actual <= Covered(store.jobs[id].job)
    ensures FailLocked(store, id, actual).Ok?
    ensures IsDownload(store.jobs[id].job.jobType) ==> FinishDownload(store.buckets, store.jobs[id], actual, now).Ok?
  {
    var d := store.jobs[id];
    ActiveIsOpen(d);
    forall i | 0 <= i < |d.reservations| && d.reservations[i].bucket.dimension != JobCount
      ensures actual <= d.reservations[i].amount
    {
      assert RowCovers(d.job, d.reservations[i]);
    }
    FailRaisesIff(store, id, actual);
    if IsDownload(d.job.jobType) {
      CompletionRaisesIff(store, id, actual, now);
    }
  }

  /** Bytes once transferred stay covered for as long as the job runs, whatever else happens. */
  lemma TransferredBytesFinish(sys: System, run: seq<Event>, id: JobId, actual: nat, now: int)
    requires Inv(sys.store) && LegalRun(sys, run) && id < |sys.store.jobs|
    requires actual <= sys.store.jobs[id].job.bytesTransferred
    requires id < |Exec(sys, run).store.jobs| && IsRunning(Exec(sys, run).store.jobs[id].job.status)
    ensures var store := Exec(sys, run).store;
            && FailLocked(store, id, actual).Ok?
            && (IsDownload(store.jobs[id].job.jobType) ==>
                FinishDownload(store.buckets, store.jobs[id], actual, now).Ok?)
  {
    RunKeeps(sys, run);
    RunEvolves(sys, run);
    assert Follows(sys.store.jobs[id], Exec(sys, run).store.jobs[id]);
    CoveredBytesFinish(Exec(sys, run).store, id, actual, now);
  }

  /** A heartbeat that reports `bytes` for a job. */
  function Report(id: JobId, generation: nat, lease: Digest, bytes: nat, percent: Option<int>,
                  expected: Option<JobType>, now: int): Event
  {
    Event(now, HeartbeatCall(id, generation, lease, Some(Progress(Some(bytes), percent)), expected))
  }

  lemma AcceptedReportRecorded(sys: System, id: JobId, generation: nat, lease: Digest, bytes: nat, percent: Option<int>,
                               expected: Option<JobType>, now: int)
    requires var r := Heartbeat(sys.store, id, generation, lease, Some(Progress(Some(bytes), percent)), expected, now);
             r.Ok? && r.value.1
    ensures var after := Apply(sys, Report(id, generation, lease, bytes, percent, expected, now)).store;
            id < |after.jobs| && bytes <= after.jobs[id].job.bytesTransferred
  {
  }

  /** Once a heartbeat reporting `bytes` is accepted, then at any later point of any run the
      job can be finished with at most that many bytes without a quota error. */
  lemma ReportedBytesFinish(sys: System, id: JobId, generation: nat, lease: Digest, bytes: nat, percent: Option<int>,
                            expected: Option<JobType>, now: int, run: seq<Event>, actual: nat, later: int)
    requires Inv(sys.store)
    requires var r := Heartbeat(sys.store, id, generation, lease, Some(Progress(Some(bytes), percent)), expected, now);
             r.Ok? && r.value.1
    requires LegalRun(Apply(sys, Report(id, generation, lease, bytes, percent, expected, now)), run)
    requires var store := Exec(Apply(sys, Report(id, generation, lease, bytes, percent, expected, now)), run).store;
             id < |store.jobs| && IsRunning(store.jobs[id].job.status)
    requires actual <= bytes
    ensures var store := Exec(Apply(sys, Report(id, generation, lease, bytes, percent, expected, now)), run).store;
            && FailLocked(store, id, actual).Ok?
            && (IsDownload(store.jobs[id].job.jobType) ==>
                FinishDownload(store.buckets, store.jobs[id], actual, later).Ok?)
  {
    var e := Report(id, generation, lease, bytes, percent, expected, now);
    StepKeeps(sys, e);
    AcceptedReportRecorded(sys, id, generation, lease, bytes, percent, expected, now);
    TransferredBytesFinish(Apply(sys, e), run, id, actual, later);
  }

  // ---------------------------------------------------------------- storage agreement

  ghost predicate HasRow(rows: seq<Reservation>, dimension: Dimension, kind: WindowKind) {
    exists i :: 0 <= i < |rows| && rows[i].bucket.dimension == dimension && rows[i].bucket.window.kind == kind
  }

  /** Every job the user submitted reserved storage. */
  ghost predicate AllReserve(jobs: seq<Dossier>, user: UserId, dimension: Dimension, kind: WindowKind) {
    forall i :: 0 <= i < |jobs| && jobs[i].job.user == user && jobs[i].job.source != Internal ==>
                  HasRow(jobs[i].reservations, dimension, kind)
  }

  function QuotaFor(plan: Plan, dimension: Dimension, kind: WindowKind): Option<int> {
    match (dimension, kind)
    case (Ingress, Hourly) => plan.hourlyQuota
    case (Ingress, Daily) => plan.dailyQuota
    case (Ingress, Weekly) => plan.weeklyQuota
    case (JobCount, Daily) => plan.maxFilesPerWindow
    case (Storage, Lifetime) => plan.storageQuota
    case _ => None
  }

  /** Every admission of the user in the run is under a plan that sets this quota. */
  predicate PlansSet(run: seq<Event>, user: UserId, dimension: Dimension, kind: WindowKind) {
    forall i :: 0 <= i < |run| && run[i].op.Admission? && run[i].op.req.user == user ==>
                  run[i].op.plan.Some? && QuotaFor(run[i].op.plan.value, dimension, kind).Some?
  }

  lemma SpecifiedWhenSet(user: UserId, plan: Plan, bytes: int, now: int, dimension: Dimension, kind: WindowKind)
    requires QuotaFor(plan, dimension, kind).Some?
    ensures exists i :: 0 <= i < |Specifications(user, plan, bytes, now)|
                        && Specifications(user, plan, bytes, now)[i].key
                           == BucketKey(user, dimension, QuotaWindow(kind, now))
  {
    var d := Specify(user, Ingress, Daily, plan.dailyQuota, bytes, now);
    var h := Specify(user, Ingress, Hourly, plan.hourlyQuota, bytes, now);
    var w := Specify(user, Ingress, Weekly, plan.weeklyQuota, bytes, now);
    var c := Specify(user, JobCount, Daily, plan.maxFilesPerWindow, 1, now);
    var specs := Specifications(user, plan, bytes, now);
    var at := match (dimension, kind)
              case (Ingress, Daily) => 0
              case (Ingress, Hourly) => |d|
              case (Ingress, Weekly) => |d + h|
              case (JobCount, Daily) => |d + h + w|
              case _ => |d + h + w + c|;
    assert specs[at].key == BucketKey(user, dimension, QuotaWindow(kind, now));
  }

  lemma RowsPersist(store: Store, store': Store, user: UserId, dimension: Dimension, kind: WindowKind)
    requires Evolves(store, store') && AllReserve(store.jobs, user, dimension, kind)
    requires forall i :: |store.jobs| <= i < |store'.jobs| && store'.jobs[i].job.user == user
                         && store'.jobs[i].job.source != Internal ==>
                           HasRow(store'.jobs[i].reservations, dimension, kind)
    ensures AllReserve(store'.jobs, user, dimension, kind)
  {
    forall i | 0 <= i < |store'.jobs| && store'.jobs[i].job.user == user && store'.jobs[i].job.source != Internal
      ensures HasRow(store'.jobs[i].reservations, dimension, kind)
    {
      if i < |store.jobs| {
        assert Follows(store.jobs[i], store'.jobs[i]);
        var r :| 0 <= r < |store.jobs[i].reservations| && store.jobs[i].reservations[r].bucket.dimension == dimension
                 && store.jobs[i].reservations[r].bucket.window.kind == kind;
        assert store'.jobs[i].reservations[r].bucket == store.jobs[i].reservations[r].bucket;
      }
    }
  }

  lemma AdmittedReserves(store: Store, req: Intake, settings: IntakeSettings, plan: Option<Plan>, now: int,
                         dimension: Dimension, kind: WindowKind)
    requires Admit(store, req, settings, plan, now).Ok? && !KeyUsed(store.jobs, req.key)
    requires plan.Some? && QuotaFor(plan.value, dimension, kind).Some?
    ensures HasRow(Admit(store, req, settings, plan, now).value.jobs[|store.jobs|].reservations, dimension, kind)
  {
    var specs := Specifications(req.user, plan.value, req.estimatedBytes, now);
    ReserveEffect(store.buckets, specs, now);
    SpecifiedWhenSet(req.user, plan.value, req.estimatedBytes, now, dimension, kind);
    var i :| 0 <= i < |specs| && specs[i].key == BucketKey(req.user, dimension, QuotaWindow(kind, now));
    var rows := Admit(store, req, settings, plan, now).value.jobs[|store.jobs|].reservations;
    assert rows[i].bucket == specs[i].key;
  }

  lemma {:induction false} RunReserves(sys: System, run: seq<Event>, user: UserId, dimension: Dimension,
                                       kind: WindowKind)
    requires Inv(sys.store) && LegalRun(sys, run) && PlansSet(run, user, dimension, kind)
    requires AllReserve(sys.store.jobs, user, dimension, kind)
    ensures AllReserve(Exec(sys, run).store.jobs, user, dimension, kind)
    decreases |run|
  {
    if run != [] {
      var next := Apply(sys, run[0]);
      StepKeeps(sys, run[0]);
      StepEvolves(sys, run[0]);
      StepReserves(sys, run[0], user, dimension, kind);
      assert PlansSet(run[1..], user, dimension, kind);
      RunReserves(next, run[1..], user, dimension, kind);
    }
  }

  lemma StepReserves(sys: System, e: Event, user: UserId, dimension: Dimension, kind: WindowKind)
    requires Evolves(sys.store, Apply(sys, e).store)
    requires e.op.Admission? && e.op.req.user == user ==>
               e.op.plan.Some? && QuotaFor(e.op.plan.value, dimension, kind).Some?
    requires AllReserve(sys.store.jobs, user, dimension, kind)
    ensures AllReserve(Apply(sys, e).store.jobs, user, dimension, kind)
  {
    var next := Apply(sys, e).store;
    if !e.op.Admission? {
      OnlyAdmissionAdds(sys, e);
    } else if Outcome(sys, e).Ok? && !KeyUsed(sys.store.jobs, e.op.req.key) && e.op.req.user == user {
      AdmittedReserves(sys.store, e.op.req, e.op.settings, e.op.plan, e.now, dimension, kind);
    }
    RowsPersist(sys.store, next, user, dimension, kind);
  }

  const LIFETIME := Window(Lifetime, LIFETIME_START, LIFETIME_END)

  lemma {:induction false} SpentElsewhere(rows: seq<Reservation>, key: BucketKey)
    requires forall i :: 0 <= i < |rows| ==> rows[i].bucket != key || rows[i].consumed == 0
    ensures Spent(rows, key) == 0
  {
    if rows != [] {
      SpentElsewhere(rows[1..], key);
    }
  }

  /** With distinct buckets, one row is all there is to a bucket. */
  lemma {:induction false} SpentByOneRow(rows: seq<Reservation>, i: nat)
    requires i < |rows| && DistinctBuckets(rows)
    ensures Spent(rows, rows[i].bucket) == rows[i].consumed
    ensures Held(rows, rows[i].bucket) == HeldBy(rows[i], rows[i].bucket)
  {
    if i == 0 {
      NothingElsewhere(rows[1..], rows[0].bucket);
    } else {
      assert rows[1..][i - 1] == rows[i];
      SpentByOneRow(rows[1..], i - 1);
      assert rows[0].bucket != rows[i].bucket;
    }
  }

  lemma {:induction false} NothingElsewhere(rows: seq<Reservation>, key: BucketKey)
    requires forall i :: 0 <= i < |rows| ==> rows[i].bucket != key
    ensures Spent(rows, key) == 0 && Held(rows, key) == 0
  {
    if rows != [] {
      NothingElsewhere(rows[1..], key);
    }
  }

  lemma StoredMatchesSpent(d: Dossier, user: UserId)
    requires Sound(d)
    requires d.job.user == user && d.job.source != Internal ==> HasRow(d.reservations, Storage, Lifetime)
    ensures Weight(SpentIn(BucketKey(user, Storage, LIFETIME)), d) == Weight(StoredBy(user), d)
  {
    var key := BucketKey(user, Storage, LIFETIME);
    var rows := d.reservations;
    RowsAreKeyed(d);
    if d.job.user != user || d.job.source == Internal {
      NothingElsewhere(rows, key);
    } else {
      var i :| 0 <= i < |rows| && rows[i].bucket.dimension == Storage && rows[i].bucket.window.kind == Lifetime;
      assert rows[i].bucket == key;
      SpentByOneRow(rows, i);
      StorageRowCharge(d, i);
    }
  }

  lemma RowsAreKeyed(d: Dossier)
    requires Sound(d)
    ensures forall i :: 0 <= i < |d.reservations| ==> RowKeyed(d.job, d.reservations[i])
    ensures DistinctBuckets(d.reservations)
    ensures d.job.source == Internal ==> d.files == [] && d.reservations == []
  {
  }

  lemma StorageRowCharge(d: Dossier, i: nat)
    requires Sound(d) && i < |d.reservations| && d.reservations[i].bucket.dimension == Storage
    ensures d.reservations[i].consumed == FileBytes(d.files)
  {
    if |d.files| == 1 {
      assert d.files[1..] == [];
    }
  }

  /** For a user whose plans set a storage quota, the lifetime storage bucket has committed
      exactly the bytes of the files created for that user, after any run. */
  lemma StorageAgrees(run: seq<Event>, user: UserId)
    requires LegalRun(EMPTY, run) && PlansSet(run, user, Storage, Lifetime)
    ensures var store := Exec(EMPTY, run).store;
            CommittedAt(store.buckets, BucketKey(user, Storage, LIFETIME)) == Total(store.jobs, StoredBy(user))
  {
    RunKeeps(EMPTY, run);
    RunReserves(EMPTY, run, user, Storage, Lifetime);
    var store := Exec(EMPTY, run).store;
    var key := BucketKey(user, Storage, LIFETIME);
    forall i | 0 <= i < |store.jobs|
      ensures Weight(SpentIn(key), store.jobs[i]) == Weight(StoredBy(user), store.jobs[i])
    {
      StoredMatchesSpent(store.jobs[i], user);
    }
    TotalsAgree(store.jobs, SpentIn(key), StoredBy(user));
  }
}
