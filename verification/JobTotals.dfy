/** Sums and counts over all dossiers, by what they measure. */
module JobTotals {
  import opened Base
  import opened QuotaWindows
  import opened QuotaLedger
  import opened JobModel

  datatype Measure =
    | OpenIn(key: BucketKey)                          // amount reserved and not yet reconciled
    | SpentIn(key: BucketKey)                         // amount consumed
    | DebitedIn(key: BucketKey)                       // amount on usage records
    | ActiveOf(user: UserId)                          // jobs in an active state
    | IntakeOf(user: UserId)                          // ... that the user submitted
    | StoredBy(user: UserId)                          // bytes of files created
    | QueuedFor(jobType: JobType)                     // jobs waiting for dispatch
    | NormalFor(jobType: JobType)                     // normal-lane jobs waiting for dispatch
    | NormalBefore(jobType: JobType, mark: int)       // ... that were queued before an instant
    | ExpiredHolds(now: int)                          // jobs with an expired open reservation
    | CompletedIn(user: UserId, day: Window)          // completed downloads admitted on a day

  predicate HoldExpired(r: Reservation, now: int) {
    r.state == Active && r.expiresAt <= now
  }

  predicate HasExpiredHold(d: Dossier, now: int) {
    exists i :: 0 <= i < |d.reservations| && HoldExpired(d.reservations[i], now)
  }

  function FileBytes(files: seq<File>): nat {
    if files == [] then 0 else files[0].size + FileBytes(files[1..])
  }

  predicate WaitsNormal(job: Job, jobType: JobType) {
    job.status == Queued && job.jobType == jobType && job.lane == Normal
  }

  predicate CompletedOn(job: Job, user: UserId, day: Window) {
    job.user == user && job.source != Internal && job.status == Completed && QuotaWindow(Daily, job.createdAt) == day
  }

  function Weight(m: Measure, d: Dossier): int {
    match m
    case OpenIn(key) => Held(d.reservations, key)
    case SpentIn(key) => Spent(d.reservations, key)
    case DebitedIn(key) => Debited(d.usage, key)
    case ActiveOf(user) => if d.job.user == user && IsActive(d.job.status) then 1 else 0
    case IntakeOf(user) => if d.job.user == user && IsActive(d.job.status) && d.job.source != Internal then 1 else 0
    case StoredBy(user) => if d.job.user == user then FileBytes(d.files) else 0
    case QueuedFor(jobType) => if d.job.status == Queued && d.job.jobType == jobType then 1 else 0
    case NormalFor(jobType) => if WaitsNormal(d.job, jobType) then 1 else 0
    case NormalBefore(jobType, mark) => if WaitsNormal(d.job, jobType) && d.job.queuedAt < mark then 1 else 0
    case ExpiredHolds(now) => if HasExpiredHold(d, now) then 1 else 0
    case CompletedIn(user, day) => if CompletedOn(d.job, user, day) then 1 else 0
  }

  function Total(jobs: seq<Dossier>, m: Measure): int {
    if jobs == [] then 0 else Total(jobs[..|jobs| - 1], m) + Weight(m, jobs[|jobs| - 1])
  }

  lemma TotalAppend(jobs: seq<Dossier>, d: Dossier, m: Measure)
    ensures Total(jobs + [d], m) == Total(jobs, m) + Weight(m, d)
  {
    assert (jobs + [d])[..|jobs|] == jobs;
  }

  lemma {:induction false} TotalReplace(jobs: seq<Dossier>, id: JobId, d: Dossier, m: Measure)
    requires id < |jobs|
    ensures Total(jobs[id := d], m) == Total(jobs, m) - Weight(m, jobs[id]) + Weight(m, d)
  {
    var last := |jobs| - 1;
    if id == last {
      assert jobs[id := d][..last] == jobs[..last];
    } else {
      TotalReplace(jobs[..last], id, d, m);
      assert jobs[id := d][..last] == jobs[..last][id := d];
    }
  }

  /** Pointwise equal weights give equal totals. */
  lemma {:induction false} TotalsAgree(jobs: seq<Dossier>, m: Measure, n: Measure)
    requires forall i :: 0 <= i < |jobs| ==> Weight(m, jobs[i]) == Weight(n, jobs[i])
    ensures Total(jobs, m) == Total(jobs, n)
  {
    if jobs != [] {
      TotalsAgree(jobs[..|jobs| - 1], m, n);
    }
  }

  /** A total of nonnegative weights is at least any one of them, and at most as much as
      the total of larger weights. */
  lemma {:induction false} TotalCovers(jobs: seq<Dossier>, id: JobId, m: Measure)
    requires id < |jobs|
    requires forall i :: 0 <= i < |jobs| ==> Weight(m, jobs[i]) >= 0
    ensures Weight(m, jobs[id]) <= Total(jobs, m)
  {
    var last := |jobs| - 1;
    TotalNonnegative(jobs[..last], m);
    if id < last {
      TotalCovers(jobs[..last], id, m);
    }
  }

  lemma {:induction false} TotalNonnegative(jobs: seq<Dossier>, m: Measure)
    requires forall i :: 0 <= i < |jobs| ==> Weight(m, jobs[i]) >= 0
    ensures Total(jobs, m) >= 0
  {
    if jobs != [] {
      TotalNonnegative(jobs[..|jobs| - 1], m);
    }
  }

  lemma {:induction false} TotalsOrdered(jobs: seq<Dossier>, m: Measure, n: Measure)
    requires forall i :: 0 <= i < |jobs| ==> Weight(m, jobs[i]) <= Weight(n, jobs[i])
    ensures Total(jobs, m) <= Total(jobs, n)
  {
    if jobs != [] {
      TotalsOrdered(jobs[..|jobs| - 1], m, n);
    }
  }

  /** A positive total has a positive weight somewhere. */
  lemma {:induction false} TotalWitness(jobs: seq<Dossier>, m: Measure) returns (id: JobId)
    requires Total(jobs, m) > 0
    ensures id < |jobs| && Weight(m, jobs[id]) > 0
  {
    var last := |jobs| - 1;
    if Weight(m, jobs[last]) > 0 {
      id := last;
    } else {
      id := TotalWitness(jobs[..last], m);
    }
  }

  lemma RemoveOne(ids: set<JobId>, id: JobId)
    ensures |ids - {id}| == |ids| - if id in ids then 1 else 0
  {
    if id !in ids {
      assert ids - {id} == ids;
    }
  }

  /** A total of ones and zeros is the number of ones. */
  lemma {:induction false} TotalIsCount(jobs: seq<Dossier>, m: Measure, ids: set<JobId>)
    requires forall i :: i in ids ==> i < |jobs|
    requires forall i :: 0 <= i < |jobs| ==> Weight(m, jobs[i]) == if i in ids then 1 else 0
    ensures Total(jobs, m) == |ids|
  {
    if jobs == [] {
      assert ids == {};
    } else {
      var last := |jobs| - 1;
      TotalIsCount(jobs[..last], m, ids - {last});
      RemoveOne(ids, last);
    }
  }
}
