/** Lane choice, aged priority and selection (app/dispatcher/service.py:18-158). */
module Dispatcher {
  import opened Base
  import opened FloorDivision
  import opened QuotaLedger
  import opened JobModel
  import opened JobTotals
  import opened JobProtocol

  datatype Tuning = Tuning(agingStep: int, maxNormalWait: int, maxConsecutiveVip: nat)

  /** The committed store and the dispatcher's in-memory lane counters. */
  datatype System = System(store: Store, consecutiveVip: map<JobType, nat>)

  function VipRun(sys: System, jobType: JobType): nat {
    if jobType in sys.consecutiveVip then sys.consecutiveVip[jobType] else 0
  }

  function ChooseLane(oldestNormal: Option<int>, now: int, consecutiveVip: nat, tuning: Tuning): Lane {
    if || (oldestNormal.Some? && now - oldestNormal.value >= tuning.maxNormalWait * SECOND)
       || consecutiveVip >= tuning.maxConsecutiveVip
    then Normal
    else Vip
  }

  predicate Eligible(job: Job, jobType: JobType, lane: Lane) {
    job.status == Queued && job.jobType == jobType && job.lane == lane
  }

  /** The earliest queue time of a normal job that may still be attempted. */
  function OldestNormal(jobs: seq<Dossier>, jobType: JobType): (oldest: Option<int>)
    ensures oldest.Some? ==> exists i :: 0 <= i < |jobs| && Eligible(jobs[i].job, jobType, Normal)
                                         && jobs[i].job.attemptCount < jobs[i].job.maxAttempts
                                         && jobs[i].job.queuedAt == oldest.value
    ensures forall i :: 0 <= i < |jobs| && Eligible(jobs[i].job, jobType, Normal)
                        && jobs[i].job.attemptCount < jobs[i].job.maxAttempts ==>
                          oldest.Some? && oldest.value <= jobs[i].job.queuedAt
  {
    if jobs == [] then None
    else
      var rest := OldestNormal(jobs[..|jobs| - 1], jobType);
      var job := jobs[|jobs| - 1].job;
      if Eligible(job, jobType, Normal) && job.attemptCount < job.maxAttempts
         && (rest.None? || job.queuedAt < rest.value)
      then Some(job.queuedAt) else rest
  }

  /** Microseconds per aging step. */
  function StepLength(agingStep: int): (length: int)
    ensures length >= SECOND
  {
    Max(1, agingStep) * SECOND
  }

  /** Base priority plus one for every full aging step waited. */
  function Score(job: Job, now: int, agingStep: int): int {
    job.basePriority + (now - job.queuedAt) / StepLength(agingStep)
  }

  /** Higher score first, then the earlier queue time. */
  predicate Before(a: Job, b: Job, now: int, agingStep: int) {
    var x, y := Score(a, now, agingStep), Score(b, now, agingStep);
    x > y || (x == y && a.queuedAt < b.queuedAt)
  }

  /** The first eligible job in (score desc, queue time, id) order. */
  function SelectLane(jobs: seq<Dossier>, jobType: JobType, lane: Lane, now: int, agingStep: int)
    : (selected: Option<JobId>)
    ensures selected.Some? ==> selected.value < |jobs| && Eligible(jobs[selected.value].job, jobType, lane)
    ensures forall i :: 0 <= i < |jobs| && Eligible(jobs[i].job, jobType, lane) ==>
                          selected.Some? && !Before(jobs[i].job, jobs[selected.value].job, now, agingStep)
    ensures forall i :: 0 <= i < |jobs| && Eligible(jobs[i].job, jobType, lane) && i < selected.GetOr<nat>(0) ==>
                          Before(jobs[selected.value].job, jobs[i].job, now, agingStep)
  {
    if jobs == [] then None
    else
      var last := |jobs| - 1;
      var rest := SelectLane(jobs[..last], jobType, lane, now, agingStep);
      if Eligible(jobs[last].job, jobType, lane)
         && (rest.None? || Before(jobs[last].job, jobs[rest.value].job, now, agingStep))
      then Some(last) else rest
  }

  function Other(lane: Lane): Lane {
    if lane == Normal then Vip else Normal
  }

  /** The job `dispatch_one` takes: the preferred lane first, the other if it is empty. */
  function Selection(sys: System, jobType: JobType, tuning: Tuning, now: int): (selected: Option<JobId>)
    ensures selected.Some? ==> selected.value < |sys.store.jobs|
                               && sys.store.jobs[selected.value].job.status == Queued
                               && sys.store.jobs[selected.value].job.jobType == jobType
    ensures selected.None? ==> forall i :: 0 <= i < |sys.store.jobs| ==>
                                 !(sys.store.jobs[i].job.status == Queued && sys.store.jobs[i].job.jobType == jobType)
  {
    var jobs := sys.store.jobs;
    var lane := ChooseLane(OldestNormal(jobs, jobType), now, VipRun(sys, jobType), tuning);
    var preferred := SelectLane(jobs, jobType, lane, now, tuning.agingStep);
    if preferred.Some? then preferred else SelectLane(jobs, jobType, Other(lane), now, tuning.agingStep)
  }

  /** The lane rules settle which lane is served while it has work: normal once its oldest
      job has waited too long or the VIP run is used up, VIP otherwise. The job taken is the
      first of its lane by score, queue time and id. */
  lemma SelectionIsBest(sys: System, jobType: JobType, tuning: Tuning, now: int)
    requires Selection(sys, jobType, tuning, now).Some?
    ensures var jobs, k := sys.store.jobs, Selection(sys, jobType, tuning, now).value;
            var chosen := jobs[k].job;
            && (forall i :: 0 <= i < |jobs| && Eligible(jobs[i].job, jobType, chosen.lane) ==>
                  && !Before(jobs[i].job, chosen, now, tuning.agingStep)
                  && (i < k ==> Before(chosen, jobs[i].job, now, tuning.agingStep)))
            && (chosen.lane == Vip && (exists i :: 0 <= i < |jobs| && Eligible(jobs[i].job, jobType, Normal)) ==>
                  && VipRun(sys, jobType) < tuning.maxConsecutiveVip
                  && forall i :: 0 <= i < |jobs| && Eligible(jobs[i].job, jobType, Normal)
                                 && jobs[i].job.attemptCount < jobs[i].job.maxAttempts ==>
                                   now - jobs[i].job.queuedAt < tuning.maxNormalWait * SECOND)
            && (chosen.lane == Normal && (exists i :: 0 <= i < |jobs| && Eligible(jobs[i].job, jobType, Vip)) ==>
                  || VipRun(sys, jobType) >= tuning.maxConsecutiveVip
                  || exists i :: 0 <= i < |jobs| && Eligible(jobs[i].job, jobType, Normal)
                                 && jobs[i].job.attemptCount < jobs[i].job.maxAttempts
                                 && now - jobs[i].job.queuedAt >= tuning.maxNormalWait * SECOND)
  {
    var jobs := sys.store.jobs;
    var oldest := OldestNormal(jobs, jobType);
    var lane := ChooseLane(oldest, now, VipRun(sys, jobType), tuning);
    var preferred := SelectLane(jobs, jobType, lane, now, tuning.agingStep);
    var other := SelectLane(jobs, jobType, Other(lane), now, tuning.agingStep);
    assert Selection(sys, jobType, tuning, now) == if preferred.Some? then preferred else other;
  }

  /** Whole aging steps in the whole seconds waited, as the service records it. */
  function AgingBonus(job: Job, now: int, agingStep: int): int {
    Max(0, (now - job.queuedAt) / SECOND) / Max(1, agingStep)
  }

  function CountLane(sys: System, jobType: JobType, lane: Lane): map<JobType, nat> {
    sys.consecutiveVip[jobType := if lane == Vip then VipRun(sys, jobType) + 1 else 0]
  }

  function DispatchSelected(sys: System, id: JobId, bonus: int, lease: Digest, leaseExpiresAt: int, now: int)
    : Result<(System, Option<JobId>)>
    requires id < |sys.store.jobs|
  {
    var d := sys.store.jobs[id];
    var dispatched :- DispatchJob(d, bonus, lease, leaseExpiresAt, now);
    Ok((System(Replace(sys.store, id, dispatched), CountLane(sys, d.job.jobType, d.job.lane)), Some(id)))
  }

  /** `dispatch_one`. */
  function DispatchOne(sys: System, jobType: JobType, tuning: Tuning, lease: Digest, leaseSeconds: int, now: int)
    : Result<(System, Option<JobId>)>
  {
    var selected := Selection(sys, jobType, tuning, now);
    if selected.None? then Ok((sys, None))
    else
      DispatchSelected(sys, selected.value, AgingBonus(sys.store.jobs[selected.value].job, now, tuning.agingStep),
                       lease, now + leaseSeconds * SECOND, now)
  }

  /** The priority recorded at dispatch is the score the selection ordered by. */
  lemma RecordedPriorityIsScore(job: Job, now: int, agingStep: int)
    requires job.queuedAt <= now
    ensures job.basePriority + AgingBonus(job, now, agingStep) == Score(job, now, agingStep)
  {
    DivBounds(now - job.queuedAt, SECOND);
    DivTwice(now - job.queuedAt, SECOND, Max(1, agingStep));
    assert StepLength(agingStep) == SECOND * Max(1, agingStep);
  }
}
