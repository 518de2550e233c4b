/** The queue position told to a user (app/services/admission.py:154-173): a rank by stored
    priority and queue time, over both lanes of the job's type. */
module QueuePosition {
  import opened Base
  import opened JobModel
  import opened JobTotals

  /** Counted before the other job: higher stored priority, or the same and queued earlier. */
  predicate Ahead(a: Job, b: Job) {
    || a.effectivePriority > b.effectivePriority
    || (a.effectivePriority == b.effectivePriority && a.queuedAt < b.queuedAt)
  }

  predicate Counted(a: Job, b: Job) {
    a.status == Queued && a.jobType == b.jobType && Ahead(a, b)
  }

  /** How many jobs count as ahead of one. */
  function CountAhead(jobs: seq<Dossier>, job: Job): nat {
    if jobs == [] then 0
    else CountAhead(jobs[..|jobs| - 1], job) + (if Counted(jobs[|jobs| - 1].job, job) then 1 else 0)
  }

  /** `queue_position`: 0 for a job that is not queued. */
  function Position(jobs: seq<Dossier>, job: Job): nat {
    if job.status != Queued then 0 else CountAhead(jobs, job) + 1
  }

  /** Whoever is ahead of the one is ahead of the other. */
  lemma {:induction false} CountsOrdered(jobs: seq<Dossier>, a: Job, b: Job)
    requires forall i :: 0 <= i < |jobs| && Counted(jobs[i].job, a) ==> Counted(jobs[i].job, b)
    ensures CountAhead(jobs, a) <= CountAhead(jobs, b)
  {
    if jobs != [] {
      CountsOrdered(jobs[..|jobs| - 1], a, b);
    }
  }

  /** ... and strictly more are ahead of the other if someone is ahead of it alone. */
  lemma {:induction false} CountsRise(jobs: seq<Dossier>, a: Job, b: Job, k: nat)
    requires forall i :: 0 <= i < |jobs| && Counted(jobs[i].job, a) ==> Counted(jobs[i].job, b)
    requires k < |jobs| && Counted(jobs[k].job, b) && !Counted(jobs[k].job, a)
    ensures CountAhead(jobs, a) < CountAhead(jobs, b)
  {
    var last := |jobs| - 1;
    if k == last {
      CountsOrdered(jobs[..last], a, b);
    } else {
      CountsRise(jobs[..last], a, b, k);
    }
  }

  /** Positions rank the queue of a type: of two queued jobs the one told the smaller number
      is exactly the one ahead, and equal numbers mean equal priority and queue time. */
  lemma PositionsRank(jobs: seq<Dossier>, i: nat, j: nat)
    requires i < |jobs| && j < |jobs| && jobs[i].job.jobType == jobs[j].job.jobType
    requires jobs[i].job.status == Queued && jobs[j].job.status == Queued
    ensures var a, b := jobs[i].job, jobs[j].job;
            && (Position(jobs, a) < Position(jobs, b) <==> Ahead(a, b))
            && (Position(jobs, a) == Position(jobs, b) <==>
                  a.effectivePriority == b.effectivePriority && a.queuedAt == b.queuedAt)
  {
    var a, b := jobs[i].job, jobs[j].job;
    if Ahead(a, b) {
      CountsRise(jobs, a, b, i);
    } else if Ahead(b, a) {
      CountsRise(jobs, b, a, j);
    } else {
      CountsOrdered(jobs, a, b);
      CountsOrdered(jobs, b, a);
    }
  }

  lemma {:induction false} CountWithin(jobs: seq<Dossier>, job: Job)
    ensures CountAhead(jobs, job) <= Total(jobs, QueuedFor(job.jobType))
    ensures job.status == Queued && (exists i :: 0 <= i < |jobs| && jobs[i].job == job) ==>
              CountAhead(jobs, job) < Total(jobs, QueuedFor(job.jobType))
  {
    if jobs != [] {
      var last := |jobs| - 1;
      CountWithin(jobs[..last], job);
      if i :| 0 <= i < |jobs| && jobs[i].job == job {
        assert i < last ==> jobs[..last][i].job == job;
      }
    }
  }

  /** A queued job's position lies between one and the number of queued jobs of its type. */
  lemma PositionWithin(jobs: seq<Dossier>, i: nat)
    requires i < |jobs| && jobs[i].job.status == Queued
    ensures 1 <= Position(jobs, jobs[i].job) <= Total(jobs, QueuedFor(jobs[i].job.jobType))
  {
    CountWithin(jobs, jobs[i].job);
  }
}
