/** The dispatcher and the outbox publisher on an open transaction
    (app/dispatcher/service.py). */
module DispatcherService {
  import opened Base
  import opened QuotaLedger
  import opened JobModel
  import opened Dispatcher
  import opened Sessions
  import P = JobProtocol

  class DispatcherService {
    var consecutiveVip: map<JobType, nat>

    constructor ()
      ensures consecutiveVip == map[]
    {
      consecutiveVip := map[];
    }

    /** The session and the lane counters together. */
    function View(s: Session): System
      reads this, s
    {
      System(s.Contents(), consecutiveVip)
    }

    /** VIP jobs handed out in a row, per type. */
    method CountHandOut(jobType: JobType, lane: Lane)
      modifies this`consecutiveVip
      ensures forall store :: consecutiveVip == CountLane(System(store, old(consecutiveVip)), jobType, lane)
    {
      if lane == Vip {
        var vipRun := if jobType in consecutiveVip then consecutiveVip[jobType] else 0;
        consecutiveVip := consecutiveVip[jobType := vipRun + 1];
      } else {
        consecutiveVip := consecutiveVip[jobType := 0];
      }
    }

    /** The row changes for the selected job, and the lane counter. */
    method HandOut(s: Session, id: JobId, bonus: int, lease: Digest, leaseExpiresAt: int, now: int)
      requires id < |s.jobs| && s.jobs[id].job.status == Queued
      modifies this, s`jobs
      ensures DispatchSelected(old(View(s)), id, bonus, lease, leaseExpiresAt, now) == Ok((View(s), Some(id)))
    {
      var waiting := s.jobs[id].job;
      var moved := s.Move(id, Dispatched);
      assert moved.Ok?;
      s.SetJob(id, s.jobs[id].job.(effectivePriority := waiting.basePriority + bonus,
                                   generation := waiting.generation + 1,
                                   leaseHash := Some(lease),
                                   leaseExpiresAt := Some(leaseExpiresAt)));
      CountHandOut(waiting.jobType, waiting.lane);
      var notice := OutboxEvent(DispatchedNotice(waiting.generation + 1, Some(lease)),
                                JobStream(waiting.jobType, waiting.lane), Unsent, 0, now, None);
      s.jobs := s.jobs[id := s.jobs[id].(outbox := s.jobs[id].outbox + [notice])];
      ghost var spec := P.DispatchJob(old(s.jobs[id]), bonus, lease, leaseExpiresAt, now);
      assert spec.Ok? && s.jobs[id] == spec.value;
      assert s.jobs == old(s.jobs)[id := spec.value];
    }

    method DispatchOne(s: Session, jobType: JobType, tuning: Tuning, lease: Digest, leaseSeconds: int, now: int)
      returns (selected: Option<JobId>)
      modifies this, s`jobs
      ensures Dispatcher.DispatchOne(old(View(s)), jobType, tuning, lease, leaseSeconds, now) == Ok((View(s), selected))
    {
      var oldest := OldestNormal(s.jobs, jobType);
      var vipRun := if jobType in consecutiveVip then consecutiveVip[jobType] else 0;
      var preferred := ChooseLane(oldest, now, vipRun, tuning);
      selected := SelectLane(s.jobs, jobType, preferred, now, tuning.agingStep);
      if selected.None? {
        selected := SelectLane(s.jobs, jobType, Other(preferred), now, tuning.agingStep);
      }
      assert selected == Selection(View(s), jobType, tuning, now);
      if selected.Some? {
        var bonus := AgingBonus(s.jobs[selected.value].job, now, tuning.agingStep);
        HandOut(s, selected.value, bonus, lease, now + leaseSeconds * SECOND, now);
      }
    }
  }

  /** `publish_batch` over the selected rows; each delivery says which message id the stream
      answered with, or that it raised. Returns how many rows were published. */
  method PublishBatch(s: Session, page: seq<P.Delivery>, now: int) returns (published: nat)
    modifies s`jobs
    ensures s.Contents() == P.PublishBatch(old(s.Contents()), page, now)
    ensures published == Delivered(page, old(s.Contents()), now)
  {
    published := 0;
    var i := 0;
    assert page[0..] == page;
    while i < |page|
      invariant i <= |page|
      invariant P.PublishBatch(s.Contents(), page[i..], now) == P.PublishBatch(old(s.Contents()), page, now)
      invariant published + Delivered(page[i..], s.Contents(), now) == Delivered(page, old(s.Contents()), now)
    {
      var p := page[i];
      assert page[i..][1..] == page[i + 1..];
      if p.job < |s.jobs| && p.index < |s.jobs[p.job].outbox| {
        var event := s.jobs[p.job].outbox[p.index];
        match p.message {
          case Some(message) =>
            event := event.(state := Published, messageId := Some(message));
            if event.notice.DispatchedNotice? {
              event := event.(notice := DispatchedNotice(event.notice.generation, None));
            }
            published := published + 1;
          case None =>
            var attempts := event.attempts + 1;
            event := event.(state := Undelivered, attempts := attempts,
                            availableAt := now + Min(300, P.Pow2(Min(attempts, 8))) * SECOND);
        }
        s.jobs := s.jobs[p.job := s.jobs[p.job].(outbox := s.jobs[p.job].outbox[p.index := event])];
      }
      i := i + 1;
    }
  }

  /** How many rows of the page the stream accepted. */
  function Delivered(page: seq<P.Delivery>, store: Store, now: int): nat
    decreases |page|
  {
    if page == [] then 0
    else
      var p := page[0];
      (if p.job < |store.jobs| && p.index < |store.jobs[p.job].outbox| && p.message.Some? then 1 else 0)
      + Delivered(page[1..], P.PublishOne(store, p, now), now)
  }
}
