/** What a lease is worth over whole runs (app/background.py:153-208, app/services/quota.py:114-187,
    app/workers/control.py:106-271): nobody else takes a job whose lease has not ended. */
module Leases {
  import opened Base
  import opened QuotaLedger
  import opened JobModel
  import opened JobTotals
  import opened JobProtocol
  import opened JobInvariant
  import opened Dispatcher
  import opened JobSystem
  import opened JobHistory
  import opened ProtocolTheorems
  import opened Admissions
  import opened Completions
  import opened Handover
  import QuotaTheorems
  import Fairness

  /** A worker's call that names the job. */
  predicate CallOn(e: Event, id: JobId) {
    match e.op
    case ClaimCall(i, _, _, _) => i == id
    case HeartbeatCall(i, _, _, _, _) => i == id
    case CompleteCall(i, _, _, _, _, _) => i == id
    case FailCall(i, _, _, _, _, _) => i == id
    case _ => false
  }

  predicate SameJob(store: Store, next: Store, id: JobId) {
    id < |store.jobs| <= |next.jobs| && next.jobs[id].job == store.jobs[id].job
  }

  // ---------------------------------------------------------------- calls on other jobs

  lemma CompletionLeaves(store: Store, other: JobId, result: Completion, now: int, id: JobId)
    requires Inv(store) && other < |store.jobs| && id < |store.jobs| && id != other && result.DownloadResult?
    requires IsRunning(store.jobs[other].job.status) && IsDownload(store.jobs[other].job.jobType)
    requires CompleteDownload(store, other, result, now).Ok?
    ensures SameJob(store, CompleteDownload(store, other, result, now).value, id)
  {
    assert Sound(store.jobs[other]);
    if Rejected(store.jobs[other].job.policy, result.scan) {
      RejectionEffect(store, other, result, now);
    } else {
      CompletionEffect(store, other, result, now);
    }
  }

  lemma MediaLeaves(store: Store, other: JobId, result: Completion, id: JobId)
    requires Inv(store) && other < |store.jobs| && id < |store.jobs| && id != other && result.MediaResult?
    requires store.jobs[other].job.status == Processing && CompleteMedia(store, other, result).Ok?
    ensures SameJob(store, CompleteMedia(store, other, result).value, id)
  {
    assert Sound(store.jobs[other]);
    MediaDecides(store, other, result);
    MediaEffect(store, other, result);
  }

  lemma CompleteLeaves(store: Store, other: JobId, generation: nat, lease: Digest, result: Completion, t: Transport,
                       expected: Option<JobType>, now: int, id: JobId)
    requires Inv(store) && id < |store.jobs| && id != other
    requires Complete(store, other, generation, lease, result, t, expected, now).Ok?
    ensures SameJob(store, Complete(store, other, generation, lease, result, t, expected, now).value.0, id)
  {
    if Validated(store, other, generation, lease, expected, now) && TransportMatches(store.jobs[other], generation, t) {
      var d := store.jobs[other];
      RunningMatches(d);
      if d.job.jobType == MediaProcess && result.MediaResult? {
        MediaLeaves(store, other, result, id);
      } else if IsDownload(d.job.jobType) && result.DownloadResult? {
        CompletionLeaves(store, other, result, now, id);
      }
    }
  }

  lemma FailLeaves(store: Store, other: JobId, generation: nat, lease: Digest, actual: nat, t: Transport,
                   expected: Option<JobType>, now: int, id: JobId)
    requires Inv(store) && id < |store.jobs| && id != other
    requires Fail(store, other, generation, lease, actual, t, expected, now).Ok?
    ensures SameJob(store, Fail(store, other, generation, lease, actual, t, expected, now).value.0, id)
  {
    if Validated(store, other, generation, lease, expected, now) && TransportMatches(store.jobs[other], generation, t) {
      FailureEffect(store, other, actual);
    }
  }

  lemma CallLeaves(sys: System, e: Event, id: JobId)
    requires Inv(sys.store) && id < |sys.store.jobs| && !CallOn(e, id) && Outcome(sys, e).Ok?
    requires e.op.ClaimCall? || e.op.HeartbeatCall? || e.op.CompleteCall? || e.op.FailCall?
    ensures SameJob(sys.store, Apply(sys, e).store, id)
  {
    match e.op
    case ClaimCall(other, generation, lease, jobType) =>
      ClaimDecides(sys.store, other, generation, lease, jobType, e.now);
    case HeartbeatCall(other, generation, lease, progress, expected) =>
      HeartbeatDecides(sys.store, other, generation, lease, progress, expected, e.now);
      if Rightful(sys.store, other, generation, lease, expected, e.now) {
        HeartbeatEffect(sys.store, other, generation, lease, progress, expected, e.now);
      }
    case CompleteCall(other, generation, lease, result, t, expected) =>
      CompleteLeaves(sys.store, other, generation, lease, result, t, expected, e.now, id);
    case FailCall(other, generation, lease, actual, t, expected) =>
      FailLeaves(sys.store, other, generation, lease, actual, t, expected, e.now, id);
  }

  // ---------------------------------------------------------------- the sweep

  /** The sweep only renews the reservations of a job whose lease has not ended. */
  lemma {:induction false} SweepLeavesHeld(store: Store, page: seq<JobId>, now: int, id: JobId)
    requires Inv(store) && ExpiryPage(store, page, now)
    requires id < |store.jobs| && HeldByWorker(store.jobs[id].job, now)
    ensures ReconcileExpired(store, page, now).Ok?
    ensures SameJob(store, ReconcileExpired(store, page, now).value, id)
    decreases |page|
  {
    if page != [] {
      QuotaTheorems.SweepStep(store, page, now);
      var posting := ReconcileJob(store.buckets, store.jobs[page[0]], now).value;
      SweepLeavesHeld(Replace(store, page[0], posting.dossier).(buckets := posting.buckets), page[1..], now, id);
    }
  }

  // ---------------------------------------------------------------- one transaction

  lemma ScheduleLeaves(sys: System, e: Event, id: JobId)
    requires Inv(sys.store) && Legal(sys, e) && id < |sys.store.jobs| && Outcome(sys, e).Ok?
    requires e.op.Publication? || e.op.Recovery? || e.op.Expiry?
    requires IsLeased(sys.store.jobs[id].job.status)
    requires sys.store.jobs[id].job.leaseExpiresAt.Some? && e.now < sys.store.jobs[id].job.leaseExpiresAt.value
    ensures SameJob(sys.store, Apply(sys, e).store, id)
  {
    match e.op
    case Publication(page) => Fairness.PublishQueues(sys.store, page, e.now);
    case Recovery(page) => Fairness.RecoverQueues(sys.store, page, e.now);
    case Expiry(page) => SweepLeavesHeld(sys.store, page, e.now, id);
  }

  lemma QueueLeaves(sys: System, e: Event, id: JobId)
    requires id < |sys.store.jobs| && Outcome(sys, e).Ok? && (e.op.Admission? || e.op.Dispatch?)
    requires sys.store.jobs[id].job.status != Queued
    ensures SameJob(sys.store, Apply(sys, e).store, id)
  {
    match e.op
    case Admission(req, settings, plan) =>
      if !KeyUsed(sys.store.jobs, req.key) {
        AdmissionAddsJob(sys.store, req, settings, plan, e.now);
      }
    case Dispatch(jobType, tuning, lease, leaseSeconds) =>
      DispatchHandsOver(sys, jobType, tuning, lease, leaseSeconds, e.now);
  }

  /** No transaction that is not a call on the job itself touches the row of a job whose lease
      has not ended: not a dispatch, not recovery, not the sweep. */
  lemma LeasedLeftAlone(sys: System, e: Event, id: JobId)
    requires Inv(sys.store) && Legal(sys, e) && id < |sys.store.jobs| && !CallOn(e, id)
    requires IsLeased(sys.store.jobs[id].job.status)
    requires sys.store.jobs[id].job.leaseExpiresAt.Some? && e.now < sys.store.jobs[id].job.leaseExpiresAt.value
    ensures SameJob(sys.store, Apply(sys, e).store, id)
  {
    if Outcome(sys, e).Ok? {
      if e.op.Admission? || e.op.Dispatch? {
        QueueLeaves(sys, e, id);
      } else if e.op.Publication? || e.op.Recovery? || e.op.Expiry? {
        ScheduleLeaves(sys, e, id);
      } else {
        CallLeaves(sys, e, id);
      }
    }
  }

  // ---------------------------------------------------------------- from dispatch to claim

  /** The job is handed out under this generation and lease, until an instant. */
  predicate Offered(store: Store, id: JobId, generation: nat, lease: Digest, expires: int) {
    && id < |store.jobs|
    && var job := store.jobs[id].job;
    && job.status == Dispatched && job.generation == generation && job.leaseHash == Some(lease)
    && job.leaseExpiresAt == Some(expires)
  }

  predicate AllBefore(run: seq<Event>, expires: int) {
    forall i :: 0 <= i < |run| ==> run[i].now < expires
  }

  lemma OfferedStep(sys: System, e: Event, id: JobId, generation: nat, lease: Digest, expires: int)
    requires Inv(sys.store) && Legal(sys, e) && Offered(sys.store, id, generation, lease, expires) && e.now < expires
    ensures ClaimWins(sys, e, id, generation) || Offered(Apply(sys, e).store, id, generation, lease, expires)
  {
    if !CallOn(e, id) {
      LeasedLeftAlone(sys, e, id);
    } else if e.op.ClaimCall? {
      ClaimDecides(sys.store, id, e.op.generation, e.op.lease, e.op.jobType, e.now);
    }
  }

  /** Until its lease ends, a dispatched job is claimed once, or stays on offer: a claim under its
      generation and lease wins at any instant before the end. */
  lemma {:induction false} OfferStands(sys: System, run: seq<Event>, id: JobId, generation: nat, lease: Digest,
                                       expires: int, at: int)
    requires Inv(sys.store) && LegalRun(sys, run) && Offered(sys.store, id, generation, lease, expires)
    requires AllBefore(run, expires) && at < expires
    ensures ClaimCount(sys, run, id, generation) == 1
            || (&& Offered(Exec(sys, run).store, id, generation, lease, expires)
                && var claim := Claim(Exec(sys, run).store, id, generation, lease,
                                      Exec(sys, run).store.jobs[id].job.jobType, at);
                   claim.Ok? && claim.value.1)
    decreases |run|
  {
    if run == [] {
      ClaimDecides(sys.store, id, generation, lease, sys.store.jobs[id].job.jobType, at);
    } else {
      StepKeeps(sys, run[0]);
      OfferedStep(sys, run[0], id, generation, lease, expires);
      if ClaimWins(sys, run[0], id, generation) {
        ClaimedAtMostOnce(sys, run, id, generation);
      } else {
        OfferStands(Apply(sys, run[0]), run[1..], id, generation, lease, expires, at);
      }
    }
  }

  // ---------------------------------------------------------------- from claim to end

  /** A worker has the job under this generation and lease since its last heartbeat. */
  predicate Working(store: Store, id: JobId, generation: nat, lease: Digest, beat: int) {
    && id < |store.jobs|
    && var job := store.jobs[id].job;
    && IsRunning(job.status) && job.generation == generation && job.leaseHash == Some(lease)
    && job.leaseExpiresAt == Some(beat + 120_000_000)
  }

  /** A heartbeat of the worker that does not raise. */
  predicate Beats(sys: System, e: Event, id: JobId, generation: nat, lease: Digest) {
    && e.op.HeartbeatCall? && e.op.id == id && e.op.generation == generation && e.op.lease == lease
    && Rightful(sys.store, id, generation, lease, e.op.expected, e.now) && Outcome(sys, e).Ok?
  }

  function NextBeat(sys: System, e: Event, id: JobId, generation: nat, lease: Digest, beat: int): int {
    if Beats(sys, e, id, generation, lease) then e.now else beat
  }

  function LastBeat(sys: System, run: seq<Event>, id: JobId, generation: nat, lease: Digest, beat: int): int
    decreases |run|
  {
    if run == [] then beat
    else LastBeat(Apply(sys, run[0]), run[1..], id, generation, lease,
                  NextBeat(sys, run[0], id, generation, lease, beat))
  }

  /** Less than two minutes pass between the worker's heartbeats, and since the last one. */
  predicate Attended(sys: System, run: seq<Event>, id: JobId, generation: nat, lease: Digest, beat: int)
    decreases |run|
  {
    run == [] ||
    (&& run[0].now < beat + 120_000_000
     && Attended(Apply(sys, run[0]), run[1..], id, generation, lease,
                 NextBeat(sys, run[0], id, generation, lease, beat)))
  }

  lemma HeartbeatStep(sys: System, e: Event, id: JobId, generation: nat, lease: Digest, beat: int)
    requires Inv(sys.store) && Working(sys.store, id, generation, lease, beat) && e.now < beat + 120_000_000
    requires e.op.HeartbeatCall? && e.op.id == id
    ensures Working(Apply(sys, e).store, id, generation, lease, NextBeat(sys, e, id, generation, lease, beat))
    ensures Apply(sys, e).store.jobs[id].job.status == sys.store.jobs[id].job.status
  {
    var op := e.op;
    HeartbeatDecides(sys.store, id, op.generation, op.lease, op.progress, op.expected, e.now);
    if Outcome(sys, e).Ok? && Rightful(sys.store, id, op.generation, op.lease, op.expected, e.now) {
      HeartbeatEffect(sys.store, id, op.generation, op.lease, op.progress, op.expected, e.now);
    }
  }

  lemma TurnedAwayStep(sys: System, e: Event, id: JobId)
    requires Inv(sys.store) && id < |sys.store.jobs| && CallOn(e, id) && !e.op.HeartbeatCall?
    requires sys.store.jobs[id].job.status != Dispatched && !EndWins(sys, e, id)
    ensures Apply(sys, e).store == sys.store
  {
    match e.op
    case ClaimCall(_, generation, lease, jobType) =>
      ClaimDecides(sys.store, id, generation, lease, jobType, e.now);
    case CompleteCall(_, _, _, _, _, _) =>
    case FailCall(_, _, _, _, _, _) =>
  }

  lemma WorkingStep(sys: System, e: Event, id: JobId, generation: nat, lease: Digest, beat: int)
    requires Inv(sys.store) && Legal(sys, e)
    requires Working(sys.store, id, generation, lease, beat) && e.now < beat + 120_000_000
    ensures || EndWins(sys, e, id)
            || (&& Working(Apply(sys, e).store, id, generation, lease, NextBeat(sys, e, id, generation, lease, beat))
                && Apply(sys, e).store.jobs[id].job.status == sys.store.jobs[id].job.status)
  {
    if !CallOn(e, id) {
      LeasedLeftAlone(sys, e, id);
    } else if e.op.HeartbeatCall? {
      HeartbeatStep(sys, e, id, generation, lease, beat);
    } else if !EndWins(sys, e, id) {
      TurnedAwayStep(sys, e, id);
    }
  }

  /** A worker whose heartbeats come less than two minutes apart keeps its job through any run of
      transactions, recovery and the sweep included, until a complete or fail call of its own
      lease ends it, once; and until then every call under its lease is rightful. */
  lemma {:induction false} AttendedJobKept(sys: System, run: seq<Event>, id: JobId, generation: nat, lease: Digest,
                                           beat: int, at: int)
    requires Inv(sys.store) && LegalRun(sys, run) && Working(sys.store, id, generation, lease, beat)
    requires Attended(sys, run, id, generation, lease, beat)
    requires at < LastBeat(sys, run, id, generation, lease, beat) + 120_000_000
    ensures || (EndCount(sys, run, id) == 1 && HasEnded(Exec(sys, run).store, id))
            || (&& Working(Exec(sys, run).store, id, generation, lease, LastBeat(sys, run, id, generation, lease, beat))
                && Exec(sys, run).store.jobs[id].job.status == sys.store.jobs[id].job.status
                && Rightful(Exec(sys, run).store, id, generation, lease, None, at))
    decreases |run|
  {
    if run != [] {
      var next := Apply(sys, run[0]);
      StepKeeps(sys, run[0]);
      WorkingStep(sys, run[0], id, generation, lease, beat);
      if EndWins(sys, run[0], id) {
        EndsAtMostOnce(sys, run, id);
        WinningEndEnds(sys, run[0], id);
        RunEvolves(next, run[1..]);
        assert Follows(next.store.jobs[id], Exec(next, run[1..]).store.jobs[id]);
      } else {
        AttendedJobKept(next, run[1..], id, generation, lease, NextBeat(sys, run[0], id, generation, lease, beat), at);
      }
    }
  }
}
