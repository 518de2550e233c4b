/** No starvation: aging and the lane counter bound how long a normal job can be passed over. */
module Fairness {
  import opened Base
  import opened FloorDivision
  import opened QuotaLedger
  import opened JobModel
  import opened JobTotals
  import opened JobProtocol
  import opened JobInvariant
  import opened Dispatcher
  import opened JobSystem
  import opened JobHistory

  // ---------------------------------------------------------------- how queues change

  /** A job that is queued afterwards was queued all along, or has just joined. A queued job
      leaves only for a dispatch or an expiry. */
  predicate QueueFollows(job: Job, job': Job, now: int) {
    && (job'.status == Queued ==> (job.status == Queued && job'.queuedAt == job.queuedAt) || job'.queuedAt == now)
    && (job.status == Queued ==> job'.status == Queued || job'.status == Dispatched || job'.status == Expired)
    && (job.status == Queued && job'.status == Queued ==> job'.queuedAt == job.queuedAt)
    && (job.status != Queued && job'.status == Queued ==> IsLeased(job.status))
  }

  ghost predicate QueuesFollow(store: Store, store': Store, now: int) {
    && |store.jobs| <= |store'.jobs|
    && (forall i {:trigger QueueFollows(store.jobs[i].job, store'.jobs[i].job, now)} ::
          0 <= i < |store.jobs| ==> QueueFollows(store.jobs[i].job, store'.jobs[i].job, now))
    && (forall i :: |store.jobs| <= i < |store'.jobs| && store'.jobs[i].job.status == Queued ==>
                      store'.jobs[i].job.queuedAt == now)
  }

  lemma ReplaceQueues(store: Store, id: JobId, d: Dossier, now: int)
    requires id < |store.jobs| && QueueFollows(store.jobs[id].job, d.job, now)
    ensures QueuesFollow(store, Replace(store, id, d), now)
    ensures forall buckets :: QueuesFollow(store, Replace(store, id, d).(buckets := buckets), now)
  {
  }

  lemma ScheduleQueues(store: Store, next: Store, child: Dossier, now: int)
    requires QueuesFollow(store, next, now) && child.job.queuedAt == now
    ensures QueuesFollow(store, Schedule(next, child), now)
  {
  }

  lemma AdmitQueues(store: Store, req: Intake, settings: IntakeSettings, plan: Option<Plan>, now: int)
    requires Admit(store, req, settings, plan, now).Ok?
    ensures QueuesFollow(store, Admit(store, req, settings, plan, now).value, now)
  {
  }

  lemma {:induction false} PublishQueues(store: Store, page: seq<Delivery>, now: int)
    ensures |PublishBatch(store, page, now).jobs| == |store.jobs|
    ensures forall i :: 0 <= i < |store.jobs| ==> PublishBatch(store, page, now).jobs[i].job == store.jobs[i].job
    decreases |page|
  {
    if page != [] {
      PublishQueues(PublishOne(store, page[0], now), page[1..], now);
    }
  }

  lemma ClaimQueues(store: Store, id: JobId, generation: nat, lease: Digest, jobType: JobType, now: int)
    requires Claimable(store, id, generation, lease, jobType, now) ==>
               store.jobs[id].job.attemptCount < store.jobs[id].job.maxAttempts
    ensures Claim(store, id, generation, lease, jobType, now).Ok?
    ensures QueuesFollow(store, Claim(store, id, generation, lease, jobType, now).value.0, now)
  {
    if Claimable(store, id, generation, lease, jobType, now) {
      ReplaceQueues(store, id, Claim(store, id, generation, lease, jobType, now).value.0.jobs[id], now);
    }
  }

  lemma HeartbeatQueues(store: Store, id: JobId, generation: nat, lease: Digest, progress: Option<Progress>,
                        expected: Option<JobType>, now: int)
    requires Heartbeat(store, id, generation, lease, progress, expected, now).Ok?
    ensures QueuesFollow(store, Heartbeat(store, id, generation, lease, progress, expected, now).value.0, now)
  {
    var next := Heartbeat(store, id, generation, lease, progress, expected, now).value.0;
    if Validated(store, id, generation, lease, expected, now) {
      ReplaceQueues(store, id, next.jobs[id], now);
    }
  }

  lemma FailQueues(store: Store, id: JobId, actual: nat, now: int)
    requires id < |store.jobs| && IsRunning(store.jobs[id].job.status) && FailLocked(store, id, actual).Ok?
    ensures QueuesFollow(store, FailLocked(store, id, actual).value, now)
  {
    var next := FailLocked(store, id, actual).value;
    ReplaceQueues(store, id, next.jobs[id], now);
  }

  lemma ChildrenQueues(store: Store, done: Store, parent: Job, id: JobId, file: FileId, size: nat, playable: bool,
                       now: int)
    requires QueuesFollow(store, done, now)
    ensures QueuesFollow(store, ScheduleMedia(ScheduleUpload(done, parent, id, file, size, now), parent, file, size,
                                              playable, now), now)
  {
    ScheduleQueues(store, done, ChildJob(parent, TelegramUpload, UploadKey(id), file, size, now), now);
    var uploading := ScheduleUpload(done, parent, id, file, size, now);
    ScheduleQueues(store, uploading, ChildJob(parent, MediaProcess, MediaKey(file), file, size, now), now);
  }

  lemma CompleteDownloadQueues(store: Store, id: JobId, result: Completion, now: int)
    requires Inv(store) && id < |store.jobs| && result.DownloadResult?
    requires IsRunning(store.jobs[id].job.status) && IsDownload(store.jobs[id].job.jobType)
    requires CompleteDownload(store, id, result, now).Ok?
    ensures QueuesFollow(store, CompleteDownload(store, id, result, now).value, now)
  {
    var d := store.jobs[id];
    if ScanRejects(d.job.policy, result.scan) {
      FailQueues(store, id, result.size, now);
    } else {
      FinishedDownloadQueues(store, id, result.size, now);
      var posting := FinishDownload(store.buckets, d, result.size, now).value;
      var done := Replace(store, id, posting.dossier).(buckets := posting.buckets);
      ChildrenQueues(store, done, posting.dossier.job, id, FileId(id, |d.files|), result.size, result.playable, now);
    }
  }

  lemma FinishedDownloadQueues(store: Store, id: JobId, size: nat, now: int)
    requires Inv(store) && id < |store.jobs|
    requires IsRunning(store.jobs[id].job.status) && IsDownload(store.jobs[id].job.jobType)
    requires FinishDownload(store.buckets, store.jobs[id], size, now).Ok?
    ensures var posting := FinishDownload(store.buckets, store.jobs[id], size, now).value;
            QueuesFollow(store, Replace(store, id, posting.dossier).(buckets := posting.buckets), now)
  {
    assert Sound(store.jobs[id]);
    FinishDownloadSound(store.buckets, store.jobs[id], size, now);
    ReplaceQueues(store, id, FinishDownload(store.buckets, store.jobs[id], size, now).value.dossier, now);
  }

  lemma CompleteMediaQueues(store: Store, id: JobId, result: Completion, now: int)
    requires id < |store.jobs| && result.MediaResult? && store.jobs[id].job.status == Processing
    requires CompleteMedia(store, id, result).Ok?
    ensures QueuesFollow(store, CompleteMedia(store, id, result).value, now)
  {
    var file := store.jobs[id].job.payload.file.value;
    var size := store.jobs[file.job].files[file.index].size;
    var marked := MarkPlayable(store, file, result.directPlay);
    FinishMediaShape(marked.jobs[id], size);
    var done := Replace(marked, id, FinishMedia(marked.jobs[id], size).value);
    assert forall i :: 0 <= i < |store.jobs| && i != id ==> done.jobs[i].job == store.jobs[i].job;
    assert CompleteMedia(store, id, result) == Ok(done);
  }

  lemma CompleteQueues(store: Store, id: JobId, generation: nat, lease: Digest, result: Completion, t: Transport,
                       expected: Option<JobType>, now: int)
    requires Inv(store)
    requires Complete(store, id, generation, lease, result, t, expected, now).Ok?
    ensures QueuesFollow(store, Complete(store, id, generation, lease, result, t, expected, now).value.0, now)
  {
    if Validated(store, id, generation, lease, expected, now) && TransportMatches(store.jobs[id], generation, t) {
      var d := store.jobs[id];
      RunningMatches(d);
      if d.job.jobType == TelegramUpload && result.UploadResult? {
        ReplaceQueues(store, id, FinishUpload(d, result.size).value, now);
      } else if d.job.jobType == MediaProcess && result.MediaResult? {
        CompleteMediaQueues(store, id, result, now);
      } else if IsDownload(d.job.jobType) && result.DownloadResult? {
        CompleteDownloadQueues(store, id, result, now);
      }
    }
  }

  /** Jobs not on the page are as they were, and queues changed as they may. */
  ghost predicate PageFollows(store: Store, next: Store, page: seq<JobId>, now: int) {
    && |next.jobs| == |store.jobs|
    && (forall i :: 0 <= i < |store.jobs| && i !in page ==> next.jobs[i] == store.jobs[i])
    && QueuesFollow(store, next, now)
  }

  /** The first job of the page, then the rest of it. */
  lemma PageGoesOn(store: Store, next: Store, last: Store, page: seq<JobId>, now: int)
    requires page != [] && page[0] < |store.jobs| == |next.jobs| && page[0] !in page[1..]
    requires next.jobs == store.jobs[page[0] := next.jobs[page[0]]]
    requires QueueFollows(store.jobs[page[0]].job, next.jobs[page[0]].job, now)
    requires PageFollows(next, last, page[1..], now)
    ensures PageFollows(store, last, page, now)
  {
    forall i | 0 <= i < |store.jobs|
      ensures QueueFollows(store.jobs[i].job, last.jobs[i].job, now)
    {
      if i == page[0] {
        assert last.jobs[i] == next.jobs[i];
      } else {
        assert QueueFollows(next.jobs[i].job, last.jobs[i].job, now);
      }
    }
    forall i | 0 <= i < |store.jobs| && i !in page
      ensures last.jobs[i] == store.jobs[i]
    {
      assert i != page[0] && i !in page[1..];
    }
  }

  lemma RecoveredRow(d: Dossier, now: int)
    requires StatusSound(d.job) && IsLeased(d.job.status)
    ensures RecoverJob(d, now).Ok? && QueueFollows(d.job, RecoverJob(d, now).value.job, now)
  {
    RecoverShape(d, now);
  }

  /** Recovery touches only the jobs on its page, each once. */
  lemma {:induction false} RecoverQueues(store: Store, page: seq<JobId>, now: int)
    requires Inv(store) && RecoveryPage(store, page, now)
    ensures RecoverJobs(store, page, now).Ok?
    ensures PageFollows(store, RecoverJobs(store, page, now).value, page, now)
    decreases |page|
  {
    if page != [] {
      RecoverStep(store, page, now);
      assert Sound(store.jobs[page[0]]);
      RecoveredRow(store.jobs[page[0]], now);
      var next := Replace(store, page[0], RecoverJob(store.jobs[page[0]], now).value);
      RecoverQueues(next, page[1..], now);
      PageGoesOn(store, next, RecoverJobs(next, page[1..], now).value, page, now);
    }
  }

  lemma ReconcileQueues(buckets: Buckets, d: Dossier, now: int)
    requires Sound(d) && Backed(buckets, d.reservations)
    ensures ReconcileJob(buckets, d, now).Ok?
    ensures QueueFollows(d.job, ReconcileJob(buckets, d, now).value.dossier.job, now)
  {
    ReconcileJobBranches(buckets, d, now);
    ReconcileJobSound(buckets, d, now);
    SoundRowsClear(d);
    if IsActive(d.job.status) {
      CloseStaleRow(d);
      if !HeldByWorker(d.job, now) {
        ReconcileFollows(buckets, CloseStale(d).value, d.job.bytesTransferred, false);
      }
    } else {
      ReconcileFollows(buckets, d, d.job.resultSize.GetOr<nat>(d.job.bytesTransferred), d.job.status == Completed);
    }
  }

  lemma SweptQueues(store: Store, id: JobId, now: int)
    requires Inv(store) && id < |store.jobs|
    ensures ReconcileJob(store.buckets, store.jobs[id], now).Ok?
    ensures var posting := ReconcileJob(store.buckets, store.jobs[id], now).value;
            && Inv(Replace(store, id, posting.dossier).(buckets := posting.buckets))
            && QueueFollows(store.jobs[id].job, posting.dossier.job, now)
  {
    OpenRowsBacked(store, id);
    ReconcileJobSound(store.buckets, store.jobs[id], now);
    ReconcileQueues(store.buckets, store.jobs[id], now);
    var posting := ReconcileJob(store.buckets, store.jobs[id], now).value;
    ReplaceKeeps(store, id, posting.dossier, posting.buckets);
  }

  lemma {:induction false} ExpiryQueues(store: Store, page: seq<JobId>, now: int)
    requires Inv(store) && (forall i :: 0 <= i < |page| ==> page[i] < |store.jobs|)
    requires forall i, j :: 0 <= i < j < |page| ==> page[i] != page[j]
    ensures ReconcileExpired(store, page, now).Ok?
    ensures PageFollows(store, ReconcileExpired(store, page, now).value, page, now)
    decreases |page|
  {
    if page != [] {
      SweptQueues(store, page[0], now);
      var posting := ReconcileJob(store.buckets, store.jobs[page[0]], now).value;
      var next := Replace(store, page[0], posting.dossier).(buckets := posting.buckets);
      ExpiryQueues(next, page[1..], now);
      PageGoesOn(store, next, ReconcileExpired(next, page[1..], now).value, page, now);
    }
  }

  lemma DispatchQueues(sys: System, jobType: JobType, tuning: Tuning, lease: Digest, leaseSeconds: int, now: int)
    ensures DispatchOne(sys, jobType, tuning, lease, leaseSeconds, now).Ok?
    ensures QueuesFollow(sys.store, DispatchOne(sys, jobType, tuning, lease, leaseSeconds, now).value.0.store, now)
  {
    DispatchShape(sys, jobType, tuning, lease, leaseSeconds, now);
    var selected := Selection(sys, jobType, tuning, now);
    if selected.Some? {
      var next := DispatchOne(sys, jobType, tuning, lease, leaseSeconds, now).value.0.store;
      ReplaceQueues(sys.store, selected.value, next.jobs[selected.value], now);
    }
  }

  /** A dispatch call takes its selection out of the queue, counts its lane, and leaves every
      other job alone. */
  lemma DispatchShape(sys: System, jobType: JobType, tuning: Tuning, lease: Digest, leaseSeconds: int, now: int)
    ensures DispatchOne(sys, jobType, tuning, lease, leaseSeconds, now).Ok?
    ensures var r := DispatchOne(sys, jobType, tuning, lease, leaseSeconds, now).value;
            && r.1 == Selection(sys, jobType, tuning, now)
            && (r.1.None? ==> r.0 == sys)
            && (r.1.Some? ==>
                  && r.0.store == Replace(sys.store, r.1.value, r.0.store.jobs[r.1.value])
                  && r.0.store.jobs[r.1.value].job.status == Dispatched
                  && SameIdentity(sys.store.jobs[r.1.value].job, r.0.store.jobs[r.1.value].job)
                  && r.0.consecutiveVip == CountLane(sys, jobType, sys.store.jobs[r.1.value].job.lane))
  {
    var selected := Selection(sys, jobType, tuning, now);
    if selected.Some? {
      var bonus := AgingBonus(sys.store.jobs[selected.value].job, now, tuning.agingStep);
      var expires := now + leaseSeconds * SECOND;
      assert DispatchOne(sys, jobType, tuning, lease, leaseSeconds, now)
             == DispatchSelected(sys, selected.value, bonus, lease, expires, now);
      DispatchSelectedShape(sys, selected.value, bonus, lease, expires, now);
    } else {
      assert DispatchOne(sys, jobType, tuning, lease, leaseSeconds, now) == Ok((sys, None));
    }
  }

  lemma DispatchSelectedShape(sys: System, id: JobId, bonus: int, lease: Digest, expires: int, now: int)
    requires id < |sys.store.jobs| && sys.store.jobs[id].job.status == Queued
    ensures DispatchSelected(sys, id, bonus, lease, expires, now).Ok?
    ensures var r := DispatchSelected(sys, id, bonus, lease, expires, now).value;
            && r.1 == Some(id)
            && r.0.store == Replace(sys.store, id, r.0.store.jobs[id])
            && r.0.store.jobs[id].job == DispatchedRow(sys.store.jobs[id].job, bonus, lease, expires)
            && r.0.consecutiveVip == CountLane(sys, sys.store.jobs[id].job.jobType, sys.store.jobs[id].job.lane)
  {
  }

  lemma FailCallQueues(store: Store, id: JobId, generation: nat, lease: Digest, actual: nat, t: Transport,
                       expected: Option<JobType>, now: int)
    requires Fail(store, id, generation, lease, actual, t, expected, now).Ok?
    ensures QueuesFollow(store, Fail(store, id, generation, lease, actual, t, expected, now).value.0, now)
  {
    if Validated(store, id, generation, lease, expected, now) && TransportMatches(store.jobs[id], generation, t) {
      FailQueues(store, id, actual, now);
    }
  }

  lemma WorkerCallQueues(sys: System, e: Event)
    requires Inv(sys.store) && Outcome(sys, e).Ok?
    requires e.op.ClaimCall? || e.op.HeartbeatCall? || e.op.CompleteCall? || e.op.FailCall?
    ensures QueuesFollow(sys.store, Apply(sys, e).store, e.now)
  {
    match e.op
    case ClaimCall(id, generation, lease, jobType) =>
      ClaimKeeps(sys.store, id, generation, lease, jobType, e.now);
      ClaimQueues(sys.store, id, generation, lease, jobType, e.now);
    case HeartbeatCall(id, generation, lease, progress, expected) =>
      HeartbeatQueues(sys.store, id, generation, lease, progress, expected, e.now);
    case CompleteCall(id, generation, lease, result, transport, expected) =>
      CompleteQueues(sys.store, id, generation, lease, result, transport, expected, e.now);
    case FailCall(id, generation, lease, actual, transport, expected) =>
      FailCallQueues(sys.store, id, generation, lease, actual, transport, expected, e.now);
  }

  /** Every transaction changes queues only by joining at its own instant, dispatching or
      expiring. */
  lemma StepQueues(sys: System, e: Event)
    requires Inv(sys.store) && Legal(sys, e)
    ensures QueuesFollow(sys.store, Apply(sys, e).store, e.now)
  {
    if Outcome(sys, e).Ok? {
      match e.op
      case Admission(req, settings, plan) => AdmitQueues(sys.store, req, settings, plan, e.now);
      case Dispatch(jobType, tuning, lease, leaseSeconds) =>
        DispatchQueues(sys, jobType, tuning, lease, leaseSeconds, e.now);
      case Publication(page) => PublishQueues(sys.store, page, e.now);
      case Recovery(page) => RecoverQueues(sys.store, page, e.now);
      case Expiry(page) => ExpiryQueues(sys.store, page, e.now);
      case _ => WorkerCallQueues(sys, e);
    }
  }

  // ---------------------------------------------------------------- bounded waiting

  /** A normal job that has waited 99 full aging steps cannot be overtaken by a normal job
      queued after that. */
  function Mark(queuedAt: int, agingStep: int): int {
    queuedAt + 99 * StepLength(agingStep)
  }

  predicate Waiting(sys: System, jobType: JobType, id: JobId, queuedAt: int) {
    id < |sys.store.jobs| && WaitsNormal(sys.store.jobs[id].job, jobType) && sys.store.jobs[id].job.queuedAt == queuedAt
  }

  function Rivals(sys: System, jobType: JobType, mark: int): int {
    Total(sys.store.jobs, NormalBefore(jobType, mark))
  }

  /** How many dispatch calls of the type are left at most before the waiting job goes out. */
  function CallsLeft(sys: System, jobType: JobType, mark: int, maxVip: nat): int {
    Rivals(sys, jobType, mark) * (maxVip + 1) - Min(VipRun(sys, jobType), maxVip)
  }

  /** No later normal arrival is selected over the waiting job. */
  lemma NoOvertaking(job: Job, rival: Job, now: int, agingStep: int)
    requires 0 <= job.basePriority && rival.basePriority <= 99
    requires rival.queuedAt >= Mark(job.queuedAt, agingStep)
    ensures Before(job, rival, now, agingStep)
  {
    var step := StepLength(agingStep);
    DivOrder(now - rival.queuedAt, now - job.queuedAt + step * -99, step);
    DivShift(now - job.queuedAt, step, -99);
  }

  lemma {:induction false} NoRivalGained(sys: System, next: System, jobType: JobType, mark: int, now: int)
    requires QueuesFollow(sys.store, next.store, now) && Evolves(sys.store, next.store) && now >= mark
    ensures Rivals(next, jobType, mark) <= Rivals(sys, jobType, mark)
  {
    forall i | 0 <= i < |sys.store.jobs|
      ensures Weight(NormalBefore(jobType, mark), next.store.jobs[i])
              <= Weight(NormalBefore(jobType, mark), sys.store.jobs[i])
    {
      assert QueueFollows(sys.store.jobs[i].job, next.store.jobs[i].job, now);
      assert Follows(sys.store.jobs[i], next.store.jobs[i]);
    }
    TotalNotRaised(sys.store.jobs, next.store.jobs, NormalBefore(jobType, mark));
  }

  predicate Dispatches(e: Event, jobType: JobType) {
    e.op.Dispatch? && e.op.jobType == jobType
  }

  /** Only a dispatch call of the type moves its lane counter. */
  lemma CounterKept(sys: System, e: Event, jobType: JobType)
    requires !Dispatches(e, jobType)
    ensures VipRun(Apply(sys, e), jobType) == VipRun(sys, jobType)
  {
    if e.op.Dispatch? {
      DispatchShape(sys, e.op.jobType, e.op.tuning, e.op.lease, e.op.leaseSeconds, e.now);
    }
  }

  /** Lanes follow base priorities. */
  ghost predicate LanesKept(jobs: seq<Dossier>) {
    forall i :: 0 <= i < |jobs| ==>
                  jobs[i].job.basePriority >= 0 && jobs[i].job.lane == LaneOf(jobs[i].job.basePriority)
  }

  lemma SoundLanes(jobs: seq<Dossier>)
    requires AllSound(jobs)
    ensures LanesKept(jobs)
  {
    forall i | 0 <= i < |jobs|
      ensures jobs[i].job.basePriority >= 0 && jobs[i].job.lane == LaneOf(jobs[i].job.basePriority)
    {
      assert Sound(jobs[i]);
    }
  }

  /** What a selection other than the waiting job can be: a VIP job while the counter allows
      it, or a rival queued before the mark. */
  lemma SelectionIsRival(sys: System, jobType: JobType, tuning: Tuning, id: JobId, queuedAt: int, now: int)
    requires LanesKept(sys.store.jobs) && Waiting(sys, jobType, id, queuedAt)
    ensures var selected := Selection(sys, jobType, tuning, now);
            && selected.Some?
            && var rival := sys.store.jobs[selected.value].job;
            && (rival.lane == Vip ==> VipRun(sys, jobType) < tuning.maxConsecutiveVip)
            && (rival.lane == Normal ==>
                  WaitsNormal(rival, jobType) && rival.queuedAt < Mark(queuedAt, tuning.agingStep))
  {
    var selected := Selection(sys, jobType, tuning, now);
    var waiting := sys.store.jobs[id].job;
    assert Eligible(waiting, jobType, Normal);
    var rival := sys.store.jobs[selected.value].job;
    if rival.lane == Normal && rival.queuedAt >= Mark(queuedAt, tuning.agingStep) {
      NoOvertaking(waiting, rival, now, tuning.agingStep);
      assert false;
    }
  }

  /** Taking a rival out of the queue, or counting one more VIP job, uses up a call. */
  lemma RivalSpends(sys: System, next: System, jobType: JobType, k: JobId, mark: int, maxVip: nat)
    requires k < |sys.store.jobs| == |next.store.jobs| && next.store == Replace(sys.store, k, next.store.jobs[k])
    requires next.store.jobs[k].job.status == Dispatched
    requires next.consecutiveVip == CountLane(sys, jobType, sys.store.jobs[k].job.lane)
    requires sys.store.jobs[k].job.lane == Vip ==> VipRun(sys, jobType) < maxVip
    requires sys.store.jobs[k].job.lane == Normal ==> Weight(NormalBefore(jobType, mark), sys.store.jobs[k]) == 1
    ensures CallsLeft(next, jobType, mark, maxVip) < CallsLeft(sys, jobType, mark, maxVip)
  {
    TotalReplace(sys.store.jobs, k, next.store.jobs[k], NormalBefore(jobType, mark));
    var rivals := Rivals(sys, jobType, mark);
    if sys.store.jobs[k].job.lane == Vip {
      assert Rivals(next, jobType, mark) == rivals;
    } else {
      assert Rivals(next, jobType, mark) == rivals - 1;
      assert (rivals - 1) * (maxVip + 1) == rivals * (maxVip + 1) - (maxVip + 1);
    }
  }

  /** Every dispatch call of the type that finds the job waiting uses up at least one of
      the calls left. */
  lemma DispatchSpends(sys: System, e: Event, jobType: JobType, id: JobId, queuedAt: int)
    requires LanesKept(sys.store.jobs) && Dispatches(e, jobType) && Waiting(sys, jobType, id, queuedAt)
    ensures var mark := Mark(queuedAt, e.op.tuning.agingStep);
            CallsLeft(Apply(sys, e), jobType, mark, e.op.tuning.maxConsecutiveVip)
            < CallsLeft(sys, jobType, mark, e.op.tuning.maxConsecutiveVip)
  {
    DispatchShape(sys, jobType, e.op.tuning, e.op.lease, e.op.leaseSeconds, e.now);
    SelectionIsRival(sys, jobType, e.op.tuning, id, queuedAt, e.now);
    var k := Selection(sys, jobType, e.op.tuning, e.now).value;
    var next := DispatchOne(sys, jobType, e.op.tuning, e.op.lease, e.op.leaseSeconds, e.now).value.0;
    RivalSpends(sys, next, jobType, k, Mark(queuedAt, e.op.tuning.agingStep), e.op.tuning.maxConsecutiveVip);
  }

  lemma NoCallGained(sys: System, next: System, jobType: JobType, mark: int, maxVip: nat, now: int)
    requires QueuesFollow(sys.store, next.store, now) && Evolves(sys.store, next.store) && now >= mark
    requires VipRun(next, jobType) == VipRun(sys, jobType)
    ensures CallsLeft(next, jobType, mark, maxVip) <= CallsLeft(sys, jobType, mark, maxVip)
  {
    NoRivalGained(sys, next, jobType, mark, now);
    MulOrder(maxVip + 1, Rivals(next, jobType, mark), Rivals(sys, jobType, mark));
  }

  lemma OthersSpendNone(sys: System, e: Event, jobType: JobType, mark: int, maxVip: nat)
    requires Inv(sys.store) && Legal(sys, e) && !Dispatches(e, jobType) && e.now >= mark
    ensures CallsLeft(Apply(sys, e), jobType, mark, maxVip) <= CallsLeft(sys, jobType, mark, maxVip)
  {
    StepQueues(sys, e);
    StepEvolves(sys, e);
    CounterKept(sys, e, jobType);
    NoCallGained(sys, Apply(sys, e), jobType, mark, maxVip, e.now);
  }

  /** The number of dispatch calls of a type in a run. */
  function DispatchCalls(run: seq<Event>, jobType: JobType): nat {
    if run == [] then 0 else (if Dispatches(run[0], jobType) then 1 else 0) + DispatchCalls(run[1..], jobType)
  }

  /** The job is still queued after every step of the run. */
  predicate StaysQueued(sys: System, run: seq<Event>, id: JobId)
    decreases |run|
  {
    && id < |sys.store.jobs| && sys.store.jobs[id].job.status == Queued
    && (run != [] ==> StaysQueued(Apply(sys, run[0]), run[1..], id))
  }

  /** Every dispatch of the type runs with these settings. */
  predicate Tuned(run: seq<Event>, jobType: JobType, agingStep: int, maxVip: nat) {
    forall i :: 0 <= i < |run| && Dispatches(run[i], jobType) ==>
                  run[i].op.tuning.agingStep == agingStep && run[i].op.tuning.maxConsecutiveVip == maxVip
  }

  predicate NotBefore(run: seq<Event>, instant: int) {
    forall i :: 0 <= i < |run| ==> run[i].now >= instant
  }

  lemma StillWaiting(sys: System, e: Event, jobType: JobType, id: JobId, queuedAt: int)
    requires Inv(sys.store) && Legal(sys, e) && Waiting(sys, jobType, id, queuedAt)
    requires id < |Apply(sys, e).store.jobs| && Apply(sys, e).store.jobs[id].job.status == Queued
    ensures Waiting(Apply(sys, e), jobType, id, queuedAt)
  {
    StepQueues(sys, e);
    StepEvolves(sys, e);
    assert QueueFollows(sys.store.jobs[id].job, Apply(sys, e).store.jobs[id].job, e.now);
    assert Follows(sys.store.jobs[id], Apply(sys, e).store.jobs[id]);
  }

  lemma OneCallLeft(sys: System, jobType: JobType, id: JobId, queuedAt: int, agingStep: int, maxVip: nat)
    requires Waiting(sys, jobType, id, queuedAt)
    ensures CallsLeft(sys, jobType, Mark(queuedAt, agingStep), maxVip) >= 1
  {
    var mark := Mark(queuedAt, agingStep);
    TotalCovers(sys.store.jobs, id, NormalBefore(jobType, mark));
    MulOrder(maxVip + 1, 1, Rivals(sys, jobType, mark));
  }

  lemma {:induction false} CallsBounded(sys: System, run: seq<Event>, jobType: JobType, id: JobId, queuedAt: int,
                                        agingStep: int, maxVip: nat)
    requires Inv(sys.store) && LegalRun(sys, run)
    requires Waiting(sys, jobType, id, queuedAt) && StaysQueued(sys, run, id)
    requires NotBefore(run, Mark(queuedAt, agingStep)) && Tuned(run, jobType, agingStep, maxVip)
    ensures DispatchCalls(run, jobType) < CallsLeft(sys, jobType, Mark(queuedAt, agingStep), maxVip)
    decreases |run|
  {
    if run == [] {
      OneCallLeft(sys, jobType, id, queuedAt, agingStep, maxVip);
    } else {
      var e := run[0];
      StepKeeps(sys, e);
      StillWaiting(sys, e, jobType, id, queuedAt);
      CallsBounded(Apply(sys, e), run[1..], jobType, id, queuedAt, agingStep, maxVip);
      if Dispatches(e, jobType) {
        SoundLanes(sys.store.jobs);
        DispatchSpends(sys, e, jobType, id, queuedAt);
      } else {
        OthersSpendNone(sys, e, jobType, Mark(queuedAt, agingStep), maxVip);
      }
    }
  }

  /** No starvation. Once a normal job has waited 99 aging steps, fewer than
      (M + 1) * (a + 1) dispatch calls of its type can pass while it stays queued, where a
      is the number of other normal jobs of the type queued at the start; arrivals,
      retries, claims and every other transaction may happen in between. */
  lemma NoStarvation(sys: System, run: seq<Event>, jobType: JobType, id: JobId, agingStep: int, maxVip: nat,
                     others: nat)
    requires Inv(sys.store) && LegalRun(sys, run)
    requires id < |sys.store.jobs| && WaitsNormal(sys.store.jobs[id].job, jobType) && StaysQueued(sys, run, id)
    requires others + 1 == Total(sys.store.jobs, NormalFor(jobType))
    requires NotBefore(run, sys.store.jobs[id].job.queuedAt + 99 * StepLength(agingStep))
    requires Tuned(run, jobType, agingStep, maxVip)
    ensures DispatchCalls(run, jobType) < (maxVip + 1) * (others + 1)
  {
    var queuedAt := sys.store.jobs[id].job.queuedAt;
    CallsBounded(sys, run, jobType, id, queuedAt, agingStep, maxVip);
    CallsAtMost(sys, jobType, Mark(queuedAt, agingStep), maxVip, others);
  }

  lemma CallsAtMost(sys: System, jobType: JobType, mark: int, maxVip: nat, others: nat)
    requires others + 1 == Total(sys.store.jobs, NormalFor(jobType))
    ensures CallsLeft(sys, jobType, mark, maxVip) <= (maxVip + 1) * (others + 1)
  {
    TotalsOrdered(sys.store.jobs, NormalBefore(jobType, mark), NormalFor(jobType));
    MulOrder(maxVip + 1, Rivals(sys, jobType, mark), others + 1);
  }

  lemma ExecOne(sys: System, run: seq<Event>, n: nat)
    requires n < |run|
    ensures Exec(sys, run[..n + 1]) == Exec(Apply(sys, run[0]), run[1..][..n])
  {
    assert run[..n + 1][1..] == run[1..][..n];
  }

  lemma QueuedOne(sys: System, run: seq<Event>, id: JobId, m: nat)
    requires m < |run| - 1 && id < |sys.store.jobs| && sys.store.jobs[id].job.status == Queued
    requires StaysQueued(Apply(sys, run[0]), run[1..][..m], id)
    ensures StaysQueued(sys, run[..m + 1], id)
  {
    assert run[..m + 1][1..] == run[1..][..m];
  }

  lemma QueuedStep(sys: System, e: Event, id: JobId)
    requires Inv(sys.store) && Legal(sys, e) && id < |sys.store.jobs| && sys.store.jobs[id].job.status == Queued
    ensures Inv(Apply(sys, e).store) && id < |Apply(sys, e).store.jobs|
    ensures var status := Apply(sys, e).store.jobs[id].job.status;
            status == Queued || status == Dispatched || status == Expired
  {
    StepKeeps(sys, e);
    StepQueues(sys, e);
    assert QueueFollows(sys.store.jobs[id].job, Apply(sys, e).store.jobs[id].job, e.now);
  }

  /** The run up to and including its first n events. */
  lemma {:induction false} FirstDeparture(sys: System, run: seq<Event>, id: JobId) returns (n: nat)
    requires Inv(sys.store) && LegalRun(sys, run)
    requires id < |sys.store.jobs| && sys.store.jobs[id].job.status == Queued && !StaysQueued(sys, run, id)
    ensures n < |run| && StaysQueued(sys, run[..n], id)
    ensures id < |Exec(sys, run[..n + 1]).store.jobs|
    ensures var status := Exec(sys, run[..n + 1]).store.jobs[id].job.status; status == Dispatched || status == Expired
    decreases |run|
  {
    var next := Apply(sys, run[0]);
    QueuedStep(sys, run[0], id);
    if next.store.jobs[id].job.status == Queued {
      var m := FirstDeparture(next, run[1..], id);
      n := m + 1;
      QueuedOne(sys, run, id, m);
      ExecOne(sys, run, m + 1);
    } else {
      n := 0;
      ExecOne(sys, run, 0);
    }
  }

  lemma {:induction false} CallsSplit(a: seq<Event>, b: seq<Event>, jobType: JobType)
    ensures DispatchCalls(a + b, jobType) == DispatchCalls(a, jobType) + DispatchCalls(b, jobType)
  {
    if a == [] {
      assert a + b == b;
    } else {
      CallsSplit(a[1..], b, jobType);
      assert (a + b)[1..] == a[1..] + b;
    }
  }

  lemma {:induction false} LegalPrefix(sys: System, run: seq<Event>, n: nat)
    requires LegalRun(sys, run) && n <= |run|
    ensures LegalRun(sys, run[..n])
    decreases n
  {
    if n > 0 {
      LegalPrefix(Apply(sys, run[0]), run[1..], n - 1);
      assert run[..n][1..] == run[1..][..n - 1];
    }
  }

  /** The same bound for any prefix of a run, plus the call that may end the wait. */
  lemma PrefixBounded(sys: System, run: seq<Event>, m: nat, jobType: JobType, id: JobId, agingStep: int, maxVip: nat,
                      others: nat)
    requires Inv(sys.store) && LegalRun(sys, run) && m < |run|
    requires id < |sys.store.jobs| && WaitsNormal(sys.store.jobs[id].job, jobType) && StaysQueued(sys, run[..m], id)
    requires others + 1 == Total(sys.store.jobs, NormalFor(jobType))
    requires NotBefore(run, sys.store.jobs[id].job.queuedAt + 99 * StepLength(agingStep))
    requires Tuned(run, jobType, agingStep, maxVip)
    ensures DispatchCalls(run[..m + 1], jobType) <= (maxVip + 1) * (others + 1)
  {
    LegalPrefix(sys, run, m);
    NoStarvation(sys, run[..m], jobType, id, agingStep, maxVip, others);
    assert run[..m + 1] == run[..m] + [run[m]];
    CallsSplit(run[..m], [run[m]], jobType);
    assert [run[m]][1..] == [];
  }

  /** So with that many dispatch calls the job does leave the queue, for a dispatch or an
      expiry, before more than (M + 1) * (a + 1) of them have been made. */
  lemma WaitEnds(sys: System, run: seq<Event>, jobType: JobType, id: JobId, agingStep: int, maxVip: nat, others: nat)
    returns (n: nat)
    requires Inv(sys.store) && LegalRun(sys, run)
    requires id < |sys.store.jobs| && WaitsNormal(sys.store.jobs[id].job, jobType)
    requires others + 1 == Total(sys.store.jobs, NormalFor(jobType))
    requires NotBefore(run, sys.store.jobs[id].job.queuedAt + 99 * StepLength(agingStep))
    requires Tuned(run, jobType, agingStep, maxVip)
    requires DispatchCalls(run, jobType) >= (maxVip + 1) * (others + 1)
    ensures n <= |run| && DispatchCalls(run[..n], jobType) <= (maxVip + 1) * (others + 1)
    ensures id < |Exec(sys, run[..n]).store.jobs|
    ensures var status := Exec(sys, run[..n]).store.jobs[id].job.status; status == Dispatched || status == Expired
  {
    if StaysQueued(sys, run, id) {
      NoStarvation(sys, run, jobType, id, agingStep, maxVip, others);
    } else {
      var m := FirstDeparture(sys, run, id);
      n := m + 1;
      PrefixBounded(sys, run, m, jobType, id, agingStep, maxVip, others);
    }
  }
}
