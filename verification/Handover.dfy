/** How a job gets from the queue to a worker and stays with it, read off the rows
    (app/dispatcher/service.py:88-134, 180-212; app/workers/control.py:106-271, 728-776). */
module Handover {
  import opened Base
  import opened QuotaLedger
  import opened JobModel
  import opened JobTotals
  import opened JobProtocol
  import opened JobInvariant
  import opened Dispatcher
  import opened JobSystem
  import opened JobHistory
  import opened ProtocolTheorems
  import opened MessageFencing
  import Fairness

  // ---------------------------------------------------------------- statuses

  /** The classes of statuses: active ones are those a job can still leave for its end, leased
      ones those a worker may have it in, running ones those a claim leads to. */
  lemma StatusClasses(status: Status)
    ensures IsActive(status) <==>
            status !in {Completed, Failed, Cancelled, Expired, CancelledByMigration, DeadLetter}
    ensures IsLeased(status) <==> IsActive(status) && status !in {Pending, QuotaReserved, Queued}
    ensures IsRunning(status) <==> status in {Downloading, Receiving, Uploading, Processing}
    ensures IsRunning(status) <==> exists jobType :: RunningState(jobType) == status
  {
    assert RunningState(ExternalDownload) == Downloading;
    assert RunningState(TelegramDownload) == Receiving;
    assert RunningState(TelegramUpload) == Uploading;
    assert RunningState(MediaProcess) == Processing;
  }

  /** Where the trigger lets a job enter the queue, a dispatch, and its completion from. */
  lemma EnteredFrom(from: Status)
    ensures TransitionAllowed(from, Queued) <==> from == QuotaReserved || from == Failed || from == Queued
    ensures TransitionAllowed(from, Dispatched) <==> from == Queued || from == Dispatched
    ensures TransitionAllowed(from, Completed) <==>
            from == Remuxing || from == Transcoding || from == Uploading || from == GeneratingLink || from == Completed
  {
  }

  /** ... its failure, ... */
  lemma FailedFrom(from: Status)
    ensures TransitionAllowed(from, Failed) <==> (IsActive(from) && from != Queued) || from == Failed
  {
  }

  /** ... its expiry and its burial. */
  lemma BuriedFrom(from: Status)
    ensures TransitionAllowed(from, Expired) <==>
            from == Queued || from == Failed || from == Completed || from == Cancelled || from == Expired
    ensures TransitionAllowed(from, DeadLetter) <==> from == Dispatched || from == Failed || from == DeadLetter
  {
  }

  // ---------------------------------------------------------------- dispatch

  /** The job row after dispatch: the lease, its end, the next generation, and the priority it
      was selected by. */
  predicate HandedOver(job: Job, job': Job, lease: Digest, leaseSeconds: int, agingStep: int, now: int) {
    && job.status == Queued && job'.status == Dispatched
    && job'.leaseHash == Some(lease)
    && job'.leaseExpiresAt == Some(now + leaseSeconds * 1_000_000)
    && job'.generation == job.generation + 1
    && (job.queuedAt <= now ==> job'.effectivePriority == Score(job, now, agingStep))
    && (job.queuedAt > now ==> job'.effectivePriority == job.basePriority)
    && job' == job.(status := job'.status, leaseHash := job'.leaseHash, leaseExpiresAt := job'.leaseExpiresAt,
                    generation := job'.generation, effectivePriority := job'.effectivePriority)
  }

  /** The other rows of the job: an event, and a notice for the job's stream with the raw lease. */
  predicate NoticeAdded(d: Dossier, d': Dossier, lease: Digest, now: int) {
    && d'.events == d.events + [JobEvent(Some(Queued), Dispatched)]
    && d'.outbox == d.outbox + [OutboxEvent(DispatchedNotice(d.job.generation + 1, Some(lease)),
                                            JobStream(d.job.jobType, d.job.lane), Unsent, 0, now, None)]
    && d'.attempts == d.attempts && d'.reservations == d.reservations && d'.usage == d.usage && d'.files == d.files
  }

  /** VIP jobs of a type handed out since the last normal one of that type. */
  predicate LaneCounted(sys: System, next: System, jobType: JobType, lane: Lane) {
    && VipRun(next, jobType) == (if lane == Vip then VipRun(sys, jobType) + 1 else 0)
    && forall other :: other != jobType ==> VipRun(next, other) == VipRun(sys, other)
  }

  lemma BonusIsScore(job: Job, agingStep: int, now: int)
    ensures job.queuedAt <= now ==> job.basePriority + AgingBonus(job, now, agingStep) == Score(job, now, agingStep)
    ensures job.queuedAt > now ==> AgingBonus(job, now, agingStep) == 0
  {
    if job.queuedAt <= now {
      RecordedPriorityIsScore(job, now, agingStep);
    }
  }

  /** A dispatch hands out the selected job, if there is one, and changes nothing else. */
  lemma DispatchHandsOver(sys: System, jobType: JobType, tuning: Tuning, lease: Digest, leaseSeconds: int, now: int)
    ensures DispatchOne(sys, jobType, tuning, lease, leaseSeconds, now).Ok?
    ensures var (next, selected) := DispatchOne(sys, jobType, tuning, lease, leaseSeconds, now).value;
            && selected == Selection(sys, jobType, tuning, now)
            && (selected.None? ==> next == sys)
            && (selected.Some? ==>
                  var id := selected.value;
                  && id < |sys.store.jobs| && sys.store.jobs[id].job.jobType == jobType
                  && |next.store.jobs| == |sys.store.jobs|
                  && next.store == sys.store.(jobs := sys.store.jobs[id := next.store.jobs[id]])
                  && HandedOver(sys.store.jobs[id].job, next.store.jobs[id].job, lease, leaseSeconds, tuning.agingStep,
                                now)
                  && NoticeAdded(sys.store.jobs[id], next.store.jobs[id], lease, now)
                  && LaneCounted(sys, next, jobType, sys.store.jobs[id].job.lane))
  {
    var selected := Selection(sys, jobType, tuning, now);
    if selected.Some? {
      var job := sys.store.jobs[selected.value].job;
      BonusIsScore(job, tuning.agingStep, now);
      SelectedHandedOver(sys, selected.value, tuning.agingStep, lease, leaseSeconds, now);
      assert DispatchOne(sys, jobType, tuning, lease, leaseSeconds, now)
             == DispatchSelected(sys, selected.value, AgingBonus(job, now, tuning.agingStep), lease,
                                 now + leaseSeconds * SECOND, now);
    } else {
      assert DispatchOne(sys, jobType, tuning, lease, leaseSeconds, now) == Ok((sys, None));
    }
  }

  lemma SelectedHandedOver(sys: System, id: JobId, agingStep: int, lease: Digest, leaseSeconds: int, now: int)
    requires id < |sys.store.jobs| && sys.store.jobs[id].job.status == Queued
    ensures var job := sys.store.jobs[id].job;
            var r := DispatchSelected(sys, id, AgingBonus(job, now, agingStep), lease, now + leaseSeconds * SECOND,
                                      now);
            && r.Ok? && r.value.1 == Some(id)
            && var next := r.value.0;
            && next.store == sys.store.(jobs := sys.store.jobs[id := next.store.jobs[id]])
            && HandedOver(job, next.store.jobs[id].job, lease, leaseSeconds, agingStep, now)
            && NoticeAdded(sys.store.jobs[id], next.store.jobs[id], lease, now)
            && LaneCounted(sys, next, job.jobType, job.lane)
  {
    BonusIsScore(sys.store.jobs[id].job, agingStep, now);
  }

  // ---------------------------------------------------------------- publication

  /** A row of the outbox after a delivery attempt: published under the stream's message id and
      without its lease, or kept for another try. */
  predicate Tried(e: OutboxEvent, e': OutboxEvent, message: Option<MessageId>, now: int) {
    && e'.stream == e.stream
    && (message.Some? ==>
          && e'.state == Published && e'.messageId == message
          && e'.attempts == e.attempts && e'.availableAt == e.availableAt
          && (e.notice == Admitted ==> e'.notice == Admitted)
          && (e.notice.DispatchedNotice? ==> e'.notice == DispatchedNotice(e.notice.generation, None)))
    && (message.None? ==>
          && e'.state == Undelivered && e'.attempts == e.attempts + 1 && e'.notice == e.notice
          && e'.messageId == e.messageId && e'.availableAt > now)
  }

  /** A row is selected for delivery while it is not published, its time has come, and it was tried
      fewer than twenty times. */
  lemma DeliverableIff(e: OutboxEvent, now: int)
    ensures Publishable(e, now) <==>
            (e.state == Unsent || e.state == Undelivered) && e.availableAt <= now && e.attempts < 20
  {
  }

  predicate Listed(page: seq<Delivery>, id: JobId, index: nat) {
    exists i :: 0 <= i < |page| && page[i].job == id && page[i].index == index
  }

  ghost predicate PageDistinct(page: seq<Delivery>) {
    forall i, j :: 0 <= i < j < |page| ==> page[i].job != page[j].job || page[i].index != page[j].index
  }

  lemma EventTried(e: OutboxEvent, message: Option<MessageId>, now: int)
    ensures Tried(e, PublishEvent(e, message, now), message, now)
  {
    RetryDelays(e, now);
  }

  lemma ListedLater(page: seq<Delivery>, id: JobId, index: nat)
    requires page != []
    ensures Listed(page, id, index) <==>
            (page[0].job == id && page[0].index == index) || Listed(page[1..], id, index)
  {
    if i :| 0 <= i < |page[1..]| && page[1..][i].job == id && page[1..][i].index == index {
      assert page[i + 1].job == id && page[i + 1].index == index;
    }
    if i :| 0 < i < |page| && page[i].job == id && page[i].index == index {
      assert page[1..][i - 1].job == id && page[1..][i - 1].index == index;
    }
  }

  lemma FirstListedOnce(page: seq<Delivery>)
    requires page != [] && PageDistinct(page)
    ensures !Listed(page[1..], page[0].job, page[0].index)
  {
    forall j | 0 <= j < |page| - 1
      ensures page[1..][j].job != page[0].job || page[1..][j].index != page[0].index
    {
      assert page[1..][j] == page[j + 1];
    }
  }

  /** A published batch leaves every row it does not list, and every table but the outbox. */
  lemma {:induction false} UnlistedLeft(store: Store, page: seq<Delivery>, now: int, id: JobId)
    requires id < |store.jobs|
    ensures var next := PublishBatch(store, page, now);
            && |next.jobs| == |store.jobs| && next.buckets == store.buckets
            && next.jobs[id] == store.jobs[id].(outbox := next.jobs[id].outbox)
            && |next.jobs[id].outbox| == |store.jobs[id].outbox|
            && forall k :: 0 <= k < |store.jobs[id].outbox| && !Listed(page, id, k) ==>
                 next.jobs[id].outbox[k] == store.jobs[id].outbox[k]
    decreases |page|
  {
    if page != [] {
      var mid := PublishOne(store, page[0], now);
      UnlistedLeft(mid, page[1..], now, id);
      var next := PublishBatch(store, page, now);
      forall k | 0 <= k < |store.jobs[id].outbox| && !Listed(page, id, k)
        ensures next.jobs[id].outbox[k] == store.jobs[id].outbox[k]
      {
        ListedLater(page, id, k);
      }
    }
  }

  /** ... and tries every row it lists once, with the answer the stream gave. */
  lemma {:induction false} ListedTried(store: Store, page: seq<Delivery>, now: int, i: nat)
    requires PageDistinct(page) && i < |page|
    requires page[i].job < |store.jobs| && page[i].index < |store.jobs[page[i].job].outbox|
    ensures var next := PublishBatch(store, page, now);
            var p := page[i];
            && |next.jobs| == |store.jobs| && |next.jobs[p.job].outbox| == |store.jobs[p.job].outbox|
            && Tried(store.jobs[p.job].outbox[p.index], next.jobs[p.job].outbox[p.index], p.message, now)
    decreases |page|
  {
    var mid, p := PublishOne(store, page[0], now), page[i];
    UnlistedLeft(store, [page[0]], now, p.job);
    assert [page[0]][1..] == [] && PublishBatch(store, [page[0]], now) == mid;
    if i == 0 {
      EventTried(store.jobs[p.job].outbox[p.index], p.message, now);
      UnlistedLeft(mid, page[1..], now, p.job);
      FirstListedOnce(page);
    } else {
      assert page[1..][i - 1] == p;
      assert !Listed([page[0]], p.job, p.index);
      ListedTried(mid, page[1..], now, i - 1);
    }
  }

  // ---------------------------------------------------------------- claims

  /** The claim is for the job as it was handed out, before its lease ends. */
  predicate RightfulClaim(store: Store, id: JobId, generation: nat, lease: Digest, jobType: JobType, now: int) {
    && id < |store.jobs|
    && var job := store.jobs[id].job;
    && job.status == Dispatched && job.jobType == jobType && job.generation == generation
    && job.leaseHash == Some(lease) && job.leaseExpiresAt.Some? && now < job.leaseExpiresAt.value
  }

  /** The rows of a claimed job: running, one attempt more, and two minutes to the first heartbeat. */
  predicate Claimed(d: Dossier, d': Dossier, now: int) {
    && d'.job == d.job.(status := d'.job.status, attemptCount := d.job.attemptCount + 1,
                        leaseExpiresAt := Some(now + 120_000_000))
    && (d.job.jobType == ExternalDownload ==> d'.job.status == Downloading)
    && (d.job.jobType == TelegramDownload ==> d'.job.status == Receiving)
    && (d.job.jobType == TelegramUpload ==> d'.job.status == Uploading)
    && (d.job.jobType == MediaProcess ==> d'.job.status == Processing)
    && d'.events == d.events + [JobEvent(Some(Dispatched), d'.job.status)]
    && d'.attempts == d.attempts + [Attempt(d.job.attemptCount + 1, d.job.generation)]
    && d'.reservations == d.reservations && d'.usage == d.usage && d'.files == d.files && d'.outbox == d.outbox
  }

  /** A claim is let in exactly if it is rightful. */
  lemma ClaimDecides(store: Store, id: JobId, generation: nat, lease: Digest, jobType: JobType, now: int)
    requires Inv(store)
    ensures Claim(store, id, generation, lease, jobType, now).Ok?
    ensures var (next, won) := Claim(store, id, generation, lease, jobType, now).value;
            && (won <==> RightfulClaim(store, id, generation, lease, jobType, now))
            && (!won ==> next == store)
            && (won ==>
                  && |next.jobs| == |store.jobs|
                  && next == store.(jobs := store.jobs[id := next.jobs[id]])
                  && Claimed(store.jobs[id], next.jobs[id], now))
  {
    ClaimKeeps(store, id, generation, lease, jobType, now);
  }

  /** From a dispatch until its lease ends, a claim under its generation and lease wins. */
  lemma DispatchedIsClaimable(sys: System, jobType: JobType, tuning: Tuning, lease: Digest, leaseSeconds: int, now: int,
                              next: System, id: JobId, at: int)
    requires Inv(sys.store) && DispatchOne(sys, jobType, tuning, lease, leaseSeconds, now) == Ok((next, Some(id)))
    requires at < now + leaseSeconds * 1_000_000
    ensures id < |sys.store.jobs|
    ensures var claim := Claim(next.store, id, sys.store.jobs[id].job.generation + 1, lease, jobType, at);
            claim.Ok? && claim.value.1
  {
    DispatchHandsOver(sys, jobType, tuning, lease, leaseSeconds, now);
    DispatchKeeps(sys, jobType, tuning, lease, leaseSeconds, now);
    ClaimDecides(next.store, id, sys.store.jobs[id].job.generation + 1, lease, jobType, at);
  }

  // ---------------------------------------------------------------- worker calls

  /** The caller holds the lease of the running job, and it has not ended. */
  predicate Rightful(store: Store, id: JobId, generation: nat, lease: Digest, expected: Option<JobType>, now: int) {
    && id < |store.jobs|
    && var job := store.jobs[id].job;
    && (job.status == Downloading || job.status == Receiving || job.status == Uploading || job.status == Processing)
    && job.generation == generation && job.leaseHash == Some(lease)
    && job.leaseExpiresAt.Some? && now < job.leaseExpiresAt.value
    && (expected == None || expected == Some(job.jobType))
  }

  lemma ValidatedIsRightful(store: Store, id: JobId, generation: nat, lease: Digest, expected: Option<JobType>,
                            now: int)
    ensures Validated(store, id, generation, lease, expected, now)
            <==> Rightful(store, id, generation, lease, expected, now)
  {
  }

  /** A call to end a job is turned away exactly when it is not rightful, its message is not the
      job's current one, or its result is of another kind; otherwise it ends the job, or raises. */
  lemma EndDecides(store: Store, id: JobId, generation: nat, lease: Digest, t: Transport, expected: Option<JobType>,
                   now: int, actual: nat, result: Completion)
    requires Inv(store)
    ensures Fail(store, id, generation, lease, actual, t, expected, now) == Ok((store, false))
            <==> !Rightful(store, id, generation, lease, expected, now) || !CurrentMessage(store.jobs[id], t)
    ensures Complete(store, id, generation, lease, result, t, expected, now) == Ok((store, false))
            <==> || !Rightful(store, id, generation, lease, expected, now)
                 || !CurrentMessage(store.jobs[id], t)
                 || !ResultFits(store.jobs[id].job.jobType, result)
  {
    ValidatedIsRightful(store, id, generation, lease, expected, now);
    if Validated(store, id, generation, lease, expected, now) {
      TurnedAwayIff(store, id, generation, lease, t, expected, now, actual, result);
    }
  }

  /** Once a running job's last notice is published under an id that no earlier notice of the job
      has, that message is its current one. */
  lemma PublishedIsCurrent(d: Dossier, message: MessageId)
    requires OutboxSound(d.job, d.outbox) && d.job.generation > 0
    requires d.outbox[|d.outbox| - 1].state == Published && d.outbox[|d.outbox| - 1].messageId == Some(message)
    requires forall j :: 0 <= j < |d.outbox| - 1 ==> d.outbox[j].messageId != Some(message)
    ensures CurrentMessage(d, Transport(JobStream(d.job.jobType, d.job.lane), d.job.jobType, message))
  {
  }

  // ---------------------------------------------------------------- heartbeats

  /** An open byte reservation that the reported bytes exceed, without room for them. */
  predicate NoRoom(buckets: Buckets, r: Reservation, bytes: int) {
    && r.state == Active && r.bucket.dimension != JobCount && r.amount < bytes
    && (r.bucket !in buckets
        || buckets[r.bucket].committed + buckets[r.bucket].reserved + (bytes - r.amount) > buckets[r.bucket].quotaLimit)
  }

  /** A top-up raises exactly when some open byte reservation cannot be raised. */
  lemma {:induction false} TopUpSucceedsIff(buckets: Buckets, rows: seq<Reservation>, bytes: int)
    requires DistinctBuckets(rows)
    ensures TopUpRows(buckets, rows, bytes).Ok? <==> forall i :: 0 <= i < |rows| ==> !NoRoom(buckets, rows[i], bytes)
  {
    if rows != [] {
      var head := TopUpRow(buckets, rows[0], bytes);
      if head.Ok? {
        TopUpSucceedsIff(head.value.buckets, rows[1..], bytes);
        forall i | 0 < i < |rows|
          ensures NoRoom(head.value.buckets, rows[i], bytes) == NoRoom(buckets, rows[i], bytes)
          ensures rows[i] == rows[1..][i - 1]
        {
          assert rows[0].bucket != rows[i].bucket;
        }
      } else {
        assert NoRoom(buckets, rows[0], bytes);
      }
    }
  }

  /** The bytes a progress report stands for. */
  function ReportedBytes(job: Job, progress: Option<Progress>): nat {
    if progress.Some? && progress.value.bytes.Some? then progress.value.bytes.value else job.bytesTransferred
  }

  predicate NeedsMore(job: Job, progress: Option<Progress>) {
    progress.Some? && ReportedBytes(job, progress) > (if job.totalBytes.Some? then job.totalBytes.value else 0)
  }

  /** The job row after a heartbeat: two more minutes, the percentage between 0 and 100, and the
      most bytes ever reported. */
  predicate Renewed(job: Job, job': Job, progress: Option<Progress>, now: int) {
    && job'.leaseExpiresAt == Some(now + 120_000_000)
    && job' == job.(leaseExpiresAt := job'.leaseExpiresAt, progressPercent := job'.progressPercent,
                    bytesTransferred := job'.bytesTransferred, totalBytes := job'.totalBytes)
    && (progress.Some? && progress.value.percent.Some? ==>
          var percent := progress.value.percent.value;
          job'.progressPercent == if percent < 0 then 0 else if percent > 100 then 100 else percent)
    && (!(progress.Some? && progress.value.percent.Some?) ==> job'.progressPercent == job.progressPercent)
    && job'.bytesTransferred >= job.bytesTransferred && job'.bytesTransferred >= ReportedBytes(job, progress)
    && (job'.bytesTransferred == job.bytesTransferred || job'.bytesTransferred == ReportedBytes(job, progress))
    && job'.totalBytes == if NeedsMore(job, progress) then Some(ReportedBytes(job, progress)) else job.totalBytes
  }

  /** Open reservations last four more hours, and cover the bytes if there are more than the job
      declared. */
  ghost predicate RowsRenewed(rows: seq<Reservation>, rows': seq<Reservation>, more: bool, bytes: int, now: int) {
    && |rows'| == |rows|
    && forall i :: 0 <= i < |rows| ==>
         if rows[i].state != Active then rows'[i] == rows[i]
         else
           var amount := if more && rows[i].bucket.dimension != JobCount && rows[i].amount < bytes then bytes
                         else rows[i].amount;
           rows'[i] == rows[i].(expiresAt := now + 4 * HOUR, amount := amount)
  }

  predicate Room(store: Store, id: JobId, progress: Option<Progress>)
    requires id < |store.jobs|
  {
    var d := store.jobs[id];
    NeedsMore(d.job, progress) ==>
      forall i :: 0 <= i < |d.reservations| ==>
        !NoRoom(store.buckets, d.reservations[i], ReportedBytes(d.job, progress))
  }

  lemma TouchedRoom(buckets: Buckets, rows: seq<Reservation>, bytes: int, now: int)
    requires DistinctBuckets(rows)
    ensures TopUpRows(buckets, TouchRows(rows, now), bytes).Ok?
            <==> forall i :: 0 <= i < |rows| ==> !NoRoom(buckets, rows[i], bytes)
  {
    var touched := TouchRows(rows, now);
    TopUpSucceedsIff(buckets, touched, bytes);
    assert forall i :: 0 <= i < |rows| ==> NoRoom(buckets, touched[i], bytes) == NoRoom(buckets, rows[i], bytes);
  }

  lemma TouchedRenewed(buckets: Buckets, rows: seq<Reservation>, bytes: int, now: int)
    ensures RowsRenewed(rows, TouchRows(rows, now), false, bytes, now)
    ensures TopUpRows(buckets, TouchRows(rows, now), bytes).Ok? ==>
              RowsRenewed(rows, TopUpRows(buckets, TouchRows(rows, now), bytes).value.rows, true, bytes, now)
  {
    if TopUpRows(buckets, TouchRows(rows, now), bytes).Ok? {
      TopUpEffect(buckets, TouchRows(rows, now), bytes);
    }
  }

  /** A heartbeat is turned away exactly if it is not rightful, and raises exactly if it reports
      more bytes than there is room for. */
  lemma HeartbeatDecides(store: Store, id: JobId, generation: nat, lease: Digest, progress: Option<Progress>,
                         expected: Option<JobType>, now: int)
    requires Inv(store)
    ensures var r := Heartbeat(store, id, generation, lease, progress, expected, now);
            && (r == Ok((store, false)) <==> !Rightful(store, id, generation, lease, expected, now))
            && (r == Err(QuotaExceeded) <==>
                  Rightful(store, id, generation, lease, expected, now) && !Room(store, id, progress))
            && (r.Err? ==> r.error == QuotaExceeded)
            && (r.Ok? && !r.value.1 ==> r.value.0 == store)
  {
    ValidatedIsRightful(store, id, generation, lease, expected, now);
    if Validated(store, id, generation, lease, expected, now) {
      var d := store.jobs[id];
      assert Sound(d);
      TouchedRoom(store.buckets, d.reservations, ReportedBytes(d.job, progress), now);
      TopUpErrors(store.buckets, TouchRows(d.reservations, now), ReportedBytes(d.job, progress));
    }
  }

  /** The rows a heartbeat leaves. */
  ghost predicate HeartbeatLeaves(store: Store, next: Store, id: JobId, progress: Option<Progress>, now: int)
    requires id < |store.jobs|
  {
    && |next.jobs| == |store.jobs| && next.jobs == store.jobs[id := next.jobs[id]]
    && var d, d' := store.jobs[id], next.jobs[id];
    && d' == d.(job := d'.job, reservations := d'.reservations)
    && Renewed(d.job, d'.job, progress, now)
    && RowsRenewed(d.reservations, d'.reservations, NeedsMore(d.job, progress), ReportedBytes(d.job, progress), now)
  }

  lemma PlainHeartbeat(store: Store, id: JobId, generation: nat, lease: Digest, progress: Option<Progress>,
                       expected: Option<JobType>, now: int)
    requires Validated(store, id, generation, lease, expected, now) && StatusSound(store.jobs[id].job)
    requires !NeedsMore(store.jobs[id].job, progress)
    ensures var r := Heartbeat(store, id, generation, lease, progress, expected, now);
            r.Ok? && r.value.1 && HeartbeatLeaves(store, r.value.0, id, progress, now)
  {
    TouchedRenewed(store.buckets, store.jobs[id].reservations, ReportedBytes(store.jobs[id].job, progress), now);
  }

  lemma LargerHeartbeat(store: Store, id: JobId, generation: nat, lease: Digest, progress: Option<Progress>,
                        expected: Option<JobType>, now: int)
    requires Validated(store, id, generation, lease, expected, now) && StatusSound(store.jobs[id].job)
    requires NeedsMore(store.jobs[id].job, progress)
    requires Heartbeat(store, id, generation, lease, progress, expected, now).Ok?
    ensures var r := Heartbeat(store, id, generation, lease, progress, expected, now);
            r.value.1 && HeartbeatLeaves(store, r.value.0, id, progress, now)
  {
    TouchedRenewed(store.buckets, store.jobs[id].reservations, ReportedBytes(store.jobs[id].job, progress), now);
  }

  /** An accepted heartbeat renews lease and reservations, records the progress, and touches no
      other job. */
  lemma HeartbeatEffect(store: Store, id: JobId, generation: nat, lease: Digest, progress: Option<Progress>,
                        expected: Option<JobType>, now: int)
    requires Inv(store) && Rightful(store, id, generation, lease, expected, now)
    requires Heartbeat(store, id, generation, lease, progress, expected, now).Ok?
    ensures var (next, accepted) := Heartbeat(store, id, generation, lease, progress, expected, now).value;
            accepted && HeartbeatLeaves(store, next, id, progress, now)
  {
    ValidatedIsRightful(store, id, generation, lease, expected, now);
    assert Sound(store.jobs[id]);
    if NeedsMore(store.jobs[id].job, progress) {
      LargerHeartbeat(store, id, generation, lease, progress, expected, now);
    } else {
      PlainHeartbeat(store, id, generation, lease, progress, expected, now);
    }
  }

  /** So for two minutes every call under the lease is rightful, and neither recovery nor the
      sweep takes the job. */
  lemma HeartbeatHoldsJob(store: Store, id: JobId, generation: nat, lease: Digest, progress: Option<Progress>,
                          expected: Option<JobType>, now: int, later: int)
    requires Inv(store) && Rightful(store, id, generation, lease, expected, now) && later < now + 120_000_000
    requires Heartbeat(store, id, generation, lease, progress, expected, now).Ok?
    ensures var next := Heartbeat(store, id, generation, lease, progress, expected, now).value.0;
            && Rightful(next, id, generation, lease, expected, later)
            && !LeaseExpired(next.jobs[id].job, later) && HeldByWorker(next.jobs[id].job, later)
  {
    HeartbeatEffect(store, id, generation, lease, progress, expected, now);
    RenewedHolds(store.jobs[id].job,
                 Heartbeat(store, id, generation, lease, progress, expected, now).value.0.jobs[id].job,
                 progress, now, later);
  }

  lemma RenewedHolds(job: Job, job': Job, progress: Option<Progress>, now: int, later: int)
    requires IsRunning(job.status) && Renewed(job, job', progress, now) && later < now + 120_000_000
    ensures job'.status == job.status && job'.jobType == job.jobType
    ensures job'.generation == job.generation && job'.leaseHash == job.leaseHash
    ensures !LeaseExpired(job', later) && HeldByWorker(job', later)
  {
  }
}
