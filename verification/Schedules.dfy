/** What recovery and the expiry sweep do to the jobs on their pages (app/background.py:153-208,
    app/services/quota.py:114-187), read off the rows. */
module Schedules {
  import opened Base
  import opened QuotaLedger
  import opened JobModel
  import opened JobTotals
  import opened JobProtocol
  import opened JobInvariant
  import opened Dispatcher
  import opened JobSystem
  import opened JobHistory
  import opened QuotaTheorems
  import opened QuotaLimits
  import opened Handover

  // ---------------------------------------------------------------- recovery

  /** Recovery selects the jobs some worker may have whose lease has ended, the end included. */
  lemma RecoverableIff(job: Job, now: int)
    ensures LeaseExpired(job, now) <==>
            && IsActive(job.status) && job.status != Pending && job.status != QuotaReserved && job.status != Queued
            && job.leaseExpiresAt.Some? && job.leaseExpiresAt.value <= now
  {
  }

  /** The sweep selects the jobs with an open reservation that has expired. */
  lemma SweepableIff(d: Dossier, now: int)
    ensures HasExpiredHold(d, now) <==>
            exists i :: 0 <= i < |d.reservations|
                        && d.reservations[i].state == Active && d.reservations[i].expiresAt <= now
  {
    if i :| 0 <= i < |d.reservations| && d.reservations[i].state == Active && d.reservations[i].expiresAt <= now {
      assert HoldExpired(d.reservations[i], now);
    }
  }

  /** A job taken from its worker: back in its queue as of now while it has an attempt left, else
      buried; without a lease, and with both status writes logged. */
  predicate TakenBack(d: Dossier, d': Dossier, now: int) {
    && d'.job == d.job.(status := d'.job.status, queuedAt := d'.job.queuedAt, leaseHash := None, leaseExpiresAt := None)
    && (d.job.attemptCount < d.job.maxAttempts ==> d'.job.status == Queued && d'.job.queuedAt == now)
    && (d.job.attemptCount >= d.job.maxAttempts ==> d'.job.status == DeadLetter && d'.job.queuedAt == d.job.queuedAt)
    && d'.events == d.events + [JobEvent(Some(d.job.status), Failed), JobEvent(Some(Failed), d'.job.status)]
    && d'.attempts == d.attempts && d'.reservations == d.reservations && d'.usage == d.usage
    && d'.files == d.files && d'.outbox == d.outbox
  }

  lemma RecoverTakesBack(d: Dossier, now: int)
    requires StatusSound(d.job) && IsLeased(d.job.status)
    ensures RecoverJob(d, now).Ok? && TakenBack(d, RecoverJob(d, now).value, now)
  {
    RecoverShape(d, now);
  }

  /** Recovery takes every job of its page back and leaves every other as it was. */
  lemma {:induction false} RecoveryEffect(store: Store, page: seq<JobId>, now: int)
    requires Inv(store) && RecoveryPage(store, page, now)
    ensures RecoverJobs(store, page, now).Ok?
    ensures var next := RecoverJobs(store, page, now).value;
            && |next.jobs| == |store.jobs|
            && (forall i :: 0 <= i < |page| ==> TakenBack(store.jobs[page[i]], next.jobs[page[i]], now))
            && (forall j :: 0 <= j < |store.jobs| && j !in page ==> next.jobs[j] == store.jobs[j])
    decreases |page|
  {
    if page != [] {
      RecoverStep(store, page, now);
      assert Sound(store.jobs[page[0]]);
      RecoverTakesBack(store.jobs[page[0]], now);
      var mid := Replace(store, page[0], RecoverJob(store.jobs[page[0]], now).value);
      RecoveryEffect(mid, page[1..], now);
      OneThenPage(store, mid, RecoverJobs(mid, page[1..], now).value, page);
      forall i | 0 <= i < |page|
        ensures TakenBack(store.jobs[page[i]], RecoverJobs(store, page, now).value.jobs[page[i]], now)
      {
        assert i > 0 ==> page[1..][i - 1] == page[i];
      }
    }
  }

  /** The first job of a page of different jobs is done with when the rest follows. */
  lemma OneThenPage(store: Store, mid: Store, next: Store, page: seq<JobId>)
    requires page != [] && (forall i, j :: 0 <= i < j < |page| ==> page[i] != page[j])
    requires forall i :: 0 <= i < |page| ==> page[i] < |store.jobs|
    requires |mid.jobs| == |store.jobs| == |next.jobs| && mid.jobs == store.jobs[page[0] := mid.jobs[page[0]]]
    requires forall j :: 0 <= j < |mid.jobs| && j !in page[1..] ==> next.jobs[j] == mid.jobs[j]
    ensures next.jobs[page[0]] == mid.jobs[page[0]]
    ensures forall i :: 0 < i < |page| ==> mid.jobs[page[i]] == store.jobs[page[i]]
    ensures forall j :: 0 <= j < |store.jobs| && j !in page ==> next.jobs[j] == store.jobs[j]
  {
    assert page[0] !in page[1..];
    forall j | 0 <= j < |store.jobs| && j !in page
      ensures next.jobs[j] == store.jobs[j]
    {
      assert j != page[0] && j !in page[1..];
    }
  }

  // ---------------------------------------------------------------- the sweep

  /** A job with an expired hold after the sweep: renewed if a worker still has it; else expired
      from its queue, or buried, and charged for what it transferred, as a failure. */
  ghost predicate Swept(d: Dossier, d': Dossier, now: int) {
    && d'.attempts == d.attempts && d'.files == d.files && d'.outbox == d.outbox
    && d'.job == d.job.(status := d'.job.status)
    && if IsActive(d.job.status) && d.job.leaseExpiresAt.Some? && now < d.job.leaseExpiresAt.value then
         && d'.job == d.job && d'.events == d.events && d'.usage == d.usage
         && RowsRenewed(d.reservations, d'.reservations, false, 0, now)
       else
         && AllCharged(d.reservations, d'.reservations, d.job.bytesTransferred, false)
         && (d.job.status == Queued ==>
               d'.job.status == Expired && d'.events == d.events + [JobEvent(Some(Queued), Expired)])
         && (d.job.status != Queued && IsActive(d.job.status) ==>
               d'.job.status == DeadLetter && d'.events == d.events + [JobEvent(Some(d.job.status), Failed)])
         && (!IsActive(d.job.status) ==> d'.job == d.job && d'.events == d.events)
  }

  /** The row and events of an unheld job that was still to run. */
  lemma StaleCloses(d: Dossier)
    requires StatusSound(d.job) && IsActive(d.job.status)
    ensures d.job.status == Queued ==>
              CloseStale(d) == Ok(d.(job := d.job.(status := Expired),
                                     events := d.events + [JobEvent(Some(Queued), Expired)]))
    ensures d.job.status != Queued ==>
              CloseStale(d) == Ok(d.(job := d.job.(status := DeadLetter),
                                     events := d.events + [JobEvent(Some(d.job.status), Failed)]))
  {
  }

  lemma OpenUnlessEnded(d: Dossier, now: int)
    requires Sound(d) && HasExpiredHold(d, now)
    ensures IsActive(d.job.status) || d.job.status == DeadLetter
    ensures d.job.resultSize.None?
  {
  }

  lemma SweepEffect(buckets: Buckets, d: Dossier, now: int)
    requires Sound(d) && Backed(buckets, d.reservations) && HasExpiredHold(d, now)
    ensures ReconcileJob(buckets, d, now).Ok? && Swept(d, ReconcileJob(buckets, d, now).value.dossier, now)
  {
    ReconcileJobSound(buckets, d, now);
    ReconcileJobBranches(buckets, d, now);
    SoundRowsClear(d);
    OpenUnlessEnded(d, now);
    if HeldByWorker(d.job, now) {
      TouchedRenewed(buckets, d.reservations, 0, now);
    } else if IsActive(d.job.status) {
      StaleCloses(d);
      ReconcileCharges(buckets, CloseStale(d).value, d.job.bytesTransferred, false);
    } else {
      ReconcileCharges(buckets, d, d.job.bytesTransferred, false);
    }
  }

  /** Every job of the page was swept, and no other touched. */
  ghost predicate PageIsSwept(store: Store, next: Store, page: seq<JobId>, now: int)
    requires forall i :: 0 <= i < |page| ==> page[i] < |store.jobs|
  {
    && |next.jobs| == |store.jobs|
    && (forall i :: 0 <= i < |page| ==> Swept(store.jobs[page[i]], next.jobs[page[i]], now))
    && (forall j :: 0 <= j < |store.jobs| && j !in page ==> next.jobs[j] == store.jobs[j])
  }

  lemma SweptOn(store: Store, mid: Store, next: Store, page: seq<JobId>, now: int)
    requires page != [] && (forall i, j :: 0 <= i < j < |page| ==> page[i] != page[j])
    requires forall i :: 0 <= i < |page| ==> page[i] < |store.jobs|
    requires |mid.jobs| == |store.jobs| && mid.jobs == store.jobs[page[0] := mid.jobs[page[0]]]
    requires Swept(store.jobs[page[0]], mid.jobs[page[0]], now) && PageIsSwept(mid, next, page[1..], now)
    ensures PageIsSwept(store, next, page, now)
  {
    OneThenPage(store, mid, next, page);
    forall i | 0 <= i < |page|
      ensures Swept(store.jobs[page[i]], next.jobs[page[i]], now)
    {
      if i > 0 {
        assert Swept(mid.jobs[page[1..][i - 1]], next.jobs[page[1..][i - 1]], now);
      }
    }
  }

  /** The sweep does so to every job of its page. */
  lemma {:induction false} PageSwept(store: Store, page: seq<JobId>, now: int)
    requires Inv(store) && ExpiryPage(store, page, now)
    ensures ReconcileExpired(store, page, now).Ok?
    ensures PageIsSwept(store, ReconcileExpired(store, page, now).value, page, now)
    decreases |page|
  {
    if page != [] {
      SweepStep(store, page, now);
      assert Sound(store.jobs[page[0]]);
      OpenRowsBacked(store, page[0]);
      SweepEffect(store.buckets, store.jobs[page[0]], now);
      var posting := ReconcileJob(store.buckets, store.jobs[page[0]], now).value;
      var mid := Replace(store, page[0], posting.dossier).(buckets := posting.buckets);
      PageSwept(mid, page[1..], now);
      SweptOn(store, mid, ReconcileExpired(mid, page[1..], now).value, page, now);
    }
  }
}
