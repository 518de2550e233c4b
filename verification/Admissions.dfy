/** What admission decides and what it leaves (app/services/admission.py:24-107,
    app/services/quota.py:261-372), read off the plan and the rows. */
module Admissions {
  import opened Base
  import opened QuotaWindows
  import opened QuotaLedger
  import opened JobModel
  import opened JobTotals
  import opened JobProtocol
  import opened JobInvariant
  import opened Dispatcher
  import opened JobSystem
  import opened JobHistory
  import opened QuotaTheorems

  // ---------------------------------------------------------------- quotas and buckets

  /** The user's bucket for the window an instant lies in. */
  function BucketAt(user: UserId, dimension: Dimension, kind: WindowKind, t: int): BucketKey {
    BucketKey(user, dimension, QuotaWindow(kind, t))
  }

  /** What one download takes from a bucket. */
  function Takes(dimension: Dimension, bytes: int): int {
    if dimension == JobCount then 1 else bytes
  }

  function UsedAt(buckets: Buckets, key: BucketKey): int {
    CommittedAt(buckets, key) + ReservedAt(buckets, key)
  }

  /** The plan sets this quota, and the download does not fit in what is left of it. */
  predicate Exhausted(buckets: Buckets, user: UserId, plan: Plan, bytes: int, dimension: Dimension, kind: WindowKind,
                      now: int)
  {
    && QuotaFor(plan, dimension, kind).Some?
    && UsedAt(buckets, BucketAt(user, dimension, kind, now)) + Takes(dimension, bytes)
       > QuotaFor(plan, dimension, kind).value
  }

  /** The specification is what the plan says about one of its quotas. */
  ghost predicate Specifies(spec: Specification, user: UserId, plan: Plan, bytes: int, dimension: Dimension,
                            kind: WindowKind, now: int)
  {
    && spec.key == BucketAt(user, dimension, kind, now)
    && QuotaFor(plan, dimension, kind) == Some(spec.limit)
    && spec.amount == Takes(dimension, bytes)
  }

  /** There is one specification for every quota the plan sets, and no other. */
  lemma SpecificationsAreQuotas(user: UserId, plan: Plan, bytes: int, now: int)
    ensures var specs := Specifications(user, plan, bytes, now);
            && (forall i :: 0 <= i < |specs| ==>
                  Specifies(specs[i], user, plan, bytes, specs[i].key.dimension, specs[i].key.window.kind, now))
            && (forall i, j :: 0 <= i < j < |specs| ==> specs[i].key != specs[j].key)
  {
  }

  lemma QuotaIsSpecified(user: UserId, plan: Plan, bytes: int, now: int, dimension: Dimension, kind: WindowKind)
    returns (i: nat)
    requires QuotaFor(plan, dimension, kind).Some?
    ensures i < |Specifications(user, plan, bytes, now)|
    ensures Specifies(Specifications(user, plan, bytes, now)[i], user, plan, bytes, dimension, kind, now)
  {
    SpecifiedWhenSet(user, plan, bytes, now, dimension, kind);
    SpecificationsAreQuotas(user, plan, bytes, now);
    var specs := Specifications(user, plan, bytes, now);
    i :| 0 <= i < |specs| && specs[i].key == BucketAt(user, dimension, kind, now);
  }

  predicate HasRoom(buckets: Buckets, spec: Specification) {
    UsedAt(buckets, spec.key) + spec.amount <= spec.limit
  }

  predicate KeysDiffer(specs: seq<Specification>) {
    forall i, j :: 0 <= i < j < |specs| ==> specs[i].key != specs[j].key
  }

  /** The specification's limit and amount are in its bucket. */
  ghost predicate Met(buckets: Buckets, after: Buckets, spec: Specification) {
    && spec.key in after && after[spec.key].quotaLimit == spec.limit
    && CommittedAt(after, spec.key) == CommittedAt(buckets, spec.key)
    && ReservedAt(after, spec.key) == ReservedAt(buckets, spec.key) + spec.amount
  }

  /** Specifications of different buckets are met exactly when each has room in the table as
      it was, and each then has its limit and its amount in its bucket. */
  lemma {:induction false} ReservesExactly(buckets: Buckets, specs: seq<Specification>, now: int)
    requires KeysDiffer(specs)
    ensures ReserveRows(buckets, specs, now).Ok? <==> forall i :: 0 <= i < |specs| ==> HasRoom(buckets, specs[i])
    ensures ReserveRows(buckets, specs, now).Ok? ==>
              var after := ReserveRows(buckets, specs, now).value.buckets;
              && (forall i :: 0 <= i < |specs| ==> Met(buckets, after, specs[i]))
              && OnlyTheirs(buckets, after, specs)
    decreases |specs|
  {
    if specs != [] {
      var head := ReserveRow(buckets, specs[0], now);
      if head.Ok? {
        var rest := specs[1..];
        ReservesExactly(head.value.buckets, rest, now);
        FirstAlone(buckets, specs[0], now);
        RestUnaffected(buckets, specs, head.value.buckets);
        var all := ReserveRows(buckets, specs, now);
        if all.Ok? {
          FirstThenRest(buckets, specs, head.value.buckets, all.value.buckets);
        }
      } else {
        assert !HasRoom(buckets, specs[0]);
      }
    }
  }

  lemma FirstAlone(buckets: Buckets, spec: Specification, now: int)
    requires ReserveRow(buckets, spec, now).Ok?
    ensures var next := ReserveRow(buckets, spec, now).value.buckets;
            Met(buckets, next, spec) && OnlyTheirs(buckets, next, [spec])
  {
    assert [spec][0] == spec;
  }

  lemma RestUnaffected(buckets: Buckets, specs: seq<Specification>, next: Buckets)
    requires specs != [] && KeysDiffer(specs) && OnlyTheirs(buckets, next, [specs[0]])
    ensures forall i :: 0 <= i < |specs| - 1 ==> HasRoom(next, specs[1..][i]) == HasRoom(buckets, specs[i + 1])
  {
    forall i | 0 <= i < |specs| - 1
      ensures HasRoom(next, specs[1..][i]) == HasRoom(buckets, specs[i + 1])
    {
      assert specs[0].key != specs[i + 1].key;
    }
  }

  lemma FirstThenRest(buckets: Buckets, specs: seq<Specification>, next: Buckets, after: Buckets)
    requires specs != [] && KeysDiffer(specs)
    requires Met(buckets, next, specs[0]) && OnlyTheirs(buckets, next, [specs[0]])
    requires forall i :: 0 <= i < |specs| - 1 ==> Met(next, after, specs[1..][i])
    requires OnlyTheirs(next, after, specs[1..])
    ensures (forall i :: 0 <= i < |specs| ==> Met(buckets, after, specs[i])) && OnlyTheirs(buckets, after, specs)
  {
    forall i | 0 <= i < |specs|
      ensures Met(buckets, after, specs[i])
    {
      if i > 0 {
        assert specs[1..][i - 1] == specs[i];
        assert specs[0].key != specs[i].key;
      }
    }
  }

  /** Buckets that no specification names are as they were. */
  ghost predicate OnlyTheirs(buckets: Buckets, after: Buckets, specs: seq<Specification>) {
    forall key :: (forall i :: 0 <= i < |specs| ==> specs[i].key != key) ==>
                    && (key in after <==> key in buckets)
                    && (key in buckets ==> after[key] == buckets[key])
  }

  // ---------------------------------------------------------------- the decision

  /** The request is refused whatever the quotas say. */
  predicate RefusedOutright(req: Intake, settings: IntakeSettings, plan: Option<Plan>) {
    || settings.maintenance || !settings.admissionEnabled
    || req.estimatedBytes <= 0 || req.estimatedBytes > settings.hardMax
    || (plan.Some? && req.estimatedBytes > plan.value.maxFileSize)
    || (plan.Some? && req.source == ExternalUrl && !plan.value.externalUrlEnabled)
  }

  ghost predicate SomeExhausted(store: Store, req: Intake, plan: Plan, now: int) {
    exists dimension, kind :: Exhausted(store.buckets, req.user, plan, req.estimatedBytes, dimension, kind, now)
  }

  lemma RoomIffNotExhausted(store: Store, req: Intake, plan: Plan, now: int)
    ensures (forall i :: 0 <= i < |Specifications(req.user, plan, req.estimatedBytes, now)| ==>
               HasRoom(store.buckets, Specifications(req.user, plan, req.estimatedBytes, now)[i]))
            <==> !SomeExhausted(store, req, plan, now)
  {
    var specs := Specifications(req.user, plan, req.estimatedBytes, now);
    SpecificationsAreQuotas(req.user, plan, req.estimatedBytes, now);
    if dimension, kind :| Exhausted(store.buckets, req.user, plan, req.estimatedBytes, dimension, kind, now) {
      var i := QuotaIsSpecified(req.user, plan, req.estimatedBytes, now, dimension, kind);
      assert !HasRoom(store.buckets, specs[i]);
    }
    forall i | 0 <= i < |specs| && !HasRoom(store.buckets, specs[i])
      ensures SomeExhausted(store, req, plan, now)
    {
      var key := specs[i].key;
      assert Specifies(specs[i], req.user, plan, req.estimatedBytes, key.dimension, key.window.kind, now);
      assert Exhausted(store.buckets, req.user, plan, req.estimatedBytes, key.dimension, key.window.kind, now);
    }
  }

  /** The user's jobs that have not ended. */
  function UnendedJobs(jobs: seq<Dossier>, user: UserId): set<JobId> {
    set i: JobId | 0 <= i < |jobs| && jobs[i].job.user == user
                   && jobs[i].job.status !in {Completed, Failed, Cancelled, Expired, CancelledByMigration, DeadLetter}
  }

  lemma ActiveAreUnended(jobs: seq<Dossier>, user: UserId)
    ensures Total(jobs, ActiveOf(user)) == |UnendedJobs(jobs, user)|
  {
    forall i | 0 <= i < |jobs|
      ensures Weight(ActiveOf(user), jobs[i]) == if i in UnendedJobs(jobs, user) then 1 else 0
    {
      ActiveIsUnended(jobs[i].job.status);
    }
    TotalIsCount(jobs, ActiveOf(user), UnendedJobs(jobs, user));
  }

  lemma ActiveIsUnended(status: Status)
    ensures IsActive(status) <==>
            status !in {Completed, Failed, Cancelled, Expired, CancelledByMigration, DeadLetter}
  {
  }

  /** A request under a new key is refused outright, or for a plan that is missing or broken,
      or because the user is at the plan's number of jobs or a window of the plan's has no room
      left; each with its own error, and in no other case. */
  lemma AdmissionDecides(store: Store, req: Intake, settings: IntakeSettings, plan: Option<Plan>, now: int)
    requires !KeyUsed(store.jobs, req.key)
    ensures var r := Admit(store, req, settings, plan, now);
            && (r == Err(AdmissionDenied) <==> RefusedOutright(req, settings, plan))
            && (r == Err(ConstraintViolation) <==>
                  !RefusedOutright(req, settings, plan) && plan.Some? && plan.value.queuePriority < 0)
            && (r == Err(QuotaExceeded) <==>
                  && !RefusedOutright(req, settings, plan)
                  && (plan.None?
                      || (plan.value.queuePriority >= 0
                          && (|UnendedJobs(store.jobs, req.user)| >= plan.value.concurrentJobs
                              || SomeExhausted(store, req, plan.value, now)))))
            && (r.Err? ==> r.error == AdmissionDenied || r.error == ConstraintViolation || r.error == QuotaExceeded)
  {
    if plan.Some? {
      var specs := Specifications(req.user, plan.value, req.estimatedBytes, now);
      SpecificationsAreQuotas(req.user, plan.value, req.estimatedBytes, now);
      ReservesExactly(store.buckets, specs, now);
      ReserveErrors(store.buckets, specs, now);
      RoomIffNotExhausted(store, req, plan.value, now);
      ActiveAreUnended(store.jobs, req.user);
    }
  }

  // ---------------------------------------------------------------- what it leaves

  /** The bucket of a quota the plan sets, after the admission. */
  ghost predicate QuotaTaken(buckets: Buckets, after: Buckets, user: UserId, plan: Plan, bytes: int,
                             dimension: Dimension, kind: WindowKind, now: int)
  {
    var key := BucketAt(user, dimension, kind, now);
    QuotaFor(plan, dimension, kind).Some? ==>
      && key in after && after[key].quotaLimit == QuotaFor(plan, dimension, kind).value
      && CommittedAt(after, key) == CommittedAt(buckets, key)
      && ReservedAt(after, key) == ReservedAt(buckets, key) + Takes(dimension, bytes)
      && UsedAt(after, key) <= QuotaFor(plan, dimension, kind).value
  }

  lemma MetIsTaken(buckets: Buckets, after: Buckets, user: UserId, plan: Plan, bytes: int, dimension: Dimension,
                   kind: WindowKind, now: int)
    requires var specs := Specifications(user, plan, bytes, now);
             forall i :: 0 <= i < |specs| ==> Met(buckets, after, specs[i]) && HasRoom(buckets, specs[i])
    ensures QuotaTaken(buckets, after, user, plan, bytes, dimension, kind, now)
  {
    if QuotaFor(plan, dimension, kind).Some? {
      var i := QuotaIsSpecified(user, plan, bytes, now, dimension, kind);
      assert Met(buckets, after, Specifications(user, plan, bytes, now)[i]);
    }
  }

  /** The plan does not set a quota on this bucket for a download of the user's at this instant. */
  predicate Unquotaed(key: BucketKey, user: UserId, plan: Plan, now: int) {
    || key.user != user || key != BucketAt(user, key.dimension, key.window.kind, now)
    || QuotaFor(plan, key.dimension, key.window.kind).None?
  }

  lemma UnquotaedIsOther(user: UserId, plan: Plan, bytes: int, now: int, key: BucketKey)
    requires Unquotaed(key, user, plan, now)
    ensures var specs := Specifications(user, plan, bytes, now);
            forall i :: 0 <= i < |specs| ==> specs[i].key != key
  {
    SpecificationsAreQuotas(user, plan, bytes, now);
  }

  ghost predicate TakesQuotas(buckets: Buckets, after: Buckets, user: UserId, plan: Plan, bytes: int, now: int) {
    forall dimension, kind {:trigger QuotaTaken(buckets, after, user, plan, bytes, dimension, kind, now)} ::
      QuotaTaken(buckets, after, user, plan, bytes, dimension, kind, now)
  }

  ghost predicate LeavesOthers(buckets: Buckets, after: Buckets, user: UserId, plan: Plan, now: int) {
    forall key: BucketKey {:trigger Unquotaed(key, user, plan, now)} :: Unquotaed(key, user, plan, now) ==>
      (key in after <==> key in buckets) && (key in after ==> after[key] == buckets[key])
  }

  lemma MetLeavesOthers(buckets: Buckets, after: Buckets, user: UserId, plan: Plan, bytes: int, now: int)
    requires OnlyTheirs(buckets, after, Specifications(user, plan, bytes, now))
    ensures LeavesOthers(buckets, after, user, plan, now)
  {
    forall key: BucketKey | Unquotaed(key, user, plan, now)
      ensures (key in after <==> key in buckets) && (key in after ==> after[key] == buckets[key])
    {
      UnquotaedIsOther(user, plan, bytes, now, key);
    }
  }

  lemma MetTakesQuotas(buckets: Buckets, after: Buckets, user: UserId, plan: Plan, bytes: int, now: int)
    requires var specs := Specifications(user, plan, bytes, now);
             forall i :: 0 <= i < |specs| ==> Met(buckets, after, specs[i]) && HasRoom(buckets, specs[i])
    ensures TakesQuotas(buckets, after, user, plan, bytes, now)
  {
    forall dimension, kind
      ensures QuotaTaken(buckets, after, user, plan, bytes, dimension, kind, now)
    {
      MetIsTaken(buckets, after, user, plan, bytes, dimension, kind, now);
    }
  }

  lemma ReservingTakesQuotas(buckets: Buckets, user: UserId, plan: Plan, bytes: int, now: int)
    requires ReserveRows(buckets, Specifications(user, plan, bytes, now), now).Ok?
    ensures var after := ReserveRows(buckets, Specifications(user, plan, bytes, now), now).value.buckets;
            TakesQuotas(buckets, after, user, plan, bytes, now) && LeavesOthers(buckets, after, user, plan, now)
  {
    var specs := Specifications(user, plan, bytes, now);
    SpecificationsAreQuotas(user, plan, bytes, now);
    ReservesExactly(buckets, specs, now);
    MetTakesQuotas(buckets, ReserveRows(buckets, specs, now).value.buckets, user, plan, bytes, now);
    MetLeavesOthers(buckets, ReserveRows(buckets, specs, now).value.buckets, user, plan, bytes, now);
  }

  /** An accepted admission takes its amount from the bucket of every quota the plan sets,
      leaves the plan's limit there, and stays within it; no other bucket changes. */
  lemma AdmissionTakesQuotas(store: Store, req: Intake, settings: IntakeSettings, plan: Option<Plan>, now: int)
    requires !KeyUsed(store.jobs, req.key) && Admit(store, req, settings, plan, now).Ok?
    ensures plan.Some?
    ensures var after := Admit(store, req, settings, plan, now).value.buckets;
            && TakesQuotas(store.buckets, after, req.user, plan.value, req.estimatedBytes, now)
            && LeavesOthers(store.buckets, after, req.user, plan.value, now)
  {
    ReservingTakesQuotas(store.buckets, req.user, plan.value, req.estimatedBytes, now);
  }

  /** The row of a job just admitted. */
  predicate JustAdmitted(job: Job, req: Intake, plan: Plan, now: int) {
    && job.user == req.user && job.source == req.source && job.jobType == req.jobType && job.key == req.key
    && job.payload == req.payload && job.policy == req.policy
    && job.status == Queued && job.queuedAt == now && job.createdAt == now
    && job.basePriority == plan.queuePriority && job.effectivePriority == plan.queuePriority
    && (job.lane == Vip <==> plan.queuePriority >= 100)
    && job.attemptCount == 0 && job.maxAttempts == 3 && job.generation == 0
    && job.leaseHash.None? && job.leaseExpiresAt.None? && job.resultSize.None?
    && job.bytesTransferred == 0 && job.progressPercent == 0
    && job.totalBytes == if req.payload.sizeKnown then Some(req.estimatedBytes) else None
  }

  lemma RowsAreQuotas(user: UserId, plan: Plan, bytes: int, now: int, rows: seq<Reservation>)
    requires var specs := Specifications(user, plan, bytes, now);
             |rows| == |specs| && forall i :: 0 <= i < |specs| ==> rows[i].bucket == specs[i].key
    ensures forall dimension, kind ::
              (exists i :: 0 <= i < |rows| && rows[i].bucket == BucketAt(user, dimension, kind, now))
              <==> QuotaFor(plan, dimension, kind).Some?
  {
    var specs := Specifications(user, plan, bytes, now);
    SpecificationsAreQuotas(user, plan, bytes, now);
    forall dimension, kind
      ensures (exists i :: 0 <= i < |rows| && rows[i].bucket == BucketAt(user, dimension, kind, now))
              <==> QuotaFor(plan, dimension, kind).Some?
    {
      if QuotaFor(plan, dimension, kind).Some? {
        var i := QuotaIsSpecified(user, plan, bytes, now, dimension, kind);
        assert rows[i].bucket == specs[i].key;
      }
      if i :| 0 <= i < |rows| && rows[i].bucket == BucketAt(user, dimension, kind, now) {
        assert Specifies(specs[i], user, plan, bytes, specs[i].key.dimension, specs[i].key.window.kind, now);
      }
    }
  }

  /** The job holds its amount on every quota of the plan, and on nothing else, for four hours. */
  ghost predicate HoldsQuotas(rows: seq<Reservation>, user: UserId, plan: Plan, bytes: int, now: int) {
    && (forall i :: 0 <= i < |rows| ==>
          && rows[i].state == Active && rows[i].consumed == 0 && rows[i].expiresAt == now + 4 * HOUR
          && rows[i].amount == Takes(rows[i].bucket.dimension, bytes))
    && (forall dimension, kind ::
          (exists i :: 0 <= i < |rows| && rows[i].bucket == BucketAt(user, dimension, kind, now))
          <==> QuotaFor(plan, dimension, kind).Some?)
  }

  lemma AdmissionHolds(buckets: Buckets, user: UserId, plan: Plan, bytes: int, now: int)
    requires ReserveRows(buckets, Specifications(user, plan, bytes, now), now).Ok?
    ensures var rows := ReserveRows(buckets, Specifications(user, plan, bytes, now), now).value.rows;
            HoldsQuotas(rows, user, plan, bytes, now)
  {
    var specs := Specifications(user, plan, bytes, now);
    SpecificationsAreQuotas(user, plan, bytes, now);
    ReserveEffect(buckets, specs, now);
    RowsAreQuotas(user, plan, bytes, now, ReserveRows(buckets, specs, now).value.rows);
  }

  /** It adds one queued job with its admission event, its notice for the admission stream and
      a hold of four hours on every quota of the plan, and changes no other job. */
  lemma AdmissionAddsJob(store: Store, req: Intake, settings: IntakeSettings, plan: Option<Plan>, now: int)
    requires !KeyUsed(store.jobs, req.key) && Admit(store, req, settings, plan, now).Ok?
    ensures var after := Admit(store, req, settings, plan, now).value.jobs;
            && |after| == |store.jobs| + 1 && after[..|store.jobs|] == store.jobs
            && var d := after[|store.jobs|];
            && plan.Some? && JustAdmitted(d.job, req, plan.value, now)
            && d.events == [JobEvent(None, Queued)]
            && d.outbox == [OutboxEvent(Admitted, AdmissionStream, Unsent, 0, now, None)]
            && d.attempts == [] && d.usage == [] && d.files == []
            && HoldsQuotas(d.reservations, req.user, plan.value, req.estimatedBytes, now)
  {
    AdmissionHolds(store.buckets, req.user, plan.value, req.estimatedBytes, now);
  }
}
