/** The quota service on an open transaction (app/services/quota.py): loops that change
    bucket, reservation and job rows in place, each proved to leave exactly what the ledger
    functions say. A raised exception leaves a state that the rollback discards. */
module QuotaService {
  import opened Base
  import opened QuotaLedger
  import opened JobModel
  import opened JobTotals
  import opened Sessions
  import P = JobProtocol

  /** What a loop returns that has handled some rows and still has the rest to do. */
  function After(rows: seq<Reservation>, records: seq<UsageRecord>, rest: Result<Settlement>): Result<Settlement> {
    var s :- rest;
    Ok(Settlement(s.buckets, rows + s.rows, records + s.records))
  }

  lemma AfterStep(rows: seq<Reservation>, records: seq<UsageRecord>, row: Reservation, more: seq<UsageRecord>,
                  rest: Result<Settlement>)
    ensures After(rows, records, After([row], more, rest)) == After(rows + [row], records + more, rest)
  {
    if rest.Ok? {
      assert rows + ([row] + rest.value.rows) == rows + [row] + rest.value.rows;
      assert records + (more + rest.value.records) == records + more + rest.value.records;
    }
  }

  lemma AfterAll(rows: seq<Reservation>, records: seq<UsageRecord>, buckets: Buckets)
    ensures After(rows, records, Ok(Settlement(buckets, [], []))) == Ok(Settlement(buckets, rows, records))
  {
    assert rows + [] == rows;
    assert records + [] == records;
  }

  lemma TouchNext(rows: seq<Reservation>, i: nat, now: int)
    requires i < |rows|
    ensures (TouchRows(rows[..i], now) + rows[i..])[i] == rows[i]
    ensures (TouchRows(rows[..i], now) + rows[i..])[i := TouchRow(rows[i], now)]
            == TouchRows(rows[..i + 1], now) + rows[i + 1..]
    ensures rows[i].state != Active ==>
              TouchRows(rows[..i], now) + rows[i..] == TouchRows(rows[..i + 1], now) + rows[i + 1..]
  {
  }

  method Touch(s: Session, id: JobId, now: int)
    requires id < |s.jobs|
    modifies s`jobs
    ensures s.jobs == old(s.jobs)[id := P.Touch(old(s.jobs[id]), now)]
  {
    ghost var d := s.jobs[id];
    assert TouchRows(d.reservations[..0], now) + d.reservations[0..] == d.reservations;
    var i := 0;
    while i < |s.jobs[id].reservations|
      invariant |s.jobs| == old(|s.jobs|) && i <= |d.reservations| == |s.jobs[id].reservations|
      invariant s.jobs == old(s.jobs)[id := d.(reservations := TouchRows(d.reservations[..i], now)
                                               + d.reservations[i..])]
    {
      var r := s.jobs[id].reservations[i];
      if r.state == Active {
        s.SetReservation(id, i, r.(expiresAt := now + HOLD));
      }
      TouchNext(d.reservations, i, now);
      i := i + 1;
    }
    assert TouchRows(d.reservations[..i], now) + d.reservations[i..] == TouchRows(d.reservations, now);
  }

  /** Jobs of the user in an active state, not counting the given one. */
  function OthersActive(jobs: seq<Dossier>, id: JobId, user: UserId): int
    requires id < |jobs|
  {
    Total(jobs, ActiveOf(user)) - Weight(ActiveOf(user), jobs[id])
  }

  lemma ReserveNext(buckets: Buckets, specs: seq<Specification>, i: nat, now: int)
    requires i < |specs|
    ensures var first := ReserveRow(buckets, specs[i], now);
            ReserveRows(buckets, specs[i..], now)
            == if first.Err? then Err(first.error)
               else After(first.value.rows, [], ReserveRows(first.value.buckets, specs[i + 1..], now))
  {
    var first := ReserveRow(buckets, specs[i], now);
    assert specs[i..][1..] == specs[i + 1..];
    if first.Ok? {
      var rest := ReserveRows(first.value.buckets, specs[i + 1..], now);
      if rest.Ok? {
        assert rest.value.records == [];
        var none: seq<UsageRecord> := [];
        assert none + rest.value.records == none;
      }
    }
  }

  /** One specification: the bucket row is created if missing, locked, checked and raised. */
  method ReserveOne(s: Session, id: JobId, spec: Specification, now: int) returns (r: Result<()>)
    requires id < |s.jobs|
    modifies s
    ensures var step := ReserveRow(old(s.buckets), spec, now);
            && (r.Ok? <==> step.Ok?)
            && (r.Err? ==> r == Err(QuotaExceeded) && step.error == QuotaExceeded)
            && (r.Ok? ==>
                  && s.buckets == step.value.buckets
                  && s.jobs == old(s.jobs)[id := old(s.jobs[id]).(reservations := old(s.jobs[id].reservations)
                                                                  + step.value.rows)])
  {
    if spec.key !in s.buckets {
      s.buckets := s.buckets[spec.key := Bucket(spec.limit, 0, 0, 1)];
    }
    var bucket := s.buckets[spec.key];
    if bucket.committed + bucket.reserved + spec.amount > spec.limit {
      return Err(QuotaExceeded);
    }
    s.buckets := s.buckets[spec.key := bucket.(quotaLimit := spec.limit, reserved := bucket.reserved + spec.amount,
                                               version := bucket.version + 1)];
    var row := Reservation(spec.key, spec.amount, 0, Active, now + HOLD);
    s.jobs := s.jobs[id := s.jobs[id].(reservations := s.jobs[id].reservations + [row])];
    return Ok(());
  }

  method Reserve(s: Session, id: JobId, user: UserId, plan: Plan, bytes: int, now: int) returns (r: Result<()>)
    requires id < |s.jobs|
    modifies s
    ensures var spec := ReserveRows(old(s.buckets), Specifications(user, plan, bytes, now), now);
            && (r.Ok? <==>
                  && 0 < bytes <= plan.maxFileSize
                  && old(OthersActive(s.jobs, id, user)) < plan.concurrentJobs
                  && spec.Ok?)
            && (r.Ok? ==>
                  && s.buckets == spec.value.buckets
                  && s.jobs == old(s.jobs)[id := old(s.jobs[id]).(reservations := old(s.jobs[id].reservations)
                                                                  + spec.value.rows)])
            && (r.Err? ==> r.error == QuotaExceeded)
  {
    if bytes <= 0 || bytes > plan.maxFileSize {
      return Err(QuotaExceeded);
    }
    if OthersActive(s.jobs, id, user) >= plan.concurrentJobs {
      return Err(QuotaExceeded);
    }
    ghost var d := s.jobs[id];
    var specs := Specifications(user, plan, bytes, now);
    ghost var spec := ReserveRows(s.buckets, specs, now);
    ghost var added: seq<Reservation> := [];
    assert d.reservations + added == d.reservations;
    AfterNone(spec);
    assert specs[0..] == specs;
    var i := 0;
    while i < |specs|
      invariant i <= |specs| && |s.jobs| == old(|s.jobs|)
      invariant s.jobs == old(s.jobs)[id := d.(reservations := d.reservations + added)]
      invariant spec == After(added, [], ReserveRows(s.buckets, specs[i..], now))
    {
      ReserveNext(s.buckets, specs, i, now);
      ghost var step := ReserveRow(s.buckets, specs[i], now);
      var _ :- ReserveOne(s, id, specs[i], now);
      ghost var row := step.value.rows[0];
      assert d.reservations + added + [row] == d.reservations + (added + [row]);
      AfterStep(added, [], row, [], ReserveRows(s.buckets, specs[i + 1..], now));
      added := added + [row];
      i := i + 1;
    }
    AfterAll(added, [], s.buckets);
    return Ok(());
  }

  lemma AfterNone(rest: Result<Settlement>)
    ensures After([], [], rest) == rest
  {
    if rest.Ok? {
      assert [] + rest.value.rows == rest.value.rows;
      assert [] + rest.value.records == rest.value.records;
    }
  }

  // ---------------------------------------------------------------- reconcile

  /** Row i has been handled. */
  lemma RowHandled(done: seq<Reservation>, rows: seq<Reservation>, i: nat, row: Reservation)
    requires i < |rows| && |done| == i
    ensures (done + rows[i..])[i := row] == (done + [row]) + rows[i + 1..]
  {
  }

  lemma SettleNext(buckets: Buckets, rows: seq<Reservation>, i: nat, actual: int, success: bool)
    requires i < |rows|
    ensures var first := SettleRow(buckets, rows[i], actual, success);
            SettleRows(buckets, rows[i..], actual, success)
            == if first.Err? then Err(first.error)
               else After(first.value.rows, first.value.records,
                          SettleRows(first.value.buckets, rows[i + 1..], actual, success))
  {
    assert rows[i..][1..] == rows[i + 1..];
  }

  lemma UntouchedRow(jobs: seq<Dossier>, id: JobId, i: nat)
    requires id < |jobs| && i < |jobs[id].reservations|
    ensures var d := jobs[id];
            && jobs[id := d.(reservations := d.reservations[i := d.reservations[i]])] == jobs
            && jobs[id := d.(reservations := d.reservations[i := d.reservations[i]], usage := d.usage + [])] == jobs
  {
    var d := jobs[id];
    assert d.reservations[i := d.reservations[i]] == d.reservations;
    assert d.usage + [] == d.usage;
  }

  /** One reservation: closed with its charge, the rest of its hold given back, the charge
      recorded. Reservations that are not active are not selected. */
  method ReconcileOne(s: Session, id: JobId, i: nat, actual: int, success: bool) returns (r: Result<()>)
    requires id < |s.jobs| && i < |s.jobs[id].reservations|
    modifies s
    ensures var d := old(s.jobs[id]);
            var step := SettleRow(old(s.buckets), d.reservations[i], actual, success);
            && (r.Ok? <==> step.Ok?)
            && (r.Err? ==> r.error == QuotaExceeded == step.error)
            && (r.Ok? ==>
                  && s.buckets == step.value.buckets
                  && |step.value.rows| == 1
                  && s.jobs == old(s.jobs)[id := d.(reservations := d.reservations[i := step.value.rows[0]],
                                                    usage := d.usage + step.value.records)])
  {
    var d := s.jobs[id];
    var row := d.reservations[i];
    if row.state != Active {
      UntouchedRow(s.jobs, id, i);
      return Ok(());
    }
    if row.bucket !in s.buckets {
      return Err(QuotaExceeded);
    }
    var consumed: int;
    match row.bucket.dimension {
      case JobCount => consumed := if success then 1 else 0;
      case Storage => consumed := if success then actual else 0;
      case Ingress => consumed := actual;
    }
    if consumed > row.amount {
      return Err(QuotaExceeded);
    }
    var bucket := s.buckets[row.bucket];
    s.buckets := s.buckets[row.bucket := bucket.(reserved := bucket.reserved - row.amount,
                                                 committed := bucket.committed + consumed,
                                                 version := bucket.version + 1)];
    s.SetReservation(id, i, row.(consumed := consumed, state := if consumed > 0 then Committed else Released));
    if consumed > 0 {
      s.jobs := s.jobs[id := s.jobs[id].(usage := s.jobs[id].usage + [UsageRecord(row.bucket, consumed)])];
    } else {
      assert d.usage + [] == d.usage;
    }
    return Ok(());
  }

  method Reconcile(s: Session, id: JobId, actual: int, success: bool) returns (r: Result<()>)
    requires id < |s.jobs|
    modifies s
    ensures var spec := P.Reconcile(old(s.buckets), old(s.jobs[id]), actual, success);
            && (r.Ok? <==> spec.Ok?)
            && (r.Err? ==> spec == Err(r.error) && r.error == QuotaExceeded)
            && (r.Ok? ==> s.buckets == spec.value.buckets && s.jobs == old(s.jobs)[id := spec.value.dossier])
  {
    ghost var d := s.jobs[id];
    ghost var rows := d.reservations;
    ghost var spec := SettleRows(s.buckets, rows, actual, success);
    ghost var done: seq<Reservation>, records: seq<UsageRecord> := [], [];
    AfterNone(spec);
    assert rows[0..] == rows && done + rows == rows && d.usage + records == d.usage;
    var i := 0;
    while i < |s.jobs[id].reservations|
      invariant i <= |rows| && |s.jobs| == old(|s.jobs|) && |done| == i
      invariant s.jobs == old(s.jobs)[id := d.(reservations := done + rows[i..], usage := d.usage + records)]
      invariant spec == After(done, records, SettleRows(s.buckets, rows[i..], actual, success))
    {
      SettleNext(s.buckets, rows, i, actual, success);
      ghost var step := SettleRow(s.buckets, rows[i], actual, success);
      var _ :- ReconcileOne(s, id, i, actual, success);
      ghost var row := step.value.rows[0];
      assert step.value.rows == [row];
      RowHandled(done, rows, i, row);
      JoinsAssociate(d.usage, records, step.value.records);
      AfterStep(done, records, row, step.value.records, SettleRows(s.buckets, rows[i + 1..], actual, success));
      done, records := done + [row], records + step.value.records;
      i := i + 1;
    }
    AfterAll(done, records, s.buckets);
    assert done + rows[i..] == done;
    return Ok(());
  }

  // ---------------------------------------------------------------- top up

  lemma TopUpNext(buckets: Buckets, rows: seq<Reservation>, i: nat, required: int)
    requires i < |rows|
    ensures var first := TopUpRow(buckets, rows[i], required);
            TopUpRows(buckets, rows[i..], required)
            == if first.Err? then Err(first.error)
               else After(first.value.rows, [], TopUpRows(first.value.buckets, rows[i + 1..], required))
  {
    var first := TopUpRow(buckets, rows[i], required);
    assert rows[i..][1..] == rows[i + 1..];
    if first.Ok? {
      var rest := TopUpRows(first.value.buckets, rows[i + 1..], required);
      if rest.Ok? {
        assert rest.value.records == [];
        var none: seq<UsageRecord> := [];
        assert none + rest.value.records == none;
      }
    }
  }

  /** One byte reservation raised to the required size, if its bucket has the room. */
  method TopUpOne(s: Session, id: JobId, i: nat, required: int) returns (r: Result<()>)
    requires id < |s.jobs| && i < |s.jobs[id].reservations|
    modifies s
    ensures var d := old(s.jobs[id]);
            var step := TopUpRow(old(s.buckets), d.reservations[i], required);
            && (r.Ok? <==> step.Ok?)
            && (r.Err? ==> r.error == QuotaExceeded == step.error)
            && (r.Ok? ==>
                  && s.buckets == step.value.buckets
                  && |step.value.rows| == 1
                  && s.jobs == old(s.jobs)[id := d.(reservations := d.reservations[i := step.value.rows[0]])])
  {
    var row := s.jobs[id].reservations[i];
    UntouchedRow(s.jobs, id, i);
    if row.state != Active || row.bucket.dimension == JobCount {
      return Ok(());
    }
    if required <= row.amount {
      return Ok(());
    }
    var delta := required - row.amount;
    if row.bucket !in s.buckets
       || s.buckets[row.bucket].committed + s.buckets[row.bucket].reserved + delta > s.buckets[row.bucket].quotaLimit {
      return Err(QuotaExceeded);
    }
    var bucket := s.buckets[row.bucket];
    s.buckets := s.buckets[row.bucket := bucket.(reserved := bucket.reserved + delta, version := bucket.version + 1)];
    s.SetReservation(id, i, row.(amount := required));
    return Ok(());
  }

  method TopUpReservations(s: Session, id: JobId, required: nat) returns (r: Result<()>)
    requires id < |s.jobs|
    modifies s
    ensures var spec := TopUpRows(old(s.buckets), old(s.jobs[id].reservations), required);
            && (r.Ok? <==> spec.Ok?)
            && (r.Err? ==> spec == Err(r.error) && r.error == QuotaExceeded)
            && (r.Ok? ==>
                  && s.buckets == spec.value.buckets
                  && s.jobs == old(s.jobs)[id := old(s.jobs[id]).(reservations := spec.value.rows)])
  {
    ghost var d := s.jobs[id];
    ghost var rows := d.reservations;
    ghost var spec := TopUpRows(s.buckets, rows, required);
    ghost var done: seq<Reservation> := [];
    AfterNone(spec);
    assert rows[0..] == rows && done + rows == rows;
    var i := 0;
    while i < |s.jobs[id].reservations|
      invariant i <= |rows| && |s.jobs| == old(|s.jobs|) && |done| == i
      invariant s.jobs == old(s.jobs)[id := d.(reservations := done + rows[i..])]
      invariant spec == After(done, [], TopUpRows(s.buckets, rows[i..], required))
    {
      TopUpNext(s.buckets, rows, i, required);
      ghost var step := TopUpRow(s.buckets, rows[i], required);
      var _ :- TopUpOne(s, id, i, required);
      ghost var row := step.value.rows[0];
      assert step.value.rows == [row];
      RowHandled(done, rows, i, row);
      AfterStep(done, [], row, [], TopUpRows(s.buckets, rows[i + 1..], required));
      done := done + [row];
      i := i + 1;
    }
    AfterAll(done, [], s.buckets);
    assert done + rows[i..] == done;
    return Ok(());
  }

  method TopUp(s: Session, id: JobId, required: nat) returns (r: Result<()>)
    requires id < |s.jobs|
    modifies s
    ensures var spec := P.TopUp(old(s.buckets), old(s.jobs[id]), required);
            && (r.Ok? <==> spec.Ok?)
            && (r.Err? ==> spec == Err(r.error) && r.error == QuotaExceeded)
            && (r.Ok? ==> s.buckets == spec.value.buckets && s.jobs == old(s.jobs)[id := spec.value.dossier])
  {
    if required <= 0 {
      return Err(QuotaExceeded);
    }
    var _ :- TopUpReservations(s, id, required);
    s.SetJob(id, s.jobs[id].job.(totalBytes := Some(required)));
    return Ok(());
  }

  // ---------------------------------------------------------------- the sweep

  /** A job that lost its reservations must not run any more. */
  method CloseStale(s: Session, id: JobId) returns (r: Result<()>)
    requires id < |s.jobs|
    modifies s`jobs
    ensures var spec := P.CloseStale(old(s.jobs[id]));
            && (r.Ok? <==> spec.Ok?)
            && (r.Err? ==> spec == Err(r.error))
            && (r.Ok? ==> s.jobs == old(s.jobs)[id := spec.value])
  {
    var status := s.jobs[id].job.status;
    if status == Queued {
      var _ :- s.Move(id, Expired);
    } else if IsActive(status) {
      var _ :- s.Move(id, Failed);
      if !TransitionAllowed(Failed, DeadLetter) {
        return Err(InvalidTransition);
      }
      s.jobs := s.jobs[id := s.jobs[id].(job := s.jobs[id].job.(status := DeadLetter))];
    }
    return Ok(());
  }

  /** One job of the sweep: touched if a worker still holds its lease, otherwise closed. */
  method ReconcileExpiredJob(s: Session, id: JobId, now: int) returns (r: Result<bool>)
    requires id < |s.jobs|
    modifies s
    ensures var d := old(s.jobs[id]);
            var spec := P.ReconcileJob(old(s.buckets), d, now);
            && (r.Ok? <==> spec.Ok?)
            && (r.Err? ==> spec == Err(r.error))
            && (r.Ok? ==>
                  && s.buckets == spec.value.buckets && s.jobs == old(s.jobs)[id := spec.value.dossier]
                  && (r.value <==> !P.HeldByWorker(d.job, now)))
  {
    var job := s.jobs[id].job;
    if IsActive(job.status) && job.leaseExpiresAt.Some? {
      if job.leaseExpiresAt.value > now {
        Touch(s, id, now);
        return Ok(false);
      }
    }
    var success := job.status == Completed;
    var actual := job.resultSize.GetOr<nat>(job.bytesTransferred);
    var _ :- CloseStale(s, id);
    var _ :- Reconcile(s, id, actual, success);
    return Ok(true);
  }

  /** The sweep over the selected job ids; it reports how many jobs it closed. */
  method ReconcileExpired(s: Session, page: seq<JobId>, now: int) returns (r: Result<nat>)
    modifies s
    ensures var spec := P.ReconcileExpired(old(s.Contents()), page, now);
            && (r.Ok? <==> spec.Ok?)
            && (r.Err? ==> spec == Err(r.error))
            && (r.Ok? ==> s.Contents() == spec.value && r.value == P.ClosedCount(old(s.Contents()), page, now))
  {
    var reconciled := 0;
    var i := 0;
    assert page[0..] == page;
    while i < |page|
      invariant i <= |page|
      invariant P.ReconcileExpired(old(s.Contents()), page, now) == P.ReconcileExpired(s.Contents(), page[i..], now)
      invariant P.ClosedCount(old(s.Contents()), page, now) == reconciled + P.ClosedCount(s.Contents(), page[i..], now)
    {
      assert page[i..][1..] == page[i + 1..];
      if page[i] < |s.jobs| {
        ghost var before := s.Contents();
        var closed :- ReconcileExpiredJob(s, page[i], now);
        assert s.Contents() == P.Replace(before, page[i], s.jobs[page[i]]).(buckets := s.buckets);
        if closed {
          reconciled := reconciled + 1;
        }
      }
      i := i + 1;
    }
    return Ok(reconciled);
  }
}
