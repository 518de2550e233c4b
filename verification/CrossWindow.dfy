/** Agreement between the hourly, daily and weekly ingress buckets of one user. */
module CrossWindow {
  import opened Base
  import opened FloorDivision
  import opened QuotaWindows
  import opened QuotaLedger
  import opened JobModel
  import opened JobTotals
  import opened JobProtocol
  import opened JobInvariant
  import opened Dispatcher
  import opened JobSystem
  import opened JobHistory
  import opened QuotaTheorems

  function IngressKey(user: UserId, kind: WindowKind, t: int): BucketKey {
    BucketKey(user, Ingress, QuotaWindow(kind, t))
  }

  /** Measures of the windows of one kind, counted on from an instant in fixed steps. */
  function Windowed(open: bool, key: BucketKey): Measure {
    if open then OpenIn(key) else SpentIn(key)
  }

  function StepOf(kind: WindowKind): int {
    match kind
    case Hourly => HOUR
    case Daily => DAY
    case Weekly => WEEK
    case Lifetime => WEEK
  }

  /** Sum of the job's amounts in the first `n` windows of the kind from `start`. */
  function JobSeries(d: Dossier, open: bool, user: UserId, kind: WindowKind, start: int, n: nat): int {
    if n == 0 then 0
    else JobSeries(d, open, user, kind, start, n - 1)
         + Weight(Windowed(open, IngressKey(user, kind, start + (n - 1) * StepOf(kind))), d)
  }

  /** Sum of the bucket amounts of the first `n` windows of the kind from `start`. */
  function BucketSeries(buckets: Buckets, open: bool, user: UserId, kind: WindowKind, start: int, n: nat): int {
    if n == 0 then 0
    else BucketSeries(buckets, open, user, kind, start, n - 1)
         + var key := IngressKey(user, kind, start + (n - 1) * StepOf(kind));
           if open then ReservedAt(buckets, key) else CommittedAt(buckets, key)
  }

  /** The amount the job's single row of this kind contributes. */
  ghost predicate RowAmount(d: Dossier, open: bool, user: UserId, kind: WindowKind, amount: int) {
    forall t ::
      Weight(Windowed(open, IngressKey(user, kind, t)), d)
      == if QuotaWindow(kind, t) == QuotaWindow(kind, d.job.createdAt) then amount else 0
  }

  lemma OneRowAmount(d: Dossier, user: UserId, kind: WindowKind, i: nat)
    requires Sound(d) && d.job.user == user && i < |d.reservations|
    requires d.reservations[i].bucket.dimension == Ingress && d.reservations[i].bucket.window.kind == kind
    ensures RowAmount(d, true, user, kind, if d.reservations[i].state == Active then d.reservations[i].amount else 0)
    ensures RowAmount(d, false, user, kind, d.reservations[i].consumed)
  {
    RowsAreKeyed(d);
    var rows := d.reservations;
    assert rows[i].bucket == IngressKey(user, kind, d.job.createdAt);
    forall t
      ensures Weight(OpenIn(IngressKey(user, kind, t)), d)
              == if QuotaWindow(kind, t) == QuotaWindow(kind, d.job.createdAt) && rows[i].state == Active
                 then rows[i].amount else 0
      ensures Weight(SpentIn(IngressKey(user, kind, t)), d)
              == if QuotaWindow(kind, t) == QuotaWindow(kind, d.job.createdAt) then rows[i].consumed else 0
    {
      if QuotaWindow(kind, t) == QuotaWindow(kind, d.job.createdAt) {
        SpentByOneRow(rows, i);
      } else {
        OtherWindowEmpty(d, IngressKey(user, kind, t));
      }
    }
  }

  lemma OtherWindowEmpty(d: Dossier, key: BucketKey)
    requires Sound(d)
    requires key.user != d.job.user || key.window != QuotaWindow(key.window.kind, d.job.createdAt)
    ensures Held(d.reservations, key) == 0 && Spent(d.reservations, key) == 0
  {
    RowsAreKeyed(d);
    NothingElsewhere(d.reservations, key);
  }

  lemma StrangerAmount(d: Dossier, user: UserId, kind: WindowKind, open: bool)
    requires Sound(d) && (d.job.user != user || d.job.source == Internal)
    ensures RowAmount(d, open, user, kind, 0)
  {
    RowsAreKeyed(d);
    forall t
      ensures Weight(Windowed(open, IngressKey(user, kind, t)), d) == 0
    {
      NothingElsewhere(d.reservations, IngressKey(user, kind, t));
    }
  }

  /** A job's three ingress reservations are equal in amount, state and consumption, so it
      contributes one and the same amount to its hour, its day and its week. */
  lemma ThreeWindowsAlike(d: Dossier, user: UserId, open: bool) returns (amount: int)
    requires Sound(d)
    requires d.job.user == user && d.job.source != Internal ==>
               && HasRow(d.reservations, Ingress, Hourly)
               && HasRow(d.reservations, Ingress, Daily)
               && HasRow(d.reservations, Ingress, Weekly)
    ensures RowAmount(d, open, user, Hourly, amount)
    ensures RowAmount(d, open, user, Daily, amount)
    ensures RowAmount(d, open, user, Weekly, amount)
  {
    if d.job.user != user || d.job.source == Internal {
      amount := 0;
      StrangerAmount(d, user, Hourly, open);
      StrangerAmount(d, user, Daily, open);
      StrangerAmount(d, user, Weekly, open);
    } else {
      var rows := d.reservations;
      var h :| 0 <= h < |rows| && rows[h].bucket.dimension == Ingress && rows[h].bucket.window.kind == Hourly;
      var y :| 0 <= y < |rows| && rows[y].bucket.dimension == Ingress && rows[y].bucket.window.kind == Daily;
      var w :| 0 <= w < |rows| && rows[w].bucket.dimension == Ingress && rows[w].bucket.window.kind == Weekly;
      OneRowAmount(d, user, Hourly, h);
      OneRowAmount(d, user, Daily, y);
      OneRowAmount(d, user, Weekly, w);
      IngressRowsAlike(d, h, y);
      IngressRowsAlike(d, h, w);
      amount := if !open then rows[h].consumed else if rows[h].state == Active then rows[h].amount else 0;
    }
  }

  lemma IngressRowsAlike(d: Dossier, i: nat, j: nat)
    requires Sound(d) && i < |d.reservations| && j < |d.reservations|
    requires d.reservations[i].bucket.dimension == Ingress && d.reservations[j].bucket.dimension == Ingress
    ensures d.reservations[i].amount == d.reservations[j].amount
    ensures d.reservations[i].consumed == d.reservations[j].consumed
    ensures d.reservations[i].state == d.reservations[j].state
  {
    var rows := d.reservations;
    assert BytesAlike(rows);
    assert SameAmount(rows[i], rows[j]) && SameFate(rows[i], rows[j]);
  }

  /** The k-th window counted from a window start begins on the grid, and is another
      instant's window exactly when that window starts there. */
  lemma OnGrid(kind: WindowKind, start: int, k: nat, u: int)
    requires kind == Hourly || kind == Daily
    requires start == QuotaWindow(kind, start).start
    ensures var t := start + k * StepOf(kind);
            var own := QuotaWindow(kind, u).start;
            && (QuotaWindow(kind, t) == QuotaWindow(kind, u) <==> own == t)
            && (t <= own < t + StepOf(kind) <==> own == t)
  {
    if kind == Hourly {
      assert (start + k * HOUR) / HOUR == start / HOUR + k;
    } else {
      assert (start + k * DAY) / DAY == start / DAY + k;
    }
  }

  /** Windows up to the k-th and the k-th itself. */
  lemma OneMore(own: int, start: int, step: int, k: nat, amount: int)
    requires step > 0 && (start + k * step <= own < start + k * step + step <==> own == start + k * step)
    ensures (if start <= own < start + k * step then amount else 0) + (if own == start + k * step then amount else 0)
            == if start <= own < start + (k + 1) * step then amount else 0
  {
    assert (k + 1) * step == k * step + step;
    MulOrder(step, 0, k);
  }

  /** A series of consecutive windows picks the amount up exactly once when the job's own
      window is among them. */
  lemma {:induction false} SeriesPicks(d: Dossier, open: bool, user: UserId, kind: WindowKind, start: int, n: nat,
                                       amount: int)
    requires kind == Hourly || kind == Daily
    requires RowAmount(d, open, user, kind, amount)
    requires start == QuotaWindow(kind, start).start
    ensures JobSeries(d, open, user, kind, start, n)
            == if start <= QuotaWindow(kind, d.job.createdAt).start < start + n * StepOf(kind) then amount else 0
  {
    if n > 0 {
      SeriesPicks(d, open, user, kind, start, n - 1, amount);
      OnGrid(kind, start, n - 1, d.job.createdAt);
      OneMore(QuotaWindow(kind, d.job.createdAt).start, start, StepOf(kind), n - 1, amount);
    }
  }

  /** One job: its week's amount is the sum over the seven days, its day's over the hours. */
  lemma JobAgrees(d: Dossier, user: UserId, open: bool, t: int)
    requires Sound(d)
    requires d.job.user == user && d.job.source != Internal ==>
               && HasRow(d.reservations, Ingress, Hourly)
               && HasRow(d.reservations, Ingress, Daily)
               && HasRow(d.reservations, Ingress, Weekly)
    ensures Weight(Windowed(open, IngressKey(user, Weekly, t)), d)
            == JobSeries(d, open, user, Daily, QuotaWindow(Weekly, t).start, 7)
    ensures Weight(Windowed(open, IngressKey(user, Daily, t)), d)
            == JobSeries(d, open, user, Hourly, QuotaWindow(Daily, t).start, 24)
  {
    var amount := ThreeWindowsAlike(d, user, open);
    DaysAddUp(d, user, open, t, amount);
    HoursAddUp(d, user, open, t, amount);
  }

  lemma DaysAddUp(d: Dossier, user: UserId, open: bool, t: int, amount: int)
    requires RowAmount(d, open, user, Weekly, amount) && RowAmount(d, open, user, Daily, amount)
    ensures Weight(Windowed(open, IngressKey(user, Weekly, t)), d)
            == JobSeries(d, open, user, Daily, QuotaWindow(Weekly, t).start, 7)
  {
    WeekHoldsItsDays(t, d.job.createdAt);
    SeriesPicks(d, open, user, Daily, QuotaWindow(Weekly, t).start, 7, amount);
  }

  lemma HoursAddUp(d: Dossier, user: UserId, open: bool, t: int, amount: int)
    requires RowAmount(d, open, user, Daily, amount) && RowAmount(d, open, user, Hourly, amount)
    ensures Weight(Windowed(open, IngressKey(user, Daily, t)), d)
            == JobSeries(d, open, user, Hourly, QuotaWindow(Daily, t).start, 24)
  {
    DayHoldsItsHours(t, d.job.createdAt);
    SeriesPicks(d, open, user, Hourly, QuotaWindow(Daily, t).start, 24, amount);
  }

  function TotalSeries(jobs: seq<Dossier>, open: bool, user: UserId, kind: WindowKind, start: int, n: nat): int {
    if jobs == [] then 0
    else TotalSeries(jobs[..|jobs| - 1], open, user, kind, start, n)
         + JobSeries(jobs[|jobs| - 1], open, user, kind, start, n)
  }

  lemma {:induction false} SeriesStep(jobs: seq<Dossier>, open: bool, user: UserId, kind: WindowKind, start: int,
                                      n: nat)
    requires n > 0
    ensures TotalSeries(jobs, open, user, kind, start, n)
            == TotalSeries(jobs, open, user, kind, start, n - 1)
               + Total(jobs, Windowed(open, IngressKey(user, kind, start + (n - 1) * StepOf(kind))))
  {
    if jobs != [] {
      SeriesStep(jobs[..|jobs| - 1], open, user, kind, start, n);
    }
  }

  lemma {:induction false} EmptySeries(jobs: seq<Dossier>, open: bool, user: UserId, kind: WindowKind, start: int)
    ensures TotalSeries(jobs, open, user, kind, start, 0) == 0
  {
    if jobs != [] {
      EmptySeries(jobs[..|jobs| - 1], open, user, kind, start);
    }
  }

  /** With the books balanced, a series of buckets is the total of the jobs' series. */
  lemma {:induction false} BucketSeriesIsTotal(store: Store, open: bool, user: UserId, kind: WindowKind, start: int,
                                               n: nat)
    requires Balanced(store)
    ensures BucketSeries(store.buckets, open, user, kind, start, n)
            == TotalSeries(store.jobs, open, user, kind, start, n)
  {
    if n == 0 {
      EmptySeries(store.jobs, open, user, kind, start);
    } else {
      BucketSeriesIsTotal(store, open, user, kind, start, n - 1);
      SeriesStep(store.jobs, open, user, kind, start, n);
      var key := IngressKey(user, kind, start + (n - 1) * StepOf(kind));
      assert ReservedAt(store.buckets, key) == Total(store.jobs, OpenIn(key));
      assert CommittedAt(store.buckets, key) == Total(store.jobs, SpentIn(key));
    }
  }

  ghost predicate JobsAgree(jobs: seq<Dossier>, m: Measure, open: bool, user: UserId, kind: WindowKind, start: int,
                            n: nat)
  {
    forall i {:trigger jobs[i]} :: 0 <= i < |jobs| ==>
      Weight(m, jobs[i]) == JobSeries(jobs[i], open, user, kind, start, n)
  }

  lemma {:induction false} TotalIsSeries(jobs: seq<Dossier>, m: Measure, open: bool, user: UserId, kind: WindowKind,
                                         start: int, n: nat)
    requires JobsAgree(jobs, m, open, user, kind, start, n)
    ensures Total(jobs, m) == TotalSeries(jobs, open, user, kind, start, n)
  {
    if jobs != [] {
      var last := |jobs| - 1;
      assert Weight(m, jobs[last]) == JobSeries(jobs[last], open, user, kind, start, n);
      TotalIsSeries(jobs[..last], m, open, user, kind, start, n);
    }
  }

  lemma StoreAgrees(store: Store, user: UserId, open: bool, t: int)
    requires Inv(store)
    requires AllReserve(store.jobs, user, Ingress, Hourly)
    requires AllReserve(store.jobs, user, Ingress, Daily)
    requires AllReserve(store.jobs, user, Ingress, Weekly)
    ensures Total(store.jobs, Windowed(open, IngressKey(user, Weekly, t)))
            == BucketSeries(store.buckets, open, user, Daily, QuotaWindow(Weekly, t).start, 7)
    ensures Total(store.jobs, Windowed(open, IngressKey(user, Daily, t)))
            == BucketSeries(store.buckets, open, user, Hourly, QuotaWindow(Daily, t).start, 24)
  {
    var week, day := QuotaWindow(Weekly, t).start, QuotaWindow(Daily, t).start;
    forall i | 0 <= i < |store.jobs|
      ensures Weight(Windowed(open, IngressKey(user, Weekly, t)), store.jobs[i])
              == JobSeries(store.jobs[i], open, user, Daily, week, 7)
      ensures Weight(Windowed(open, IngressKey(user, Daily, t)), store.jobs[i])
              == JobSeries(store.jobs[i], open, user, Hourly, day, 24)
    {
      JobAgrees(store.jobs[i], user, open, t);
    }
    TotalIsSeries(store.jobs, Windowed(open, IngressKey(user, Weekly, t)), open, user, Daily, week, 7);
    TotalIsSeries(store.jobs, Windowed(open, IngressKey(user, Daily, t)), open, user, Hourly, day, 24);
    BucketSeriesIsTotal(store, open, user, Daily, week, 7);
    BucketSeriesIsTotal(store, open, user, Hourly, day, 24);
  }

  /** For a user whose plans set hourly, daily and weekly quotas, after any run each weekly
      bucket's committed and reserved amounts are the sums over the seven daily buckets in
      it, and each daily bucket's over its twenty-four hourly ones. */
  lemma WindowsAgree(run: seq<Event>, user: UserId, t: int)
    requires LegalRun(EMPTY, run)
    requires PlansSet(run, user, Ingress, Hourly) && PlansSet(run, user, Ingress, Daily)
             && PlansSet(run, user, Ingress, Weekly)
    ensures var buckets := Exec(EMPTY, run).store.buckets;
            var week, day := QuotaWindow(Weekly, t).start, QuotaWindow(Daily, t).start;
            && CommittedAt(buckets, IngressKey(user, Weekly, t)) == BucketSeries(buckets, false, user, Daily, week, 7)
            && ReservedAt(buckets, IngressKey(user, Weekly, t)) == BucketSeries(buckets, true, user, Daily, week, 7)
            && CommittedAt(buckets, IngressKey(user, Daily, t)) == BucketSeries(buckets, false, user, Hourly, day, 24)
            && ReservedAt(buckets, IngressKey(user, Daily, t)) == BucketSeries(buckets, true, user, Hourly, day, 24)
  {
    RunKeeps(EMPTY, run);
    RunReserves(EMPTY, run, user, Ingress, Hourly);
    RunReserves(EMPTY, run, user, Ingress, Daily);
    RunReserves(EMPTY, run, user, Ingress, Weekly);
    var store := Exec(EMPTY, run).store;
    StoreAgrees(store, user, true, t);
    StoreAgrees(store, user, false, t);
  }
}
