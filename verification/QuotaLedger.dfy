/** Multi-window quota accounting (app/services/quota.py:261-472) as functions on the
    bucket table and on the reservation rows of one job. Each loop of the service is the
    composition of a step on one row; `Settlement` is what such a loop leaves behind. */
module QuotaLedger {
  import opened Base
  import opened QuotaWindows

  type UserId = nat

  datatype Dimension = Ingress | JobCount | Storage

  /** The unique key of a bucket row. */
  datatype BucketKey = BucketKey(user: UserId, dimension: Dimension, window: Window)

  datatype Bucket = Bucket(quotaLimit: int, committed: int, reserved: int, version: int)

  type Buckets = map<BucketKey, Bucket>

  datatype ReservationState = Active | Committed | Released

  datatype Reservation = Reservation(bucket: BucketKey, amount: int, consumed: int,
                                     state: ReservationState, expiresAt: int)

  datatype UsageRecord = UsageRecord(bucket: BucketKey, amount: int)

  datatype Settlement = Settlement(buckets: Buckets, rows: seq<Reservation>, records: seq<UsageRecord>)

  datatype Plan = Plan(maxFileSize: int, hourlyQuota: Option<int>, dailyQuota: Option<int>,
                       weeklyQuota: Option<int>, storageQuota: Option<int>, maxFilesPerWindow: Option<int>,
                       concurrentJobs: int, queuePriority: int, externalUrlEnabled: bool)

  const HOLD := 14_400_000_000  // four hours

  // ---------------------------------------------------------------- reserve

  datatype Specification = Specification(key: BucketKey, limit: int, amount: int)

  function Specify(user: UserId, dimension: Dimension, kind: WindowKind, limit: Option<int>, amount: int, now: int)
    : seq<Specification>
  {
    match limit
    case None => []
    case Some(l) => [Specification(BucketKey(user, dimension, QuotaWindow(kind, now)), l, amount)]
  }

  /** What one job has to reserve, in the order of (dimension name, window name). */
  function Specifications(user: UserId, plan: Plan, bytes: int, now: int): seq<Specification> {
    Specify(user, Ingress, Daily, plan.dailyQuota, bytes, now)
    + Specify(user, Ingress, Hourly, plan.hourlyQuota, bytes, now)
    + Specify(user, Ingress, Weekly, plan.weeklyQuota, bytes, now)
    + Specify(user, JobCount, Daily, plan.maxFilesPerWindow, 1, now)
    + Specify(user, Storage, Lifetime, plan.storageQuota, bytes, now)
  }

  function BucketOrNew(buckets: Buckets, key: BucketKey, limit: int): Bucket {
    if key in buckets then buckets[key] else Bucket(limit, 0, 0, 1)
  }

  function ReserveRow(buckets: Buckets, spec: Specification, now: int): Result<Settlement> {
    var bucket := BucketOrNew(buckets, spec.key, spec.limit);
    if bucket.committed + bucket.reserved + spec.amount > spec.limit then Err(QuotaExceeded)
    else
      Ok(Settlement(
           buckets[spec.key := Bucket(spec.limit, bucket.committed, bucket.reserved + spec.amount, bucket.version + 1)],
           [Reservation(spec.key, spec.amount, 0, Active, now + HOLD)],
           []))
  }

  function ReserveRows(buckets: Buckets, specs: seq<Specification>, now: int): Result<Settlement>
    decreases |specs|
  {
    if specs == [] then Ok(Settlement(buckets, [], []))
    else
      var first :- ReserveRow(buckets, specs[0], now);
      var rest :- ReserveRows(first.buckets, specs[1..], now);
      Ok(Settlement(rest.buckets, first.rows + rest.rows, []))
  }

  // ---------------------------------------------------------------- top up

  predicate Extendable(r: Reservation, required: int) {
    r.state == Active && r.bucket.dimension != JobCount && r.amount < required
  }

  function TopUpRow(buckets: Buckets, r: Reservation, required: int): Result<Settlement> {
    if !Extendable(r, required) then Ok(Settlement(buckets, [r], []))
    else if r.bucket !in buckets then Err(QuotaExceeded)
    else
      var bucket := buckets[r.bucket];
      var delta := required - r.amount;
      if bucket.committed + bucket.reserved + delta > bucket.quotaLimit then Err(QuotaExceeded)
      else
        Ok(Settlement(
             buckets[r.bucket := bucket.(reserved := bucket.reserved + delta, version := bucket.version + 1)],
             [r.(amount := required)],
             []))
  }

  function TopUpRows(buckets: Buckets, rows: seq<Reservation>, required: int): Result<Settlement> {
    if rows == [] then Ok(Settlement(buckets, [], []))
    else
      var first :- TopUpRow(buckets, rows[0], required);
      var rest :- TopUpRows(first.buckets, rows[1..], required);
      Ok(Settlement(rest.buckets, first.rows + rest.rows, []))
  }

  // ---------------------------------------------------------------- reconcile

  function Charge(dimension: Dimension, actual: int, success: bool): int {
    match dimension
    case JobCount => if success then 1 else 0
    case Storage => if success then actual else 0
    case Ingress => actual
  }

  function Finalised(r: Reservation, charge: int): Reservation {
    r.(consumed := charge, state := if charge > 0 then Committed else Released)
  }

  function SettleRow(buckets: Buckets, r: Reservation, actual: int, success: bool): Result<Settlement> {
    if r.state != Active then Ok(Settlement(buckets, [r], []))
    else if r.bucket !in buckets then Err(QuotaExceeded)
    else
      var bucket := buckets[r.bucket];
      var charge := Charge(r.bucket.dimension, actual, success);
      if charge > r.amount then Err(QuotaExceeded)
      else
        Ok(Settlement(
             buckets[r.bucket := Bucket(bucket.quotaLimit, bucket.committed + charge,
                                        bucket.reserved - r.amount, bucket.version + 1)],
             [Finalised(r, charge)],
             if charge > 0 then [UsageRecord(r.bucket, charge)] else []))
  }

  function SettleRows(buckets: Buckets, rows: seq<Reservation>, actual: int, success: bool): Result<Settlement> {
    if rows == [] then Ok(Settlement(buckets, [], []))
    else
      var first :- SettleRow(buckets, rows[0], actual, success);
      var rest :- SettleRows(first.buckets, rows[1..], actual, success);
      Ok(Settlement(rest.buckets, first.rows + rest.rows, first.records + rest.records))
  }

  // ---------------------------------------------------------------- touch

  function TouchRow(r: Reservation, now: int): Reservation {
    if r.state == Active then r.(expiresAt := now + HOLD) else r
  }

  function TouchRows(rows: seq<Reservation>, now: int): (touched: seq<Reservation>) {
    seq(|rows|, i requires 0 <= i < |rows| => TouchRow(rows[i], now))
  }

  // ---------------------------------------------------------------- what the books say

  function ReservedAt(buckets: Buckets, key: BucketKey): int {
    if key in buckets then buckets[key].reserved else 0
  }

  function CommittedAt(buckets: Buckets, key: BucketKey): int {
    if key in buckets then buckets[key].committed else 0
  }

  ghost predicate WithinLimits(buckets: Buckets) {
    forall key :: key in buckets ==> buckets[key].committed + buckets[key].reserved <= buckets[key].quotaLimit
  }

  function HeldBy(r: Reservation, key: BucketKey): int {
    if r.bucket == key && r.state == Active then r.amount else 0
  }

  function SpentBy(r: Reservation, key: BucketKey): int {
    if r.bucket == key then r.consumed else 0
  }

  /** Amount the rows hold open in a bucket. */
  function Held(rows: seq<Reservation>, key: BucketKey): int {
    if rows == [] then 0 else HeldBy(rows[0], key) + Held(rows[1..], key)
  }

  /** Amount the rows have consumed from a bucket. */
  function Spent(rows: seq<Reservation>, key: BucketKey): int {
    if rows == [] then 0 else SpentBy(rows[0], key) + Spent(rows[1..], key)
  }

  /** Amount the usage records debit from a bucket. */
  function Debited(records: seq<UsageRecord>, key: BucketKey): int {
    if records == [] then 0
    else (if records[0].bucket == key then records[0].amount else 0) + Debited(records[1..], key)
  }

  /** The bucket table moved by exactly what the rows moved: what every other row of the
      system contributes to every bucket is the same before and after. */
  ghost predicate SameBackdrop(buckets: Buckets, rows: seq<Reservation>,
                               buckets': Buckets, rows': seq<Reservation>) {
    forall key ::
      && ReservedAt(buckets', key) - Held(rows', key) == ReservedAt(buckets, key) - Held(rows, key)
      && CommittedAt(buckets', key) - Spent(rows', key) == CommittedAt(buckets, key) - Spent(rows, key)
  }

  lemma {:induction false} HeldSplits(a: seq<Reservation>, b: seq<Reservation>, key: BucketKey)
    ensures Held(a + b, key) == Held(a, key) + Held(b, key)
    ensures Spent(a + b, key) == Spent(a, key) + Spent(b, key)
  {
    if a == [] {
      assert a + b == b;
    } else {
      HeldSplits(a[1..], b, key);
      assert (a + b)[1..] == a[1..] + b;
    }
  }

  lemma {:induction false} DebitedSplits(a: seq<UsageRecord>, b: seq<UsageRecord>, key: BucketKey)
    ensures Debited(a + b, key) == Debited(a, key) + Debited(b, key)
  {
    if a == [] {
      assert a + b == b;
    } else {
      DebitedSplits(a[1..], b, key);
      assert (a + b)[1..] == a[1..] + b;
    }
  }

  lemma SingletonMeasures(r: Reservation, key: BucketKey)
    ensures Held([r], key) == HeldBy(r, key) && Spent([r], key) == SpentBy(r, key)
  {
    assert [r][1..] == [];
  }

  /** Reserving adds exactly the specified rows, all open, and never passes a limit. */
  lemma {:induction false} ReserveEffect(buckets: Buckets, specs: seq<Specification>, now: int)
    requires ReserveRows(buckets, specs, now).Ok?
    ensures var s := ReserveRows(buckets, specs, now).value;
            && |s.rows| == |specs|
            && (forall i :: 0 <= i < |specs| ==>
                  s.rows[i] == Reservation(specs[i].key, specs[i].amount, 0, Active, now + HOLD))
            && SameBackdrop(buckets, [], s.buckets, s.rows)
            && s.buckets.Keys >= buckets.Keys
            && (forall i :: 0 <= i < |specs| ==> specs[i].key in s.buckets)
            && (WithinLimits(buckets) ==> WithinLimits(s.buckets))
    decreases |specs|
  {
    if specs != [] {
      var first := ReserveRow(buckets, specs[0], now).value;
      var rest := ReserveRows(first.buckets, specs[1..], now).value;
      ReserveEffect(first.buckets, specs[1..], now);
      forall key
        ensures && ReservedAt(rest.buckets, key) - Held(first.rows + rest.rows, key) == ReservedAt(buckets, key)
                && CommittedAt(rest.buckets, key) - Spent(first.rows + rest.rows, key) == CommittedAt(buckets, key)
      {
        HeldSplits(first.rows, rest.rows, key);
        SingletonMeasures(first.rows[0], key);
      }
    }
  }

  /** Topping up raises the open byte reservations to the required size and nothing else,
      never passes a limit, and writes no usage. */
  lemma {:induction false} TopUpEffect(buckets: Buckets, rows: seq<Reservation>, required: int)
    requires TopUpRows(buckets, rows, required).Ok?
    ensures var s := TopUpRows(buckets, rows, required).value;
            && |s.rows| == |rows|
            && (forall i :: 0 <= i < |rows| ==>
                  s.rows[i] == if Extendable(rows[i], required) then rows[i].(amount := required) else rows[i])
            && SameBackdrop(buckets, rows, s.buckets, s.rows)
            && s.buckets.Keys == buckets.Keys
            && (WithinLimits(buckets) ==> WithinLimits(s.buckets))
  {
    if rows != [] {
      var first := TopUpRow(buckets, rows[0], required).value;
      var rest := TopUpRows(first.buckets, rows[1..], required).value;
      TopUpEffect(first.buckets, rows[1..], required);
      forall key
        ensures && ReservedAt(rest.buckets, key) - Held(first.rows + rest.rows, key)
                   == ReservedAt(buckets, key) - Held(rows, key)
                && CommittedAt(rest.buckets, key) - Spent(first.rows + rest.rows, key)
                   == CommittedAt(buckets, key) - Spent(rows, key)
      {
        HeldSplits(first.rows, rest.rows, key);
        SingletonMeasures(first.rows[0], key);
      }
    }
  }

  ghost predicate ConsumptionsClear(rows: seq<Reservation>) {
    forall i :: 0 <= i < |rows| && rows[i].state == Active ==> rows[i].consumed == 0
  }

  /** Reconciling closes every open row with its charge, gives the rest of the hold back,
      debits exactly what it charged, and frees room in every bucket it touches. */
  lemma {:induction false} SettleEffect(buckets: Buckets, rows: seq<Reservation>, actual: int, success: bool)
    requires SettleRows(buckets, rows, actual, success).Ok?
    requires ConsumptionsClear(rows)
    ensures var s := SettleRows(buckets, rows, actual, success).value;
            && |s.rows| == |rows|
            && (forall i :: 0 <= i < |rows| ==>
                  s.rows[i] == if rows[i].state == Active
                               then Finalised(rows[i], Charge(rows[i].bucket.dimension, actual, success))
                               else rows[i])
            && (forall i :: 0 <= i < |rows| && rows[i].state == Active ==>
                  Charge(rows[i].bucket.dimension, actual, success) <= rows[i].amount)
            && SameBackdrop(buckets, rows, s.buckets, s.rows)
            && s.buckets.Keys == buckets.Keys
            && (WithinLimits(buckets) ==> WithinLimits(s.buckets))
  {
    if rows != [] {
      var first := SettleRow(buckets, rows[0], actual, success).value;
      var rest := SettleRows(first.buckets, rows[1..], actual, success).value;
      SettleEffect(first.buckets, rows[1..], actual, success);
      forall key
        ensures && ReservedAt(rest.buckets, key) - Held(first.rows + rest.rows, key)
                   == ReservedAt(buckets, key) - Held(rows, key)
                && CommittedAt(rest.buckets, key) - Spent(first.rows + rest.rows, key)
                   == CommittedAt(buckets, key) - Spent(rows, key)
      {
        HeldSplits(first.rows, rest.rows, key);
        SingletonMeasures(first.rows[0], key);
      }
    }
  }

  /** Reconciling raises exactly when an open row has lost its bucket or is charged more
      than it holds. */
  lemma {:induction false} SettleSucceedsIff(buckets: Buckets, rows: seq<Reservation>, actual: int, success: bool)
    ensures SettleRows(buckets, rows, actual, success).Ok? <==>
            forall i :: 0 <= i < |rows| && rows[i].state == Active ==>
                          && rows[i].bucket in buckets
                          && Charge(rows[i].bucket.dimension, actual, success) <= rows[i].amount
  {
    if rows != [] {
      var head := SettleRow(buckets, rows[0], actual, success);
      if head.Ok? {
        SettleSucceedsIff(head.value.buckets, rows[1..], actual, success);
        assert head.value.buckets.Keys == buckets.Keys;
        assert forall i :: 0 < i < |rows| ==> rows[i] == rows[1..][i - 1];
      } else {
        assert rows[0].state == Active;
      }
    }
  }

  /** The usage records that closed rows stand for. */
  function RecordsOf(rows: seq<Reservation>): seq<UsageRecord> {
    if rows == [] then []
    else (if rows[0].state == Committed then [UsageRecord(rows[0].bucket, rows[0].consumed)] else [])
         + RecordsOf(rows[1..])
  }

  ghost predicate AllActive(rows: seq<Reservation>) {
    forall i :: 0 <= i < |rows| ==> rows[i].state == Active
  }

  /** The records a reconcile writes are those of the rows it closed. */
  lemma {:induction false} SettleRecords(buckets: Buckets, rows: seq<Reservation>, actual: int, success: bool)
    requires SettleRows(buckets, rows, actual, success).Ok?
    requires AllActive(rows)
    ensures var s := SettleRows(buckets, rows, actual, success).value; s.records == RecordsOf(s.rows)
  {
    if rows != [] {
      var first := SettleRow(buckets, rows[0], actual, success).value;
      SettleRecords(first.buckets, rows[1..], actual, success);
      var s := SettleRows(buckets, rows, actual, success).value;
      assert s.rows[1..] == SettleRows(first.buckets, rows[1..], actual, success).value.rows;
    }
  }

  lemma {:induction false} OpenRowsHaveNoRecords(rows: seq<Reservation>)
    requires AllActive(rows)
    ensures RecordsOf(rows) == []
  {
    if rows != [] {
      OpenRowsHaveNoRecords(rows[1..]);
    }
  }

  ghost predicate Accounted(r: Reservation) {
    match r.state
    case Active => r.consumed == 0 && r.amount > 0
    case Committed => 0 < r.consumed <= r.amount
    case Released => r.consumed == 0 && r.amount > 0
  }

  /** For rows whose state agrees with their consumption, usage records debit every bucket
      by exactly what the rows consumed from it. */
  lemma {:induction false} RecordsMatchSpending(rows: seq<Reservation>, key: BucketKey)
    requires forall i :: 0 <= i < |rows| ==> Accounted(rows[i])
    ensures Debited(RecordsOf(rows), key) == Spent(rows, key)
  {
    if rows != [] {
      RecordsMatchSpending(rows[1..], key);
      if rows[0].state == Committed {
        var head := [UsageRecord(rows[0].bucket, rows[0].consumed)];
        DebitedSplits(head, RecordsOf(rows[1..]), key);
        assert head[1..] == [];
      } else {
        assert RecordsOf(rows) == RecordsOf(rows[1..]);
      }
    }
  }

  lemma {:induction false} MeasuresNonnegative(rows: seq<Reservation>, key: BucketKey)
    requires forall i :: 0 <= i < |rows| ==> Accounted(rows[i])
    ensures Held(rows, key) >= 0 && Spent(rows, key) >= 0
  {
    if rows != [] {
      MeasuresNonnegative(rows[1..], key);
    }
  }

  lemma {:induction false} TouchAmounts(rows: seq<Reservation>, now: int, key: BucketKey)
    ensures Held(TouchRows(rows, now), key) == Held(rows, key)
    ensures Spent(TouchRows(rows, now), key) == Spent(rows, key)
    ensures RecordsOf(TouchRows(rows, now)) == RecordsOf(rows)
  {
    if rows != [] {
      TouchAmounts(rows[1..], now, key);
      assert TouchRows(rows, now)[1..] == TouchRows(rows[1..], now);
    }
  }

  /** Touching makes exactly the open rows expire four hours from now, and moves no amount. */
  lemma TouchEffect(rows: seq<Reservation>, now: int, key: BucketKey)
    ensures |TouchRows(rows, now)| == |rows|
    ensures forall i :: 0 <= i < |rows| ==>
              TouchRows(rows, now)[i] == if rows[i].state == Active then rows[i].(expiresAt := now + HOLD) else rows[i]
    ensures Held(TouchRows(rows, now), key) == Held(rows, key)
    ensures Spent(TouchRows(rows, now), key) == Spent(rows, key)
    ensures RecordsOf(TouchRows(rows, now)) == RecordsOf(rows)
  {
    TouchAmounts(rows, now, key);
  }

  // ---------------------------------------------------------------- errors

  lemma {:induction false} ReserveErrors(buckets: Buckets, specs: seq<Specification>, now: int)
    ensures ReserveRows(buckets, specs, now).Err? ==> ReserveRows(buckets, specs, now).error == QuotaExceeded
    decreases |specs|
  {
    if specs != [] && ReserveRow(buckets, specs[0], now).Ok? {
      ReserveErrors(ReserveRow(buckets, specs[0], now).value.buckets, specs[1..], now);
    }
  }

  lemma {:induction false} TopUpErrors(buckets: Buckets, rows: seq<Reservation>, required: int)
    ensures TopUpRows(buckets, rows, required).Err? ==> TopUpRows(buckets, rows, required).error == QuotaExceeded
  {
    if rows != [] && TopUpRow(buckets, rows[0], required).Ok? {
      TopUpErrors(TopUpRow(buckets, rows[0], required).value.buckets, rows[1..], required);
    }
  }

  lemma {:induction false} SettleErrors(buckets: Buckets, rows: seq<Reservation>, actual: int, success: bool)
    ensures SettleRows(buckets, rows, actual, success).Err? ==>
            SettleRows(buckets, rows, actual, success).error == QuotaExceeded
  {
    if rows != [] && SettleRow(buckets, rows[0], actual, success).Ok? {
      SettleErrors(SettleRow(buckets, rows[0], actual, success).value.buckets, rows[1..], actual, success);
    }
  }
}
