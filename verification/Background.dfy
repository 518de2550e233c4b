/** The dispatcher cycle (app/background.py:119-208): its batch loop rotates over the job types,
    so a batch is never cut short while work is queued, and no type takes another's share. */
module Background {
  import opened Base
  import opened QuotaLedger
  import opened JobModel
  import opened JobTotals
  import opened JobProtocol
  import opened Dispatcher
  import opened JobSystem
  import Fairness
  import opened Sessions
  import Service = DispatcherService

  const TYPES := 4

  const LEASE_SECONDS := 120

  /** The job types in rotation. */
  function TypeAt(index: nat): JobType {
    if index >= TYPES then TypeAt(index - TYPES)
    else if index == 0 then ExternalDownload
    else if index == 1 then TelegramDownload
    else if index == 2 then TelegramUpload
    else MediaProcess
  }

  /** It is the tuple of types that the dispatcher loop indexes modulo its length. */
  lemma {:induction false} TypeAtIsModulo(index: nat)
    ensures TypeAt(index) == [ExternalDownload, TelegramDownload, TelegramUpload, MediaProcess][index % TYPES]
  {
    if index >= TYPES {
      TypeAtIsModulo(index - TYPES);
    }
  }

  /** Any four consecutive indices name every type. */
  lemma {:induction false} RotationCovers(k: nat, jobType: JobType)
    ensures jobType == TypeAt(k) || jobType == TypeAt(k + 1) || jobType == TypeAt(k + 2) || jobType == TypeAt(k + 3)
  {
    if k > 0 {
      RotationCovers(k - 1, jobType);
      assert TypeAt(k + 3) == TypeAt(k - 1);
    }
  }

  /** Clock readings and fresh lease tokens, by batch index and offset. */
  datatype Supply = Supply(clock: (nat, nat) -> int, token: (nat, nat) -> Digest)

  /** A dispatch call for a type, at a batch index and offset. */
  type Caller = (System, JobType, nat, nat) -> (System, Option<JobId>)

  /** `dispatch_one` with this tuning and supply; it never raises. */
  function Dispatching(tuning: Tuning, supply: Supply): Caller {
    (sys, jobType, k, offset) =>
      var now, lease := supply.clock(k, offset), supply.token(k, offset);
      Fairness.DispatchShape(sys, jobType, tuning, lease, LEASE_SECONDS, now);
      DispatchOne(sys, jobType, tuning, lease, LEASE_SECONDS, now).value
  }

  /** The inner loop from an offset on: the first type that has work. */
  function Round(sys: System, k: nat, offset: nat, call: Caller): (System, Option<JobId>)
    decreases TYPES - offset
  {
    if offset >= TYPES then (sys, None)
    else
      var r := call(sys, TypeAt(k + offset), k, offset);
      if r.1.Some? then r else Round(r.0, k, offset + 1, call)
  }

  /** The outer loop from a batch index on, and how many jobs it dispatches. */
  function Cycle(sys: System, k: nat, batch: nat, call: Caller): (System, nat)
    decreases batch - k
  {
    if k >= batch then (sys, 0)
    else
      var r := Round(sys, k, 0, call);
      if r.1.None? then (r.0, 0)
      else
        var rest := Cycle(r.0, k + 1, batch, call);
        (rest.0, rest.1 + 1)
  }

  // ---------------------------------------------------------------- the loop itself

  /** The inner loop of `run_dispatcher`: the job types in rotation, until one has work. */
  method DispatchRound(dispatcher: Service.DispatcherService, s: Session, k: nat, tuning: Tuning, supply: Supply)
    returns (selected: Option<JobId>)
    modifies dispatcher, s`jobs
    ensures (dispatcher.View(s), selected) == Round(old(dispatcher.View(s)), k, 0, Dispatching(tuning, supply))
  {
    selected := None;
    ghost var call := Dispatching(tuning, supply);
    for offset := 0 to TYPES
      invariant selected.None?
      invariant Round(old(dispatcher.View(s)), k, 0, call) == Round(dispatcher.View(s), k, offset, call)
    {
      ghost var before := dispatcher.View(s);
      var jobType := TypeAt(k + offset);
      selected := dispatcher.DispatchOne(s, jobType, tuning, supply.token(k, offset), LEASE_SECONDS,
                                         supply.clock(k, offset));
      assert call(before, jobType, k, offset) == (dispatcher.View(s), selected);
      if selected.Some? {
        break;
      }
    }
  }

  /** Some jobs dispatched, and what the loop still does, make the whole. */
  ghost predicate CycleSoFar(whole: (System, nat), dispatched: nat, rest: (System, nat)) {
    whole == (rest.0, rest.1 + dispatched)
  }

  lemma CycleGoesOn(whole: (System, nat), dispatched: nat, sys: System, next: System, k: nat, batch: nat, call: Caller)
    requires k < batch && Round(sys, k, 0, call).0 == next && Round(sys, k, 0, call).1.Some?
    requires CycleSoFar(whole, dispatched, Cycle(sys, k, batch, call))
    ensures CycleSoFar(whole, dispatched + 1, Cycle(next, k + 1, batch, call))
  {
  }

  lemma CycleStops(whole: (System, nat), dispatched: nat, sys: System, next: System, k: nat, batch: nat, call: Caller)
    requires k < batch && Round(sys, k, 0, call) == (next, None)
    requires CycleSoFar(whole, dispatched, Cycle(sys, k, batch, call))
    ensures whole == (next, dispatched)
  {
  }

  /** The outer loop: one job per index, until the batch is full or nothing is queued. */
  method DispatchBatch(dispatcher: Service.DispatcherService, s: Session, batch: nat, tuning: Tuning, supply: Supply)
    returns (dispatched: nat)
    modifies dispatcher, s`jobs
    ensures (dispatcher.View(s), dispatched) == Cycle(old(dispatcher.View(s)), 0, batch, Dispatching(tuning, supply))
  {
    dispatched := 0;
    ghost var call := Dispatching(tuning, supply);
    ghost var whole := Cycle(dispatcher.View(s), 0, batch, call);
    for k := 0 to batch
      invariant dispatched == k
      invariant CycleSoFar(whole, dispatched, Cycle(dispatcher.View(s), k, batch, call))
    {
      ghost var before := dispatcher.View(s);
      var selected := DispatchRound(dispatcher, s, k, tuning, supply);
      assert Round(before, k, 0, call) == (dispatcher.View(s), selected);
      if selected.None? {
        CycleStops(whole, dispatched, before, dispatcher.View(s), k, batch, call);
        break;
      }
      CycleGoesOn(whole, dispatched, before, dispatcher.View(s), k, batch, call);
      dispatched := dispatched + 1;
    }
  }

  // ---------------------------------------------------------------- what it takes from each queue

  function QueueOf(sys: System, jobType: JobType): int {
    Total(sys.store.jobs, QueuedFor(jobType))
  }

  function AllQueued(sys: System): int {
    QueueOf(sys, ExternalDownload) + QueueOf(sys, TelegramDownload) + QueueOf(sys, TelegramUpload)
      + QueueOf(sys, MediaProcess)
  }

  lemma QueueNonnegative(sys: System, jobType: JobType)
    ensures QueueOf(sys, jobType) >= 0
  {
    TotalNonnegative(sys.store.jobs, QueuedFor(jobType));
  }

  /** One job of the served type has left the queue, and nothing else changed. */
  ghost predicate TakenFrom(sys: System, next: System, served: JobType) {
    forall jobType :: QueueOf(next, jobType) == QueueOf(sys, jobType) - (if jobType == served then 1 else 0)
  }

  /** The call takes one job out of its own queue, or finds that queue empty. */
  ghost predicate Takes(call: Caller, sys: System, jobType: JobType, k: nat, offset: nat) {
    var r := call(sys, jobType, k, offset);
    if r.1.None? then r.0 == sys && QueueOf(sys, jobType) == 0 else TakenFrom(sys, r.0, jobType)
  }

  ghost predicate TakesOne(call: Caller) {
    forall sys, jobType, k, offset :: Takes(call, sys, jobType, k, offset)
  }

  lemma DispatchTakes(sys: System, jobType: JobType, tuning: Tuning, lease: Digest, now: int)
    ensures DispatchOne(sys, jobType, tuning, lease, LEASE_SECONDS, now).Ok?
    ensures var r := DispatchOne(sys, jobType, tuning, lease, LEASE_SECONDS, now).value;
            if r.1.None? then r.0 == sys && QueueOf(sys, jobType) == 0 else TakenFrom(sys, r.0, jobType)
  {
    Fairness.DispatchShape(sys, jobType, tuning, lease, LEASE_SECONDS, now);
    var r := DispatchOne(sys, jobType, tuning, lease, LEASE_SECONDS, now).value;
    if r.1.Some? {
      SelectedLeaves(sys, r.0, r.1.value);
    } else {
      QueueNonnegative(sys, jobType);
      if QueueOf(sys, jobType) > 0 {
        var id := TotalWitness(sys.store.jobs, QueuedFor(jobType));
      }
    }
  }

  lemma SelectedLeaves(sys: System, next: System, id: JobId)
    requires id < |sys.store.jobs| == |next.store.jobs| && sys.store.jobs[id].job.status == Queued
    requires next.store == Replace(sys.store, id, next.store.jobs[id]) && next.store.jobs[id].job.status == Dispatched
    ensures TakenFrom(sys, next, sys.store.jobs[id].job.jobType)
  {
    forall jobType
      ensures QueueOf(next, jobType)
              == QueueOf(sys, jobType) - (if jobType == sys.store.jobs[id].job.jobType then 1 else 0)
    {
      TotalReplace(sys.store.jobs, id, next.store.jobs[id], QueuedFor(jobType));
    }
  }

  lemma DispatchingTakesOne(tuning: Tuning, supply: Supply)
    ensures TakesOne(Dispatching(tuning, supply))
  {
    forall sys, jobType, k, offset
      ensures Takes(Dispatching(tuning, supply), sys, jobType, k, offset)
    {
      DispatchTakes(sys, jobType, tuning, supply.token(k, offset), supply.clock(k, offset));
    }
  }

  /** The type at an offset has nothing queued. */
  predicate Idle(sys: System, k: nat, offset: nat) {
    QueueOf(sys, TypeAt(k + offset)) == 0
  }

  /** The round serves the first type that has work. */
  lemma {:induction false} RoundTakesOne(sys: System, k: nat, offset: nat, call: Caller) returns (served: JobType)
    requires offset <= TYPES && TakesOne(call)
    ensures var r := Round(sys, k, offset, call);
            && (r.1.None? ==> r.0 == sys && forall i :: offset <= i < TYPES ==> Idle(sys, k, i))
            && (r.1.Some? ==>
                  && TakenFrom(sys, r.0, served)
                  && (offset < TYPES && !Idle(sys, k, offset) ==> served == TypeAt(k + offset)))
    decreases TYPES - offset
  {
    served := TypeAt(k + offset);
    assert Takes(call, sys, served, k, offset);
    if offset < TYPES && call(sys, served, k, offset).1.None? {
      served := RoundTakesOne(sys, k, offset + 1, call);
    }
  }

  /** How often the batch indices from k on start with a type. */
  function Turns(k: nat, batch: nat, jobType: JobType): nat
    decreases batch - k
  {
    if k >= batch then 0 else (if TypeAt(k) == jobType then 1 else 0) + Turns(k + 1, batch, jobType)
  }

  /** Any four consecutive indices give every type its turn. */
  lemma {:induction false} TurnsShare(k: nat, batch: nat, jobType: JobType)
    requires k <= batch
    ensures Turns(k, batch, jobType) >= (batch - k) / TYPES
    decreases batch - k
  {
    if batch - k >= 4 {
      TurnsShare(k + 4, batch, jobType);
      RotationCovers(k, jobType);
      assert Turns(k, batch, jobType) == (if TypeAt(k) == jobType then 1 else 0) + Turns(k + 1, batch, jobType);
      assert Turns(k + 1, batch, jobType) == (if TypeAt(k + 1) == jobType then 1 else 0) + Turns(k + 2, batch, jobType);
      assert Turns(k + 2, batch, jobType) == (if TypeAt(k + 2) == jobType then 1 else 0) + Turns(k + 3, batch, jobType);
      assert Turns(k + 3, batch, jobType) == (if TypeAt(k + 3) == jobType then 1 else 0) + Turns(k + 4, batch, jobType);
    }
  }

  lemma EmptyQueues(sys: System, k: nat, jobType: JobType)
    requires forall i :: 0 <= i < TYPES ==> Idle(sys, k, i)
    ensures QueueOf(sys, jobType) == 0
  {
    RotationCovers(k, jobType);
    assert Idle(sys, k, 0) && Idle(sys, k, 1) && Idle(sys, k, 2) && Idle(sys, k, 3);
  }

  lemma AllEmpty(sys: System, k: nat)
    requires forall i :: 0 <= i < TYPES ==> Idle(sys, k, i)
    ensures AllQueued(sys) == 0
  {
    EmptyQueues(sys, k, ExternalDownload);
    EmptyQueues(sys, k, TelegramDownload);
    EmptyQueues(sys, k, TelegramUpload);
    EmptyQueues(sys, k, MediaProcess);
  }

  lemma OneLess(sys: System, next: System, served: JobType)
    requires TakenFrom(sys, next, served)
    ensures AllQueued(next) == AllQueued(sys) - 1 && AllQueued(next) >= 0
  {
    QueueNonnegative(next, ExternalDownload);
    QueueNonnegative(next, TelegramDownload);
    QueueNonnegative(next, TelegramUpload);
    QueueNonnegative(next, MediaProcess);
  }

  lemma AllNonnegative(sys: System)
    ensures AllQueued(sys) >= 0
  {
    QueueNonnegative(sys, ExternalDownload);
    QueueNonnegative(sys, TelegramDownload);
    QueueNonnegative(sys, TelegramUpload);
    QueueNonnegative(sys, MediaProcess);
  }

  lemma {:induction false} CycleCounts(sys: System, k: nat, batch: nat, call: Caller)
    requires k <= batch && TakesOne(call)
    ensures var r := Cycle(sys, k, batch, call);
            r.1 == Min(batch - k, AllQueued(sys)) && AllQueued(r.0) == AllQueued(sys) - r.1
    decreases batch - k
  {
    AllNonnegative(sys);
    if k < batch {
      var r := Round(sys, k, 0, call);
      var served := RoundTakesOne(sys, k, 0, call);
      if r.1.None? {
        AllEmpty(sys, k);
      } else {
        OneLess(sys, r.0, served);
        CycleCounts(r.0, k + 1, batch, call);
      }
    }
  }

  lemma TurnTaken(sys: System, next: System, end: System, k: nat, served: JobType, jobType: JobType, turns: nat)
    requires TakenFrom(sys, next, served) && (!Idle(sys, k, 0) ==> served == TypeAt(k)) && QueueOf(next, jobType) >= 0
    requires QueueOf(next, jobType) - QueueOf(end, jobType) >= Min(QueueOf(next, jobType), turns)
    ensures QueueOf(sys, jobType) - QueueOf(end, jobType)
            >= Min(QueueOf(sys, jobType), (if TypeAt(k) == jobType then 1 else 0) + turns)
  {
    assert QueueOf(next, jobType) == QueueOf(sys, jobType) - (if jobType == served then 1 else 0);
    assert jobType == TypeAt(k) && QueueOf(sys, jobType) > 0 ==> !Idle(sys, k, 0);
  }

  /** Every type gets its turns, or all it has. */
  lemma {:induction false} CycleTurns(sys: System, k: nat, batch: nat, call: Caller, jobType: JobType)
    requires k <= batch && TakesOne(call)
    ensures var r := Cycle(sys, k, batch, call);
            QueueOf(sys, jobType) - QueueOf(r.0, jobType) >= Min(QueueOf(sys, jobType), Turns(k, batch, jobType))
    decreases batch - k
  {
    QueueNonnegative(sys, jobType);
    if k < batch {
      var r := Round(sys, k, 0, call);
      var served := RoundTakesOne(sys, k, 0, call);
      if r.1.None? {
        EmptyQueues(sys, k, jobType);
      } else {
        CycleTurns(r.0, k + 1, batch, call, jobType);
        QueueNonnegative(r.0, jobType);
        TurnTaken(sys, r.0, Cycle(r.0, k + 1, batch, call).0, k, served, jobType, Turns(k + 1, batch, jobType));
      }
    }
  }

  /** With no arrivals during the cycle, exactly min(batch, queued jobs) are dispatched. */
  lemma CycleFillsBatch(sys: System, batch: nat, tuning: Tuning, supply: Supply)
    ensures var r := Cycle(sys, 0, batch, Dispatching(tuning, supply));
            r.1 == Min(batch, AllQueued(sys)) && AllQueued(r.0) == AllQueued(sys) - r.1
  {
    DispatchingTakesOne(tuning, supply);
    CycleCounts(sys, 0, batch, Dispatching(tuning, supply));
  }

  /** A type whose queue does not run empty gets at least a quarter of the batch. */
  lemma CycleSharesBatch(sys: System, batch: nat, tuning: Tuning, supply: Supply, jobType: JobType)
    ensures var r := Cycle(sys, 0, batch, Dispatching(tuning, supply));
            && QueueOf(sys, jobType) - QueueOf(r.0, jobType) >= Min(QueueOf(sys, jobType), batch / TYPES)
            && (QueueOf(r.0, jobType) > 0 ==> QueueOf(sys, jobType) - QueueOf(r.0, jobType) >= batch / TYPES)
  {
    DispatchingTakesOne(tuning, supply);
    CycleTurns(sys, 0, batch, Dispatching(tuning, supply), jobType);
    TurnsShare(0, batch, jobType);
  }

  // ---------------------------------------------------------------- as a run of the system

  predicate DispatchRun(run: seq<Event>, tuning: Tuning) {
    forall i :: 0 <= i < |run| ==>
                  run[i].op.Dispatch? && run[i].op.tuning == tuning && run[i].op.leaseSeconds == 120
  }

  /** What an event does to the system. */
  type Transition = (System, Event) -> System

  function ExecBy(step: Transition, sys: System, run: seq<Event>): System
    decreases |run|
  {
    if run == [] then sys else ExecBy(step, step(sys, run[0]), run[1..])
  }

  lemma {:induction false} ExecByApply(sys: System, run: seq<Event>)
    ensures ExecBy(Apply, sys, run) == Exec(sys, run)
    decreases |run|
  {
    if run != [] {
      ExecByApply(Apply(sys, run[0]), run[1..]);
    }
  }

  lemma {:induction false} ExecSplits(step: Transition, sys: System, a: seq<Event>, b: seq<Event>)
    ensures ExecBy(step, sys, a + b) == ExecBy(step, ExecBy(step, sys, a), b)
    decreases |a|
  {
    if a == [] {
      assert a + b == b;
    } else {
      ExecSplits(step, step(sys, a[0]), a[1..], b);
      assert (a + b)[1..] == a[1..] + b;
    }
  }

  /** The event leads from one state to the other. */
  predicate Leads(step: Transition, e: Event, sys: System, next: System, tuning: Tuning) {
    e.op.Dispatch? && e.op.tuning == tuning && e.op.leaseSeconds == 120 && step(sys, e) == next
  }

  ghost predicate IsDispatch(step: Transition, sys: System, next: System, tuning: Tuning) {
    exists e :: Leads(step, e, sys, next, tuning)
  }

  ghost predicate CallIsEvent(step: Transition, call: Caller, sys: System, jobType: JobType, k: nat, offset: nat,
                              tuning: Tuning)
  {
    IsDispatch(step, sys, call(sys, jobType, k, offset).0, tuning)
  }

  ghost predicate CallsAreEvents(step: Transition, call: Caller, tuning: Tuning) {
    forall sys, jobType, k, offset {:trigger CallIsEvent(step, call, sys, jobType, k, offset, tuning)} ::
      CallIsEvent(step, call, sys, jobType, k, offset, tuning)
  }

  lemma DispatchingIsEvents(tuning: Tuning, supply: Supply)
    ensures CallsAreEvents(Apply, Dispatching(tuning, supply), tuning)
  {
    forall sys, jobType, k, offset
      ensures CallIsEvent(Apply, Dispatching(tuning, supply), sys, jobType, k, offset, tuning)
    {
      DispatchingIsEvent(sys, jobType, k, offset, tuning, supply);
    }
  }

  lemma DispatchingIsEvent(sys: System, jobType: JobType, k: nat, offset: nat, tuning: Tuning, supply: Supply)
    ensures IsDispatch(Apply, sys, Dispatching(tuning, supply)(sys, jobType, k, offset).0, tuning)
  {
    var e := Event(supply.clock(k, offset), Dispatch(jobType, tuning, supply.token(k, offset), LEASE_SECONDS));
    Fairness.DispatchShape(sys, jobType, tuning, supply.token(k, offset), LEASE_SECONDS, supply.clock(k, offset));
    assert Leads(Apply, e, sys, Dispatching(tuning, supply)(sys, jobType, k, offset).0, tuning);
  }

  /** Some dispatch calls lead from one state to the other. */
  ghost predicate Connects(step: Transition, sys: System, next: System, tuning: Tuning) {
    exists run :: DispatchRun(run, tuning) && ExecBy(step, sys, run) == next
  }

  lemma ConnectsSelf(step: Transition, sys: System, tuning: Tuning)
    ensures Connects(step, sys, sys, tuning)
  {
    assert DispatchRun([], tuning) && ExecBy(step, sys, []) == sys;
  }

  lemma ConnectsFirst(step: Transition, sys: System, mid: System, next: System, tuning: Tuning)
    requires IsDispatch(step, sys, mid, tuning) && Connects(step, mid, next, tuning)
    ensures Connects(step, sys, next, tuning)
  {
    var e :| Leads(step, e, sys, mid, tuning);
    var rest :| DispatchRun(rest, tuning) && ExecBy(step, mid, rest) == next;
    assert ([e] + rest)[1..] == rest;
    assert DispatchRun([e] + rest, tuning) && ExecBy(step, sys, [e] + rest) == next;
  }

  lemma ConnectsJoin(step: Transition, sys: System, mid: System, next: System, tuning: Tuning)
    requires Connects(step, sys, mid, tuning) && Connects(step, mid, next, tuning)
    ensures Connects(step, sys, next, tuning)
  {
    var a :| DispatchRun(a, tuning) && ExecBy(step, sys, a) == mid;
    var b :| DispatchRun(b, tuning) && ExecBy(step, mid, b) == next;
    ExecSplits(step, sys, a, b);
    assert DispatchRun(a + b, tuning) && ExecBy(step, sys, a + b) == next;
  }

  lemma {:induction false} RoundConnects(step: Transition, sys: System, k: nat, offset: nat, call: Caller,
                                         tuning: Tuning)
    requires CallsAreEvents(step, call, tuning)
    ensures Connects(step, sys, Round(sys, k, offset, call).0, tuning)
    decreases TYPES - offset
  {
    if offset >= TYPES {
      ConnectsSelf(step, sys, tuning);
    } else {
      assert CallIsEvent(step, call, sys, TypeAt(k + offset), k, offset, tuning);
      var r := call(sys, TypeAt(k + offset), k, offset);
      if r.1.None? {
        RoundConnects(step, r.0, k, offset + 1, call, tuning);
      } else {
        ConnectsSelf(step, r.0, tuning);
      }
      ConnectsFirst(step, sys, r.0, Round(sys, k, offset, call).0, tuning);
    }
  }

  lemma {:induction false} CycleConnects(step: Transition, sys: System, k: nat, batch: nat, call: Caller,
                                         tuning: Tuning)
    requires CallsAreEvents(step, call, tuning)
    ensures Connects(step, sys, Cycle(sys, k, batch, call).0, tuning)
    decreases batch - k
  {
    if k >= batch {
      ConnectsSelf(step, sys, tuning);
    } else {
      RoundConnects(step, sys, k, 0, call, tuning);
      var r := Round(sys, k, 0, call);
      if r.1.Some? {
        CycleConnects(step, r.0, k + 1, batch, call, tuning);
        ConnectsJoin(step, sys, r.0, Cycle(sys, k, batch, call).0, tuning);
      }
    }
  }

  /** A cycle is a run of dispatch transactions with its tuning, so whatever holds of every
      run, from the ledger's balance to bounded waiting, holds across it. */
  lemma CycleIsRun(sys: System, batch: nat, tuning: Tuning, supply: Supply) returns (run: seq<Event>)
    ensures DispatchRun(run, tuning) && LegalRun(sys, run)
    ensures Exec(sys, run) == Cycle(sys, 0, batch, Dispatching(tuning, supply)).0
  {
    DispatchingIsEvents(tuning, supply);
    CycleConnects(Apply, sys, 0, batch, Dispatching(tuning, supply), tuning);
    run :| DispatchRun(run, tuning) && ExecBy(Apply, sys, run) == Cycle(sys, 0, batch, Dispatching(tuning, supply)).0;
    ExecByApply(sys, run);
    DispatchesAreLegal(sys, run, tuning);
  }

  lemma {:induction false} DispatchesAreLegal(sys: System, run: seq<Event>, tuning: Tuning)
    requires DispatchRun(run, tuning)
    ensures LegalRun(sys, run)
    decreases |run|
  {
    if run != [] {
      DispatchesAreLegal(Apply(sys, run[0]), run[1..], tuning);
    }
  }

  // ---------------------------------------------------------------- recovery

  /** `recover_expired_jobs` on an open transaction; it reports how many jobs it handled. */
  method RecoverExpiredJobs(s: Session, page: seq<JobId>, now: int) returns (r: Result<nat>)
    requires forall i :: 0 <= i < |page| ==> page[i] < |s.jobs|
    modifies s`jobs
    ensures var spec := RecoverJobs(old(s.Contents()), page, now);
            && (r.Ok? <==> spec.Ok?)
            && (r.Err? ==> spec == Err(r.error))
            && (r.Ok? ==> s.Contents() == spec.value && r.value == |page|)
  {
    assert page[0..] == page;
    var i := 0;
    while i < |page|
      invariant i <= |page| && |s.jobs| == old(|s.jobs|)
      invariant RecoverJobs(old(s.Contents()), page, now) == RecoverJobs(s.Contents(), page[i..], now)
    {
      assert page[i..][1..] == page[i + 1..];
      var _ :- RecoverOne(s, page[i], now);
      i := i + 1;
    }
    return Ok(|page|);
  }

  /** A failed job goes back to its queue, or is buried for want of attempts. */
  method Requeued(s: Session, id: JobId, now: int)
    requires id < |s.jobs| && s.jobs[id].job.status == Failed
    modifies s`jobs
    ensures Requeue(old(s.jobs[id]), now).Ok?
    ensures s.jobs == old(s.jobs)[id := Requeue(old(s.jobs[id]), now).value]
  {
    var job := s.jobs[id].job;
    var target := if job.attemptCount >= job.maxAttempts then DeadLetter else Queued;
    var moved := s.Move(id, target);
    assert moved.Ok?;
    s.SetJob(id, s.jobs[id].job.(queuedAt := if target == Queued then now else job.queuedAt,
                                 leaseHash := None, leaseExpiresAt := None));
  }

  method RecoverOne(s: Session, id: JobId, now: int) returns (r: Result<()>)
    requires id < |s.jobs|
    modifies s`jobs
    ensures var spec := RecoverJob(old(s.jobs[id]), now);
            && (r.Ok? <==> spec.Ok?)
            && (r.Err? ==> spec == Err(r.error))
            && (r.Ok? ==> s.Contents() == Replace(old(s.Contents()), id, spec.value))
  {
    var _ :- s.Move(id, Failed);
    Requeued(s, id, now);
    return Ok(());
  }
}
