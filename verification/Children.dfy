/** The jobs the service schedules for itself, over any run (app/workers/control.py:410-592). */
module Children {
  import opened Base
  import opened QuotaLedger
  import opened JobModel
  import opened JobTotals
  import opened JobProtocol
  import opened JobInvariant
  import opened Dispatcher
  import opened JobSystem
  import opened JobHistory
  import opened ProtocolTheorems
  import opened Completions

  /** Callers of admission name their requests themselves: none takes a child's key. */
  predicate RequestsNamed(run: seq<Event>) {
    forall i :: 0 <= i < |run| && run[i].op.Admission? ==> run[i].op.req.key.RequestKey?
  }

  // ---------------------------------------------------------------- where children come from

  /** The job that a child's key names has ended. */
  predicate ParentEnded(store: Store, key: IdempotencyKey) {
    match key
    case RequestKey(_) => true
    case UploadKey(parent) => HasEnded(store, parent)
    case MediaKey(file) => HasEnded(store, file.job)
  }

  /** The file a job works on exists and is available. */
  predicate FileStands(store: Store, source: Option<FileId>) {
    && source.Some? && HasFile(store, source.value)
    && store.jobs[source.value.job].files[source.value.index].available
  }

  predicate ChildStands(store: Store, d: Dossier) {
    ParentEnded(store, d.job.key) && (d.job.source == Internal ==> FileStands(store, d.job.payload.file))
  }

  ghost predicate ChildrenStand(store: Store) {
    forall i {:trigger ChildStands(store, store.jobs[i])} :: 0 <= i < |store.jobs| ==> ChildStands(store, store.jobs[i])
  }

  lemma ParentStaysEnded(store: Store, next: Store, key: IdempotencyKey)
    requires Evolves(store, next) && ParentEnded(store, key)
    ensures ParentEnded(next, key)
  {
    match key
    case RequestKey(_) =>
    case UploadKey(parent) => assert Follows(store.jobs[parent], next.jobs[parent]);
    case MediaKey(file) => assert Follows(store.jobs[file.job], next.jobs[file.job]);
  }

  lemma FileStillStands(store: Store, next: Store, source: Option<FileId>)
    requires Evolves(store, next) && FileStands(store, source)
    ensures FileStands(next, source)
    ensures next.jobs[source.value.job].files[source.value.index].size
            == store.jobs[source.value.job].files[source.value.index].size
  {
    assert Follows(store.jobs[source.value.job], next.jobs[source.value.job]);
  }

  lemma StillStands(store: Store, next: Store, i: JobId)
    requires Evolves(store, next) && i < |store.jobs| && ChildStands(store, store.jobs[i])
    ensures ChildStands(next, next.jobs[i])
  {
    assert Follows(store.jobs[i], next.jobs[i]);
    ParentStaysEnded(store, next, store.jobs[i].job.key);
    if store.jobs[i].job.source == Internal {
      FileStillStands(store, next, store.jobs[i].job.payload.file);
    }
  }

  /** Every job past the known ones stands. */
  ghost predicate NewStand(store: Store, next: Store) {
    forall i {:trigger ChildStands(next, next.jobs[i])} :: |store.jobs| <= i < |next.jobs| ==>
      ChildStands(next, next.jobs[i])
  }

  lemma AddedStand(store: Store, next: Store, id: JobId, size: nat, upload: bool, media: bool, now: int)
    requires id < |store.jobs| && ChildrenAdded(store.jobs, next.jobs, id, size, upload, media, now)
    requires next.jobs[id].job.status == Completed && |next.jobs[id].files| == 1 && next.jobs[id].files[0].available
    ensures NewStand(store, next)
  {
    assert HasEnded(next, id) && FileStands(next, Some(FileId(id, 0)));
    forall i | |store.jobs| <= i < |next.jobs|
      ensures ChildStands(next, next.jobs[i])
    {
      assert next.jobs[i].job.key == UploadKey(id) || next.jobs[i].job.key == MediaKey(FileId(id, 0));
      assert next.jobs[i].job.payload.file == Some(FileId(id, 0));
    }
  }

  lemma CompletedChildrenStand(store: Store, id: JobId, result: Completion, now: int)
    requires Inv(store) && id < |store.jobs| && result.DownloadResult?
    requires IsRunning(store.jobs[id].job.status) && IsDownload(store.jobs[id].job.jobType)
    requires CompleteDownload(store, id, result, now).Ok?
    ensures NewStand(store, CompleteDownload(store, id, result, now).value)
  {
    var d := store.jobs[id];
    assert Sound(d);
    if Rejected(d.job.policy, result.scan) {
      RejectionEffect(store, id, result, now);
    } else {
      CompletionEffect(store, id, result, now);
      AddedStand(store, CompleteDownload(store, id, result, now).value, id, result.size,
                 UploadDue(d.job, result.size) && !KeyUsed(store.jobs, UploadKey(id)),
                 result.playable && !KeyUsed(store.jobs, MediaKey(FileId(id, 0))), now);
    }
  }

  lemma CompleteStands(store: Store, id: JobId, generation: nat, lease: Digest, result: Completion, t: Transport,
                       expected: Option<JobType>, now: int)
    requires Inv(store) && Complete(store, id, generation, lease, result, t, expected, now).Ok?
    ensures NewStand(store, Complete(store, id, generation, lease, result, t, expected, now).value.0)
  {
    if Validated(store, id, generation, lease, expected, now) && TransportMatches(store.jobs[id], generation, t) {
      var d := store.jobs[id];
      RunningMatches(d);
      if d.job.jobType == MediaProcess && result.MediaResult? {
        CompleteMediaAddsNone(store, id, result);
      } else if IsDownload(d.job.jobType) && result.DownloadResult? {
        CompletedChildrenStand(store, id, result, now);
      }
    }
  }

  lemma AdmissionStands(store: Store, req: Intake, settings: IntakeSettings, plan: Option<Plan>, now: int)
    requires req.key.RequestKey? && req.source != Internal && Admit(store, req, settings, plan, now).Ok?
    ensures NewStand(store, Admit(store, req, settings, plan, now).value)
  {
  }

  lemma StepStands(sys: System, e: Event)
    requires Inv(sys.store) && Legal(sys, e) && RequestsNamed([e]) && ChildrenStand(sys.store)
    ensures ChildrenStand(Apply(sys, e).store)
  {
    var next := Apply(sys, e).store;
    assert [e][0] == e;
    StepEvolves(sys, e);
    if Outcome(sys, e).Ok? {
      match e.op
      case Admission(req, settings, plan) => AdmissionStands(sys.store, req, settings, plan, e.now);
      case CompleteCall(id, generation, lease, result, t, expected) =>
        CompleteStands(sys.store, id, generation, lease, result, t, expected, e.now);
      case _ => OthersAddNone(sys, e);
    }
    AllStand(sys.store, next);
  }

  lemma AllStand(store: Store, next: Store)
    requires Evolves(store, next) && ChildrenStand(store) && NewStand(store, next)
    ensures ChildrenStand(next)
  {
    forall i | 0 <= i < |next.jobs|
      ensures ChildStands(next, next.jobs[i])
    {
      if i < |store.jobs| {
        assert ChildStands(store, store.jobs[i]);
        StillStands(store, next, i);
      }
    }
  }

  lemma {:induction false} RunStands(sys: System, run: seq<Event>)
    requires Inv(sys.store) && LegalRun(sys, run) && RequestsNamed(run) && ChildrenStand(sys.store)
    ensures ChildrenStand(Exec(sys, run).store)
    decreases |run|
  {
    if run != [] {
      StepKeeps(sys, run[0]);
      assert RequestsNamed([run[0]]);
      StepStands(sys, run[0]);
      RunStands(Apply(sys, run[0]), run[1..]);
    }
  }

  // ---------------------------------------------------------------- what follows

  /** While a job runs, the keys of its children are free. */
  lemma KeysFree(store: Store, id: JobId, key: IdempotencyKey)
    requires ChildrenStand(store) && id < |store.jobs| && IsRunning(store.jobs[id].job.status)
    requires key == UploadKey(id) || (key.MediaKey? && key.file.job == id)
    ensures !KeyUsed(store.jobs, key)
  {
    forall i | 0 <= i < |store.jobs|
      ensures store.jobs[i].job.key != key
    {
      assert ChildStands(store, store.jobs[i]);
    }
  }

  /** After any run, a download that passes its scan completes with exactly the due children:
      an upload if and only if one is due, and media processing if and only if the file can be
      played. */
  lemma DueChildrenAdded(run: seq<Event>, id: JobId, result: Completion, now: int)
    requires LegalRun(EMPTY, run) && RequestsNamed(run) && result.DownloadResult?
    requires var store := Exec(EMPTY, run).store;
             && id < |store.jobs| && IsRunning(store.jobs[id].job.status) && IsDownload(store.jobs[id].job.jobType)
             && !Rejected(store.jobs[id].job.policy, result.scan) && CompleteDownload(store, id, result, now).Ok?
    ensures var store := Exec(EMPTY, run).store;
            var next := CompleteDownload(store, id, result, now).value;
            && id < |next.jobs| && FinishedWith(store.jobs[id], next.jobs[id], result.size, now)
            && ChildrenAdded(store.jobs, next.jobs, id, result.size, UploadDue(store.jobs[id].job, result.size),
                             result.playable, now)
  {
    RunKeeps(EMPTY, run);
    RunStands(EMPTY, run);
    var store := Exec(EMPTY, run).store;
    assert Sound(store.jobs[id]);
    KeysFree(store, id, UploadKey(id));
    KeysFree(store, id, MediaKey(FileId(id, 0)));
    CompletionEffect(store, id, result, now);
  }

  /** After any run, a running media job can be completed: a result is accepted exactly if it
      has the size of the job's file and valid metadata, and it marks that file alone. */
  lemma MediaJobsFinish(run: seq<Event>, id: JobId, result: Completion)
    requires LegalRun(EMPTY, run) && RequestsNamed(run) && result.MediaResult?
    requires id < |Exec(EMPTY, run).store.jobs| && Exec(EMPTY, run).store.jobs[id].job.status == Processing
    ensures var store := Exec(EMPTY, run).store;
            var source := store.jobs[id].job.payload.file;
            && FileStands(store, source) && source.value.job != id
            && var files := store.jobs[source.value.job].files;
            && (CompleteMedia(store, id, result).Ok? <==>
                  result.metadataValid && result.size == files[source.value.index].size)
            && (CompleteMedia(store, id, result).Ok? ==>
                  var next := CompleteMedia(store, id, result).value;
                  && |next.jobs| == |store.jobs|
                  && MediaEnded(store.jobs[id], next.jobs[id], result.size)
                  && OnlyMarked(files, next.jobs[source.value.job].files, source.value.index, result.directPlay)
                  && forall j :: 0 <= j < |store.jobs| && j != id && j != source.value.job ==>
                       next.jobs[j] == store.jobs[j])
  {
    RunKeeps(EMPTY, run);
    RunStands(EMPTY, run);
    var store := Exec(EMPTY, run).store;
    assert Sound(store.jobs[id]) && ChildStands(store, store.jobs[id]);
    MediaIsInternal(store.jobs[id]);
    MediaDecides(store, id, result);
    if MediaAcceptable(store, id, result) {
      MediaEffect(store, id, result);
    }
  }

  lemma MediaIsInternal(d: Dossier)
    requires StatusSound(d.job) && d.job.status == Processing
    ensures d.job.source == Internal
  {
  }
}
