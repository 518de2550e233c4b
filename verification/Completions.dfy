/** What ending a job leaves (app/workers/control.py:329-632, 692-726): the job's rows, its file,
    its charges, and the children that are due. */
module Completions {
  import opened Base
  import opened QuotaLedger
  import opened JobModel
  import opened JobTotals
  import opened JobProtocol
  import opened JobInvariant
  import opened Dispatcher
  import opened JobSystem
  import opened JobHistory
  import opened QuotaLimits

  // ---------------------------------------------------------------- failures

  /** The job failed with so many bytes reported, and was charged for them in ingress alone. */
  ghost predicate FailedWith(d: Dossier, d': Dossier, bytes: nat) {
    && d'.job == d.job.(status := Failed, bytesTransferred := Max(d.job.bytesTransferred, bytes))
    && d'.events == d.events + [JobEvent(Some(d.job.status), Failed)]
    && d'.attempts == d.attempts && d'.files == d.files && d'.outbox == d.outbox
    && AllCharged(d.reservations, d'.reservations, bytes, false)
  }

  /** Failing a job changes no other. */
  lemma FailureEffect(store: Store, id: JobId, bytes: nat)
    requires Inv(store) && id < |store.jobs| && IsRunning(store.jobs[id].job.status)
    requires FailLocked(store, id, bytes).Ok?
    ensures var next := FailLocked(store, id, bytes).value;
            && next.jobs == store.jobs[id := next.jobs[id]]
            && FailedWith(store.jobs[id], next.jobs[id], bytes)
  {
    var d := store.jobs[id];
    assert Sound(d);
    SoundRowsClear(d);
    var noted := d.(job := d.job.(status := Failed, bytesTransferred := Max(d.job.bytesTransferred, bytes)),
                    events := d.events + [JobEvent(Some(d.job.status), Failed)]);
    assert FailLocked(store, id, bytes).value.jobs[id] == Reconcile(store.buckets, noted, bytes, false).value.dossier;
    ReconcileCharges(store.buckets, noted, bytes, false);
  }

  // ---------------------------------------------------------------- downloads

  /** The scan result does not let the file through. */
  predicate Rejected(policy: Policy, scan: ScanStatus) {
    scan == Infected || scan == Suspicious || scan == ScanFailed || (scan == Skipped && policy.scanRequired)
  }

  /** The events of a download from the status it ran in to its completion. */
  function DownloadEvents(running: Status): seq<JobEvent> {
    [JobEvent(Some(running), Scanning), JobEvent(Some(Scanning), Processing),
     JobEvent(Some(Processing), GeneratingLink), JobEvent(Some(GeneratingLink), Completed)]
  }

  /** The download completed: its one file belongs to its user, has its size, and is kept for
      the retention of its policy; a success of that size was charged. */
  ghost predicate FinishedWith(d: Dossier, d': Dossier, size: nat, now: int) {
    && d'.job == d.job.(status := Completed, resultSize := Some(size), progressPercent := 100)
    && d'.events == d.events + DownloadEvents(d.job.status)
    && d'.attempts == d.attempts && d'.outbox == d.outbox
    && d'.files == [File(d.job.user, size, now + d.job.policy.retentionSeconds * 1_000_000, true, false)]
    && AllCharged(d.reservations, d'.reservations, size, true)
  }

  /** An upload to Telegram is due: the download came from a URL, has a chat to go to, and fits
      the upload limit, which is set. */
  predicate UploadDue(job: Job, size: nat) {
    job.source == ExternalUrl && job.payload.hasChat && 0 < job.policy.uploadLimit
    && size <= job.policy.uploadLimit
  }

  /** A queued job of the service's own for a file of the parent. */
  predicate IsChild(c: Dossier, parent: Job, jobType: JobType, key: IdempotencyKey, file: FileId, size: nat, now: int) {
    && c.job.source == Internal && c.job.jobType == jobType && c.job.key == key
    && c.job.payload.file == Some(file) && c.job.payload.hasChat == parent.payload.hasChat
    && c.job.totalBytes == Some(size)
    && c.job.user == parent.user && c.job.lane == parent.lane && c.job.policy == parent.policy
    && c.job.basePriority == parent.basePriority && c.job.effectivePriority == parent.effectivePriority
    && c.job.status == Queued && c.job.queuedAt == now && c.job.createdAt == now
    && c.job.attemptCount == 0 && c.job.maxAttempts == 3 && c.job.generation == 0
    && c.job.leaseHash.None? && c.job.leaseExpiresAt.None? && c.job.resultSize.None?
    && c.job.bytesTransferred == 0 && c.job.progressPercent == 0
    && c.events == [JobEvent(None, Queued)]
    && c.attempts == [] && c.reservations == [] && c.usage == [] && c.files == [] && c.outbox == []
  }

  /** These children were added to the jobs, and no others. */
  ghost predicate ChildrenAdded(jobs: seq<Dossier>, after: seq<Dossier>, id: JobId, size: nat, upload: bool,
                                media: bool, now: int)
    requires id < |jobs|
  {
    var parent, file := jobs[id].job, FileId(id, 0);
    && |after| == |jobs| + (if upload then 1 else 0) + (if media then 1 else 0)
    && (forall j :: 0 <= j < |jobs| && j != id ==> after[j] == jobs[j])
    && (upload ==> IsChild(after[|jobs|], parent, TelegramUpload, UploadKey(id), file, size, now))
    && (media ==> IsChild(after[|after| - 1], parent, MediaProcess, MediaKey(file), file, size, now))
  }

  lemma {:induction false} PathEvents(d: Dossier, path: seq<Status>)
    requires MoveAlong(d, path).Ok?
    ensures MoveAlong(d, path).value.events == d.events + EventsAlong(d.job.status, path)
    ensures MoveAlong(d, path).value
            == d.(job := MoveAlong(d, path).value.job, events := MoveAlong(d, path).value.events)
    ensures MoveAlong(d, path).value.job == d.job.(status := if path == [] then d.job.status else path[|path| - 1])
    decreases |path|
  {
    if path != [] {
      var next := Move(d, path[0]).value;
      PathEvents(next, path[1..]);
      JoinsAssociate(d.events, [JobEvent(Some(d.job.status), path[0])], EventsAlong(path[0], path[1..]));
    }
  }

  function EventsAlong(from: Status, path: seq<Status>): seq<JobEvent>
    decreases |path|
  {
    if path == [] then [] else [JobEvent(Some(from), path[0])] + EventsAlong(path[0], path[1..])
  }

  lemma DownloadPathEvents(running: Status)
    ensures EventsAlong(running, DOWNLOAD_PATH) == DownloadEvents(running)
  {
    assert DOWNLOAD_PATH[1..] == [Processing, GeneratingLink, Completed];
    assert DOWNLOAD_PATH[1..][1..] == [GeneratingLink, Completed];
    assert DOWNLOAD_PATH[1..][1..][1..] == [Completed];
    assert DOWNLOAD_PATH[1..][1..][1..][1..] == [];
  }

  lemma FinishEffect(buckets: Buckets, d: Dossier, size: nat, now: int)
    requires Sound(d) && IsRunning(d.job.status) && IsDownload(d.job.jobType)
    requires FinishDownload(buckets, d, size, now).Ok?
    ensures FinishedWith(d, FinishDownload(buckets, d, size, now).value.dossier, size, now)
  {
    SoundRowsClear(d);
    ActiveIsOpen(d);
    PathEvents(d, DOWNLOAD_PATH);
    DownloadPathEvents(d.job.status);
    var stored := StoreDownload(d, size, now).value;
    ReconcileCharges(buckets, stored, size, true);
  }

  lemma ChildrenOf(done: Store, parent: Job, id: JobId, size: nat, playable: bool, now: int)
    requires id < |done.jobs|
    ensures var file := FileId(id, 0);
            var after := ScheduleMedia(ScheduleUpload(done, parent, id, file, size, now), parent, file, size, playable,
                                       now);
            var upload := UploadDue(parent, size) && !KeyUsed(done.jobs, UploadKey(id));
            var media := playable && !KeyUsed(done.jobs, MediaKey(file));
            && |after.jobs| == |done.jobs| + (if upload then 1 else 0) + (if media then 1 else 0)
            && (forall j :: 0 <= j < |done.jobs| ==> after.jobs[j] == done.jobs[j])
            && (upload ==> IsChild(after.jobs[|done.jobs|], parent, TelegramUpload, UploadKey(id), file, size, now))
            && (media ==> IsChild(after.jobs[|after.jobs| - 1], parent, MediaProcess, MediaKey(file), file, size, now))
  {
    var file := FileId(id, 0);
    var uploading := ScheduleUpload(done, parent, id, file, size, now);
    assert forall j :: 0 <= j < |done.jobs| ==> uploading.jobs[j] == done.jobs[j];
    assert KeyUsed(uploading.jobs, MediaKey(file)) <==> KeyUsed(done.jobs, MediaKey(file)) by {
      if i :| 0 <= i < |done.jobs| && done.jobs[i].job.key == MediaKey(file) {
        assert uploading.jobs[i].job.key == MediaKey(file);
      }
    }
  }

  lemma KeysUnmoved(jobs: seq<Dossier>, id: JobId, d: Dossier, key: IdempotencyKey)
    requires id < |jobs| && d.job.key == jobs[id].job.key
    ensures KeyUsed(jobs[id := d], key) <==> KeyUsed(jobs, key)
  {
    if i :| 0 <= i < |jobs| && jobs[i].job.key == key {
      assert jobs[id := d][i].job.key == key;
    }
  }

  /** The children of a parent that just completed are those of the parent as it was. */
  lemma AddedAfter(store: Store, id: JobId, d': Dossier, buckets: Buckets, size: nat, playable: bool, now: int)
    requires id < |store.jobs|
    requires d'.job == store.jobs[id].job.(status := Completed, resultSize := Some(size), progressPercent := 100)
    ensures var done, file := Replace(store, id, d').(buckets := buckets), FileId(id, 0);
            var after := ScheduleMedia(ScheduleUpload(done, d'.job, id, file, size, now), d'.job, file, size, playable,
                                       now);
            && id < |after.jobs| && after.jobs[id] == d'
            && ChildrenAdded(store.jobs, after.jobs, id, size,
                             UploadDue(store.jobs[id].job, size) && !KeyUsed(store.jobs, UploadKey(id)),
                             playable && !KeyUsed(store.jobs, MediaKey(file)), now)
  {
    ChildrenOf(Replace(store, id, d').(buckets := buckets), d'.job, id, size, playable, now);
    KeysUnmoved(store.jobs, id, d', UploadKey(id));
    KeysUnmoved(store.jobs, id, d', MediaKey(FileId(id, 0)));
  }

  /** A download that passes its scan completes with its file and charges, and exactly the due
      children are added, unless their keys were used before: an upload if one is due, and media
      processing if the file can be played. */
  lemma CompletionEffect(store: Store, id: JobId, result: Completion, now: int)
    requires id < |store.jobs| && Sound(store.jobs[id]) && result.DownloadResult?
    requires IsRunning(store.jobs[id].job.status) && IsDownload(store.jobs[id].job.jobType)
    requires !Rejected(store.jobs[id].job.policy, result.scan) && CompleteDownload(store, id, result, now).Ok?
    ensures var next := CompleteDownload(store, id, result, now).value;
            var d := store.jobs[id];
            && id < |next.jobs| && FinishedWith(d, next.jobs[id], result.size, now)
            && ChildrenAdded(store.jobs, next.jobs, id, result.size,
                             UploadDue(d.job, result.size) && !KeyUsed(store.jobs, UploadKey(id)),
                             result.playable && !KeyUsed(store.jobs, MediaKey(FileId(id, 0))), now)
  {
    var d := store.jobs[id];
    NoFileYet(d);
    FinishEffect(store.buckets, d, result.size, now);
    var posting := FinishDownload(store.buckets, d, result.size, now).value;
    AddedAfter(store, id, posting.dossier, posting.buckets, result.size, result.playable, now);
  }

  lemma NoFileYet(d: Dossier)
    requires Sound(d) && IsRunning(d.job.status)
    ensures d.files == []
  {
    ActiveIsOpen(d);
  }

  /** A download that does not pass its scan fails, and adds no job. */
  lemma RejectionEffect(store: Store, id: JobId, result: Completion, now: int)
    requires Inv(store) && id < |store.jobs| && result.DownloadResult?
    requires IsRunning(store.jobs[id].job.status) && IsDownload(store.jobs[id].job.jobType)
    requires Rejected(store.jobs[id].job.policy, result.scan) && CompleteDownload(store, id, result, now).Ok?
    ensures var next := CompleteDownload(store, id, result, now).value;
            && next.jobs == store.jobs[id := next.jobs[id]]
            && FailedWith(store.jobs[id], next.jobs[id], result.size)
  {
    FailureEffect(store, id, result.size);
  }

  // ---------------------------------------------------------------- uploads and media

  /** An upload that ended with so many bytes. */
  predicate UploadEnded(d: Dossier, d': Dossier, size: nat) {
    d' == d.(job := d.job.(status := Completed, resultSize := Some(size), progressPercent := 100,
                           bytesTransferred := size),
             events := d.events + [JobEvent(Some(Uploading), Completed)])
  }

  /** An upload ends with the size it sent. */
  lemma UploadEffect(d: Dossier, size: nat)
    requires d.job.status == Uploading
    ensures FinishUpload(d, size).Ok? && UploadEnded(d, FinishUpload(d, size).value, size)
  {
  }

  /** The file a media job works on is there, and the result is of its size and well-formed. */
  predicate MediaAcceptable(store: Store, id: JobId, result: Completion)
    requires id < |store.jobs| && result.MediaResult?
  {
    var source := store.jobs[id].job.payload.file;
    && source.Some? && HasFile(store, source.value)
    && var file := store.jobs[source.value.job].files[source.value.index];
    file.available && result.size == file.size && result.metadataValid
  }

  /** The files of a dossier with one of them marked. */
  predicate OnlyMarked(files: seq<File>, after: seq<File>, index: nat, directPlay: bool) {
    && |after| == |files|
    && (forall i :: 0 <= i < |files| && i != index ==> after[i] == files[i])
    && (index < |files| ==> after[index] == files[index].(directPlay := directPlay))
  }

  lemma MediaPathEvents(d: Dossier)
    requires d.job.status == Processing
    ensures MoveAlong(d, MEDIA_PATH).Ok?
    ensures MoveAlong(d, MEDIA_PATH).value.events
            == d.events + [JobEvent(Some(Processing), GeneratingLink), JobEvent(Some(GeneratingLink), Completed)]
  {
    FinishMediaShape(d, 0);
    PathEvents(d, MEDIA_PATH);
    assert MEDIA_PATH[1..] == [Completed] && MEDIA_PATH[1..][1..] == [];
  }

  /** Media processing is accepted exactly then. */
  lemma MediaDecides(store: Store, id: JobId, result: Completion)
    requires id < |store.jobs| && result.MediaResult? && store.jobs[id].job.status == Processing
    ensures CompleteMedia(store, id, result).Ok? <==> MediaAcceptable(store, id, result)
    ensures CompleteMedia(store, id, result).Err? ==> CompleteMedia(store, id, result).error == InvalidResult
  {
    var source := store.jobs[id].job.payload.file;
    if source.Some? && HasFile(store, source.value) {
      FinishMediaShape(MarkPlayable(store, source.value, result.directPlay).jobs[id],
                       store.jobs[source.value.job].files[source.value.index].size);
    }
  }

  /** A media job of its own that ended with so many bytes. */
  predicate MediaEnded(d: Dossier, d': Dossier, size: nat) {
    d' == d.(job := d.job.(status := Completed, progressPercent := 100, bytesTransferred := size),
             events := d.events + [JobEvent(Some(Processing), GeneratingLink),
                                   JobEvent(Some(GeneratingLink), Completed)])
  }

  lemma FinishMediaEffect(d: Dossier, size: nat)
    requires StatusSound(d.job) && d.job.status == Processing
    ensures FinishMedia(d, size).Ok? && MediaEnded(d, FinishMedia(d, size).value, size)
  {
    FinishMediaShape(d, size);
    MediaPathEvents(d);
  }

  lemma MediaHasNoFile(d: Dossier)
    requires Sound(d) && d.job.status == Processing
    ensures d.files == []
  {
    ActiveIsOpen(d);
  }

  /** It then ends the job, and marks that file and nothing else. */
  lemma MediaEffect(store: Store, id: JobId, result: Completion)
    requires id < |store.jobs| && Sound(store.jobs[id]) && store.jobs[id].job.status == Processing
    requires result.MediaResult? && MediaAcceptable(store, id, result)
    ensures CompleteMedia(store, id, result).Ok?
    ensures var next := CompleteMedia(store, id, result).value;
            var file := store.jobs[id].job.payload.file.value;
            && |next.jobs| == |store.jobs| && next.buckets == store.buckets && file.job != id
            && MediaEnded(store.jobs[id], next.jobs[id], result.size)
            && OnlyMarked(store.jobs[file.job].files, next.jobs[file.job].files, file.index, result.directPlay)
            && next.jobs[file.job] == store.jobs[file.job].(files := next.jobs[file.job].files)
            && forall j :: 0 <= j < |store.jobs| && j != id && j != file.job ==> next.jobs[j] == store.jobs[j]
  {
    MediaHasNoFile(store.jobs[id]);
    FinishMediaEffect(store.jobs[id], result.size);
  }
}
