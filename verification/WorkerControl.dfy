/** The worker control service (app/workers/control.py): each call opens a transaction,
    works on the rows in place, and commits or rolls back. */
module WorkerControl {
  import opened Base
  import opened QuotaLedger
  import opened JobModel
  import opened Sessions
  import P = JobProtocol
  import Q = QuotaService

  // ---------------------------------------------------------------- claim

  /** A dispatched job without an attempt left becomes a dead letter, its reservations closed. */
  method Bury(s: Session, id: JobId) returns (r: Result<()>)
    requires id < |s.jobs| && s.jobs[id].job.status == Dispatched
    modifies s
    ensures var d := old(s.jobs[id]);
            var moved := JobModel.Move(d, DeadLetter);
            && moved.Ok?
            && var buried := moved.value.(job := moved.value.job.(leaseHash := None, leaseExpiresAt := None));
            var spec := P.Reconcile(old(s.buckets), buried, d.job.bytesTransferred, false);
            && (r.Ok? <==> spec.Ok?)
            && (r.Err? ==> spec == Err(r.error))
            && (r.Ok? ==> s.buckets == spec.value.buckets && s.jobs == old(s.jobs)[id := spec.value.dossier])
  {
    var bytes := s.jobs[id].job.bytesTransferred;
    var moved := s.Move(id, DeadLetter);
    assert moved.Ok?;
    s.SetJob(id, s.jobs[id].job.(leaseHash := None, leaseExpiresAt := None));
    r := Q.Reconcile(s, id, bytes, false);
  }

  /** The worker's attempt begins: status, attempt count, lease and attempt row. */
  method Take(s: Session, id: JobId, generation: nat, jobType: JobType, now: int)
    requires id < |s.jobs| && s.jobs[id].job.status == Dispatched
    modifies s`jobs
    ensures var d := old(s.jobs[id]);
            var moved := JobModel.Move(d, RunningState(jobType));
            var count := d.job.attemptCount + 1;
            && moved.Ok?
            && s.jobs == old(s.jobs)[id := moved.value.(
                           job := moved.value.job.(attemptCount := count, leaseExpiresAt := Some(now + P.LEASE)),
                           attempts := d.attempts + [Attempt(count, generation)])]
  {
    var count := s.jobs[id].job.attemptCount + 1;
    var moved := s.Move(id, RunningState(jobType));
    assert moved.Ok?;
    s.SetJob(id, s.jobs[id].job.(attemptCount := count, leaseExpiresAt := Some(now + P.LEASE)));
    s.jobs := s.jobs[id := s.jobs[id].(attempts := s.jobs[id].attempts + [Attempt(count, generation)])];
  }

  method ClaimRow(s: Session, id: JobId, generation: nat, lease: Digest, jobType: JobType, now: int)
    returns (r: Result<bool>)
    modifies s
    ensures var spec := P.Claim(old(s.Contents()), id, generation, lease, jobType, now);
            && (r.Ok? <==> spec.Ok?)
            && (r.Err? ==> spec == Err(r.error))
            && (r.Ok? ==> s.Contents() == spec.value.0 && r.value == spec.value.1)
  {
    if !P.Claimable(s.Contents(), id, generation, lease, jobType, now) {
      return Ok(false);
    }
    if s.jobs[id].job.attemptCount >= s.jobs[id].job.maxAttempts {
      var _ :- Bury(s, id);
      return Ok(false);
    }
    Take(s, id, generation, jobType, now);
    return Ok(true);
  }

  /** `_claim_durable`. */
  method Claim(db: Database, id: JobId, generation: nat, lease: Digest, jobType: JobType, now: int)
    returns (r: Result<bool>)
    modifies db
    ensures var spec := P.Claim(old(db.committed), id, generation, lease, jobType, now);
            && (r.Ok? <==> spec.Ok?)
            && (r.Ok? ==> db.committed == spec.value.0 && r.value == spec.value.1)
            && (r.Err? ==> spec == Err(r.error) && db.committed == old(db.committed))
  {
    var session := db.Begin();
    r := ClaimRow(session, id, generation, lease, jobType, now);
    db.End(session, r.Err?);
  }

  // ---------------------------------------------------------------- heartbeat

  method HeartbeatRow(s: Session, id: JobId, generation: nat, lease: Digest, progress: Option<P.Progress>,
                      expected: Option<JobType>, now: int) returns (r: Result<bool>)
    modifies s
    ensures var spec := P.Heartbeat(old(s.Contents()), id, generation, lease, progress, expected, now);
            && (r.Ok? <==> spec.Ok?)
            && (r.Err? ==> spec == Err(r.error))
            && (r.Ok? ==> s.Contents() == spec.value.0 && r.value == spec.value.1)
  {
    if !P.Validated(s.Contents(), id, generation, lease, expected, now) {
      return Ok(false);
    }
    var transferred := s.jobs[id].job.bytesTransferred;
    s.SetJob(id, s.jobs[id].job.(leaseExpiresAt := Some(now + P.LEASE)));
    Q.Touch(s, id, now);
    if progress.Some? {
      var requested := progress.value.bytes.GetOr<nat>(transferred);
      if requested > s.jobs[id].job.totalBytes.GetOr<nat>(0) {
        var _ :- Q.TopUp(s, id, requested);
      }
      var job := s.jobs[id].job;
      var percent := Max(0, Min(100, progress.value.percent.GetOr<int>(job.progressPercent)));
      s.SetJob(id, job.(progressPercent := percent, bytesTransferred := Max(job.bytesTransferred, requested)));
    }
    return Ok(true);
  }

  method Heartbeat(db: Database, id: JobId, generation: nat, lease: Digest, progress: Option<P.Progress>,
                   expected: Option<JobType>, now: int) returns (r: Result<bool>)
    modifies db
    ensures var spec := P.Heartbeat(old(db.committed), id, generation, lease, progress, expected, now);
            && (r.Ok? <==> spec.Ok?)
            && (r.Ok? ==> db.committed == spec.value.0 && r.value == spec.value.1)
            && (r.Err? ==> spec == Err(r.error) && db.committed == old(db.committed))
  {
    var session := db.Begin();
    r := HeartbeatRow(session, id, generation, lease, progress, expected, now);
    db.End(session, r.Err?);
  }

  // ---------------------------------------------------------------- fail

  method FailLocked(s: Session, id: JobId, actual: nat) returns (r: Result<()>)
    requires id < |s.jobs|
    modifies s
    ensures var spec := P.FailLocked(old(s.Contents()), id, actual);
            && (r.Ok? <==> spec.Ok?)
            && (r.Err? ==> spec == Err(r.error))
            && (r.Ok? ==> s.Contents() == spec.value)
  {
    var _ :- s.Move(id, Failed);
    s.SetJob(id, s.jobs[id].job.(bytesTransferred := Max(s.jobs[id].job.bytesTransferred, actual)));
    var _ :- Q.Reconcile(s, id, actual, false);
    return Ok(());
  }

  method Fail(db: Database, id: JobId, generation: nat, lease: Digest, actual: nat, t: P.Transport,
              expected: Option<JobType>, now: int) returns (r: Result<bool>)
    modifies db
    ensures var spec := P.Fail(old(db.committed), id, generation, lease, actual, t, expected, now);
            && (r.Ok? <==> spec.Ok?)
            && (r.Ok? ==> db.committed == spec.value.0 && r.value == spec.value.1)
            && (r.Err? ==> spec == Err(r.error) && db.committed == old(db.committed))
  {
    var session := db.Begin();
    if !P.Validated(session.Contents(), id, generation, lease, expected, now)
       || !P.TransportMatches(session.jobs[id], generation, t) {
      db.End(session, false);
      return Ok(false);
    }
    var failed := FailLocked(session, id, actual);
    db.End(session, failed.Err?);
    return if failed.Ok? then Ok(true) else Err(failed.error);
  }

  // ---------------------------------------------------------------- complete

  lemma MoveAlongNext(d: Dossier, path: seq<Status>, i: nat)
    requires i < |path|
    ensures JobModel.MoveAlong(d, path[i..])
            == if TransitionAllowed(d.job.status, path[i]) then
               JobModel.MoveAlong(JobModel.Move(d, path[i]).value, path[i + 1..])
               else Err(InvalidTransition)
  {
    assert path[i..][1..] == path[i + 1..];
  }

  /** One logged status write per state of the path. */
  method MoveAlong(s: Session, id: JobId, path: seq<Status>) returns (r: Result<()>)
    requires id < |s.jobs|
    modifies s`jobs
    ensures var spec := JobModel.MoveAlong(old(s.jobs[id]), path);
            && (r.Ok? <==> spec.Ok?)
            && (r.Err? ==> spec == Err(r.error))
            && (r.Ok? ==> s.jobs == old(s.jobs)[id := spec.value])
  {
    var i := 0;
    assert path[0..] == path;
    while i < |path|
      invariant i <= |path| && |s.jobs| == old(|s.jobs|)
      invariant s.jobs == old(s.jobs)[id := s.jobs[id]]
      invariant JobModel.MoveAlong(old(s.jobs[id]), path) == JobModel.MoveAlong(s.jobs[id], path[i..])
    {
      MoveAlongNext(s.jobs[id], path, i);
      var _ :- s.Move(id, path[i]);
      i := i + 1;
    }
    return Ok(());
  }

  /** A child job is added unless its idempotency key was used before. */
  method Schedule(s: Session, child: Dossier)
    modifies s`jobs
    ensures s.Contents() == P.Schedule(old(s.Contents()), child)
  {
    if !P.KeyUsed(s.jobs, child.job.key) {
      s.jobs := s.jobs + [child];
    }
  }

  method ScheduleUpload(s: Session, parent: Job, id: JobId, file: FileId, size: nat, now: int)
    modifies s`jobs
    ensures s.Contents() == P.ScheduleUpload(old(s.Contents()), parent, id, file, size, now)
  {
    if parent.source != ExternalUrl || !parent.payload.hasChat {
      return;
    }
    if parent.policy.uploadLimit <= 0 || size > parent.policy.uploadLimit {
      return;
    }
    Schedule(s, P.ChildJob(parent, TelegramUpload, UploadKey(id), file, size, now));
  }

  method ScheduleMedia(s: Session, parent: Job, file: FileId, size: nat, playable: bool, now: int)
    modifies s`jobs
    ensures s.Contents() == P.ScheduleMedia(old(s.Contents()), parent, file, size, playable, now)
  {
    if !playable {
      return;
    }
    Schedule(s, P.ChildJob(parent, MediaProcess, MediaKey(file), file, size, now));
  }

  /** Adds a file to a job's dossier. */
  method AddFile(s: Session, id: JobId, file: File)
    requires id < |s.jobs|
    modifies s`jobs
    ensures s.jobs == old(s.jobs)[id := old(s.jobs[id]).(files := old(s.jobs[id].files) + [file])]
  {
    s.jobs := s.jobs[id := s.jobs[id].(files := s.jobs[id].files + [file])];
  }

  /** Moves the job to completion and adds its file. */
  method StoreFile(s: Session, id: JobId, size: nat, now: int) returns (r: Result<()>)
    requires id < |s.jobs|
    modifies s`jobs
    ensures var spec := P.StoreDownload(old(s.jobs[id]), size, now);
            && (r.Ok? <==> spec.Ok?)
            && (r.Err? ==> spec == Err(r.error))
            && (r.Ok? ==> s.jobs == old(s.jobs)[id := spec.value])
  {
    ghost var d := s.jobs[id];
    var policy, user := s.jobs[id].job.policy, s.jobs[id].job.user;
    var _ :- MoveAlong(s, id, P.DOWNLOAD_PATH);
    MoveAlongKeeps(d, P.DOWNLOAD_PATH);
    AddFile(s, id, File(user, size, now + policy.retentionSeconds * SECOND, true, false));
    s.SetJob(id, s.jobs[id].job.(resultSize := Some(size), progressPercent := 100));
    assert Ok(s.jobs[id]) == P.StoreDownload(d, size, now);
    return Ok(());
  }

  /** ... and closes its reservations. */
  method FinishDownload(s: Session, id: JobId, size: nat, now: int) returns (r: Result<()>)
    requires id < |s.jobs|
    modifies s
    ensures var spec := P.FinishDownload(old(s.buckets), old(s.jobs[id]), size, now);
            && (r.Ok? <==> spec.Ok?)
            && (r.Err? ==> spec == Err(r.error))
            && (r.Ok? ==> s.buckets == spec.value.buckets && s.jobs == old(s.jobs)[id := spec.value.dossier])
  {
    ghost var stored := P.StoreDownload(s.jobs[id], size, now);
    var _ :- StoreFile(s, id, size, now);
    assert s.jobs[id] == stored.value && s.buckets == old(s.buckets);
    var _ :- Q.Reconcile(s, id, size, true);
    return Ok(());
  }

  lemma {:induction false} MoveAlongKeeps(d: Dossier, path: seq<Status>)
    requires JobModel.MoveAlong(d, path).Ok?
    ensures JobModel.MoveAlong(d, path).value.files == d.files
    decreases |path|
  {
    if path != [] {
      MoveAlongKeeps(JobModel.Move(d, path[0]).value, path[1..]);
    }
  }

  method CompleteDownloadLocked(s: Session, id: JobId, result: P.Completion, now: int) returns (r: Result<()>)
    requires id < |s.jobs| && result.DownloadResult?
    modifies s
    ensures var spec := P.CompleteDownload(old(s.Contents()), id, result, now);
            && (r.Ok? <==> spec.Ok?)
            && (r.Err? ==> spec == Err(r.error))
            && (r.Ok? ==> s.Contents() == spec.value)
  {
    if P.ScanRejects(s.jobs[id].job.policy, result.scan) {
      r := FailLocked(s, id, result.size);
      return;
    }
    var file := FileId(id, |s.jobs[id].files|);
    var _ :- FinishDownload(s, id, result.size, now);
    var parent := s.jobs[id].job;
    ScheduleUpload(s, parent, id, file, result.size, now);
    ScheduleMedia(s, parent, file, result.size, result.playable, now);
    return Ok(());
  }

  /** Records what a player can do with a file. */
  method MarkFile(s: Session, file: FileId, directPlay: bool)
    requires P.HasFile(s.Contents(), file)
    modifies s`jobs
    ensures s.Contents() == P.MarkPlayable(old(s.Contents()), file, directPlay)
  {
    var files := s.jobs[file.job].files;
    var marked := files[file.index].(directPlay := directPlay);
    s.jobs := s.jobs[file.job := s.jobs[file.job].(files := files[file.index := marked])];
  }

  method FinishMedia(s: Session, id: JobId, size: nat) returns (r: Result<()>)
    requires id < |s.jobs|
    modifies s`jobs
    ensures var spec := P.FinishMedia(old(s.jobs[id]), size);
            && (r.Ok? <==> spec.Ok?)
            && (r.Err? ==> spec == Err(r.error))
            && (r.Ok? ==> s.jobs == old(s.jobs)[id := spec.value])
  {
    var _ :- MoveAlong(s, id, P.MEDIA_PATH);
    s.SetJob(id, s.jobs[id].job.(resultSize := None, progressPercent := 100, bytesTransferred := size));
    return Ok(());
  }

  method CompleteMediaLocked(s: Session, id: JobId, result: P.Completion) returns (r: Result<()>)
    requires id < |s.jobs| && result.MediaResult?
    modifies s
    ensures var spec := P.CompleteMedia(old(s.Contents()), id, result);
            && (r.Ok? <==> spec.Ok?)
            && (r.Err? ==> spec == Err(r.error))
            && (r.Ok? ==> s.Contents() == spec.value)
  {
    var source := s.jobs[id].job.payload.file;
    if source.None? || !P.HasFile(s.Contents(), source.value) {
      return Err(InvalidResult);
    }
    var owner, index := source.value.job, source.value.index;
    var file := s.jobs[owner].files[index];
    if !file.available || result.size != file.size || !result.metadataValid {
      return Err(InvalidResult);
    }
    MarkFile(s, source.value, result.directPlay);
    var _ :- FinishMedia(s, id, file.size);
    return Ok(());
  }

  method CompleteUploadLocked(s: Session, id: JobId, size: nat) returns (r: Result<()>)
    requires id < |s.jobs|
    modifies s
    ensures var spec := P.FinishUpload(old(s.jobs[id]), size);
            && (r.Ok? <==> spec.Ok?)
            && (r.Err? ==> spec == Err(r.error))
            && (r.Ok? ==> s.Contents() == P.Replace(old(s.Contents()), id, spec.value))
  {
    var _ :- s.Move(id, Completed);
    s.SetJob(id, s.jobs[id].job.(resultSize := Some(size), progressPercent := 100, bytesTransferred := size));
    return Ok(());
  }

  method CompleteRow(s: Session, id: JobId, generation: nat, lease: Digest, result: P.Completion, t: P.Transport,
                     expected: Option<JobType>, now: int) returns (r: Result<bool>)
    modifies s
    ensures var spec := P.Complete(old(s.Contents()), id, generation, lease, result, t, expected, now);
            && (r.Ok? <==> spec.Ok?)
            && (r.Err? ==> spec == Err(r.error))
            && (r.Ok? ==> s.Contents() == spec.value.0 && r.value == spec.value.1)
  {
    if !P.Validated(s.Contents(), id, generation, lease, expected, now) {
      return Ok(false);
    }
    if !P.TransportMatches(s.jobs[id], generation, t) {
      return Ok(false);
    }
    var jobType := s.jobs[id].job.jobType;
    if jobType == TelegramUpload {
      if !result.UploadResult? {
        return Ok(false);
      }
      var _ :- CompleteUploadLocked(s, id, result.size);
    } else if jobType == MediaProcess {
      if !result.MediaResult? {
        return Ok(false);
      }
      var _ :- CompleteMediaLocked(s, id, result);
    } else {
      if !result.DownloadResult? {
        return Ok(false);
      }
      var _ :- CompleteDownloadLocked(s, id, result, now);
    }
    return Ok(true);
  }

  method Complete(db: Database, id: JobId, generation: nat, lease: Digest, result: P.Completion, t: P.Transport,
                  expected: Option<JobType>, now: int) returns (r: Result<bool>)
    modifies db
    ensures var spec := P.Complete(old(db.committed), id, generation, lease, result, t, expected, now);
            && (r.Ok? <==> spec.Ok?)
            && (r.Ok? ==> db.committed == spec.value.0 && r.value == spec.value.1)
            && (r.Err? ==> spec == Err(r.error) && db.committed == old(db.committed))
  {
    var session := db.Begin();
    r := CompleteRow(session, id, generation, lease, result, t, expected, now);
    db.End(session, r.Err?);
  }
}
