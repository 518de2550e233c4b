/** What a call that ends a job answers and leaves, for every job type (app/workers/control.py:273-327,
    634-657). */
module Endings {
  import opened Base
  import opened QuotaLedger
  import opened JobModel
  import opened JobProtocol
  import opened JobInvariant
  import opened Dispatcher
  import opened JobSystem
  import opened JobHistory
  import opened QuotaTheorems
  import opened MessageFencing
  import opened Completions
  import opened Handover

  /** Some reservation of the job that is charged by bytes, or by ingress alone, holds too little. */
  predicate Overrun(d: Dossier, bytes: int, ingressOnly: bool) {
    exists i :: 0 <= i < |d.reservations|
                && (if ingressOnly then d.reservations[i].bucket.dimension == Ingress
                    else d.reservations[i].bucket.dimension != JobCount)
                && d.reservations[i].amount < bytes
  }

  /** The call is from the worker that has the job, about the job's last dispatch. */
  predicate Entitled(store: Store, id: JobId, generation: nat, lease: Digest, t: Transport, expected: Option<JobType>,
                     now: int)
  {
    Rightful(store, id, generation, lease, expected, now) && CurrentMessage(store.jobs[id], t)
  }

  lemma RightfulRuns(store: Store, id: JobId, generation: nat, lease: Digest, expected: Option<JobType>, now: int)
    requires Inv(store) && Rightful(store, id, generation, lease, expected, now)
    ensures Sound(store.jobs[id]) && IsRunning(store.jobs[id].job.status)
    ensures store.jobs[id].job.status == RunningState(store.jobs[id].job.jobType)
    ensures forall t :: TransportMatches(store.jobs[id], generation, t) <==> CurrentMessage(store.jobs[id], t)
  {
    var d := store.jobs[id];
    assert Sound(d);
    RunningMatches(d);
    RunningGeneration(d);
    forall t {
      MatchesIff(d, t);
    }
  }

  /** An entitled failure ends the job, unless the bytes it reports overrun an ingress reservation. */
  lemma FailAnswers(store: Store, id: JobId, generation: nat, lease: Digest, actual: nat, t: Transport,
                    expected: Option<JobType>, now: int)
    requires Inv(store) && Entitled(store, id, generation, lease, t, expected, now)
    ensures var r := Fail(store, id, generation, lease, actual, t, expected, now);
            && (r.Err? <==> Overrun(store.jobs[id], actual, true))
            && (r.Ok? ==>
                  && r.value.1 && r.value.0.jobs == store.jobs[id := r.value.0.jobs[id]]
                  && FailedWith(store.jobs[id], r.value.0.jobs[id], actual))
  {
    ValidatedIsRightful(store, id, generation, lease, expected, now);
    RightfulRuns(store, id, generation, lease, expected, now);
    FailRaisesIff(store, id, actual);
    if FailLocked(store, id, actual).Ok? {
      FailureEffect(store, id, actual);
    }
  }

  /** An entitled upload result always ends the job. */
  lemma UploadAnswers(store: Store, id: JobId, generation: nat, lease: Digest, result: Completion, t: Transport,
                      expected: Option<JobType>, now: int)
    requires Inv(store) && Entitled(store, id, generation, lease, t, expected, now)
    requires store.jobs[id].job.jobType == TelegramUpload && result.UploadResult?
    ensures var r := Complete(store, id, generation, lease, result, t, expected, now);
            && r.Ok? && r.value.1 && |r.value.0.jobs| == |store.jobs|
            && r.value.0 == store.(jobs := store.jobs[id := r.value.0.jobs[id]])
            && UploadEnded(store.jobs[id], r.value.0.jobs[id], result.size)
  {
    ValidatedIsRightful(store, id, generation, lease, expected, now);
    RightfulRuns(store, id, generation, lease, expected, now);
    UploadEffect(store.jobs[id], result.size);
  }

  /** An entitled media result ends the job exactly if it is acceptable, and marks its file. */
  lemma MediaAnswers(store: Store, id: JobId, generation: nat, lease: Digest, result: Completion, t: Transport,
                     expected: Option<JobType>, now: int)
    requires Inv(store) && Entitled(store, id, generation, lease, t, expected, now)
    requires store.jobs[id].job.jobType == MediaProcess && result.MediaResult?
    ensures var r := Complete(store, id, generation, lease, result, t, expected, now);
            && (r.Ok? <==> MediaAcceptable(store, id, result))
            && (r.Ok? ==>
                  var file := store.jobs[id].job.payload.file.value;
                  && r.value.1 && |r.value.0.jobs| == |store.jobs|
                  && MediaEnded(store.jobs[id], r.value.0.jobs[id], result.size)
                  && OnlyMarked(store.jobs[file.job].files, r.value.0.jobs[file.job].files, file.index,
                                result.directPlay)
                  && forall j :: 0 <= j < |store.jobs| && j != id && j != file.job ==>
                       r.value.0.jobs[j] == store.jobs[j])
  {
    ValidatedIsRightful(store, id, generation, lease, expected, now);
    RightfulRuns(store, id, generation, lease, expected, now);
    MediaDecides(store, id, result);
    if MediaAcceptable(store, id, result) {
      MediaEffect(store, id, result);
    }
  }

  /** The job completed with its file and the due children. */
  ghost predicate CompletedWith(store: Store, next: Store, id: JobId, result: Completion, now: int)
    requires id < |store.jobs| && result.DownloadResult?
  {
    && id < |next.jobs|
    && FinishedWith(store.jobs[id], next.jobs[id], result.size, now)
    && ChildrenAdded(store.jobs, next.jobs, id, result.size,
                     UploadDue(store.jobs[id].job, result.size) && !KeyUsed(store.jobs, UploadKey(id)),
                     result.playable && !KeyUsed(store.jobs, MediaKey(FileId(id, 0))), now)
  }

  lemma DownloadCompletes(store: Store, id: JobId, result: Completion, now: int)
    requires Inv(store) && id < |store.jobs| && result.DownloadResult?
    requires IsRunning(store.jobs[id].job.status) && IsDownload(store.jobs[id].job.jobType)
    requires !Rejected(store.jobs[id].job.policy, result.scan)
    ensures CompleteDownload(store, id, result, now).Err? <==> Overrun(store.jobs[id], result.size, false)
    ensures CompleteDownload(store, id, result, now).Ok? ==>
              CompletedWith(store, CompleteDownload(store, id, result, now).value, id, result, now)
  {
    assert Sound(store.jobs[id]);
    CompletionRaisesIff(store, id, result.size, now);
    if CompleteDownload(store, id, result, now).Ok? {
      CompletionEffect(store, id, result, now);
    }
  }

  /** An entitled download result that passes its scan completes the job with its file and the due
      children, unless its size overruns a byte reservation. */
  lemma CompletionAnswers(store: Store, id: JobId, generation: nat, lease: Digest, result: Completion, t: Transport,
                          expected: Option<JobType>, now: int)
    requires Inv(store) && Entitled(store, id, generation, lease, t, expected, now)
    requires IsDownload(store.jobs[id].job.jobType) && result.DownloadResult?
    requires !Rejected(store.jobs[id].job.policy, result.scan)
    ensures var r := Complete(store, id, generation, lease, result, t, expected, now);
            && (r.Err? <==> Overrun(store.jobs[id], result.size, false))
            && (r.Ok? ==> r.value.1 && CompletedWith(store, r.value.0, id, result, now))
  {
    ValidatedIsRightful(store, id, generation, lease, expected, now);
    RightfulRuns(store, id, generation, lease, expected, now);
    DownloadCompletes(store, id, result, now);
  }

  /** One that does not pass its scan fails the job, and is accepted all the same. */
  lemma RejectedAnswers(store: Store, id: JobId, generation: nat, lease: Digest, result: Completion, t: Transport,
                        expected: Option<JobType>, now: int)
    requires Inv(store) && Entitled(store, id, generation, lease, t, expected, now)
    requires IsDownload(store.jobs[id].job.jobType) && result.DownloadResult?
    requires Rejected(store.jobs[id].job.policy, result.scan)
    ensures var r := Complete(store, id, generation, lease, result, t, expected, now);
            && (r.Err? <==> Overrun(store.jobs[id], result.size, true))
            && (r.Ok? ==>
                  && r.value.1 && r.value.0.jobs == store.jobs[id := r.value.0.jobs[id]]
                  && FailedWith(store.jobs[id], r.value.0.jobs[id], result.size))
  {
    ValidatedIsRightful(store, id, generation, lease, expected, now);
    RightfulRuns(store, id, generation, lease, expected, now);
    FailRaisesIff(store, id, result.size);
    if CompleteDownload(store, id, result, now).Ok? {
      RejectionEffect(store, id, result, now);
    }
  }
}
