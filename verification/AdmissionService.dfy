/** Admission on an open transaction (app/services/admission.py:24-107). */
module AdmissionService {
  import opened Base
  import opened QuotaLedger
  import opened JobModel
  import opened JobTotals
  import opened Sessions
  import opened QueuePosition
  import P = JobProtocol
  import Q = QuotaService

  /** The job that used an idempotency key. */
  function JobByKey(jobs: seq<Dossier>, key: IdempotencyKey): (found: Option<JobId>)
    ensures found.Some? <==> P.KeyUsed(jobs, key)
    ensures found.Some? ==> found.value < |jobs| && jobs[found.value].job.key == key
  {
    if jobs == [] then None
    else if jobs[|jobs| - 1].job.key == key then Some(|jobs| - 1)
    else
      var rest := JobByKey(jobs[..|jobs| - 1], key);
      rest
  }

  /** The admission event and the notice for the outbox. */
  method Announce(s: Session, id: JobId, now: int)
    requires id < |s.jobs|
    modifies s`jobs
    ensures s.jobs == old(s.jobs)[id := old(s.jobs[id]).(
                                    events := old(s.jobs[id].events) + [JobEvent(None, Queued)],
                                    outbox := old(s.jobs[id].outbox)
                                              + [OutboxEvent(Admitted, AdmissionStream, Unsent, 0, now, None)])]
  {
    s.jobs := s.jobs[id := s.jobs[id].(events := s.jobs[id].events + [JobEvent(None, Queued)])];
    var notice := OutboxEvent(Admitted, AdmissionStream, Unsent, 0, now, None);
    s.jobs := s.jobs[id := s.jobs[id].(outbox := s.jobs[id].outbox + [notice])];
  }

  /** The dossier of an admitted job. */
  function AdmittedDossier(req: P.Intake, plan: Plan, rows: seq<Reservation>, now: int): Dossier {
    Dossier(P.NewJob(req, plan, now), [JobEvent(None, Queued)], [], rows, [], [],
            [OutboxEvent(Admitted, AdmissionStream, Unsent, 0, now, None)])
  }

  /** The job row first, then its reservations, then its event and notice. */
  method Enqueue(s: Session, req: P.Intake, plan: Plan, now: int) returns (r: Result<JobId>)
    requires 0 < req.estimatedBytes <= plan.maxFileSize
    modifies s
    ensures var rows := ReserveRows(old(s.buckets), Specifications(req.user, plan, req.estimatedBytes, now), now);
            && (r.Ok? <==> Total(old(s.jobs), ActiveOf(req.user)) < plan.concurrentJobs && rows.Ok?)
            && (r.Ok? ==>
                  && r.value == |old(s.jobs)| && s.buckets == rows.value.buckets
                  && s.jobs == old(s.jobs) + [AdmittedDossier(req, plan, rows.value.rows, now)])
            && (r.Err? ==> r.error == QuotaExceeded)
  {
    var id := |s.jobs|;
    var job := P.NewJob(req, plan, now);
    s.jobs := s.jobs + [Dossier(job, [], [], [], [], [], [])];
    TotalAppend(old(s.jobs), s.jobs[id], ActiveOf(req.user));
    ghost var rows := ReserveRows(s.buckets, Specifications(req.user, plan, req.estimatedBytes, now), now);
    var _ :- Q.Reserve(s, id, req.user, plan, req.estimatedBytes, now);
    Announce(s, id, now);
    assert [] + rows.value.rows == rows.value.rows;
    assert s.jobs[id] == AdmittedDossier(req, plan, rows.value.rows, now);
    assert s.jobs == old(s.jobs) + [AdmittedDossier(req, plan, rows.value.rows, now)];
    return Ok(id);
  }

  /** `create_job`. The caller gets the job and its position in the queue. */
  method CreateJob(s: Session, req: P.Intake, settings: P.IntakeSettings, plan: Option<Plan>, now: int)
    returns (r: Result<(JobId, nat)>)
    modifies s
    ensures var spec := P.Admit(old(s.Contents()), req, settings, plan, now);
            && (r.Ok? <==> spec.Ok?)
            && (r.Err? ==> spec == Err(r.error))
            && (r.Ok? ==>
                  var (id, position) := r.value;
                  && s.Contents() == spec.value && id < |s.jobs| && s.jobs[id].job.key == req.key
                  && position == Position(s.jobs, s.jobs[id].job))
  {
    var existing := JobByKey(s.jobs, req.key);
    if existing.Some? {
      return Ok((existing.value, Position(s.jobs, s.jobs[existing.value].job)));
    }
    if settings.maintenance || !settings.admissionEnabled {
      return Err(AdmissionDenied);
    }
    if req.estimatedBytes <= 0 || req.estimatedBytes > settings.hardMax {
      return Err(AdmissionDenied);
    }
    if plan.None? {
      return Err(QuotaExceeded);
    }
    if req.estimatedBytes > plan.value.maxFileSize {
      return Err(AdmissionDenied);
    }
    if req.source == ExternalUrl && !plan.value.externalUrlEnabled {
      return Err(AdmissionDenied);
    }
    if plan.value.queuePriority < 0 {
      return Err(ConstraintViolation);
    }
    ReserveErrors(s.buckets, Specifications(req.user, plan.value, req.estimatedBytes, now), now);
    var id :- Enqueue(s, req, plan.value, now);
    return Ok((id, Position(s.jobs, s.jobs[id].job)));
  }
}
