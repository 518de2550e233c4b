/** Transactions as the services see them (app/db/session.py): rows change in place while
    the transaction is open, and become visible to others only when it commits. */
module Sessions {
  import opened Base
  import opened QuotaLedger
  import opened JobModel
  import P = JobProtocol

  /** An open transaction. */
  class Session {
    var jobs: seq<Dossier>
    var buckets: Buckets

    constructor (store: Store)
      ensures Contents() == store
    {
      jobs, buckets := store.jobs, store.buckets;
    }

    function Contents(): Store
      reads this
    {
      Store(jobs, buckets)
    }

    /** Writes a status and its job event. The database refuses what its trigger does not
        allow. */
    method Move(id: JobId, to: Status) returns (r: Result<()>)
      requires id < |jobs|
      modifies `jobs
      ensures r.Ok? <==> TransitionAllowed(old(jobs[id].job.status), to)
      ensures r.Ok? ==> jobs == old(jobs)[id := old(jobs[id]).(
                                   job := old(jobs[id].job).(status := to),
                                   events := old(jobs[id].events) + [JobEvent(Some(old(jobs[id].job.status)), to)])]
      ensures r.Err? ==> r.error == InvalidTransition && jobs == old(jobs)
    {
      var d := jobs[id];
      if !TransitionAllowed(d.job.status, to) {
        return Err(InvalidTransition);
      }
      jobs := jobs[id := d.(job := d.job.(status := to), events := d.events + [JobEvent(Some(d.job.status), to)])];
      return Ok(());
    }

    /** Changes fields of a job row other than its status. */
    method SetJob(id: JobId, job: Job)
      requires id < |jobs| && job.status == jobs[id].job.status
      modifies `jobs
      ensures jobs == old(jobs)[id := old(jobs[id]).(job := job)]
    {
      jobs := jobs[id := jobs[id].(job := job)];
    }

    method SetReservation(id: JobId, i: nat, r: Reservation)
      requires id < |jobs| && i < |jobs[id].reservations|
      modifies `jobs
      ensures jobs == old(jobs)[id := old(jobs[id]).(reservations := old(jobs[id].reservations)[i := r])]
    {
      jobs := jobs[id := jobs[id].(reservations := jobs[id].reservations[i := r])];
    }
  }

  /** The database between transactions. */
  class Database {
    var committed: Store

    constructor ()
      ensures committed == Store([], map[])
    {
      committed := Store([], map[]);
    }

    method Begin() returns (session: Session)
      ensures fresh(session) && session.Contents() == committed
    {
      session := new Session(committed);
    }

    /** Leaving the transaction block: an exception rolls everything back. */
    method End(session: Session, raised: bool)
      modifies this
      ensures committed == if raised then old(committed) else session.Contents()
    {
      if !raised {
        committed := session.Contents();
      }
    }
  }
}
