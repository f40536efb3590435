/** The job, review and blacklist documents the controllers read and write
    (models/Job.js, models/Review.js, models/Blacklist.js). */
module Records {
  import opened Common

  datatype JobStatus = Pending | Accepted | InProgress | Completed | Cancelled

  function StatusName(s: JobStatus): string {
    match s
    case Pending => "pending"
    case Accepted => "accepted"
    case InProgress => "in-progress"
    case Completed => "completed"
    case Cancelled => "cancelled"
  }

  /** Membership in the allowed status list, giving the status it names. */
  function ParseJobStatus(s: string): (r: Option<JobStatus>)
    ensures r.Some? ==> StatusName(r.value) == s
  {
    if s == "pending" then Some(Pending)
    else if s == "accepted" then Some(Accepted)
    else if s == "in-progress" then Some(InProgress)
    else if s == "completed" then Some(Completed)
    else if s == "cancelled" then Some(Cancelled)
    else None
  }

  /** The status list accepts exactly the five names, each naming its own status. */
  lemma ParseJobStatusRoundTrip(st: JobStatus, s: string)
    ensures ParseJobStatus(StatusName(st)) == Some(st)
    ensures ParseJobStatus(s).Some? <==> s in {"pending", "accepted", "in-progress", "completed", "cancelled"}
  {
  }

  /** A job. `title` is written by the handler although the schema does not
      declare it. */
  datatype Job = Job(id: string, user: string, artisan: string, title: Option<string>, description: string,
                     status: JobStatus)

  /** A review; ratings are JSON numbers. `job` is required by the schema,
      and (user, job) is a unique index. */
  datatype Review = Review(id: string, artisan: string, user: string, rating: real, comment: Option<string>,
                           job: Option<string>)

  /** A document of the Mongo blacklist collection. */
  datatype BlacklistDoc = BlacklistDoc(jti: string, expiresAt: int)
}
