/** controllers/jobController.js: creating jobs, listing them, and who may
    read a job or change its status. Each handler has a function giving its
    outcome from the stored jobs and the request, and a method performing it
    on the database. */
module JobController {
  import opened Common
  import opened Text
  import opened UserModel
  import opened Records
  import opened Store
  import opened Paging
  import opened Answer
  import opened ErrorMiddleware

  /** `Job.findById(id)`. */
  function FindJob(jobs: seq<Job>, id: string): (r: Option<nat>)
    ensures r.Some? ==> r.value < |jobs| && jobs[r.value].id == id
    ensures r.None? <==> forall j :: 0 <= j < |jobs| ==> jobs[j].id != id
  {
    FindFirst(jobs, (job: Job) => job.id == id)
  }

  /** The JSON documents the job handlers answer with. `page` in the admin
      listing echoes the query value; `totalPages` is `None` where the
      division gives a non-finite number, which JSON writes as null. */
  datatype JobView =
    | JobDoc(job: Job)
    | JobList(jobs: seq<Job>, total: nat)
    | JobPage(jobs: seq<Job>, total: nat, page: PageEcho, totalPages: Option<int>)
    | ReviewCheck(canReview: bool)

  /** The `page` the admin listing echoes: the query text as given, or the
      number 1 of the destructuring default when the parameter is absent. */
  datatype PageEcho = QueryText(text: string) | DefaultPageOne

  datatype JobOutcome = JobOutcome(jobs: seq<Job>, answer: Answer<JobView>)

  // ---------------------------------------------------------------- createJob

  function CreateJobOutcome(users: seq<User>, jobs: seq<Job>, requester: UserId, artisanId: string,
                            title: Option<string>, description: Option<string>, newId: string, production: bool)
    : JobOutcome
  {
    var a := FindUser(users, artisanId);
    if a.None? || users[a.value].role != ArtisanRole then JobOutcome(jobs, Says(404, "Artisan not found"))
    else if !Truthy(description) then JobOutcome(jobs, Thrown(MissingPaths(["description"]), production))
    else
      var job := Job(newId, requester, artisanId, title, description.value, Pending);
      JobOutcome(jobs + [job], Answer(201, Json(JobDoc(job))))
  }

  /** `createJob`. A missing or empty description fails the schema's
      `required` validation. */
  method CreateJob(db: Database, requester: User, artisanId: string, description: Option<string>,
                   title: Option<string>, newId: string, production: bool) returns (answer: Answer<JobView>)
    modifies db`jobs
    ensures JobOutcome(db.jobs, answer)
         == CreateJobOutcome(db.users, old(db.jobs), requester.id, artisanId, title, description, newId, production)
  {
    var a := FindUser(db.users, artisanId);
    if a.None? || db.users[a.value].role != ArtisanRole {
      return Says(404, "Artisan not found");
    }
    if !Truthy(description) {
      return Thrown(MissingPaths(["description"]), production);
    }
    var job := Job(newId, requester.id, artisanId, title, description.value, Pending);
    db.jobs := db.jobs + [job];
    answer := Answer(201, Json(JobDoc(job)));
  }

  /** A job is created exactly when the target is an artisan and a description
      is given; it is then appended, pending, owned by the requester and
      assigned to that artisan. Otherwise nothing is stored. */
  lemma CreateJobEffects(users: seq<User>, jobs: seq<Job>, requester: UserId, artisanId: string,
                         title: Option<string>, description: Option<string>, newId: string, production: bool)
    ensures var o := CreateJobOutcome(users, jobs, requester, artisanId, title, description, newId, production);
      var a := FindUser(users, artisanId);
      && (o.answer.status == 201 <==> a.Some? && users[a.value].role == ArtisanRole && Truthy(description))
      && (o.answer.status == 404 <==> a.None? || users[a.value].role != ArtisanRole)
      && (o.answer.status == 201 ==>
            o.jobs == jobs + [Job(newId, requester, artisanId, title, description.value, Pending)])
      && (o.answer.status != 201 ==> o.jobs == jobs)
  {
  }

  // -------------------------------------------------------------- getUserJobs

  /** `getUserJobs`: the requester's jobs, newest first, `Number(page) || 1`
      and `Number(limit) || 10`. */
  function UserJobs(jobs: seq<Job>, requester: UserId, pageQ: Option<string>, limitQ: Option<string>,
                    production: bool): Answer<JobView>
  {
    var page := OrDefault(ToNumberParam(pageQ), 1);
    var limit := OrDefault(ToNumberParam(limitQ), 10);
    match ListNewest(Filter(jobs, (j: Job) => j.user == requester), page, limit)
    case Failure(e) => Thrown(StoreFailure(e), production)
    case Success(l) => Answer(200, Json(JobList(l.items, l.total)))
  }

  /** Without query parameters the listing holds the requester's ten newest
      jobs and no one else's, with the count of all the requester's jobs. */
  lemma UserJobsDefaults(jobs: seq<Job>, requester: UserId, production: bool)
    ensures var a := UserJobs(jobs, requester, None, None, production);
      var mine := Filter(jobs, (j: Job) => j.user == requester);
      && a == Answer(200, Json(JobList(PageOf(NewestFirst(mine), 1, 10), |mine|)))
      && |a.payload.value.jobs| == Min(10, |mine|)
      && (forall k :: 0 <= k < |a.payload.value.jobs| ==> a.payload.value.jobs[k].user == requester)
  {
    var mine := Filter(jobs, (j: Job) => j.user == requester);
    var items := PageOf(NewestFirst(mine), 1, 10);
    assert UserJobs(jobs, requester, None, None, production) == Answer(200, Json(JobList(items, |mine|))) by {
      assert OrDefault(ToNumberParam(None), 1) == 1 && OrDefault(ToNumberParam(None), 10) == 10;
      ListNewestPositive(mine, 1, 10);
      assert ListNewest(mine, 1, 10) == Success(Listing(items, |mine|, 1, CeilDiv(|mine|, 10)));
    }
    assert |items| == Min(10, |mine|) by {
      assert Window(NewestFirst(mine), 0, 10).Success?;
    }
    forall k | 0 <= k < |items|
      ensures items[k].user == requester
    {
      assert items[k] == NewestFirst(mine)[k] == mine[|mine| - 1 - k];
    }
  }

  // --------------------------------------------------------- markJobCompleted

  function MarkCompletedOutcome(jobs: seq<Job>, requester: UserId, jobId: string): JobOutcome {
    match FindJob(jobs, jobId)
    case None => JobOutcome(jobs, Says(404, "Job not found"))
    case Some(i) =>
      if jobs[i].artisan != requester then JobOutcome(jobs, Says(403, "You can only mark your own jobs as completed"))
      else JobOutcome(jobs[i := jobs[i].(status := Completed)], Says(200, "Job marked as completed"))
  }

  method MarkJobCompleted(db: Database, requester: User, jobId: string) returns (answer: Answer<JobView>)
    modifies db`jobs
    ensures JobOutcome(db.jobs, answer) == MarkCompletedOutcome(old(db.jobs), requester.id, jobId)
  {
    var found := FindJob(db.jobs, jobId);
    if found.None? {
      return Says(404, "Job not found");
    }
    var job := db.jobs[found.value];
    if job.artisan != requester.id {
      return Says(403, "You can only mark your own jobs as completed");
    }
    job := job.(status := Completed);
    db.jobs := db.jobs[found.value := job];
    answer := Says(200, "Job marked as completed");
  }

  /** Only the assigned artisan completes a job, from any status; only that
      job's status changes. */
  lemma MarkCompletedEffects(jobs: seq<Job>, requester: UserId, jobId: string)
    ensures var o := MarkCompletedOutcome(jobs, requester, jobId);
      var f := FindJob(jobs, jobId);
      && (o.answer.status == 200 <==> f.Some? && jobs[f.value].artisan == requester)
      && (o.answer.status != 200 ==> o.jobs == jobs)
      && (o.answer.status == 200 ==>
            |o.jobs| == |jobs| && o.jobs[f.value] == jobs[f.value].(status := Completed)
            && forall j :: 0 <= j < |jobs| && j != f.value ==> o.jobs[j] == jobs[j])
  {
  }

  // -------------------------------------------------------------- getJobById

  /** `getJobById`, a pure read. Both references are populated first, so as
      written `job.user.toString()` and `job.artisan.toString()` print whole
      documents, which never equal the requester's id; a reference whose
      user is gone populates to `null`, and calling `toString` on it throws.
      Read as intended, the stored ids are compared. */
  function JobById(users: seq<User>, jobs: seq<Job>, requester: UserId, jobId: string, production: bool,
                   reading: Reading): Answer<JobView>
  {
    match FindJob(jobs, jobId)
    case None => Says(404, "Job not found")
    case Some(i) =>
      if reading == AsWritten then
        if FindUser(users, jobs[i].user).None? || FindUser(users, jobs[i].artisan).None? then
          Thrown(NullRead("toString"), production)
        else Says(403, "Access denied")
      else if jobs[i].user != requester && jobs[i].artisan != requester then Says(403, "Access denied")
      else Answer(200, Json(JobDoc(jobs[i])))
  }

  /** As written, no requester is ever shown a job: a stored job whose two
      users exist is answered 403 to everyone, its owner and artisan
      included, and one with a missing user 500. */
  lemma JobHiddenAsWritten(users: seq<User>, jobs: seq<Job>, requester: UserId, jobId: string, production: bool)
    ensures var a := JobById(users, jobs, requester, jobId, production, AsWritten);
      var f := FindJob(jobs, jobId);
      && a.status != 200
      && (f.None? ==> a == Says(404, "Job not found"))
      && (f.Some? && FindUser(users, jobs[f.value].user).Some? && FindUser(users, jobs[f.value].artisan).Some? ==>
            a == Says(403, "Access denied"))
      && (f.Some? && (FindUser(users, jobs[f.value].user).None? || FindUser(users, jobs[f.value].artisan).None?) ==>
            a.status == 500)
  {
    assert Unclassified(NullRead("toString"));
  }

  /** Read as intended, a job is shown exactly to its owner and its artisan. */
  lemma JobVisibility(users: seq<User>, jobs: seq<Job>, requester: UserId, jobId: string, production: bool)
    ensures var a := JobById(users, jobs, requester, jobId, production, Intended);
      var f := FindJob(jobs, jobId);
      && (a.status == 200 <==> f.Some? && (jobs[f.value].user == requester || jobs[f.value].artisan == requester))
      && (a.status == 200 ==> a.payload == Json(JobDoc(jobs[f.value])))
      && (a.status == 403 <==> f.Some? && jobs[f.value].user != requester && jobs[f.value].artisan != requester)
  {
  }

  // ---------------------------------------------------------- updateJobStatus

  function UpdateStatusOutcome(jobs: seq<Job>, requester: UserId, jobId: string, status: Option<string>): JobOutcome {
    if status.None? || ParseJobStatus(status.value).None? then JobOutcome(jobs, Says(400, "Invalid status value"))
    else match FindJob(jobs, jobId)
      case None => JobOutcome(jobs, Says(404, "Job not found"))
      case Some(i) =>
        if jobs[i].artisan != requester then JobOutcome(jobs, Says(403, "Only assigned artisan can update status"))
        else JobOutcome(jobs[i := jobs[i].(status := ParseJobStatus(status.value).value)],
                        Says(200, "Job status updated to " + status.value))
  }

  method UpdateJobStatus(db: Database, requester: User, jobId: string, status: Option<string>)
    returns (answer: Answer<JobView>)
    modifies db`jobs
    ensures JobOutcome(db.jobs, answer) == UpdateStatusOutcome(old(db.jobs), requester.id, jobId, status)
  {
    if status.None? || ParseJobStatus(status.value).None? {
      return Says(400, "Invalid status value");
    }
    var found := FindJob(db.jobs, jobId);
    if found.None? {
      return Says(404, "Job not found");
    }
    var job := db.jobs[found.value];
    if job.artisan != requester.id {
      return Says(403, "Only assigned artisan can update status");
    }
    job := job.(status := ParseJobStatus(status.value).value);
    db.jobs := db.jobs[found.value := job];
    answer := Says(200, "Job status updated to " + status.value);
  }

  /** An unknown status is refused before the job is even looked up; the
      assigned artisan may then move a job between any two statuses, a
      cancelled or completed job included. */
  lemma UpdateStatusAnyTransition(jobs: seq<Job>, requester: UserId, jobId: string, status: Option<string>,
                                  target: JobStatus)
    ensures (status.None? || ParseJobStatus(status.value).None?) ==>
      UpdateStatusOutcome(jobs, requester, jobId, status) == JobOutcome(jobs, Says(400, "Invalid status value"))
    ensures var f := FindJob(jobs, jobId);
      f.Some? && jobs[f.value].artisan == requester ==>
        UpdateStatusOutcome(jobs, requester, jobId, Some(StatusName(target))).jobs[f.value].status == target
  {
    ParseJobStatusRoundTrip(target, "");
  }

  // ---------------------------------------------------------------- cancelJob

  function CancelOutcome(jobs: seq<Job>, requester: User, jobId: string): JobOutcome {
    match FindJob(jobs, jobId)
    case None => JobOutcome(jobs, Says(404, "Job not found"))
    case Some(i) =>
      if jobs[i].user != requester.id && requester.role != AdminRole then
        JobOutcome(jobs, Says(403, "Only the job owner or admin can cancel it"))
      else if jobs[i].status != Pending then JobOutcome(jobs, Says(400, "Only pending jobs can be cancelled"))
      else JobOutcome(jobs[i := jobs[i].(status := Cancelled)], Says(200, "Job cancelled"))
  }

  method CancelJob(db: Database, requester: User, jobId: string) returns (answer: Answer<JobView>)
    modifies db`jobs
    ensures JobOutcome(db.jobs, answer) == CancelOutcome(old(db.jobs), requester, jobId)
  {
    var found := FindJob(db.jobs, jobId);
    if found.None? {
      return Says(404, "Job not found");
    }
    var job := db.jobs[found.value];
    if job.user != requester.id && requester.role != AdminRole {
      return Says(403, "Only the job owner or admin can cancel it");
    }
    if job.status != Pending {
      return Says(400, "Only pending jobs can be cancelled");
    }
    job := job.(status := Cancelled);
    db.jobs := db.jobs[found.value := job];
    answer := Says(200, "Job cancelled");
  }

  /** Cancelling succeeds exactly for the owner or an admin on a pending job
      and leaves it cancelled; the permission check comes before the status
      check, and a cancelled job cannot be cancelled again. */
  lemma CancelRules(jobs: seq<Job>, requester: User, jobId: string)
    ensures var o := CancelOutcome(jobs, requester, jobId);
      var f := FindJob(jobs, jobId);
      && (o.answer.status == 200 <==>
            f.Some? && (jobs[f.value].user == requester.id || requester.role == AdminRole) && jobs[f.value].status == Pending)
      && (o.answer.status == 200 ==>
            && o.jobs[f.value].status == Cancelled
            && CancelOutcome(o.jobs, requester, jobId) == JobOutcome(o.jobs, Says(400, "Only pending jobs can be cancelled")))
      && (o.answer.status != 200 ==> o.jobs == jobs)
  {
    var f := FindJob(jobs, jobId);
    if f.Some? {
      var o := CancelOutcome(jobs, requester, jobId);
      if o.answer.status == 200 {
        assert o.jobs[f.value].id == jobId;
        forall j | 0 <= j < f.value
          ensures o.jobs[j] == jobs[j]
        {
        }
        assert FindJob(o.jobs, jobId) == f;
      }
    }
  }

  // --------------------------------------------------------------- getAllJobs

  /** `getAllJobs` (admin): `page` and `limit` default to 1 and 10 only when
      absent and are coerced by arithmetic. The filter built from `status`,
      `startDate` and `endDate` is never passed to the query, so every job is
      listed and counted whatever they say. As written both `populate` calls
      pass "name" in the position of the model to populate from; no model is
      registered under that name, so populating a non-empty page throws,
      which the error handler answers 500. Read as intended the references
      are populated and the page is answered. */
  function AllJobs(jobs: seq<Job>, pageQ: Option<string>, limitQ: Option<string>, statusQ: Option<string>,
                   production: bool, reading: Reading): Answer<JobView>
  {
    match FetchJobs(jobs, pageQ, limitQ)
    case Failure(e) => Thrown(StoreFailure(e), production)
    case Success((items, limit)) => PopulatedPage(items, |jobs|, pageQ, limit, production, reading)
  }

  /** The query's page of jobs, newest first, with the limit it used; the
      store refuses a NaN or negative skip. */
  function FetchJobs(jobs: seq<Job>, pageQ: Option<string>, limitQ: Option<string>): Result<(seq<Job>, int), string> {
    var page := if pageQ.None? then Num(1) else ToNumber(pageQ.value);
    var limit := if limitQ.None? then Num(10) else ToNumber(limitQ.value);
    if page.NaN? || limit.NaN? then Failure("skip and limit must be numbers")
    else match Window(NewestFirst(jobs), (page.n - 1) * limit.n, limit.n)
      case Failure(e) => Failure(e)
      case Success(items) => Success((items, limit.n))
  }

  /** The fetched page `items` once its references are populated. */
  function PopulatedPage(items: seq<Job>, total: nat, pageQ: Option<string>, limit: int, production: bool,
                         reading: Reading): (a: Answer<JobView>)
    ensures reading == AsWritten && items != [] ==> a == Thrown(UnregisteredModel("name"), production)
    ensures reading == Intended || items == [] ==>
      a.status == 200 && a.payload.Json? && a.payload.value.JobPage? && a.payload.value.jobs == items
      && a.payload.value.total == total
  {
    if reading == AsWritten && items != [] then Thrown(UnregisteredModel("name"), production)
    else
      var echo := if pageQ.None? then DefaultPageOne else QueryText(pageQ.value);
      Answer(200, Json(JobPage(items, total, echo, if limit == 0 then None else Some(CeilDiv(total, limit)))))
  }

  /** The status filter has no effect on the admin listing, and the page
      is echoed as the query gave it. */
  lemma AllJobsIgnoresStatus(jobs: seq<Job>, pageQ: Option<string>, limitQ: Option<string>,
                             s1: Option<string>, s2: Option<string>, production: bool, reading: Reading)
    ensures AllJobs(jobs, pageQ, limitQ, s1, production, reading) == AllJobs(jobs, pageQ, limitQ, s2, production, reading)
    ensures var a := AllJobs(jobs, pageQ, limitQ, s1, production, reading);
      a.status == 200 ==> a.payload.value.page == (if pageQ.None? then DefaultPageOne else QueryText(pageQ.value))
  {
  }

  /** Read as intended, a request without a query lists the newest ten jobs
      and counts every job. */
  lemma AllJobsDefaults(jobs: seq<Job>, statusQ: Option<string>, production: bool)
    ensures var a := AllJobs(jobs, None, None, statusQ, production, Intended);
      && a == Answer(200, Json(JobPage(PageOf(NewestFirst(jobs), 1, 10), |jobs|, DefaultPageOne, Some(CeilDiv(|jobs|, 10)))))
      && |a.payload.value.jobs| == Min(10, |jobs|)
      && (forall k :: 0 <= k < |a.payload.value.jobs| ==> a.payload.value.jobs[k] == jobs[|jobs| - 1 - k])
  {
    var items := PageOf(NewestFirst(jobs), 1, 10);
    assert AllJobs(jobs, None, None, statusQ, production, Intended)
        == Answer(200, Json(JobPage(items, |jobs|, DefaultPageOne, Some(CeilDiv(|jobs|, 10))))) by {
      assert FetchJobs(jobs, None, None) == Success((items, 10));
    }
    assert |items| == Min(10, |jobs|) by {
      assert Window(NewestFirst(jobs), 0, 10).Success?;
    }
    forall k | 0 <= k < |items|
      ensures items[k] == jobs[|jobs| - 1 - k]
    {
      assert items[k] == NewestFirst(jobs)[k];
    }
  }

  /** As written the listing never shows a job: a page the intended listing
      fills answers 500 with the unregistered-model message instead, and
      every other answer is the intended one. */
  lemma AllJobsFailsAsWritten(jobs: seq<Job>, pageQ: Option<string>, limitQ: Option<string>, statusQ: Option<string>,
                              production: bool)
    ensures var a := AllJobs(jobs, pageQ, limitQ, statusQ, production, AsWritten);
      var i := AllJobs(jobs, pageQ, limitQ, statusQ, production, Intended);
      && (a.status == 200 ==> a.payload.value.jobs == [])
      && (i.status == 200 && i.payload.value.jobs != [] ==>
            a.status == 500 && a.payload.message == UnregisteredModel("name").message)
      && (i.status != 200 || i.payload.value.jobs == [] ==> a == i)
  {
    assert Unclassified(UnregisteredModel("name"));
  }

  /** In particular, with any job stored the listing without a query answers 500. */
  lemma AllJobsNeverListsAsWritten(jobs: seq<Job>, statusQ: Option<string>, production: bool)
    requires jobs != []
    ensures AllJobs(jobs, None, None, statusQ, production, AsWritten).status == 500
  {
    AllJobsDefaults(jobs, statusQ, production);
    AllJobsFailsAsWritten(jobs, None, None, statusQ, production);
  }

  // ----------------------------------------------------------- checkCanReview

  predicate CompletedBetween(job: Job, user: UserId, artisan: UserId) {
    job.user == user && job.artisan == artisan && job.status == Completed
  }

  /** `checkCanReview`: refused for oneself; an artisan id that is not an
      ObjectId makes the job query throw a `CastError`, which the error
      handler answers 404; otherwise true exactly when a completed job
      between the requester and the artisan exists. */
  function CanReview(jobs: seq<Job>, requester: UserId, artisanId: string, production: bool): (a: Answer<JobView>)
    ensures requester == artisanId ==> a == Answer(403, Json(ReviewCheck(false)))
    ensures requester != artisanId && !IsObjectId(artisanId) ==>
      a.status == 404 && a.payload.Fault? && a.payload.message == "Resource not found"
    ensures requester != artisanId && IsObjectId(artisanId) ==>
      a.status == 200 && a.payload.Json? && a.payload.value.ReviewCheck?
      && (a.payload.value.canReview <==> exists j :: 0 <= j < |jobs| && CompletedBetween(jobs[j], requester, artisanId))
  {
    if requester == artisanId then Answer(403, Json(ReviewCheck(false)))
    else if !IsObjectId(artisanId) then Thrown(MalformedId(artisanId), production)
    else
      var found := FindFirst(jobs, (job: Job) => CompletedBetween(job, requester, artisanId));
      Answer(200, Json(ReviewCheck(found.Some?)))
  }
}
