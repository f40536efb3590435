/** controllers/reviewController.js: who may review an artisan, the input
    checks, deleting reviews and listing them. */
module ReviewController {
  import opened Common
  import opened Text
  import opened UserModel
  import opened Records
  import opened Store
  import opened Paging
  import opened Answer
  import opened JobController

  /** The `rating` of the request body: a JSON number or anything else. */
  datatype RatingInput = RatingNumber(value: real) | RatingOther

  datatype ReviewView = ReviewDoc(review: Review) | ReviewPage(reviews: seq<Review>, total: nat, page: int, totalPages: int)

  datatype ReviewOutcome = ReviewOutcome(reviews: seq<Review>, answer: Answer<ReviewView>)

  // ------------------------------------------------------------ createReview

  /** The checks `createReview` makes before writing, in order. On success
      it gives the completed job `Job.findOne` returns. */
  function Admission(users: seq<User>, jobs: seq<Job>, requester: User, artisanId: string, rating: RatingInput,
                     comment: Option<string>): (r: Result<Job, (int, string)>)
    ensures r.Success? ==> FindUser(users, artisanId).Some? && rating.RatingNumber?
  {
    var a := FindUser(users, artisanId);
    var completed := FindFirst(jobs, (job: Job) => CompletedBetween(job, requester.id, artisanId));
    if a.None? || users[a.value].role != ArtisanRole then Failure((404, "Artisan not found"))
    else if requester.id == artisanId then Failure((403, "You can't review yourself."))
    else if !requester.isVerified then Failure((403, "Please verify your email to leave reviews."))
    else if completed.None? then Failure((403, "You must complete a job with this artisan to leave a review."))
    else if rating.RatingOther? || rating.value < 1.0 || rating.value > 5.0 then Failure((400, "Rating must be between 1 and 5."))
    else if Truthy(comment) && Utf16Length(comment.value) > 500 then Failure((400, "Comment is too long (max 500 characters)."))
    else Success(jobs[completed.value])
  }

  /** A stored review by `user` of `job`: the unique index on the pair
      refuses a second one (error 11000). */
  function FindUserJobReview(reviews: seq<Review>, user: UserId, job: string): (r: Option<nat>)
    ensures r.Some? ==> r.value < |reviews| && reviews[r.value].user == user && reviews[r.value].job == Some(job)
    ensures r.None? <==> forall k :: 0 <= k < |reviews| ==> !(reviews[k].user == user && reviews[k].job == Some(job))
  {
    FindFirst(reviews, (r: Review) => r.user == user && r.job == Some(job))
  }

  /** The review `Review.create` is asked to store: as written it carries no
      job, so the schema's required `job` path fails validation; read as
      intended it names the completed job. After the insert the artisan is
      saved again (to store the new average), which fails validation when
      its stored name is empty: the review stays stored and the error is
      rethrown to the error handler. */
  function CreateReviewOutcome(users: seq<User>, jobs: seq<Job>, reviews: seq<Review>, requester: User,
                               artisanId: string, rating: RatingInput, comment: Option<string>, newId: string,
                               production: bool, reading: Reading): ReviewOutcome
  {
    match Admission(users, jobs, requester, artisanId, rating, comment)
    case Failure((status, message)) => ReviewOutcome(reviews, Says(status, message))
    case Success(job) =>
      StoreReview(reviews, requester.id, users[FindUser(users, artisanId).value], rating.value, comment, job.id, newId,
                  production, reading)
  }

  /** The writes of an admitted request for `job`: the insert, refused by
      the unique index when the pair is already reviewed, then the
      artisan's save. */
  function StoreReview(reviews: seq<Review>, requester: UserId, artisan: User, rating: real, comment: Option<string>,
                       job: string, newId: string, production: bool, reading: Reading): ReviewOutcome
  {
    if reading == AsWritten then ReviewOutcome(reviews, Thrown(MissingPaths(["job"]), production))
    else if FindUserJobReview(reviews, requester, job).Some? then
      ReviewOutcome(reviews, Says(400, "You have already reviewed this artisan."))
    else
      var review := Review(newId, artisan.id, requester, rating, comment, Some(job));
      if artisan.name == [] then
        ReviewOutcome(reviews + [review], Thrown(MissingPaths(["name"]), production))
      else ReviewOutcome(reviews + [review], Answer(201, Json(ReviewDoc(review))))
  }

  /** `createReview`; `reading` says whether the job is left out of the
      stored review, as written, or named, as intended. The average rating
      the artisan is saved with is not modelled. */
  method CreateReview(db: Database, requester: User, artisanId: string, rating: RatingInput, comment: Option<string>,
                      newId: string, production: bool, reading: Reading) returns (answer: Answer<ReviewView>)
    modifies db`reviews
    ensures ReviewOutcome(db.reviews, answer)
         == CreateReviewOutcome(db.users, db.jobs, old(db.reviews), requester, artisanId, rating, comment, newId,
                                production, reading)
  {
    var admitted := Admission(db.users, db.jobs, requester, artisanId, rating, comment);
    if admitted.Failure? {
      return Says(admitted.error.0, admitted.error.1);
    }
    if reading == AsWritten {
      return Thrown(MissingPaths(["job"]), production);
    }
    var job := admitted.value;
    var clash := FindUserJobReview(db.reviews, requester.id, job.id);
    if clash.Some? {
      return Says(400, "You have already reviewed this artisan.");
    }
    var review := Review(newId, artisanId, requester.id, rating.value, comment, Some(job.id));
    db.reviews := db.reviews + [review];
    var artisan := db.users[FindUser(db.users, artisanId).value];
    if artisan.name == [] {
      return Thrown(MissingPaths(["name"]), production);
    }
    answer := Answer(201, Json(ReviewDoc(review)));
  }

  /** A request is admitted exactly when the artisan exists, is someone
      else, the requester is verified, a completed job between the two
      exists, the rating lies in [1, 5] and any comment is at most 500
      UTF-16 code units; the job it yields is such a completed job. */
  lemma AdmissionAccepts(users: seq<User>, jobs: seq<Job>, requester: User, artisanId: string, rating: RatingInput,
                         comment: Option<string>)
    ensures var r := Admission(users, jobs, requester, artisanId, rating, comment);
      var a := FindUser(users, artisanId);
      var isArtisan := a.Some? && users[a.value].role == ArtisanRole;
      var hasJob := exists j :: 0 <= j < |jobs| && CompletedBetween(jobs[j], requester.id, artisanId);
      var goodRating := rating.RatingNumber? && 1.0 <= rating.value <= 5.0;
      var goodComment := !Truthy(comment) || Utf16Length(comment.value) <= 500;
      && (r.Success? <==> isArtisan && requester.id != artisanId && requester.isVerified && hasJob && goodRating && goodComment)
      && (r.Success? ==> CompletedBetween(r.value, requester.id, artisanId))
  {
    var completed := FindFirst(jobs, (job: Job) => CompletedBetween(job, requester.id, artisanId));
    if completed.Some? {
      assert CompletedBetween(jobs[completed.value], requester.id, artisanId);
    }
  }

  /** The checks run in a fixed order, each failure answering with its own
      status before anything is written: an unknown artisan 404, reviewing
      oneself 403, an unverified requester 403. */
  lemma AdmissionRefusals(users: seq<User>, jobs: seq<Job>, requester: User, artisanId: string, rating: RatingInput,
                          comment: Option<string>)
    ensures var r := Admission(users, jobs, requester, artisanId, rating, comment);
      var a := FindUser(users, artisanId);
      var isArtisan := a.Some? && users[a.value].role == ArtisanRole;
      && (!isArtisan ==> r == Failure((404, "Artisan not found")))
      && (isArtisan && requester.id == artisanId ==> r == Failure((403, "You can't review yourself.")))
      && (isArtisan && requester.id != artisanId && !requester.isVerified ==>
            r == Failure((403, "Please verify your email to leave reviews.")))
  {
  }

  /** Once those pass, a missing completed job answers 403 and then a
      rating outside [1, 5] answers 400. */
  lemma AdmissionJobAndRating(users: seq<User>, jobs: seq<Job>, requester: User, artisanId: string, rating: RatingInput,
                              comment: Option<string>)
    requires var a := FindUser(users, artisanId);
      a.Some? && users[a.value].role == ArtisanRole && requester.id != artisanId && requester.isVerified
    ensures var r := Admission(users, jobs, requester, artisanId, rating, comment);
      var hasJob := exists j :: 0 <= j < |jobs| && CompletedBetween(jobs[j], requester.id, artisanId);
      var goodRating := rating.RatingNumber? && 1.0 <= rating.value <= 5.0;
      && (!hasJob ==> r == Failure((403, "You must complete a job with this artisan to leave a review.")))
      && (hasJob && !goodRating ==> r == Failure((400, "Rating must be between 1 and 5.")))
  {
    var completed := FindFirst(jobs, (job: Job) => CompletedBetween(job, requester.id, artisanId));
    if completed.Some? {
      assert CompletedBetween(jobs[completed.value], requester.id, artisanId);
    }
  }

  /** As written no review is ever created: an admitted request fails
      validation on the missing `job` path (400) and nothing is stored. */
  lemma CreateReviewFailsAsWritten(users: seq<User>, jobs: seq<Job>, reviews: seq<Review>, requester: User,
                                   artisanId: string, rating: RatingInput, comment: Option<string>, newId: string,
                                   production: bool)
    ensures var o := CreateReviewOutcome(users, jobs, reviews, requester, artisanId, rating, comment, newId, production, AsWritten);
      && o.reviews == reviews
      && o.answer.status != 201
      && (Admission(users, jobs, requester, artisanId, rating, comment).Success? ==>
            o.answer.status == 400 && o.answer.payload.message == "Path `job` is required.")
  {
    if Admission(users, jobs, requester, artisanId, rating, comment).Success? {
      JobMissingReply(production);
    }
  }

  /** The validation error for the missing `job` path answers 400 naming it. */
  lemma JobMissingReply(production: bool)
    ensures var thrown := Thrown<ReviewView>(MissingPaths(["job"]), production);
      thrown.status == 400 && thrown.payload.message == "Path `job` is required."
  {
    var thrown := Thrown<ReviewView>(MissingPaths(["job"]), production);
    assert ["job"][1..] == [];
    assert "Path `" + "job" + "` is required." == "Path `job` is required.";
    assert MissingPathMessages(["job"]) == ["Path `job` is required."];
    assert thrown.status == 400 && thrown.payload.message == "Path `job` is required.";
  }

  /** Read as intended, an admitted request for a job the requester has not
      yet reviewed stores exactly one review naming the completed job, and
      answers 201 unless the artisan's own save then fails on an empty name
      (400); repeating it is refused as a duplicate, so a user reviews a
      given job at most once. */
  lemma CreateReviewOncePerJob(users: seq<User>, jobs: seq<Job>, reviews: seq<Review>, requester: User,
                               artisanId: string, rating: RatingInput, comment: Option<string>, id1: string, id2: string,
                               production: bool)
    requires Admission(users, jobs, requester, artisanId, rating, comment).Success?
    requires FindUserJobReview(reviews, requester.id, Admission(users, jobs, requester, artisanId, rating, comment).value.id).None?
    ensures var job := Admission(users, jobs, requester, artisanId, rating, comment).value;
      var o1 := CreateReviewOutcome(users, jobs, reviews, requester, artisanId, rating, comment, id1, production, Intended);
      var artisan := users[FindUser(users, artisanId).value];
      && (o1.answer.status == 201 <==> artisan.name != [])
      && (artisan.name == [] ==> o1.answer.status == 400 && o1.answer.payload.message == "Path `name` is required.")
      && o1.reviews == reviews + [Review(id1, artisanId, requester.id, rating.value, comment, Some(job.id))]
      && CreateReviewOutcome(users, jobs, o1.reviews, requester, artisanId, rating, comment, id2, production, Intended)
           == ReviewOutcome(o1.reviews, Says(400, "You have already reviewed this artisan."))
  {
    var job := Admission(users, jobs, requester, artisanId, rating, comment).value;
    var artisan := users[FindUser(users, artisanId).value];
    var review := Review(id1, artisanId, requester.id, rating.value, comment, Some(job.id));
    var o1 := StoreReview(reviews, requester.id, artisan, rating.value, comment, job.id, id1, production, Intended);
    assert CreateReviewOutcome(users, jobs, reviews, requester, artisanId, rating, comment, id1, production, Intended) == o1;
    assert o1.reviews == reviews + [review];
    MissingPathReply("name", production);
    assert (reviews + [review])[|reviews|] == review;
    assert CreateReviewOutcome(users, jobs, o1.reviews, requester, artisanId, rating, comment, id2, production, Intended)
        == StoreReview(o1.reviews, requester.id, artisan, rating.value, comment, job.id, id2, production, Intended);
  }

  // --------------------------------------------------------------- deleting

  /** The artisan's save after a deletion: 200 exactly when the artisan
      exists with a name; an empty stored name answers the validation 400;
      the deletion stands in every case. */
  lemma AfterDeletionReply(users: seq<User>, rest: seq<Review>, artisan: string, message: string, production: bool)
    ensures var o := AfterDeletion(users, rest, artisan, message, production);
      var a := FindUser(users, artisan);
      && o.reviews == rest
      && (o.answer.status == 200 <==> a.Some? && users[a.value].name != [])
      && (o.answer.status == 200 ==> o.answer == Says(200, message))
      && (a.Some? && users[a.value].name == [] ==>
            o.answer.status == 400 && o.answer.payload.message == "Path `name` is required.")
  {
    MissingPathReply("name", production);
  }

  /** Removes the review at `i`, keeping the others in order. */
  function Without(reviews: seq<Review>, i: nat): (r: seq<Review>)
    requires i < |reviews|
    ensures |r| == |reviews| - 1
    ensures multiset(r) == multiset(reviews) - multiset{reviews[i]}
  {
    assert reviews == reviews[..i] + [reviews[i]] + reviews[i + 1..];
    reviews[..i] + reviews[i + 1..]
  }

  /** After the deletion the handlers recompute the artisan's rating and
      save the artisan: an artisan that no longer exists makes that step
      throw, and one whose stored name is empty fails the save's validation
      (400); either way the review is already gone. */
  function AfterDeletion(users: seq<User>, rest: seq<Review>, artisan: string, message: string, production: bool)
    : ReviewOutcome
  {
    var a := FindUser(users, artisan);
    if a.None? then ReviewOutcome(rest, Thrown(NullRead("_id"), production))
    else if users[a.value].name == [] then ReviewOutcome(rest, Thrown(MissingPaths(["name"]), production))
    else ReviewOutcome(rest, Says(200, message))
  }

  /** `Review.findOne({ _id, user })`. */
  function FindOwned(reviews: seq<Review>, reviewId: string, requester: UserId): (r: Option<nat>)
    ensures r.Some? ==> r.value < |reviews| && reviews[r.value].id == reviewId && reviews[r.value].user == requester
    ensures r.None? <==> forall k :: 0 <= k < |reviews| ==> !(reviews[k].id == reviewId && reviews[k].user == requester)
  {
    FindFirst(reviews, (r: Review) => r.id == reviewId && r.user == requester)
  }

  /** `Review.findById(id)`. */
  function FindReview(reviews: seq<Review>, reviewId: string): (r: Option<nat>)
    ensures r.Some? ==> r.value < |reviews| && reviews[r.value].id == reviewId
    ensures r.None? <==> forall k :: 0 <= k < |reviews| ==> reviews[k].id != reviewId
  {
    FindFirst(reviews, (r: Review) => r.id == reviewId)
  }

  function DeleteMineOutcome(users: seq<User>, reviews: seq<Review>, requester: UserId, reviewId: string,
                             production: bool): ReviewOutcome
  {
    match FindOwned(reviews, reviewId, requester)
    case None => ReviewOutcome(reviews, Says(404, "Review not found or not yours"))
    case Some(i) => AfterDeletion(users, Without(reviews, i), reviews[i].artisan, "Review deleted", production)
  }

  method DeleteMyReview(db: Database, requester: User, reviewId: string, production: bool)
    returns (answer: Answer<ReviewView>)
    modifies db`reviews
    ensures ReviewOutcome(db.reviews, answer) == DeleteMineOutcome(db.users, old(db.reviews), requester.id, reviewId, production)
  {
    var found := FindOwned(db.reviews, reviewId, requester.id);
    if found.None? {
      return Says(404, "Review not found or not yours");
    }
    var review := db.reviews[found.value];
    db.reviews := Without(db.reviews, found.value);
    var artisan := FindUser(db.users, review.artisan);
    if artisan.None? {
      return Thrown(NullRead("_id"), production);
    }
    if db.users[artisan.value].name == [] {
      return Thrown(MissingPaths(["name"]), production);
    }
    answer := Says(200, "Review deleted");
  }

  /** A user deletes only a review of their own: exactly that one review is
      removed; without one, 404 and nothing is deleted. After a deletion the
      answer is 200 exactly when the reviewed artisan exists with a name;
      an empty stored name fails the artisan's save with 400. */
  lemma DeleteMineOnlyOwn(users: seq<User>, reviews: seq<Review>, requester: UserId, reviewId: string, production: bool)
    ensures var o := DeleteMineOutcome(users, reviews, requester, reviewId, production);
      && ((forall k :: 0 <= k < |reviews| ==> !(reviews[k].id == reviewId && reviews[k].user == requester)) <==>
            o == ReviewOutcome(reviews, Says(404, "Review not found or not yours")))
      && (o.reviews != reviews ==>
            exists k :: 0 <= k < |reviews| && reviews[k].id == reviewId && reviews[k].user == requester
                      && multiset(o.reviews) == multiset(reviews) - multiset{reviews[k]})
    ensures var o := DeleteMineOutcome(users, reviews, requester, reviewId, production);
      var f := FindOwned(reviews, reviewId, requester);
      f.Some? ==>
        var a := FindUser(users, reviews[f.value].artisan);
        && |o.reviews| == |reviews| - 1
        && (o.answer.status == 200 <==> a.Some? && users[a.value].name != [])
        && (o.answer.status == 200 ==> o.answer == Says(200, "Review deleted"))
        && (a.Some? && users[a.value].name == [] ==>
              o.answer.status == 400 && o.answer.payload.message == "Path `name` is required.")
  {
    var f := FindOwned(reviews, reviewId, requester);
    if f.Some? {
      var o := DeleteMineOutcome(users, reviews, requester, reviewId, production);
      AfterDeletionReply(users, Without(reviews, f.value), reviews[f.value].artisan, "Review deleted", production);
      assert o.reviews == Without(reviews, f.value);
      assert |o.reviews| != |reviews|;
      assert o.answer.payload.Note? ==> o.answer.payload.message == "Review deleted";
    }
  }

  function AdminDeleteOutcome(users: seq<User>, reviews: seq<Review>, reviewId: string, production: bool): ReviewOutcome {
    match FindReview(reviews, reviewId)
    case None => ReviewOutcome(reviews, Says(404, "Review not found"))
    case Some(i) => AfterDeletion(users, Without(reviews, i), reviews[i].artisan, "Review deleted by admin", production)
  }

  method AdminDeleteReview(db: Database, reviewId: string, production: bool) returns (answer: Answer<ReviewView>)
    modifies db`reviews
    ensures ReviewOutcome(db.reviews, answer) == AdminDeleteOutcome(db.users, old(db.reviews), reviewId, production)
  {
    var found := FindReview(db.reviews, reviewId);
    if found.None? {
      return Says(404, "Review not found");
    }
    var review := db.reviews[found.value];
    db.reviews := Without(db.reviews, found.value);
    var artisan := FindUser(db.users, review.artisan);
    if artisan.None? {
      return Thrown(NullRead("_id"), production);
    }
    if db.users[artisan.value].name == [] {
      return Thrown(MissingPaths(["name"]), production);
    }
    answer := Says(200, "Review deleted by admin");
  }

  /** An admin deletes any existing review, whoever wrote it; a missing one
      answers 404 and nothing changes. A deletion removes exactly one review,
      and answers 200 exactly when the reviewed artisan exists with a name;
      an empty stored name fails the artisan's save with 400. */
  lemma AdminDeleteEffects(users: seq<User>, reviews: seq<Review>, reviewId: string, production: bool)
    ensures var o := AdminDeleteOutcome(users, reviews, reviewId, production);
      && ((forall k :: 0 <= k < |reviews| ==> reviews[k].id != reviewId) <==>
            o == ReviewOutcome(reviews, Says(404, "Review not found")))
      && (o.answer.status != 404 ==> |o.reviews| == |reviews| - 1)
    ensures var o := AdminDeleteOutcome(users, reviews, reviewId, production);
      var f := FindReview(reviews, reviewId);
      f.Some? ==>
        var a := FindUser(users, reviews[f.value].artisan);
        && multiset(o.reviews) == multiset(reviews) - multiset{reviews[f.value]}
        && (o.answer.status == 200 <==> a.Some? && users[a.value].name != [])
        && (o.answer.status == 200 ==> o.answer == Says(200, "Review deleted by admin"))
        && (a.Some? && users[a.value].name == [] ==>
              o.answer.status == 400 && o.answer.payload.message == "Path `name` is required.")
  {
    var f := FindReview(reviews, reviewId);
    if f.Some? {
      AfterDeletionReply(users, Without(reviews, f.value), reviews[f.value].artisan, "Review deleted by admin", production);
    }
  }

  // ---------------------------------------------------------------- listing

  /** `getArtisanReviews` and `getMyReviews`: `parseInt(page) || 1`,
      `parseInt(limit) || 10`, newest first, with ceil(total / limit). */
  function ReviewsPage(matching: seq<Review>, pageQ: Option<string>, limitQ: Option<string>, production: bool)
    : Answer<ReviewView>
  {
    var page := OrDefault(ParseIntParam(pageQ), 1);
    var limit := OrDefault(ParseIntParam(limitQ), 10);
    match ListNewest(matching, page, limit)
    case Failure(e) => Thrown(StoreFailure(e), production)
    case Success(l) => Answer(200, Json(ReviewPage(l.items, l.total, l.page, l.totalPages)))
  }

  /** An artisan id that is not an ObjectId makes both queries throw a
      `CastError`, which the error handler answers 404. */
  function ArtisanReviews(reviews: seq<Review>, artisanId: string, pageQ: Option<string>, limitQ: Option<string>,
                          production: bool): Answer<ReviewView>
  {
    if !IsObjectId(artisanId) then Thrown(MalformedId(artisanId), production)
    else ReviewsPage(Filter(reviews, (r: Review) => r.artisan == artisanId), pageQ, limitQ, production)
  }

  function MyReviews(reviews: seq<Review>, requester: UserId, pageQ: Option<string>, limitQ: Option<string>,
                     production: bool): Answer<ReviewView>
  {
    ReviewsPage(Filter(reviews, (r: Review) => r.user == requester), pageQ, limitQ, production)
  }

  /** Without query parameters a review listing is the first ten matching
      reviews, newest first. */
  lemma ReviewsPageDefaults(matching: seq<Review>, production: bool)
    ensures ReviewsPage(matching, None, None, production)
         == Answer(200, Json(ReviewPage(PageOf(NewestFirst(matching), 1, 10), |matching|, 1, CeilDiv(|matching|, 10))))
  {
    ListNewestPositive(matching, 1, 10);
  }

  /** A malformed artisan id is answered 404 "Resource not found". Otherwise,
      without query parameters, an artisan's review listing is page 1 of ten,
      holds only that artisan's reviews, and reports their count and
      ceil(count / 10) pages. */
  lemma ArtisanReviewsDefaults(reviews: seq<Review>, artisanId: string, production: bool)
    ensures !IsObjectId(artisanId) ==> var a := ArtisanReviews(reviews, artisanId, None, None, production);
      a.status == 404 && a.payload.Fault? && a.payload.message == "Resource not found"
    ensures IsObjectId(artisanId) ==> var a := ArtisanReviews(reviews, artisanId, None, None, production);
      var theirs := Filter(reviews, (r: Review) => r.artisan == artisanId);
      && a.status == 200 && a.payload.Json?
      && a.payload.value.page == 1 && a.payload.value.total == |theirs|
      && a.payload.value.totalPages == CeilDiv(|theirs|, 10)
      && |a.payload.value.reviews| == Min(10, |theirs|)
      && (forall k :: 0 <= k < |a.payload.value.reviews| ==> a.payload.value.reviews[k].artisan == artisanId)
  {
    if !IsObjectId(artisanId) {
      return;
    }
    var theirs := Filter(reviews, (r: Review) => r.artisan == artisanId);
    ReviewsPageDefaults(theirs, production);
    ListNewestPositive(theirs, 1, 10);
    var items := PageOf(NewestFirst(theirs), 1, 10);
    forall k | 0 <= k < |items|
      ensures items[k].artisan == artisanId
    {
      assert items[k] == NewestFirst(theirs)[k] == theirs[|theirs| - 1 - k];
    }
  }
}
