# The Artisan Hub backend, modelled in Dafny

The Artisan Hub is an Express REST backend. It puts customers in touch with
artisans (plumbers, electricians, tailors, …) in Lagos. It keeps users, jobs,
reviews, locations and categories in MongoDB. It keeps refresh tokens, logout
blacklist entries and referral codes in Redis. This project models the logic
under the I/O glue and proves properties of it:

- **Sessions and tokens.** Signup, login, logout, refresh, change-password,
  forgot/reset password, email verification and resend are transitions over
  an account table and a key-value store with explicit expiry times. The
  request guard `protectRoute` and the role guards are modelled as well.
- **Per-record rules.** These cover:
  - the job status changes and who may perform them;
  - review admission;
  - the artisan profile allow-lists and phone/skill validation;
  - feature durations and the feature toggle;
  - admin approve/ban/delete;
  - user-profile allow-lists;
  - location and category creation.
- **Pure helpers.** These cover:
  - pagination arithmetic;
  - the error-to-status mapping;
  - name and slug normalisation;
  - `capitalizeWords`;
  - the signup input validator;
  - the field stripping of the user JSON form.
- **The expired-feature sweep.** It is an in-place loop over an array of users.

Layout:

- Each MongoDB collection is a `seq` field of the class `Store.Database`. The
  order of the sequence is insertion order. `findOne` is therefore the first
  match, and `sort({ createdAt: -1 })` is the reversed sequence.
- Redis is the class `KeyValue.KeyValueStore`. It holds a map from key to
  value and expiry time, in milliseconds.
- Each request handler is a `method` that changes the stores it names in
  `modifies`. Its `ensures` equates the answer and the new state with an
  outcome function of the old state (`…Outcome`). The lemmas beside it prove,
  about that function:
  - what the source promises;
  - the order of its checks;
  - what it leaves unchanged;
  - how two calls compose.
- An answer is `Answer(status, payload)`. An error thrown inside
  `asyncHandler` is routed through the modelled `errorHandler` (`Answer.Thrown`).

Abstractions:

- **jsonwebtoken.** A signed token is the value `Signed(secret, claims, iat, exp)`.
  `Verify` checks the signature first and the expiry second, as jsonwebtoken does.
- **bcrypt and SHA-256.** These are constructors: `Bcrypt(Plain(p))` and
  `Sha256(s)`. `bcrypt.compare(c, h)` holds exactly when `h == Bcrypt(Plain(c))`.
- **Inputs instead of effects.** The following are parameters of the operations:
  - random bytes, the uuid `jti` and new record ids;
  - the clock `nowMs`;
  - the geocoder's answer;
  - a store fault;
  - the `NODE_ENV === 'production'` switch.

The access token and the refresh token are signed with
`ACCESS_TOKEN_SECRET` and `REFRESH_TOKEN_SECRET`. Every verification uses
`JWT_SECRET`. All three are separate fields of `Config`, so the lemmas show
what happens when they differ and when they coincide.

## Model

| member | source | states |
|---|---|---|
| AuthController.CreateUser | controllers/authController.js:53 | the created user has the lower-case email, the bcrypt of the password, the chosen role or `user`, and every schema default |
| AuthController.Signup | controllers/authController.js:16-88 | the new account table, key-value store and reply are those of the signup outcome under the chosen reading: the field names as written, or the token generator's own |
| AuthController.CheckReferral | controllers/authController.js:22-26 | throws exactly when a referrer is given and the store lookup fails or finds an owner for it, because the handler reads `req.user._id` and calls an undefined `recordReferral` |
| AuthController.CompleteSignup | controllers/authController.js:52-82 | the create/store-refresh-token/issue-verification-token steps of signup equal the signup outcome after its checks |
| AuthController.Login | controllers/authController.js:91-159 | the new store and reply are those of the login outcome; the account table is untouched |
| AuthController.Logout | controllers/authController.js:161-183 | the new store and reply are those of the logout outcome |
| AuthController.Refresh | controllers/authController.js:311-352 | the new store and reply are those of the refresh outcome |
| AuthController.ChangePassword | controllers/authController.js:354-380 | the new accounts, store and reply are those of the change-password outcome, where an empty new password or stored name fails the save with 400 |
| AuthController.ForgotPassword | controllers/authController.js:201-220 | the new accounts and reply are those of the forgot-password outcome under the chosen reading (as written: no digest stored, undefined mailed); an account failing save validation gets no response; a rejecting mailer leaves the new digest stored and gets no response |
| AuthController.FindResetHolder | controllers/authController.js:228-231 | finds the first account whose reset digest equals the hash and whose expiry is strictly after now; none exactly when no account holds it |
| AuthController.ResetPassword | controllers/authController.js:222-244 | the new accounts and reply are those of the reset outcome; an empty password or stored name makes the save reject, so no response is sent and nothing is stored |
| AuthController.FindVerificationHolder | controllers/authController.js:250-253 | finds the first account whose verification digest equals the hash and whose expiry is strictly after now; none exactly when no account holds it |
| AuthController.FindVerified | controllers/authController.js:257-259 | finds a verified account; none exactly when no account is verified |
| AuthController.VerifyEmail | controllers/authController.js:245-277 | the new accounts and reply are those of the verify outcome; a holder with an empty stored name makes the save reject, so no response is sent and nothing is stored |
| AuthController.ResendVerification | controllers/authController.js:280-309 | the new accounts and reply are those of the resend outcome under the chosen reading (400 unknown, 400 already verified, 500 when the save or the mailer throws) |
| AuthProperties.LoginCheckOrder | controllers/authController.js:94-158 | 400 exactly for an empty email or password; 401 exactly for an unknown email or a wrong password; 403 exactly for a banned account whose password matches; every refusal changes nothing and sets no cookie; a missing email answers 500 |
| AuthProperties.BannedWithWrongPassword | controllers/authController.js:126-134 | a banned account presented with the wrong password gets 401 "Invalid credentials", not 403 |
| AuthProperties.LoginReplacesRefreshToken | controllers/authController.js:138-144 | a successful login stores the new refresh token under `refresh_token:<id>` for 30 days, replacing any earlier one, leaves every other key as it was, and sets the cookies for rememberMe |
| AuthProperties.LoginSwallowsStoreFailure | controllers/authController.js:138-153 | a store failure while saving the refresh token leaves the store as it was and the reply exactly as without the failure |
| AuthProperties.LoginRetiresEarlierRefreshToken | controllers/authController.js:138-141 | after a login, any refresh token issued earlier to that user (another jti) is refused with 401 |
| AuthProperties.RefreshSucceedsExactlyOnStoredToken | controllers/authController.js:313-349 | refresh answers 200 exactly when the cookie is present, verifies, the store works and the stored value equals the presented token; every failure answers 401, clears both cookies and changes nothing; no cookie gives "No refresh token" |
| AuthProperties.RefreshIsSingleUse | controllers/authController.js:317-334 | once a refresh succeeds, presenting the same token again gets 401 and changes nothing |
| AuthProperties.RefreshForgetsRememberMe | controllers/authController.js:326-338 | a refresh always sets the short cookie lifetimes (1 h and 1 day), whatever the login chose |
| AuthProperties.LogoutEffects | controllers/authController.js:166-177 | with both cookies, logout sets `bl_access:<jti>` for 3600 s, deletes `refresh_token:<userId>`, clears both cookies and answers 200 |
| AuthProperties.LogoutStopsAtFirstFailure | controllers/authController.js:161-182 | without cookies logout changes nothing and answers 200; an access token that fails verification gives 500, no cookie change and no store change |
| AuthProperties.ChangePasswordEffects | controllers/authController.js:368-378 | when the save validates, exactly the new password matches, every other account is kept, the stored refresh token is deleted and both cookies cleared (500 and no key change when the store fails) |
| AuthProperties.ChangePasswordRefusals | controllers/authController.js:358-369 | a wrong current password gives 401 and changes nothing; an empty new password or stored name gives 400 ("Path `password` is required." for the password alone) and keeps the password, the refresh token and the cookies |
| AuthProperties.ResetIsSingleUse | controllers/authController.js:226-240 | with distinct reset digests, a second reset with the same token answers 400 and changes nothing |
| AuthProperties.ResetTokenExpires | controllers/authController.js:226-235 | a token whose every holder has expired (expiry at or before now) is refused with 400 and changes nothing |
| AuthProperties.VerifySecondUse | controllers/authController.js:248-274 | after a successful verification the same link answers 200 "already verified" and changes nothing |
| AuthProperties.VerifyFallback | controllers/authController.js:255-268 | when no account holds the token: nothing changes; "already verified" exactly when some account is verified; 400 exactly when none is |
| AuthProperties.ForgotPasswordSameAnswer | controllers/authController.js:204-218 | forgot-password answers 200 with the same message for an unknown email and for an account whose save validates and whose mail goes out; an unknown email changes nothing and mails nothing; an account failing validation gets no response and nothing changes; a rejecting mailer gets no response, with only that account's reset digest and expiry stored |
| AuthProperties.ForgotPasswordIsCaseSensitive | controllers/authController.js:202-206 | with lower-case stored emails, an email typed with an upper-case letter finds no account |
| AuthProperties.ResendVerificationRefusals | controllers/authController.js:284-307 | an unknown email and a verified account get 400; an account whose save fails validation gets 500; none changes or mails anything |
| AuthProperties.ResendVerificationStores | controllers/authController.js:295-307 | only that account's verification digest and expiry change, to what the reading issues (the SHA-256 of the mailed raw token and now + 3,600,000 ms under the generator's names); a mail failure answers 500 and keeps the new digest |
| AuthProperties.ResendThenVerify | controllers/authController.js:245-303 | read with the generator's own field names, the link a resend mails verifies the account within the hour |
| AuthProperties.SignupEffects | controllers/authController.js:18-76 | an existing lower-cased email gives 400 and changes nothing; otherwise a creatable request appends one account with the lower-case email, the requested role or `user`, a matching password, and stores its refresh token |
| AuthProperties.SignupCreates | controllers/authController.js:52-82 | a 201 signup appends exactly one account, keeps the earlier ones, stores the issued digest and expiry, and mails the issued raw token to the new address |
| AuthProperties.SignupRefuses | controllers/authController.js:45-87 | any other signup answer leaves the accounts unchanged and mails nothing |
| AuthProperties.SignupStoresNoDigestAsWritten | controllers/authController.js:60-68 | as written, signup mails an undefined token and stores no verification digest |
| AuthProperties.VerifyFailsWithoutDigests | controllers/authController.js:245-270 | when no account holds a verification digest, verification never succeeds and changes nothing |
| AuthProperties.VerifyNeverSucceedsAsWritten | controllers/authController.js:60-68 | as written, no link mailed at signup can verify the new account |
| AuthProperties.SignupThenVerify | controllers/authController.js:245-277 | read with the generator's own field names, the link mailed at signup verifies the new account within the hour |
| AuthProperties.VerifiesHolder | controllers/authController.js:248-274 | redeeming through the first live holder of the digest, when its save validates, marks that account verified and answers "Email verified successfully. You can now log in." |
| AuthProperties.ResetNeverSucceedsAsWritten | controllers/authController.js:209-240 | as written, forgot-password mails no token and stores no digest, so every reset answers 400 |
| AuthProperties.ForgotThenReset | controllers/authController.js:201-243 | read with the generator's own field names and with the mail delivered, the mailed token resets a non-empty password within the hour, exactly the new password matches, and the digest is cleared; an empty password gets no response and changes nothing; an account failing validation is sent no token |
| AuthProperties.LogoutDoesNotRevokeAsWritten | middleware/authMiddleware.js:27-31 | logout writes only the key-value store, so the guard that reads the Mongo blacklist decides every request exactly as before the logout |
| AuthProperties.LogoutRevokes | controllers/authController.js:166-169 | with the guard reading the key-value store, a logged-out access token is refused with 401 for the next hour |
| AuthProperties.IssuedTokensNeedSharedSecret | utils/authHelpers.js:5-17 | when the access secret differs from `JWT_SECRET` every issued access token is refused by the guard; when the refresh secret differs every refresh is refused with "invalid signature" |
| AuthProperties.SharedSecretAcceptsRefreshToken | middleware/authMiddleware.js:16-44 | when the refresh secret equals `JWT_SECRET`, a refresh token passes the access guard for its whole 30 days |
| AuthHelpers.GenerateTokens | utils/authHelpers.js:5-17 | both tokens carry the same userId and the same fresh jti; the access token is signed with the access secret and the refresh token with the refresh secret |
| AuthHelpers.GeneratedTokenLifetimes | utils/authHelpers.js:8-14 | the access token verifies for exactly 3600 s and the refresh token for exactly 2,592,000 s; with distinct secrets neither verifies under the other's secret |
| AuthHelpers.StoreRefreshToken | utils/authHelpers.js:19-25 | the store becomes the refresh-token write of the old store, or stays unchanged when the store fails |
| AuthHelpers.StoredRefreshOneKey | utils/authHelpers.js:21-24 | exactly one key, `refresh_token:<userId>`, is written with a 2,592,000 s expiry; every other key is unchanged; a failure leaves the whole store unchanged |
| AuthHelpers.BaseCookieOptions | utils/authHelpers.js:28-37 | httpOnly, secure, SameSite=None and path "/"; a domain exactly when COOKIE_DOMAIN is set |
| AuthHelpers.SetCookies | utils/authHelpers.js:27-48 | two cookies, accessToken then refreshToken, with maxAge 604,800,000 / 2,592,000,000 ms under rememberMe and 3,600,000 / 86,400,000 ms otherwise, and otherwise the base options |
| AuthMiddleware.Protect | middleware/authMiddleware.js:5-49 | the guard's decision is that of the decision chain over the chosen revocation source: the Mongo blacklist as written, the key-value marks in the corrected reading; a passed user is stored and not banned |
| AuthMiddleware.RevocationsFor | middleware/authMiddleware.js:27-30 | the as-written reading reads the Mongo blacklist collection, the corrected one the key-value store |
| AuthMiddleware.ProtectRoutePassesOnlyWhenAllChecksHold | middleware/authMiddleware.js:5-48 | passes exactly when a token is present, verifies, the store works, its jti is not revoked, its user exists and is not banned; the passed user is the token's; every denial is 401 or 403 |
| AuthMiddleware.CookieBeforeHeader | middleware/authMiddleware.js:8-14 | a cookie token makes the header irrelevant; with neither the answer is 401 "No access token provided" whatever the stores hold |
| AuthMiddleware.VerificationFailures | middleware/authMiddleware.js:17-25 | an expired token gives 401 "Access token expired"; one signed with another secret gives 401 "Invalid access token" |
| AuthMiddleware.AdminRoute | middleware/authMiddleware.js:51-56 | passes exactly an admin; otherwise 403 "Access denied - Admin only" |
| AuthMiddleware.EmailVerified | middleware/authMiddleware.js:58-65 | passes exactly a user whose email is verified; otherwise 403 |
| AuthMiddleware.ArtisanOnly | middleware/authMiddleware.js:67-72 | passes exactly an artisan; otherwise 403 |
| OneTimeToken.GenerateHashedToken | utils/token.js:3-9 | the raw value is 64 lower-case hex characters, the hash is its SHA-256 hex digest, the expiry is now + 3,600,000 ms |
| OneTimeToken.DistinctRandomDistinctTokens | utils/token.js:4-5 | different random bytes give different raw values and different hashes |
| OneTimeToken.DestructureAsWritten | controllers/authController.js:61 | reading `rawToken`/`hashedToken` from the generator's result yields undefined for both; only the expiry is found |
| OneTimeToken.Destructure | utils/token.js:8 | read under the generator's own names, the stored hash is the SHA-256 of the mailed raw value |
| Crypto.VerifySign | middleware/authMiddleware.js:18-25 | a token verifies under its own secret exactly before its expiry second, fails with TokenExpiredError after it, and fails with "invalid signature" under any other secret |
| Crypto.HexEncode | utils/token.js:4 | hex encoding doubles the length and yields only lower-case hex digits |
| Crypto.HexEncodeInjective | utils/token.js:4 | equal hex encodings come from equal bytes |
| KeyValue.Get | controllers/authController.js:321 | a key reads a value exactly while it is present and not expired |
| KeyValue.SetGetDel | controllers/authController.js:168-173 | after a set the key reads the value until its TTL passes; a delete makes it read nothing; other keys read as before |
| KeyValue.KeyValueStore.SetEx | utils/authHelpers.js:21 | the entries become the old entries with the key set for the given TTL |
| KeyValue.KeyValueStore.GetValue | controllers/authController.js:321 | returns what the key reads at that time |
| KeyValue.KeyValueStore.Delete | controllers/authController.js:373 | the entries become the old entries without the key |
| Store.FindUser | controllers/adminController.js:6 | `findById`: the first user with that id; none exactly when no user has it |
| Store.FindByEmail | controllers/authController.js:48 | `findOne({ email })`: a user with exactly that email; none exactly when no user has it |
| UserModel.ParseRole | models/User.js:18 | a parsed role prints back as the text it came from |
| UserModel.ParseRoleRoundTrip | models/User.js:18 | every role parses back from its name; exactly "user", "artisan" and "admin" parse |
| UserModel.EmptyProfile | models/subdocs/ArtisanProfile.js:4-23 | a fresh profile is available, not approved, not verified, has no skills, coordinates [0, 0] and no feature |
| UserModel.NewUser | models/User.js:5-22 | a created user has the given fields, role `user` by default, every flag false, the default avatar and no optional field |
| UserModel.PreSave | models/User.js:28-36 | hashes the password only when it was modified, lowercases the email only when it was modified, and changes nothing else |
| UserModel.MissingOnSave | models/User.js:6-8 | the required paths a save finds empty: none exactly when name, email and password are non-empty; `name` listed exactly when the name is empty, `password` exactly when the new password is empty |
| UserModel.PreSavePassword | models/User.js:28-41 | after hashing a new password, exactly that password compares true; re-hashing an existing hash makes every candidate fail |
| UserModel.ToJson | models/User.js:44-52 | the JSON form keeps every key except password, verificationToken, verificationTokenExpires and __v, with the same values |
| Records.ParseJobStatus | controllers/jobController.js:77-79 | a parsed status prints back as the text it came from |
| Records.ParseJobStatusRoundTrip | models/Job.js:9-13 | every status parses back from its name; exactly the five allowed names parse |
| JobController.FindJob | controllers/jobController.js:41 | the first job with that id; none exactly when no job has it |
| JobController.CreateJob | controllers/jobController.js:6-23 | the new job list and answer are those of the create-job outcome |
| JobController.CreateJobEffects | controllers/jobController.js:9-22 | 404 exactly when the target is missing or not an artisan; 201 exactly when it is an artisan and a description is given; on 201 one pending job by the requester is appended; otherwise the jobs are unchanged |
| JobController.UserJobsDefaults | controllers/jobController.js:25-38 | with no query the answer is the newest 10 of the requester's own jobs and their count |
| JobController.MarkJobCompleted | controllers/jobController.js:40-52 | the new job list and answer are those of the mark-completed outcome |
| JobController.MarkCompletedEffects | controllers/jobController.js:43-49 | succeeds exactly when the job exists and its artisan is the requester; then only that job changes, to completed; otherwise nothing changes |
| JobController.JobVisibility | controllers/jobController.js:56-72 | read as intended (stored ids compared), a job is shown exactly to its user or its artisan; anyone else gets 403 |
| JobController.JobHiddenAsWritten | controllers/jobController.js:56-72 | as written (populated documents printed by `toString`), no requester is shown a job: 404 when missing, 403 to everyone when both referenced users exist, 500 when one is gone |
| JobController.UpdateJobStatus | controllers/jobController.js:75-94 | the new job list and answer are those of the update-status outcome |
| JobController.UpdateStatusAnyTransition | controllers/jobController.js:77-90 | a missing or unknown status gives 400 before any lookup; the assigned artisan can set any allowed status from any status |
| JobController.CancelJob | controllers/jobController.js:97-113 | the new job list and answer are those of the cancel outcome |
| JobController.CancelRules | controllers/jobController.js:99-110 | succeeds exactly for the owner or an admin on a pending job; the job becomes cancelled and a second cancel gets 400; refusals change nothing |
| JobController.AllJobsIgnoresStatus | controllers/jobController.js:116-145 | under either reading the status filter is built but never applied, so the answer does not depend on it; `page` is echoed as the query text, or the number 1 when absent |
| JobController.AllJobsDefaults | controllers/jobController.js:117-144 | read as intended, a request without a query lists the newest ten jobs, counts every job, echoes page 1 and has totalPages ceil(total/10) |
| JobController.AllJobsFailsAsWritten | controllers/jobController.js:130-137 | as written no job is ever listed: a page the intended listing fills answers 500 with the unregistered-model message, and every other answer equals the intended one |
| JobController.AllJobsNeverListsAsWritten | controllers/jobController.js:116-137 | as written, with any job stored, the listing without a query answers 500 |
| JobController.CanReview | controllers/jobController.js:148-164 | self gives 403 and false; an artisan id that is not an ObjectId gives 404 "Resource not found" through the CastError; otherwise 200 with true exactly when a completed job between the requester and the artisan exists |
| ReviewController.FindUserJobReview | models/Review.js:27 | finds a review with that user and job; none exactly when there is no such pair (the unique index) |
| ReviewController.CreateReview | controllers/reviewController.js:9-71 | the new review list and answer are those of the create-review outcome under the reading passed in: as written the missing `job` fails validation; as intended the review is tied to the completed job, and the artisan's save after it validates its name |
| ReviewController.AdmissionAccepts | controllers/reviewController.js:12-45 | admission succeeds exactly for an existing artisan who is not the requester, a verified requester, a completed job between them, a rating in [1, 5] and a comment of at most 500 UTF-16 code units; the job found is such a job |
| ReviewController.AdmissionRefusals | controllers/reviewController.js:12-25 | in this order: not an artisan gives 404, self gives 403, unverified gives 403 |
| ReviewController.AdmissionJobAndRating | controllers/reviewController.js:28-41 | after those, no completed job gives 403, then a bad rating gives 400 |
| ReviewController.CreateReviewFailsAsWritten | controllers/reviewController.js:48-53 | as written no review is ever stored; an admitted request gets 400 "Path `job` is required." |
| ReviewController.CreateReviewOncePerJob | controllers/reviewController.js:47-68 | an admitted review of a job the requester has not yet reviewed is appended with its job, answered 201 exactly when the artisan's name is non-empty and 400 "Path `name` is required." otherwise; the same request again gets 400 "You have already reviewed this artisan." |
| ReviewController.FindOwned | controllers/reviewController.js:101-104 | finds a review with that id owned by the requester; none exactly when there is none |
| ReviewController.FindReview | controllers/reviewController.js:127 | the first review with that id; none exactly when there is none |
| ReviewController.AfterDeletionReply | controllers/reviewController.js:112-122 | after a deletion the review stays deleted; the answer is 200 with the handler's message exactly when the artisan exists with a name, and 400 "Path `name` is required." for an empty stored name |
| ReviewController.DeleteMyReview | controllers/reviewController.js:100-123 | the new review list and answer are those of the delete-mine outcome, including the artisan's save, which fails validation on an empty stored name |
| ReviewController.DeleteMineOnlyOwn | controllers/reviewController.js:101-123 | 404 with nothing deleted exactly when the requester owns no review with that id; any deletion removes one review the requester owns; after it the answer is 200 "Review deleted" exactly when the artisan exists with a name, and 400 "Path `name` is required." for an empty stored name |
| ReviewController.AdminDeleteReview | controllers/reviewController.js:126-142 | the new review list and answer are those of the admin-delete outcome, including the artisan's save, which fails validation on an empty stored name |
| ReviewController.AdminDeleteEffects | controllers/reviewController.js:127-142 | 404 with nothing deleted exactly when the review is missing; otherwise exactly that review is removed, and the answer is 200 "Review deleted by admin" exactly when the artisan exists with a name, and 400 "Path `name` is required." for an empty stored name |
| ReviewController.ReviewsPageDefaults | controllers/reviewController.js:146-166 | with no query: the newest 10, the total, page 1 and totalPages ceil(total/10) |
| ReviewController.ArtisanReviewsDefaults | controllers/reviewController.js:75-96 | an artisan id that is not an ObjectId gives 404 "Resource not found" through the CastError; otherwise, with no query: at most 10 reviews, all about that artisan, the artisan's total and ceil(total/10) pages |
| ArtisanController.FindLocationLike | controllers/artisanController.js:34 | finds a location whose name equals the given one ignoring case; none exactly when no name does |
| ArtisanController.Ordered | controllers/artisanController.js:46-49 | the sort keeps the length and the members; rating and experience sort descending |
| ArtisanController.ListedPage | controllers/artisanController.js:42-66 | a listed page holds only matching artisans, in the requested order, with the matching total |
| ArtisanController.DirectoryListsOnlyMatching | controllers/artisanController.js:9-40 | every listed user is a stored artisan admitted by the filter, and `available` is matched as 'true' against everything else; the total counts the admitted users |
| ArtisanController.DirectoryUnknownLocation | controllers/artisanController.js:33-40 | a named location answers 400 "Invalid location specified" exactly when no location has that name |
| ArtisanController.DirectorySorted | controllers/artisanController.js:46-57 | sorting by rating or experience lists artisans in descending order |
| ArtisanController.DirectoryDefaults | controllers/artisanController.js:9-66 | with no page and limit the answer is the first 20 ordered matches, the total, page 1 and ceil(total/20) pages |
| ArtisanController.FindArtisan | controllers/artisanController.js:71 | finds a user with that id and role artisan; none exactly when there is none |
| ArtisanController.ArtisanById | controllers/artisanController.js:70-74 | 200 exactly when an artisan has that id, with that artisan; otherwise 404 "Artisan not found" |
| ArtisanController.CopyTopLevel | controllers/artisanController.js:86-91 | the loop copies exactly name, avatar and phone when given |
| ArtisanController.CopyProfile | controllers/artisanController.js:107-112 | the loop copies exactly bio, skills, yearsOfExperience, available and address when given |
| ArtisanController.EditProfile | controllers/artisanController.js:85-136 | the edit equals the specification: copies, empty profile when missing, and the location lookup that can refuse |
| ArtisanController.UpdateArtisanProfile | controllers/artisanController.js:77-140 | the new users and answer are those of the update-profile outcome |
| ArtisanController.UpdateProfileRefusals | controllers/artisanController.js:81-104 | non-artisans get 403; a bad phone gives 400; more than 5 skills gives 400; every refusal changes nothing |
| ArtisanController.EditedFields | controllers/artisanController.js:86-131 | only the allowed top-level and profile fields change, each to its given value; a named location sets the id of the case-insensitively matching location; no location keeps location and coordinates |
| ArtisanController.UpdateProfileStores | controllers/artisanController.js:138-139 | a successful update stores exactly the edited user |
| ArtisanController.UpdateProfileIdempotent | controllers/artisanController.js:77-140 | repeating a successful update changes nothing further |
| ArtisanController.EditedIdempotent | controllers/artisanController.js:86-131 | editing an edited user with the same updates gives it back unchanged |
| ArtisanController.RelocateIdempotent | controllers/artisanController.js:115-131 | repeating a location update gives the same profile |
| ArtisanController.ToggleAvailability | controllers/artisanController.js:162-180 | the new users and answer are those of the toggle outcome, where an empty stored name fails the save with 400 |
| ArtisanController.ToggleAvailabilityTwice | controllers/artisanController.js:165-179 | succeeds exactly for an artisan with a profile and a non-empty name (an empty name gives the validation 400); flips `available` and nothing else; a second toggle restores the users |
| FeatureController.DurationInDays | controllers/featureController.js:19-21 | "Nd" means N days |
| FeatureController.DurationInMonths | controllers/featureController.js:22-24 | "Nm" means 30·N days |
| FeatureController.DurationOtherwise | controllers/featureController.js:11-24 | any other suffix means 7 days; the default "7d" is 7 days |
| FeatureController.FeatureArtisan | controllers/featureController.js:9-36 | the new users and answer are those of the feature outcome, where an empty stored name fails the save with 400 |
| FeatureController.FeatureArtisanRefusals | controllers/featureController.js:13-29 | a missing user or a non-artisan gives 404; an empty stored name gives the validation 400; every refusal changes nothing |
| FeatureController.FeatureArtisanStores | controllers/featureController.js:19-32 | success needs a profile and a non-empty name; then featuredUntil is now + days·86,400,000 ms and isCurrentlyFeatured is true, nothing else changes, and the message names the days |
| FeatureController.ToggledProfile | controllers/featureController.js:49-61 | the toggle flips whether the profile is featured now and changes only the two feature fields; toggling twice restores the flag |
| FeatureController.ToggleFeatureArtisan | controllers/featureController.js:42-72 | the new users and answer are those of the toggle outcome, where an empty stored name fails the save with 400 |
| FeatureController.ToggleFeatureEffects | controllers/featureController.js:44-61 | a featured artisan is unfeatured (null, false); any other gets now + 7 days and true; an empty stored name gives the validation 400; refusals change nothing |
| FeatureController.ToggleFeatureTwice | controllers/featureController.js:49-61 | a second toggle restores the flag, with featuredUntil either now + 7 days or null |
| FeatureController.FeaturedPageNumber | controllers/featureController.js:80 | a number is at least 1; NaN exactly when the page does not parse |
| FeatureController.FeaturedMatching | controllers/featureController.js:86-97 | the matches are exactly the featured artisans the search admits, with their count |
| FeatureController.FeaturedListingCounts | controllers/featureController.js:80-114 | at most 10 per page; count is the number of matches; totalPages is ceil(count/10), or 1 when count is 0 |
| FeatureController.FeaturedListingEntries | controllers/featureController.js:99-105 | the page is sorted by featuredUntil descending and holds only matching stored artisans |
| FeatureController.FeaturedPageNumberCases | controllers/featureController.js:80-82 | the listing fails exactly when the page is not a number |
| FeatureController.BlankSearchAddsNothing | controllers/featureController.js:83-97 | a search that trims to nothing lists exactly what no search lists |
| FeatureCleanup.Cleared | cron/featureCleanup.js:18-23 | a cleared profile has no featuredUntil and is not featured |
| FeatureCleanup.Swept | cron/featureCleanup.js:13-24 | the sweep keeps the number of users |
| FeatureCleanup.SweepExpired | cron/featureCleanup.js:13-25 | the array becomes the sweep of its old contents; the count is the number of expired artisans |
| FeatureCleanup.RunInitialFeatureCleanup | cron/featureCleanup.js:33-54 | sweeps and logs only when something was modified |
| FeatureCleanup.RunScheduledFeatureCleanup | cron/featureCleanup.js:8-31 | applies the same sweep as the startup run and logs both lines |
| FeatureCleanup.SweepIdempotent | cron/featureCleanup.js:14-23 | after a sweep nothing is expired, a second sweep changes nothing and counts 0 |
| FeatureCleanup.SweepKeepsOthers | cron/featureCleanup.js:14-17 | users that are not expired artisans are unchanged; expired ones lose only the two feature fields |
| UserController.AllowedPayloadKeeps | controllers/userController.js:14-18 | the payload keeps exactly the body entries whose key is name, phone or avatar, in order |
| UserController.LastValueFiltered | controllers/userController.js:16-18 | for an allowed key, the filtered payload carries the same last value as the body |
| UserController.UpdateMyProfile | controllers/userController.js:12-22 | the new users and answer are those of the update-my-profile outcome |
| UserController.UpdateMyProfileKeepsOthers | controllers/userController.js:16-21 | only name, phone and avatar of the requester change, each to the body's value when given; other users are unchanged |
| UserController.UpdateMyProfileIgnoresOtherKeys | controllers/userController.js:14-20 | a body without allowed keys changes nothing |
| UserController.GetUserById | controllers/userController.js:25-29 | 200 exactly for a stored user that is not soft-deleted; otherwise 404 |
| UserController.PageParam | controllers/userController.js:33-34 | for the defaults 1 and 20, the parsed page or limit, or the default when that is falsy, is never 0 |
| UserController.GetAllUsersLists | controllers/userController.js:32-54 | listed users are stored, not deleted, of the given role, and banned as 'true' says; the total counts them |
| UserController.GetAllUsersDefaults | controllers/userController.js:33-52 | with no page or limit query the answer is page 1 holding the first 20 matching users, their total, and ceil(total/20) pages |
| UserController.ListUsersPages | controllers/userController.js:43-53 | totalPages is the least page count covering the total |
| UserController.DeleteUser | controllers/userController.js:57-61 | the new users and answer are those of the delete outcome |
| UserController.DeleteUserEffects | controllers/userController.js:58-60 | only isDeleted of that user becomes true; the user is then not found by id; deleting again changes nothing |
| UserController.ChangeUserRole | controllers/userController.js:64-75 | the new users and answer are those of the change-role outcome |
| UserController.ParseRoleNames | controllers/userController.js:66-67 | a role parses exactly when it is user, artisan or admin |
| UserController.ChangeUserRoleEffects | controllers/userController.js:65-74 | an unknown role gives 400 before any lookup; on success only the role changes, to the requested one |
| UserController.ToggleBanUser | controllers/userController.js:78-85 | the new users and answer are those of the ban outcome |
| UserController.ToggleBanUserSets | controllers/userController.js:79-84 | isBanned becomes exactly the supplied value, the message follows it, and a repeat changes nothing |
| UserController.UpdateUserProfile | controllers/userController.js:88-99 | the new users and answer are those of the update-user-profile outcome |
| UserController.UpdateUserProfileFields | controllers/userController.js:91-98 | only phone and address change; an empty or absent value keeps the old one; refusals change nothing |
| AdminController.ApproveArtisanProfile | controllers/adminController.js:5-20 | the new users and answer are those of the approval outcome |
| AdminController.ApproveEffects | controllers/adminController.js:8-17 | a missing user or a non-artisan gives 404 and changes nothing; otherwise the profile, created empty when missing, gets isVerified true (a path the profile schema drops; see "Left out") |
| AdminController.AdminPagingOf | controllers/adminController.js:23-24 | skip is (page − 1)·limit when both parse |
| AdminController.AdminListsDeletedUsers | controllers/adminController.js:22-41 | with no query the first 20 of all users, soft-deleted ones included, are listed with the total and ceil(total/20) pages |
| AdminController.AdminListingWindow | controllers/adminController.js:31-41 | a listed page holds only matching users, with the matching total |
| AdminController.AdminListingMatches | controllers/adminController.js:26-34 | listed users have the given role and are banned as 'true' says, with no isDeleted filter; the total counts them |
| AdminController.BanUser | controllers/adminController.js:44-56 | the new users and answer are those of the ban outcome |
| AdminController.BanTwiceRestores | controllers/adminController.js:48-54 | banning flips isBanned and reports the new value; doing it again restores the users |
| AdminController.AdminDeleteUser | controllers/adminController.js:59-74 | the new users and answer are those of the delete outcome |
| AdminController.AdminHardDelete | controllers/adminController.js:66-69 | `hard=true` removes exactly that user and keeps the rest in order |
| AdminController.AdminSoftDelete | controllers/adminController.js:61-73 | any other `hard` only sets isDeleted; a missing user gives 404 and changes nothing |
| AdminController.AnalyticsBounds | controllers/adminController.js:83-89 | verified artisans ≤ artisans ≤ users, banned ≤ users, soft-deleted ≤ users (in the source the verified count is 0 or the artisan count, depending on the Mongoose version; see "Left out") |
| LocationController.FindLocation | controllers/locationController.js:44 | the first location with that id; none exactly when there is none |
| LocationController.FindLocationNamed | controllers/locationController.js:24 | the first location with exactly that name; none exactly when there is none |
| LocationController.CreateLocation | controllers/locationController.js:21-41 | the new locations and answer are those of the create outcome |
| LocationController.CreateLocationDecision | controllers/locationController.js:24-40 | 201 exactly when the normalised name is non-empty and new; 400 "Location already exists" exactly when it is taken; refusals change nothing |
| LocationController.CreateLocationStores | controllers/locationController.js:31-40 | appends one location with the normalised name, the trimmed state or 'Lagos', the geocoded or [0, 0] coordinates, active and with 0 votes |
| LocationController.CreateLocationKeepsNamesDistinct | controllers/locationController.js:24-38 | creation keeps location names distinct |
| LocationController.CreateLocationTwice | controllers/locationController.js:24-27 | a second name with the same normal form gets 400 |
| LocationController.ToggleLocationStatus | controllers/locationController.js:43-53 | the new locations and answer are those of the toggle outcome |
| LocationController.ToggleTwice | controllers/locationController.js:44-50 | a missing id gives 404 and changes nothing; otherwise only isActive of that location flips; toggling twice restores the locations |
| LocationController.LocationById | controllers/locationController.js:58-66 | 200 exactly when a location has that id, with that location; otherwise 404 |
| LocationModel.NormaliseName | models/Location.js:35 | the normal name is no longer than the input, has no edge spaces and no upper-case letter |
| LocationModel.NormaliseNameIdempotent | models/Location.js:34-36 | normalising twice equals normalising once |
| LocationModel.NewLocation | models/Location.js:3-29 | a new location is active with 0 votes and the given name, state and coordinates |
| LocationModel.PreSave | models/Location.js:33-41 | normalises the name only when modified, trims the state only when modified, changes nothing else |
| CategoryController.Slugify | controllers/categoryController.js:29 | a slug has no whitespace |
| CategoryController.SlugOfLowerIsNormal | controllers/categoryController.js:29-37 | a slug of lower-case text is lower case, so the model's pre-save normalisation leaves it unchanged |
| CategoryController.FindSlug | controllers/categoryController.js:32 | the first category with that slug; none exactly when there is none |
| CategoryController.CreateCategory | controllers/categoryController.js:21-40 | the new categories and answer are those of the create outcome |
| CategoryController.CreateCategoryRefusals | controllers/categoryController.js:24-35 | a missing or blank name gives 400; a taken slug gives 400; refusals change nothing |
| CategoryController.CreatedOnlyWhenFree | controllers/categoryController.js:24-37 | a 201 needs a non-blank name, a free non-empty slug and a free trimmed name |
| CategoryController.CreateCategoryStores | controllers/categoryController.js:28-37 | appends one category with the trimmed name and its slug, which is non-empty, lower case and without whitespace |
| CategoryController.CreateCategoryTwice | controllers/categoryController.js:29-35 | a second name that is equal ignoring case and edge spaces gets 400 |
| CategoryController.SortByName | controllers/categoryController.js:12 | sorted by name and a permutation of the input |
| CategoryController.GetCategories | controllers/categoryController.js:11-14 | lists every category, in ascending name order |
| CategoryModel.NormaliseSlug | models/Category.js:17 | the normal slug is lower case and without whitespace |
| CategoryModel.NormaliseSlugFixed | models/Category.js:16-18 | a slug that is already lower case and without whitespace is unchanged |
| CategoryModel.NormaliseSlugIdempotent | models/Category.js:16-18 | normalising twice equals normalising once |
| CategoryModel.PreSave | models/Category.js:10-20 | trims the name only when modified, normalises the slug only when modified, changes nothing else |
| UploadController.RemoveArtisanImage | controllers/uploadController.js:58-97 | the new users and answer are those of the remove outcome under the reading passed in, whatever the remote deletion did |
| UploadController.RemoveImageFailsAsWritten | controllers/uploadController.js:58-67 | as written (the module imports only `asyncHandler` and `imagekit`, so `User` is undeclared), a missing URL gives 400 and any URL gives 500 "User is not defined"; no portfolio changes |
| UploadController.RemoveImageRefusals | controllers/uploadController.js:61-75 | read with `User` imported: no URL gives 400; no user gives 404; a URL not in the portfolio gives 404; refusals change nothing |
| UploadController.WithoutKeepsOthers | controllers/uploadController.js:77 | the filtered list has no occurrence of the URL, keeps every other entry with its multiplicity, in order |
| UploadController.RemoveImageEffects | controllers/uploadController.js:71-94 | read with `User` imported, on success the portfolio is the old one without the URL, and nothing else changes |
| Validate.ValidateSignupInput | utils/validate.js:3-26 | an email error exactly when the email is missing or invalid; a password error exactly when the password is weak, its length counted in UTF-16 code units; isValid exactly when no error; at most two, email first; a missing password throws |
| Validate.StrongPasswordAccepts | utils/validate.js:10-16 | a password meeting all five rules is strong |
| Validate.StrongPasswordRejects | utils/validate.js:10-16 | a short password and one without an upper-case letter are weak |
| Validate.StrongPasswordCountsCodeUnits | utils/validate.js:10-16 | six characters, two of them beyond U+FFFF, make eight code units and satisfy the length rule |
| Paging.NewestFirst | utils/paginate.js:16 | newest first is the insertion order reversed |
| Paging.LimitCount | utils/paginate.js:15 | a positive limit takes at most that many; 0 means no limit |
| Paging.Window | utils/paginate.js:14-15 | a negative skip fails; otherwise the window is the documents from skip on, up to the limit |
| Paging.PagesCoverAll | utils/paginate.js:22 | totalPages pages of the given limit cover every document |
| Paging.PageNonEmptyIff | utils/paginate.js:7-22 | a page is non-empty exactly when its number is at most totalPages |
| Paging.ListNewest | controllers/reviewController.js:77-95 | a negative skip fails; otherwise page, total and ceil(total/limit) pages |
| Paging.ListNewestPositive | controllers/reviewController.js:77-95 | for positive page and limit, the items are that page of the newest-first list, non-empty exactly up to totalPages |
| Paging.SortDesc | controllers/artisanController.js:46-57 | the sort yields a descending permutation |
| Paging.WindowKeepsOrder | controllers/artisanController.js:55-57 | a window of a sorted list is sorted |
| Paging.WindowOfFilter | utils/paginate.js:9-17 | a window of the matches holds only matching documents |
| Paging.PaginateQuery | utils/paginate.js:5-7 | page ≥ 1, limit ≤ 100 and never 0, defaults 1 and 20, parsed values kept in range, skip = (page − 1)·limit |
| Paging.Paginate | utils/paginate.js:3-23 | page, total, totalPages = ceil(total/limit) and no more documents than the absolute value of the limit; fails exactly on a negative skip |
| Paging.PaginateDefaultOrder | utils/paginate.js:16 | without a sort the data is that page of the newest-first matches |
| Paging.PaginateWithoutQuery | utils/paginate.js:5-22 | with no query: page 1 and the newest 20 matches |
| ErrorMiddleware.NotFound | middleware/errorMiddleware.js:1-5 | status 404 and message "Not Found - <url>" |
| ErrorMiddleware.ErrorHandler | middleware/errorMiddleware.js:7-46 | each error kind maps to its status and message, later checks winning; others keep 500 or the set status; production hides the stack |
| ErrorMiddleware.NotFoundReply | middleware/errorMiddleware.js:1-46 | an unknown route ends as 404 "Not Found - <url>" |
| ErrorMiddleware.UnclassifiedNeverOk | middleware/errorMiddleware.js:8 | an unclassified error never answers 200 |
| Answer.Thrown | middleware/errorMiddleware.js:7-46 | a save or store error thrown inside a handler answers a 400, 404 or 500 fault |
| Seeder.CapitalizeAll | scripts/seeds/devSeeder.js:24 | mapping over the words keeps their number |
| Seeder.CapitalizeWordsChars | scripts/seeds/devSeeder.js:22-27 | the output has the input's length; each character is upper case at a word start and lower case elsewhere |
| Seeder.CapitalizeWordsKeepsSpaces | scripts/seeds/devSeeder.js:22-27 | spaces stay exactly where they were, so the word count is kept |
| Seeder.CapitalizeWordsIdempotent | scripts/seeds/devSeeder.js:22-27 | capitalizing twice equals capitalizing once |

## Left out

- I/O and foreign calls:
  - email sending and the mail queue: the mail is returned in the reply. A rejecting mailer is an input of forgotPassword and resendVerificationEmail, the two handlers that await it;
  - geocoding: its answer is an input;
  - the ImageKit calls: their outcome is an input that does not affect the result;
  - the reCAPTCHA block, which is commented out in the source.
- `recordReferral` and referral codes: signup reads `req.user._id`, which is undefined on signup, so a referral that finds a code throws. The model keeps only that throw (500).
- Mongoose strict mode drops, on every save and update, the paths a schema does not declare. The model's documents instead carry every field the controllers use, so the lemmas about these fields hold for documents that keep them:
  - the User schema has no `isEmailVerified`, `resetPasswordToken`, `resetPasswordExpires` or `rating` (it has `isVerified`);
  - the artisan profile schema has no `isVerified` (it has `isApproved`), `featuredUntil`, `isCurrentlyFeatured`, `portfolioImages` or `address`;
  - the Job schema has no `title`.
  In the source, therefore, approving an artisan never stores `isVerified`: an artisan that already has a profile is saved without change, and one without a profile gets the default profile stored. The analytics' verified-artisan filter names the same undeclared path, and what it counts depends on the Mongoose version, which the repository does not pin here. Where queries keep undeclared paths (`strictQuery` false, the default from Mongoose 7) the count is always 0, since no document stores the path. Where they strip them (`strictQuery` true, the Mongoose 6 default) the filter is only `role: 'artisan'` and the count equals the artisan count. The bounds of AdminController.AnalyticsBounds hold in both cases. AdminController.ApproveEffects and AdminController.AnalyticsBounds are stated under the assumption that documents carry every field.
- Save validation is modelled for these required paths:
  - on user saves: `name`, in every handler that saves a user, including the artisan's saves after a review is inserted or deleted. The handlers that assign a new password (ChangePassword, ResetPassword) also check `password`, and the account handlers also check `email`. A stored password is a bcrypt hash and never empty. No handler changes the email after signup;
  - `description` on jobs;
  - `job` on reviews;
  - `name` on locations (CreateLocation);
  - `slug` on categories (CreateCategory).
- When both `name` and `password` are missing, the model lists the two messages in schema order.
- A save that rejects in forgotPassword, resetPassword or verifyEmail is unanswered: these handlers have neither `asyncHandler` nor a `catch`. The model sends no response and stores nothing. What the Node process does with the unhandled rejection is not modelled.
- Query details:
  - `select` projections, `populate` and `lean` are not modelled, except where `populate` changes the answer (getJobById, getAllJobs);
  - the JSON form is modelled separately (`UserModel.ToJson`);
  - `Promise.all` is not modelled.
- `getNearbyArtisans` (`$near` geometry with floating-point radius) is not modelled. Nor are `getFullProfile`, `getArtisanStats`, `getMyProfile`, `getAllLocations`, `uploadArtisanImages` and `uploadAvatar`. Each is a plain read, a floating-point average or an upload.
- The review average recomputation (`$avg` and `toFixed(1)`) after a review is created or deleted is not modelled: it is floating point. The review lists alone are modelled.
- Numbers are integers:
  - `Number`/`parseInt` read optionally signed decimal digits, with no fractions, exponents or hexadecimal;
  - a NaN skip or limit is a failed query (`Failure`);
  - a NaN `featuredUntil` (from a duration such as "xd") is stored as an invalid date value.
- Case mapping is ASCII only.
- CategoryController.Slugify keeps ASCII letters, digits, whitespace and `_$*+~.()'"!-:@`, drops every other ASCII character, and passes non-ASCII characters through unchanged. The library instead transliterates the non-ASCII characters its table maps and then deletes every character outside ASCII word characters and those symbols. So a name made only of unmapped non-ASCII characters has an empty slug in the source, and is answered 400 "Path `slug` is required.", where the model creates the category with a non-empty slug.
- Regular expressions built from query text (`new RegExp(skill, 'i')`, `^${location}$`) are read as literal text matched ignoring case. Metacharacters in the text are not interpreted.
- The `Authorization` header is taken as the token after "Bearer " stripping. The stripping itself is not modelled.
- `createdAt` ordering is insertion order. Ties in a descending sort keep their stored order.
- Request bodies are typed: a boolean `isBanned`, a list of skills, optional strings. Mongoose's casting of other JSON types is not modelled.
- The cron scheduler (`0 0 * * *`) and its timing are left out. Both sweeps are modelled as what they run.
- Concurrency: two refreshes racing with the same token are not modelled. Each handler is one atomic step.
- ArtisanController.UpdateArtisanProfile checks the phone and the skill count before copying any field. The source copies the top-level fields first, but nothing is saved on either refusal, so the outcome is the same.
- Redis TTL eviction is an explicit expiry time that `Get` respects. Entries are never removed by time.
- The methods for signup, forgotPassword, resendVerificationEmail, the request guard, createReview and removeArtisanImage take the reading as a parameter: the source as written, or the corrected program of the findings. The functions for getJobById and getAllJobs take it as well.
- `removeArtisanImage` is not routed: routes/uploadRoutes.js imports only `uploadAvatar` and `uploadArtisanImages`. It is modelled as the handler it would be if mounted.
- Ids that are not ObjectIds (24 hexadecimal digits) make a query throw a `CastError`, which the error handler answers 404 "Resource not found". The model answers this in checkCanReview and getArtisanReviews, where the status differs. In the other handlers that look a record up by a request id, the model treats a malformed id as an unknown one. It answers that handler's own 404 message where the source answers 404 "Resource not found".
- JavaScript `length` is UTF-16 code units (`Text.Utf16Length`). It is used for the password minimum length and the 500-unit comment limit. The other string operations count Unicode scalar values, which agree for text within U+FFFF.

## Findings

| source | as written | input that shows it | evidently intended | confidence | as-written member | corrected member |
|---|---|---|---|---|---|---|
| controllers/authController.js:61 | signup, forgotPassword and resendVerificationEmail destructure `rawToken` and `hashedToken`, but `generateHashedToken` returns `raw` and `hashed` (utils/token.js:8), so no digest is stored and the mailed token is undefined | any signup followed by any verification link; any forgot-password followed by any reset | the mailed raw token's SHA-256 is stored, so the link verifies or resets within the hour | not executed | AuthProperties.VerifyNeverSucceedsAsWritten, AuthProperties.ResetNeverSucceedsAsWritten | AuthProperties.SignupThenVerify, AuthProperties.ForgotThenReset |
| controllers/authController.js:168 | logout writes `bl_access:<jti>` to Redis, but `protectRoute` checks the Mongo `Blacklist` collection (middleware/authMiddleware.js:28), so a logged-out access token is still accepted | log in, log out, then send the old access token before it expires | the guard rejects a logged-out token | not executed | AuthProperties.LogoutDoesNotRevokeAsWritten | AuthProperties.LogoutRevokes |
| controllers/uploadController.js:65 | `removeArtisanImage` calls `User.findById`, but the module never imports `User` (lines 2-3), so the call throws a ReferenceError that the error handler answers 500 | any request with a non-empty `imageUrl` | the caller's portfolio loses that URL and the answer is 200 | not executed | UploadController.RemoveImageFailsAsWritten | UploadController.RemoveImageEffects |
| controllers/jobController.js:63-66 | `getJobById` populates `user` and `artisan`, then compares `job.user.toString()` with the requester's id; a populated document's `toString` prints the document, not its id, so nobody matches (and a `null` reference throws) | the job's own owner requests it | the owner and the assigned artisan see the job | not executed (reading of Mongoose's `Document#toString`) | JobController.JobHiddenAsWritten | JobController.JobVisibility |
| controllers/jobController.js:131-132 | `getAllJobs` calls `.populate('user', 'email', "name")`; the third argument of `Query#populate` is the model to populate from, and no model is registered as "name", so any non-empty page rejects with a `MissingSchemaError`, which the error handler answers 500 | one stored job and a request without a query | the jobs are listed with the `name` and `email` of their user and artisan (`.populate('user', 'name email')`) | not executed (reading of Mongoose's `Query#populate` signature) | JobController.AllJobsFailsAsWritten, JobController.AllJobsNeverListsAsWritten | JobController.AllJobsDefaults |
| controllers/reviewController.js:48-53 | `Review.create` is called without `job`, which the schema requires (models/Review.js:21), so every admitted review fails validation with 400 | an admitted request: verified reviewer, completed job, rating 4 | the review is stored with the completed job, once per job (unique user/job index) | not executed | ReviewController.CreateReviewFailsAsWritten | ReviewController.CreateReviewOncePerJob |
