/** controllers/authController.js: the account and session handlers as
    transitions of the user collection and the key-value store. Each handler
    has a function giving its outcome from the old state and its inputs, and a
    method that performs it step by step on the stores. Clock readings, the
    fresh uuid, fresh ids and random bytes are inputs; `kvFault` is the error
    message of a key-value store call that throws during the request. */
module AuthController {
  import opened Common
  import opened Text
  import opened Crypto
  import opened OneTimeToken
  import opened UserModel
  import opened KeyValue
  import opened AuthHelpers
  import opened AuthMiddleware
  import opened Store
  import opened ErrorMiddleware
  import Answer

  datatype Body =
    | Message(text: string)
    | ServerError(message: string, error: string)
    | Account(id: UserId, email: string, role: Role)
    | Created(id: UserId, email: string, role: Role, message: string)
    | TokenPairBody(accessToken: Jwt, refreshToken: Jwt)
    | AlreadyVerified(message: string)
    | ErrorPage(message: string, stack: string)
    | NoResponse

  datatype MailKind = VerifyMail | ResetMail

  /** An email handed to the mailer: its kind, recipient and the token it carries. */
  datatype Mail = Mail(kind: MailKind, to: string, token: Option<string>)

  datatype Reply = Reply(status: int, body: Body, cookies: seq<CookieDirective>, mail: seq<Mail>)

  /** The state the handlers change: the user collection and the key-value store. */
  datatype Accounts = Accounts(users: seq<User>, kv: KvMap)

  datatype Outcome = Outcome(state: Accounts, reply: Reply)

  /** An answer that changes nothing. */
  function Unchanged(s: Accounts, status: int, text: string): Outcome {
    Outcome(s, Reply(status, Message(text), [], []))
  }

  /** An error thrown inside a handler wrapped in `asyncHandler`: the state
      reached so far stays and the error handler answers. */
  function Rejected(s: Accounts, err: AppError, production: bool): Outcome {
    var e := ErrorHandler(err, 200, production);
    Outcome(s, Reply(e.status, ErrorPage(e.message, e.stack), [], []))
  }

  /** A save rejected in a handler that has neither `asyncHandler` nor a
      `catch`: the rejection reaches no error handler, so no response is sent
      (status 0 stands for none) and nothing is stored or mailed. */
  function Unanswered(s: Accounts): Outcome {
    Outcome(s, Reply(0, NoResponse, [], []))
  }

  function Issue(reading: Reading, random: seq<byte>, nowMs: int): Issued
    requires |random| == 32
  {
    var t := GenerateHashedToken(random, nowMs);
    if reading == AsWritten then DestructureAsWritten(t) else Destructure(t)
  }

  // ---------------------------------------------------------------- signup

  datatype SignupRequest = SignupRequest(
    email: Option<string>, password: Option<string>, name: Option<string>,
    role: Option<string>, referrer: Option<string>)

  /** JavaScript truthiness of a value read from the key-value store. */
  predicate KvTruthy(v: KvValue) {
    match v
    case TokenValue(t) => !t.Empty()
    case TrueFlag => true
    case Text(s) => s != []
  }

  /** A referral code whose lookup throws, or that names an owner: recording
      the referral reads `req.user`, which signup does not have, so it throws. */
  predicate ReferralThrows(kv: KvMap, referrer: Option<string>, nowMs: int, kvFault: Option<string>) {
    Truthy(referrer) &&
      (kvFault.Some? ||
       (Get(kv, ReferralKey(referrer.value), nowMs).Some? && KvTruthy(Get(kv, ReferralKey(referrer.value), nowMs).value)))
  }

  /** What `User.create` validates: required email, name and password, and a
      role, when given, from the enumeration. */
  predicate Creatable(email: string, req: SignupRequest) {
    email != [] && Truthy(req.name) && Truthy(req.password) &&
      (req.role.None? || ParseRole(req.role.value).Some?)
  }

  const SignupFailed: string := "Something went wrong during signup."

  function SignupOutcome(s: Accounts, cfg: Config, req: SignupRequest, newId: UserId, jti: string,
                         random: seq<byte>, nowMs: nat, kvFault: Option<string>, reading: Reading): Outcome
    requires |random| == 32
  {
    if req.email.None? then Unchanged(s, 500, SignupFailed)
    else
      var email := ToLower(req.email.value);
      if ReferralThrows(s.kv, req.referrer, nowMs, kvFault) then Unchanged(s, 500, SignupFailed)
      else if FindByEmail(s.users, email).Some? then Unchanged(s, 400, "User already exists")
      else if !Creatable(email, req) then Unchanged(s, 500, SignupFailed)
      else SignupCreated(s, cfg, req, email, newId, jti, random, nowMs, kvFault, reading)
  }

  /** Signup once every check has passed: the account is added, its refresh
      token stored, both cookies set and the verification mail queued. */
  function SignupCreated(s: Accounts, cfg: Config, req: SignupRequest, email: string, newId: UserId, jti: string,
                         random: seq<byte>, nowMs: nat, kvFault: Option<string>, reading: Reading): Outcome
    requires |random| == 32 && Creatable(email, req)
  {
    var role := if req.role.Some? then ParseRole(req.role.value) else None;
    var created := NewUser(newId, req.name.value, email, Bcrypt(Plain(req.password.value)), role);
    var pair := GenerateTokens(cfg, newId, jti, nowMs);
    var issued := Issue(reading, random, nowMs);
    var saved := created.(verificationToken := issued.hashedToken, verificationTokenExpires := issued.expires);
    Outcome(
      Accounts(s.users + [saved], StoredRefresh(s.kv, newId, pair.refreshToken, nowMs, kvFault)),
      Reply(201, Created(newId, email, saved.role, "Account created. Please check your email for verification."),
            SetCookies(cfg, pair.accessToken, pair.refreshToken, false),
            [Mail(VerifyMail, email, issued.rawToken)]))
  }

  /** `User.create`: the new document with the schema defaults, passed
      through the pre-save hook with password and email both set. */
  method CreateUser(id: UserId, name: string, email: string, password: string, role: Option<Role>) returns (u: User)
    requires ToLower(email) == email
    ensures u == NewUser(id, name, email, Bcrypt(Plain(password)), role)
  {
    u := NewUser(id, name, email, Plain(password), role);
    u := PreSave(u, true, true);
  }

  /** signup step by step; `reading` chooses the key names the generator's
      result is read under, as in the outcome function. */
  method Signup(db: Database, kv: KeyValueStore, cfg: Config, req: SignupRequest, newId: UserId, jti: string,
                random: seq<byte>, nowMs: nat, kvFault: Option<string>, reading: Reading) returns (reply: Reply)
    requires |random| == 32
    modifies db`users, kv`entries
    ensures Outcome(Accounts(db.users, kv.entries), reply)
         == SignupOutcome(Accounts(old(db.users), old(kv.entries)), cfg, req, newId, jti, random, nowMs, kvFault, reading)
  {
    if req.email.None? {
      return Reply(500, Message(SignupFailed), [], []);
    }
    var email := ToLower(req.email.value);
    ToLowerIdempotent(req.email.value);
    var blocked := CheckReferral(kv, req.referrer, nowMs, kvFault);
    if blocked {
      return Reply(500, Message(SignupFailed), [], []);
    }
    if FindByEmail(db.users, email).Some? {
      return Reply(400, Message("User already exists"), [], []);
    }
    if !Creatable(email, req) {
      return Reply(500, Message(SignupFailed), [], []);
    }
    reply := CompleteSignup(db, kv, cfg, req, email, newId, jti, random, nowMs, kvFault, reading);
  }

  /** The referral lookup: with a truthy referrer, a failing store or a
      truthy stored owner makes signup throw. */
  method CheckReferral(kv: KeyValueStore, referrer: Option<string>, nowMs: nat, kvFault: Option<string>)
    returns (throws: bool)
    ensures throws == ReferralThrows(kv.entries, referrer, nowMs, kvFault)
  {
    if !Truthy(referrer) {
      return false;
    }
    if kvFault.Some? {
      return true;
    }
    var owner := kv.GetValue(ReferralKey(referrer.value), nowMs);
    throws := owner.Some? && KvTruthy(owner.value);
  }

  method CompleteSignup(db: Database, kv: KeyValueStore, cfg: Config, req: SignupRequest, email: string, newId: UserId,
                        jti: string, random: seq<byte>, nowMs: nat, kvFault: Option<string>, reading: Reading)
    returns (reply: Reply)
    requires |random| == 32 && Creatable(email, req) && ToLower(email) == email
    modifies db`users, kv`entries
    ensures Outcome(Accounts(db.users, kv.entries), reply)
         == SignupCreated(Accounts(old(db.users), old(kv.entries)), cfg, req, email, newId, jti, random, nowMs, kvFault, reading)
  {
    var role := if req.role.Some? then ParseRole(req.role.value) else None;
    var user := CreateUser(newId, req.name.value, email, req.password.value, role);
    db.users := db.users + [user];
    var pair := GenerateTokens(cfg, newId, jti, nowMs);
    StoreRefreshToken(kv, newId, pair.refreshToken, nowMs, kvFault);
    var cookies := SetCookies(cfg, pair.accessToken, pair.refreshToken, false);
    var issued := Issue(reading, random, nowMs);
    user := user.(verificationToken := issued.hashedToken, verificationTokenExpires := issued.expires);
    user := PreSave(user, false, false);
    db.users := db.users[|db.users| - 1 := user];
    reply := Reply(201, Created(user.id, user.email, user.role, "Account created. Please check your email for verification."),
                   cookies, [Mail(VerifyMail, user.email, issued.rawToken)]);
  }

  // ----------------------------------------------------------------- login

  function LoginOutcome(s: Accounts, cfg: Config, email: Option<string>, password: Option<string>,
                        rememberMe: bool, jti: string, nowMs: nat, kvFault: Option<string>): Outcome
  {
    if email.None? then Unchanged(s, 500, "Internal server error")
    else
      var e := ToLower(email.value);
      if e == [] || !Truthy(password) then Unchanged(s, 400, "Email and password are required")
      else match FindByEmail(s.users, e)
        case None => Unchanged(s, 401, "User not found")
        case Some(i) =>
          var user := s.users[i];
          if !ComparePassword(user, password.value) then Unchanged(s, 401, "Invalid credentials")
          else if user.isBanned then Unchanged(s, 403, "Your account has been banned")
          else
            var pair := GenerateTokens(cfg, user.id, jti, nowMs);
            Outcome(
              Accounts(s.users, StoredRefresh(s.kv, user.id, pair.refreshToken, nowMs, kvFault)),
              Reply(200, Account(user.id, user.email, user.role),
                    SetCookies(cfg, pair.accessToken, pair.refreshToken, rememberMe), []))
  }

  method Login(db: Database, kv: KeyValueStore, cfg: Config, email: Option<string>, password: Option<string>,
               rememberMe: bool, jti: string, nowMs: nat, kvFault: Option<string>) returns (reply: Reply)
    modifies kv`entries
    ensures Outcome(Accounts(db.users, kv.entries), reply)
         == LoginOutcome(Accounts(db.users, old(kv.entries)), cfg, email, password, rememberMe, jti, nowMs, kvFault)
  {
    if email.None? {
      return Reply(500, Message("Internal server error"), [], []);
    }
    var e := ToLower(email.value);
    if e == [] || !Truthy(password) {
      return Reply(400, Message("Email and password are required"), [], []);
    }
    var found := FindByEmail(db.users, e);
    if found.None? {
      return Reply(401, Message("User not found"), [], []);
    }
    var user := db.users[found.value];
    if !ComparePassword(user, password.value) {
      return Reply(401, Message("Invalid credentials"), [], []);
    }
    if user.isBanned {
      return Reply(403, Message("Your account has been banned"), [], []);
    }
    var pair := GenerateTokens(cfg, user.id, jti, nowMs);
    StoreRefreshToken(kv, user.id, pair.refreshToken, nowMs, kvFault);
    reply := Reply(200, Account(user.id, user.email, user.role),
                   SetCookies(cfg, pair.accessToken, pair.refreshToken, rememberMe), []);
  }

  // ---------------------------------------------------------------- logout

  /** The key-value store after logout's first step: the access token's jti
      marked for one hour, or the message of the error that stops the handler. */
  function MarkAccess(kv: KvMap, cfg: Config, accessCookie: Option<Jwt>, nowMs: nat, kvFault: Option<string>): Result<KvMap, string> {
    if !Present(accessCookie) then Success(kv)
    else match Verify(cfg.jwtSecret, accessCookie.value, nowMs)
      case Failure(e) => Failure(e.Message())
      case Success(c) =>
        if kvFault.Some? then Failure(kvFault.value) else Success(Set(kv, BlacklistKey(c.jti), TrueFlag, 3600, nowMs))
  }

  /** Logout's second step: the refresh token's owner's stored token deleted. */
  function DropRefresh(kv: KvMap, cfg: Config, refreshCookie: Option<Jwt>, nowMs: nat, kvFault: Option<string>): Result<KvMap, string> {
    if !Present(refreshCookie) then Success(kv)
    else match Verify(cfg.jwtSecret, refreshCookie.value, nowMs)
      case Failure(e) => Failure(e.Message())
      case Success(c) =>
        if kvFault.Some? then Failure(kvFault.value) else Success(Del(kv, RefreshKey(c.userId)))
  }

  function LogoutOutcome(s: Accounts, cfg: Config, accessCookie: Option<Jwt>, refreshCookie: Option<Jwt>,
                         nowMs: nat, kvFault: Option<string>): Outcome
  {
    match MarkAccess(s.kv, cfg, accessCookie, nowMs, kvFault)
    case Failure(m) => Outcome(s, Reply(500, ServerError("Server error", m), [], []))
    case Success(kv1) =>
      match DropRefresh(kv1, cfg, refreshCookie, nowMs, kvFault)
      case Failure(m) => Outcome(Accounts(s.users, kv1), Reply(500, ServerError("Server error", m), [], []))
      case Success(kv2) => Outcome(Accounts(s.users, kv2), Reply(200, Message("Logged out successfully"), ClearAuthCookies(), []))
  }

  method Logout(db: Database, kv: KeyValueStore, cfg: Config, accessCookie: Option<Jwt>, refreshCookie: Option<Jwt>,
                nowMs: nat, kvFault: Option<string>) returns (reply: Reply)
    modifies kv`entries
    ensures Outcome(Accounts(db.users, kv.entries), reply)
         == LogoutOutcome(Accounts(db.users, old(kv.entries)), cfg, accessCookie, refreshCookie, nowMs, kvFault)
  {
    if Present(accessCookie) {
      var decoded := Verify(cfg.jwtSecret, accessCookie.value, nowMs);
      if decoded.Failure? {
        return Reply(500, ServerError("Server error", decoded.error.Message()), [], []);
      }
      if kvFault.Some? {
        return Reply(500, ServerError("Server error", kvFault.value), [], []);
      }
      kv.SetEx(BlacklistKey(decoded.value.jti), TrueFlag, 60 * 60, nowMs);
    }
    if Present(refreshCookie) {
      var decoded := Verify(cfg.jwtSecret, refreshCookie.value, nowMs);
      if decoded.Failure? {
        return Reply(500, ServerError("Server error", decoded.error.Message()), [], []);
      }
      if kvFault.Some? {
        return Reply(500, ServerError("Server error", kvFault.value), [], []);
      }
      kv.Delete(RefreshKey(decoded.value.userId));
    }
    reply := Reply(200, Message("Logged out successfully"), ClearAuthCookies(), []);
  }

  // --------------------------------------------------------------- refresh

  /** The checks refresh makes: the id of the user whose stored token the
      cookie is, or the message of the error thrown. */
  function RefreshCheck(kv: KvMap, cfg: Config, cookie: Option<Jwt>, nowMs: nat, kvFault: Option<string>): Result<UserId, string> {
    if !Present(cookie) then Failure("No refresh token")
    else match Verify(cfg.jwtSecret, cookie.value, nowMs)
      case Failure(e) => Failure(e.Message())
      case Success(c) =>
        if kvFault.Some? then Failure(kvFault.value)
        else if Get(kv, RefreshKey(c.userId), nowMs) != Some(TokenValue(cookie.value)) then Failure("Invalid refresh token")
        else Success(c.userId)
  }

  function RefreshOutcome(s: Accounts, cfg: Config, cookie: Option<Jwt>, newJti: string, nowMs: nat,
                          kvFault: Option<string>): Outcome
  {
    match RefreshCheck(s.kv, cfg, cookie, nowMs, kvFault)
    case Failure(m) =>
      Outcome(s, Reply(401, Message(if m == [] then "Unauthorized" else m), ClearAuthCookies(), []))
    case Success(userId) =>
      var pair := GenerateTokens(cfg, userId, newJti, nowMs);
      Outcome(
        Accounts(s.users, Set(s.kv, RefreshKey(userId), TokenValue(pair.refreshToken), RefreshTokenSeconds, nowMs)),
        Reply(200, TokenPairBody(pair.accessToken, pair.refreshToken),
              SetCookies(cfg, pair.accessToken, pair.refreshToken, false), []))
  }

  method Refresh(db: Database, kv: KeyValueStore, cfg: Config, cookie: Option<Jwt>, newJti: string, nowMs: nat,
                 kvFault: Option<string>) returns (reply: Reply)
    modifies kv`entries
    ensures Outcome(Accounts(db.users, kv.entries), reply)
         == RefreshOutcome(Accounts(db.users, old(kv.entries)), cfg, cookie, newJti, nowMs, kvFault)
  {
    var error: string;
    if !Present(cookie) {
      error := "No refresh token";
    } else {
      var decoded := Verify(cfg.jwtSecret, cookie.value, nowMs);
      if decoded.Failure? {
        error := decoded.error.Message();
      } else if kvFault.Some? {
        error := kvFault.value;
      } else {
        var userId := decoded.value.userId;
        var stored := kv.GetValue(RefreshKey(userId), nowMs);
        if stored != Some(TokenValue(cookie.value)) {
          error := "Invalid refresh token";
        } else {
          var pair := GenerateTokens(cfg, userId, newJti, nowMs);
          kv.SetEx(RefreshKey(userId), TokenValue(pair.refreshToken), 30 * 24 * 60 * 60, nowMs);
          return Reply(200, TokenPairBody(pair.accessToken, pair.refreshToken),
                       SetCookies(cfg, pair.accessToken, pair.refreshToken, false), []);
        }
      }
    }
    reply := Reply(401, Message(if error == [] then "Unauthorized" else error), ClearAuthCookies(), []);
  }

  // -------------------------------------------------------- changePassword

  function ChangePasswordOutcome(s: Accounts, cfg: Config, userId: UserId, currentPassword: string,
                                 newPassword: string, kvFault: Option<string>): Outcome
  {
    match FindUser(s.users, userId)
    case None => Unchanged(s, 404, "User not found")
    case Some(i) =>
      if !ComparePassword(s.users[i], currentPassword) then Unchanged(s, 401, "Current password is incorrect")
      else
        var changed := s.users[i].(password := Plain(newPassword));
        if MissingOnSave(changed) != [] then Rejected(s, Answer.MissingPaths(MissingOnSave(changed)), cfg.production)
        else
        var users' := s.users[i := changed.(password := Bcrypt(Plain(newPassword)))];
        if kvFault.Some? then Rejected(Accounts(users', s.kv), PlainError(kvFault.value), cfg.production)
        else
          Outcome(Accounts(users', Del(s.kv, RefreshKey(userId))),
                  Reply(200, Message("Password changed. Please log in again."), ClearAuthCookies(), []))
  }

  method ChangePassword(db: Database, kv: KeyValueStore, cfg: Config, userId: UserId, currentPassword: string,
                        newPassword: string, kvFault: Option<string>) returns (reply: Reply)
    modifies db`users, kv`entries
    ensures Outcome(Accounts(db.users, kv.entries), reply)
         == ChangePasswordOutcome(Accounts(old(db.users), old(kv.entries)), cfg, userId, currentPassword, newPassword, kvFault)
  {
    var found := FindUser(db.users, userId);
    if found.None? {
      return Reply(404, Message("User not found"), [], []);
    }
    var user := db.users[found.value];
    if !ComparePassword(user, currentPassword) {
      return Reply(401, Message("Current password is incorrect"), [], []);
    }
    user := user.(password := Plain(newPassword));
    var missing := MissingOnSave(user);
    if missing != [] {
      var e := ErrorHandler(Answer.MissingPaths(missing), 200, cfg.production);
      return Reply(e.status, ErrorPage(e.message, e.stack), [], []);
    }
    user := PreSave(user, true, false);
    db.users := db.users[found.value := user];
    if kvFault.Some? {
      var e := ErrorHandler(PlainError(kvFault.value), 200, cfg.production);
      return Reply(e.status, ErrorPage(e.message, e.stack), [], []);
    }
    kv.Delete(RefreshKey(userId));
    reply := Reply(200, Message("Password changed. Please log in again."), ClearAuthCookies(), []);
  }

  // ---------------------------------------------------- password reset flow

  const ResetAnswer: string := "If that email exists, a reset link has been sent."

  /** `forgotPassword`; `mailFails` stands for `sendResetEmail` rejecting
      after the new digest has been saved. The handler has neither
      `asyncHandler` nor a `catch`, so that rejection, like a rejected save,
      leaves the request unanswered. */
  function ForgotPasswordOutcome(s: Accounts, email: string, random: seq<byte>, nowMs: nat, mailFails: bool,
                                 reading: Reading): Outcome
    requires |random| == 32
  {
    match FindByEmail(s.users, email)
    case None => Unchanged(s, 200, ResetAnswer)
    case Some(i) =>
      var issued := Issue(reading, random, nowMs);
      var u := s.users[i].(resetPasswordToken := issued.hashedToken, resetPasswordExpires := issued.expires);
      if MissingOnSave(u) != [] then Unanswered(s)
      else
        var s' := Accounts(s.users[i := u], s.kv);
        if mailFails then Unanswered(s')
        else Outcome(s', Reply(200, Message(ResetAnswer), [], [Mail(ResetMail, u.email, issued.rawToken)]))
  }

  /** forgotPassword step by step; `reading` chooses the key names the
      generator's result is read under, as in the outcome function. */
  method ForgotPassword(db: Database, email: string, random: seq<byte>, nowMs: nat, mailFails: bool, reading: Reading)
    returns (reply: Reply)
    requires |random| == 32
    modifies db`users
    ensures Outcome(Accounts(db.users, map[]), reply)
         == ForgotPasswordOutcome(Accounts(old(db.users), map[]), email, random, nowMs, mailFails, reading)
  {
    var found := FindByEmail(db.users, email);
    if found.None? {
      return Reply(200, Message(ResetAnswer), [], []);
    }
    var issued := Issue(reading, random, nowMs);
    var user := db.users[found.value];
    user := user.(resetPasswordToken := issued.hashedToken, resetPasswordExpires := issued.expires);
    if MissingOnSave(user) != [] {
      return Reply(0, NoResponse, [], []);
    }
    user := PreSave(user, false, false);
    db.users := db.users[found.value := user];
    if mailFails {
      return Reply(0, NoResponse, [], []);
    }
    reply := Reply(200, Message(ResetAnswer), [], [Mail(ResetMail, user.email, issued.rawToken)]);
  }

  /** The reset lookup: the stored digest equals `h` and expires strictly after now. */
  predicate HoldsResetToken(u: User, h: Digest, nowMs: int) {
    u.resetPasswordToken == Some(h) && u.resetPasswordExpires.Some? && u.resetPasswordExpires.value > nowMs
  }

  function FindResetHolder(users: seq<User>, h: Digest, nowMs: int): (r: Option<nat>)
    ensures r.Some? ==> r.value < |users| && HoldsResetToken(users[r.value], h, nowMs)
    ensures r.None? <==> forall j :: 0 <= j < |users| ==> !HoldsResetToken(users[j], h, nowMs)
  {
    FindFirst(users, (u: User) => HoldsResetToken(u, h, nowMs))
  }

  function ResetPasswordOutcome(s: Accounts, token: string, password: string, nowMs: nat): Outcome {
    match FindResetHolder(s.users, Sha256Hex(token), nowMs)
    case None => Unchanged(s, 400, "Token invalid or expired")
    case Some(i) =>
      var changed := s.users[i].(password := Plain(password), resetPasswordToken := None, resetPasswordExpires := None);
      if MissingOnSave(changed) != [] then Unanswered(s)
      else
      var u := changed.(password := Bcrypt(Plain(password)));
      Outcome(Accounts(s.users[i := u], s.kv), Reply(200, Message("Password has been reset successfully."), [], []))
  }

  method ResetPassword(db: Database, token: string, password: string, nowMs: nat) returns (reply: Reply)
    modifies db`users
    ensures Outcome(Accounts(db.users, map[]), reply)
         == ResetPasswordOutcome(Accounts(old(db.users), map[]), token, password, nowMs)
  {
    var found := FindResetHolder(db.users, Sha256Hex(token), nowMs);
    if found.None? {
      return Reply(400, Message("Token invalid or expired"), [], []);
    }
    var user := db.users[found.value];
    user := user.(password := Plain(password));
    user := user.(resetPasswordToken := None, resetPasswordExpires := None);
    if MissingOnSave(user) != [] {
      return Reply(0, NoResponse, [], []);
    }
    user := PreSave(user, true, false);
    db.users := db.users[found.value := user];
    reply := Reply(200, Message("Password has been reset successfully."), [], []);
  }

  // ------------------------------------------------- email verification flow

  predicate HoldsVerificationToken(u: User, h: Digest, nowMs: int) {
    u.verificationToken == Some(h) && u.verificationTokenExpires.Some? && u.verificationTokenExpires.value > nowMs
  }

  function FindVerificationHolder(users: seq<User>, h: Digest, nowMs: int): (r: Option<nat>)
    ensures r.Some? ==> r.value < |users| && HoldsVerificationToken(users[r.value], h, nowMs)
    ensures r.None? <==> forall j :: 0 <= j < |users| ==> !HoldsVerificationToken(users[j], h, nowMs)
  {
    FindFirst(users, (u: User) => HoldsVerificationToken(u, h, nowMs))
  }

  /** `User.findOne({ isEmailVerified: true })`: any verified account at all. */
  function FindVerified(users: seq<User>): (r: Option<nat>)
    ensures r.Some? ==> r.value < |users| && users[r.value].isEmailVerified
    ensures r.None? <==> forall j :: 0 <= j < |users| ==> !users[j].isEmailVerified
  {
    FindFirst(users, (u: User) => u.isEmailVerified)
  }

  function VerifyEmailOutcome(s: Accounts, token: string, nowMs: nat): Outcome {
    match FindVerificationHolder(s.users, Sha256Hex(token), nowMs)
    case None =>
      if FindVerified(s.users).Some? then
        Outcome(s, Reply(200, AlreadyVerified("Your email is already verified. You can log in."), [], []))
      else Unchanged(s, 400, "Verification link is invalid or has expired.")
    case Some(i) =>
      var u := s.users[i].(isEmailVerified := true, verificationToken := None, verificationTokenExpires := None);
      if MissingOnSave(u) != [] then Unanswered(s)
      else Outcome(Accounts(s.users[i := u], s.kv), Reply(200, Message("Email verified successfully. You can now log in."), [], []))
  }

  method VerifyEmail(db: Database, token: string, nowMs: nat) returns (reply: Reply)
    modifies db`users
    ensures Outcome(Accounts(db.users, map[]), reply) == VerifyEmailOutcome(Accounts(old(db.users), map[]), token, nowMs)
  {
    var found := FindVerificationHolder(db.users, Sha256Hex(token), nowMs);
    if found.None? {
      var verified := FindVerified(db.users);
      if verified.Some? {
        return Reply(200, AlreadyVerified("Your email is already verified. You can log in."), [], []);
      }
      return Reply(400, Message("Verification link is invalid or has expired."), [], []);
    }
    var user := db.users[found.value];
    user := user.(isEmailVerified := true);
    user := user.(verificationToken := None, verificationTokenExpires := None);
    if MissingOnSave(user) != [] {
      return Reply(0, NoResponse, [], []);
    }
    user := PreSave(user, false, false);
    db.users := db.users[found.value := user];
    reply := Reply(200, Message("Email verified successfully. You can now log in."), [], []);
  }

  /** `resendVerificationEmail`; `mailFails` stands for the mailer throwing
      after the new token has been saved. */
  function ResendVerificationOutcome(s: Accounts, email: string, random: seq<byte>, nowMs: nat,
                                     mailFails: bool, reading: Reading): Outcome
    requires |random| == 32
  {
    match FindByEmail(s.users, email)
    case None => Unchanged(s, 400, "No account found with that email.")
    case Some(i) =>
      if s.users[i].isEmailVerified then Unchanged(s, 400, "This account is already verified.")
      else
        var issued := Issue(reading, random, nowMs);
        var u := s.users[i].(verificationToken := issued.hashedToken, verificationTokenExpires := issued.expires);
        if MissingOnSave(u) != [] then Unchanged(s, 500, "Failed to resend verification email.")
        else
        var s' := Accounts(s.users[i := u], s.kv);
        if mailFails then Unchanged(s', 500, "Failed to resend verification email.")
        else Outcome(s', Reply(200, Message("Verification email resent."), [], [Mail(VerifyMail, u.email, issued.rawToken)]))
  }

  method ResendVerification(db: Database, email: string, random: seq<byte>, nowMs: nat, mailFails: bool,
                            reading: Reading)
    returns (reply: Reply)
    requires |random| == 32
    modifies db`users
    ensures Outcome(Accounts(db.users, map[]), reply)
         == ResendVerificationOutcome(Accounts(old(db.users), map[]), email, random, nowMs, mailFails, reading)
  {
    var found := FindByEmail(db.users, email);
    if found.None? {
      return Reply(400, Message("No account found with that email."), [], []);
    }
    var user := db.users[found.value];
    if user.isEmailVerified {
      return Reply(400, Message("This account is already verified."), [], []);
    }
    var issued := Issue(reading, random, nowMs);
    user := user.(verificationToken := issued.hashedToken, verificationTokenExpires := issued.expires);
    if MissingOnSave(user) != [] {
      return Reply(500, Message("Failed to resend verification email."), [], []);
    }
    user := PreSave(user, false, false);
    db.users := db.users[found.value := user];
    if mailFails {
      return Reply(500, Message("Failed to resend verification email."), [], []);
    }
    reply := Reply(200, Message("Verification email resent."), [], [Mail(VerifyMail, user.email, issued.rawToken)]);
  }
}
