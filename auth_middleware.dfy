/** middleware/authMiddleware.js: the request guard that authenticates a
    request from its access token, and the role and email-verification guards
    that run after it. */
module AuthMiddleware {
  import opened Common
  import opened Crypto
  import opened UserModel
  import opened Records
  import opened KeyValue
  import opened AuthHelpers
  import opened Store

  /** A guard either passes the request on with `req.user` set, or answers. */
  datatype GuardOutcome = Pass(user: User) | Deny(status: int, message: string)

  /** Where the guard looks for logged-out token ids: the Mongo blacklist
      collection, or the key-value store's `bl_access:<jti>` keys. */
  datatype Revocations = MongoBlacklist(docs: seq<BlacklistDoc>) | KvBlacklist(entries: KvMap)

  /** Whether `jti` is recorded as logged out at time `nowMs`; a record is
      visible until its expiry. */
  predicate IsRevoked(src: Revocations, jti: string, nowMs: int) {
    match src
    case MongoBlacklist(docs) => exists i :: 0 <= i < |docs| && docs[i].jti == jti && nowMs < docs[i].expiresAt
    case KvBlacklist(entries) => Get(entries, BlacklistKey(jti), nowMs).Some?
  }

  /** Where the guard reads the logged-out marks: as written, the Mongo
      blacklist collection (authMiddleware.js); in the intended reading, the
      key-value store's `bl_access:<jti>` keys that logout writes. */
  function RevocationsFor(reading: Reading, docs: seq<BlacklistDoc>, entries: KvMap): (src: Revocations)
    ensures reading == AsWritten <==> src.MongoBlacklist?
  {
    if reading == AsWritten then MongoBlacklist(docs) else KvBlacklist(entries)
  }

  /** A present, non-empty token string. */
  predicate Present(t: Option<Jwt>) {
    t.Some? && !t.value.Empty()
  }

  /** The token the guard examines: the `accessToken` cookie when it is
      non-empty, otherwise the Authorization header with its "Bearer "
      prefix removed (`header` is that value). */
  function RequestToken(cookie: Option<Jwt>, header: Option<Jwt>): Option<Jwt> {
    if Present(cookie) then cookie else header
  }

  /** `protectRoute`. `storeFails` stands for a store call that throws after
      the token has been verified; the outer catch then answers 401. */
  function ProtectRoute(users: seq<User>, revoked: Revocations, cfg: Config,
                        cookie: Option<Jwt>, header: Option<Jwt>, nowMs: nat, storeFails: bool): GuardOutcome
  {
    var token := RequestToken(cookie, header);
    if !Present(token) then Deny(401, "Unauthorized - No access token provided")
    else match Verify(cfg.jwtSecret, token.value, nowMs)
      case Failure(TokenExpiredError) => Deny(401, "Access token expired")
      case Failure(JsonWebTokenError(_)) => Deny(401, "Invalid access token")
      case Success(claims) =>
        if storeFails then Deny(401, "Unauthorized")
        else if IsRevoked(revoked, claims.jti, nowMs) then Deny(401, "Token invalidated. Please log in again.")
        else match FindUser(users, claims.userId)
          case None => Deny(401, "User not found")
          case Some(i) =>
            if users[i].isBanned then Deny(403, "Access denied. Account is banned.")
            else Pass(users[i])
  }

  /** The guard as a sequence of steps over the stores; `reading` chooses
      where it looks for logged-out marks, as `RevocationsFor` says. */
  method Protect(db: Database, kv: KeyValueStore, cfg: Config, cookie: Option<Jwt>, header: Option<Jwt>,
                 nowMs: nat, storeFails: bool, reading: Reading) returns (r: GuardOutcome)
    ensures r == ProtectRoute(db.users, RevocationsFor(reading, db.blacklist, kv.entries), cfg, cookie, header,
                              nowMs, storeFails)
    ensures r.Pass? ==> r.user in db.users && !r.user.isBanned
  {
    var token := if Present(cookie) then cookie else header;
    if !Present(token) {
      return Deny(401, "Unauthorized - No access token provided");
    }
    var decoded := Verify(cfg.jwtSecret, token.value, nowMs);
    if decoded.Failure? {
      if decoded.error == TokenExpiredError {
        return Deny(401, "Access token expired");
      }
      return Deny(401, "Invalid access token");
    }
    var claims := decoded.value;
    if storeFails {
      return Deny(401, "Unauthorized");
    }
    var revoked: bool;
    if reading == AsWritten {
      revoked := IsRevoked(MongoBlacklist(db.blacklist), claims.jti, nowMs);
    } else {
      var mark := kv.GetValue(BlacklistKey(claims.jti), nowMs);
      revoked := mark.Some?;
    }
    if revoked {
      return Deny(401, "Token invalidated. Please log in again.");
    }
    var found := FindUser(db.users, claims.userId);
    if found.None? {
      return Deny(401, "User not found");
    }
    var user := db.users[found.value];
    if user.isBanned {
      return Deny(403, "Access denied. Account is banned.");
    }
    r := Pass(user);
  }

  /** The guard fails closed: it passes a request on exactly when a token is
      present, verifies under the configured secret, no store call failed,
      its jti is not revoked, and its user exists and is not banned, and the
      user it passes on is that token's user. */
  lemma ProtectRoutePassesOnlyWhenAllChecksHold(users: seq<User>, revoked: Revocations, cfg: Config,
      cookie: Option<Jwt>, header: Option<Jwt>, nowMs: nat, storeFails: bool)
    ensures var r := ProtectRoute(users, revoked, cfg, cookie, header, nowMs, storeFails);
      var token := RequestToken(cookie, header);
      r.Pass? <==>
        && Present(token)
        && Verify(cfg.jwtSecret, token.value, nowMs).Success?
        && !storeFails
        && !IsRevoked(revoked, Verify(cfg.jwtSecret, token.value, nowMs).value.jti, nowMs)
        && FindUser(users, Verify(cfg.jwtSecret, token.value, nowMs).value.userId).Some?
        && !users[FindUser(users, Verify(cfg.jwtSecret, token.value, nowMs).value.userId).value].isBanned
    ensures var r := ProtectRoute(users, revoked, cfg, cookie, header, nowMs, storeFails);
      r.Pass? ==> r.user.id == Verify(cfg.jwtSecret, RequestToken(cookie, header).value, nowMs).value.userId
    ensures var r := ProtectRoute(users, revoked, cfg, cookie, header, nowMs, storeFails);
      r.Deny? ==> r.status in {401, 403}
  {
  }

  /** A non-empty cookie wins over the header; with neither, the guard
      answers 401 whatever the stores hold. */
  lemma CookieBeforeHeader(users: seq<User>, users': seq<User>, revoked: Revocations, revoked': Revocations,
      cfg: Config, cookie: Option<Jwt>, header: Option<Jwt>, header': Option<Jwt>, nowMs: nat, fails: bool, fails': bool)
    ensures Present(cookie) ==>
      ProtectRoute(users, revoked, cfg, cookie, header, nowMs, fails)
        == ProtectRoute(users, revoked, cfg, cookie, header', nowMs, fails)
    ensures !Present(cookie) && !Present(header) ==>
      ProtectRoute(users, revoked, cfg, cookie, header, nowMs, fails)
        == ProtectRoute(users', revoked', cfg, None, None, nowMs, fails')
        == Deny(401, "Unauthorized - No access token provided")
  {
  }

  /** An expired token is answered "Access token expired", a token signed
      with any other secret "Invalid access token". */
  lemma VerificationFailures(users: seq<User>, revoked: Revocations, cfg: Config, secret: string,
      claims: Claims, signedAt: nat, lifetime: nat, nowMs: nat, fails: bool)
    ensures var t := Sign(secret, claims, signedAt, lifetime);
      secret == cfg.jwtSecret && nowMs / 1000 >= signedAt / 1000 + lifetime ==>
        ProtectRoute(users, revoked, cfg, Some(t), None, nowMs, fails) == Deny(401, "Access token expired")
    ensures var t := Sign(secret, claims, signedAt, lifetime);
      secret != cfg.jwtSecret ==>
        ProtectRoute(users, revoked, cfg, Some(t), None, nowMs, fails) == Deny(401, "Invalid access token")
  {
    VerifySign(secret, cfg.jwtSecret, claims, signedAt, lifetime, nowMs);
  }

  /** `adminRoute`: passes exactly an admin. */
  function AdminRoute(user: Option<User>): (r: GuardOutcome)
    ensures r.Pass? <==> user.Some? && user.value.role == AdminRole
    ensures r.Pass? ==> r.user == user.value
    ensures r.Deny? ==> r == Deny(403, "Access denied - Admin only")
  {
    if user.Some? && user.value.role == AdminRole then Pass(user.value) else Deny(403, "Access denied - Admin only")
  }

  /** `emailVerified`: passes exactly a user whose email is verified. */
  function EmailVerified(user: Option<User>): (r: GuardOutcome)
    ensures r.Pass? <==> user.Some? && user.value.isEmailVerified
    ensures r.Pass? ==> r.user == user.value
    ensures r.Deny? ==> r == Deny(403, "Please verify your email to access this feature.")
  {
    if user.Some? && user.value.isEmailVerified then Pass(user.value)
    else Deny(403, "Please verify your email to access this feature.")
  }

  /** `artisanOnly`: passes exactly an artisan. */
  function ArtisanOnly(user: Option<User>): (r: GuardOutcome)
    ensures r.Pass? <==> user.Some? && user.value.role == ArtisanRole
    ensures r.Pass? ==> r.user == user.value
    ensures r.Deny? ==> r == Deny(403, "Only artisans can perform this action.")
  {
    if user.Some? && user.value.role == ArtisanRole then Pass(user.value)
    else Deny(403, "Only artisans can perform this action.")
  }
}
