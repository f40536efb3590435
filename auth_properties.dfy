/** What the account handlers guarantee, stated over their outcome functions:
    the order of the login checks, the refresh-token registry, single use of
    refresh and one-time tokens, logout and password-change effects, and how
    the configured secrets and the revocation store decide what the request
    guard accepts. */
module AuthProperties {
  import opened Common
  import opened Text
  import opened Crypto
  import opened OneTimeToken
  import opened UserModel
  import opened KeyValue
  import opened AuthHelpers
  import opened AuthMiddleware
  import opened Store
  import opened AuthController
  import opened ErrorMiddleware
  import Answer

  // ----------------------------------------------------------------- login

  /** Login answers 400 for an empty email or password, 401 for an unknown
      email or a wrong password, and 403 for a banned account only once the
      password has matched; every refusal changes nothing and sets no cookie. */
  lemma LoginCheckOrder(s: Accounts, cfg: Config, email: string, password: Option<string>, rememberMe: bool,
                        jti: string, nowMs: nat, kvFault: Option<string>)
    ensures var o := LoginOutcome(s, cfg, Some(email), password, rememberMe, jti, nowMs, kvFault);
      var e := ToLower(email);
      var found := FindByEmail(s.users, e);
      var checked := e != [] && Truthy(password);
      && (o.reply.status == 400 <==> !checked)
      && (o.reply.status == 401 <==> checked && (found.None? || !ComparePassword(s.users[found.value], password.value)))
      && (o.reply.status == 403 <==>
            checked && found.Some? && ComparePassword(s.users[found.value], password.value) && s.users[found.value].isBanned)
      && (o.reply.status == 200 || (o.state == s && o.reply.cookies == []))
    ensures LoginOutcome(s, cfg, None, password, rememberMe, jti, nowMs, kvFault) == Unchanged(s, 500, "Internal server error")
  {
  }

  /** A banned account with a wrong password is told "Invalid credentials",
      not that it is banned. */
  lemma BannedWithWrongPassword(s: Accounts, cfg: Config, email: string, password: string, jti: string, nowMs: nat,
                                kvFault: Option<string>)
    requires ToLower(email) != [] && password != []
    requires FindByEmail(s.users, ToLower(email)).Some?
    requires var u := s.users[FindByEmail(s.users, ToLower(email)).value]; u.isBanned && !ComparePassword(u, password)
    ensures LoginOutcome(s, cfg, Some(email), Some(password), false, jti, nowMs, kvFault)
         == Unchanged(s, 401, "Invalid credentials")
  {
  }

  /** A successful login puts the new refresh token under the user's key,
      replacing whatever was there, for 30 days, touches no other key, and
      sets both cookies with lifetimes chosen by rememberMe. */
  lemma LoginReplacesRefreshToken(s: Accounts, cfg: Config, email: string, password: string, rememberMe: bool,
                                  jti: string, nowMs: nat, at: int)
    requires LoginOutcome(s, cfg, Some(email), Some(password), rememberMe, jti, nowMs, None).reply.status == 200
    ensures FindByEmail(s.users, ToLower(email)).Some?
    ensures var o := LoginOutcome(s, cfg, Some(email), Some(password), rememberMe, jti, nowMs, None);
      var u := s.users[FindByEmail(s.users, ToLower(email)).value];
      var pair := GenerateTokens(cfg, u.id, jti, nowMs);
      && ComparePassword(u, password) && !u.isBanned
      && o.state.users == s.users
      && Get(o.state.kv, RefreshKey(u.id), at) == (if at < nowMs + 2_592_000_000 then Some(TokenValue(pair.refreshToken)) else None)
      && (forall k :: k != RefreshKey(u.id) ==> (k in o.state.kv <==> k in s.kv))
      && (forall k :: k != RefreshKey(u.id) && k in s.kv ==> o.state.kv[k] == s.kv[k])
      && o.reply.cookies == SetCookies(cfg, pair.accessToken, pair.refreshToken, rememberMe)
  {
  }

  /** A store failure while saving the refresh token does not fail the login:
      the user still gets both cookies, but no token is stored. */
  lemma LoginSwallowsStoreFailure(s: Accounts, cfg: Config, email: string, password: string, rememberMe: bool,
                                  jti: string, nowMs: nat, fault: string)
    requires LoginOutcome(s, cfg, Some(email), Some(password), rememberMe, jti, nowMs, None).reply.status == 200
    ensures var o := LoginOutcome(s, cfg, Some(email), Some(password), rememberMe, jti, nowMs, Some(fault));
      o.state == s && o.reply == LoginOutcome(s, cfg, Some(email), Some(password), rememberMe, jti, nowMs, None).reply
  {
  }

  // --------------------------------------------------------------- refresh

  /** Refresh succeeds exactly when a refresh cookie is present, verifies,
      the store answers and holds that very token for the user; any failure
      answers 401, clears both cookies and changes nothing. */
  lemma RefreshSucceedsExactlyOnStoredToken(s: Accounts, cfg: Config, cookie: Option<Jwt>, newJti: string, nowMs: nat,
                                            kvFault: Option<string>)
    ensures var o := RefreshOutcome(s, cfg, cookie, newJti, nowMs, kvFault);
      o.reply.status == 200 <==>
        && Present(cookie)
        && Verify(cfg.jwtSecret, cookie.value, nowMs).Success?
        && kvFault.None?
        && Get(s.kv, RefreshKey(Verify(cfg.jwtSecret, cookie.value, nowMs).value.userId), nowMs) == Some(TokenValue(cookie.value))
    ensures var o := RefreshOutcome(s, cfg, cookie, newJti, nowMs, kvFault);
      o.reply.status != 200 ==> o.reply.status == 401 && o.reply.cookies == ClearAuthCookies() && o.state == s
    ensures RefreshOutcome(s, cfg, None, newJti, nowMs, kvFault).reply.body == Message("No refresh token")
  {
  }

  /** Refresh is single use: once a token has been exchanged (for a pair with
      a fresh jti), presenting it again fails, at any later time. */
  lemma RefreshIsSingleUse(s: Accounts, cfg: Config, t: Jwt, jti1: string, jti2: string, now1: nat, now2: nat,
                           fault2: Option<string>)
    requires RefreshOutcome(s, cfg, Some(t), jti1, now1, None).reply.status == 200
    requires t.Signed? && t.claims.jti != jti1
    ensures var s1 := RefreshOutcome(s, cfg, Some(t), jti1, now1, None).state;
      var o2 := RefreshOutcome(s1, cfg, Some(t), jti2, now2, fault2);
      o2.reply.status == 401 && o2.state == s1
  {
    var userId := t.claims.userId;
    var s1 := RefreshOutcome(s, cfg, Some(t), jti1, now1, None).state;
    var issuedNow := GenerateTokens(cfg, userId, jti1, now1).refreshToken;
    assert s1.kv == Set(s.kv, RefreshKey(userId), TokenValue(issuedNow), RefreshTokenSeconds, now1);
    assert issuedNow != t;
    assert Get(s1.kv, RefreshKey(userId), now2) != Some(TokenValue(t));
  }

  /** A later login replaces the stored token, so a refresh token issued
      before it can no longer be exchanged. */
  lemma LoginRetiresEarlierRefreshToken(s: Accounts, cfg: Config, email: string, password: string, rememberMe: bool,
                                        jti: string, nowMs: nat, earlier: Jwt, newJti: string, at: nat, fault: Option<string>)
    requires LoginOutcome(s, cfg, Some(email), Some(password), rememberMe, jti, nowMs, None).reply.status == 200
    requires earlier.Signed? && earlier.claims.jti != jti
    requires FindByEmail(s.users, ToLower(email)).Some? && earlier.claims.userId == s.users[FindByEmail(s.users, ToLower(email)).value].id
    ensures var s1 := LoginOutcome(s, cfg, Some(email), Some(password), rememberMe, jti, nowMs, None).state;
      RefreshOutcome(s1, cfg, Some(earlier), newJti, at, fault).reply.status == 401
  {
    var u := s.users[FindByEmail(s.users, ToLower(email)).value];
    var s1 := LoginOutcome(s, cfg, Some(email), Some(password), rememberMe, jti, nowMs, None).state;
    var issued := GenerateTokens(cfg, u.id, jti, nowMs).refreshToken;
    assert s1.kv == Set(s.kv, RefreshKey(u.id), TokenValue(issued), RefreshTokenSeconds, nowMs);
    assert Get(s1.kv, RefreshKey(u.id), at) != Some(TokenValue(earlier));
  }

  /** A successful refresh ignores how the session was opened: the new
      cookies always carry the short lifetimes (one hour, one day). */
  lemma RefreshForgetsRememberMe(s: Accounts, cfg: Config, cookie: Option<Jwt>, newJti: string, nowMs: nat)
    requires RefreshOutcome(s, cfg, cookie, newJti, nowMs, None).reply.status == 200
    ensures var cs := RefreshOutcome(s, cfg, cookie, newJti, nowMs, None).reply.cookies;
      |cs| == 2 && cs[0].SetCookie? && cs[1].SetCookie?
      && cs[0].options.maxAge == 3_600_000 && cs[1].options.maxAge == 86_400_000
  {
  }

  // ---------------------------------------------------------------- logout

  /** With both tokens present and valid, logout marks the access token's
      jti for one hour, deletes the user's stored refresh token and clears
      both cookies; nothing else changes. */
  lemma LogoutEffects(s: Accounts, cfg: Config, access: Jwt, refresh: Jwt, nowMs: nat)
    requires !access.Empty() && !refresh.Empty()
    requires Verify(cfg.jwtSecret, access, nowMs).Success? && Verify(cfg.jwtSecret, refresh, nowMs).Success?
    ensures var jti := Verify(cfg.jwtSecret, access, nowMs).value.jti;
      var userId := Verify(cfg.jwtSecret, refresh, nowMs).value.userId;
      LogoutOutcome(s, cfg, Some(access), Some(refresh), nowMs, None)
        == Outcome(Accounts(s.users, Del(Set(s.kv, BlacklistKey(jti), TrueFlag, 3600, nowMs), RefreshKey(userId))),
                   Reply(200, Message("Logged out successfully"), ClearAuthCookies(), []))
  {
  }

  /** Without tokens logout only clears the cookies. If the access token
      fails to verify, logout answers 500 at once: nothing is recorded, the
      refresh token stays redeemable and the cookies stay set. */
  lemma LogoutStopsAtFirstFailure(s: Accounts, cfg: Config, access: Jwt, refresh: Option<Jwt>, nowMs: nat,
                                  kvFault: Option<string>)
    ensures LogoutOutcome(s, cfg, None, None, nowMs, kvFault)
         == Outcome(s, Reply(200, Message("Logged out successfully"), ClearAuthCookies(), []))
    ensures !access.Empty() && Verify(cfg.jwtSecret, access, nowMs).Failure? ==>
      var o := LogoutOutcome(s, cfg, Some(access), refresh, nowMs, kvFault);
      o.state == s && o.reply.status == 500 && o.reply.cookies == []
  {
  }

  // -------------------------------------------------------- changePassword

  /** A wrong current password changes nothing (401). With the right one, an
      empty new password (or an account whose stored name is empty) fails the
      save's required-path validation: 400 naming the path, and the password,
      the refresh token and the cookies all stay. */
  lemma ChangePasswordRefusals(s: Accounts, cfg: Config, userId: UserId, current: string, newPassword: string,
                               kvFault: Option<string>)
    requires FindUser(s.users, userId).Some?
    ensures var i := FindUser(s.users, userId).value;
      var o := ChangePasswordOutcome(s, cfg, userId, current, newPassword, kvFault);
      && (!ComparePassword(s.users[i], current) ==> o == Unchanged(s, 401, "Current password is incorrect"))
      && (ComparePassword(s.users[i], current) && (newPassword == [] || s.users[i].name == [] || s.users[i].email == []) ==>
            && o.state == s && o.reply.status == 400 && o.reply.cookies == []
            && (newPassword == [] && s.users[i].name != [] && s.users[i].email != [] ==>
                  o.reply.body.ErrorPage? && o.reply.body.message == "Path `password` is required."))
  {
    var i := FindUser(s.users, userId).value;
    var changed := s.users[i].(password := Plain(newPassword));
    if ComparePassword(s.users[i], current) && MissingOnSave(changed) == ["password"] {
      Answer.MissingPathReply("password", cfg.production);
      assert "Path `" + "password" + "` is required." == "Path `password` is required.";
    }
  }

  /** With the right current password and a save that validates, the account
      accepts exactly the new password, the stored refresh token is deleted
      and both cookies cleared; if the store fails at that point the new
      password is kept but the refresh token survives and the answer is 500. */
  lemma ChangePasswordEffects(s: Accounts, cfg: Config, userId: UserId, current: string, newPassword: string,
                              kvFault: Option<string>, candidate: string, at: int)
    requires FindUser(s.users, userId).Some?
    ensures var i := FindUser(s.users, userId).value;
      var o := ChangePasswordOutcome(s, cfg, userId, current, newPassword, kvFault);
      ComparePassword(s.users[i], current) && newPassword != [] && s.users[i].name != [] && s.users[i].email != [] ==>
        && |o.state.users| == |s.users|
        && (ComparePassword(o.state.users[i], candidate) <==> candidate == newPassword)
        && (forall j :: 0 <= j < |s.users| && j != i ==> o.state.users[j] == s.users[j])
        && (kvFault.None? ==> Get(o.state.kv, RefreshKey(userId), at).None? && o.reply.cookies == ClearAuthCookies()
                              && o.reply.status == 200)
        && (kvFault.Some? ==> o.state.kv == s.kv && o.reply.status == 500 && o.reply.cookies == [])
  {
  }

  // -------------------------------------------------------- one-time tokens

  /** No two accounts hold the same reset digest. */
  predicate DistinctResetDigests(users: seq<User>) {
    forall j, k :: 0 <= j < k < |users| && users[j].resetPasswordToken.Some? ==>
      users[j].resetPasswordToken != users[k].resetPasswordToken
  }

  /** A reset token works once: after a successful reset the account no
      longer holds it, and a second attempt with it fails and changes nothing. */
  lemma ResetIsSingleUse(s: Accounts, token: string, p1: string, p2: string, now1: nat, now2: nat)
    requires DistinctResetDigests(s.users)
    requires ResetPasswordOutcome(s, token, p1, now1).reply.status == 200
    ensures var s1 := ResetPasswordOutcome(s, token, p1, now1).state;
      ResetPasswordOutcome(s1, token, p2, now2) == Unchanged(s1, 400, "Token invalid or expired")
  {
    var h := Sha256Hex(token);
    var i := FindResetHolder(s.users, h, now1).value;
    var s1 := ResetPasswordOutcome(s, token, p1, now1).state;
    forall j | 0 <= j < |s1.users|
      ensures !HoldsResetToken(s1.users[j], h, now2)
    {
      if j != i {
        if j < i {
          assert s.users[j].resetPasswordToken.Some? ==> s.users[j].resetPasswordToken != s.users[i].resetPasswordToken;
        } else {
          assert s.users[i].resetPasswordToken != s.users[j].resetPasswordToken;
        }
      }
    }
  }

  /** A reset token whose expiry is not after now is refused. */
  lemma ResetTokenExpires(s: Accounts, token: string, password: string, nowMs: nat)
    requires forall j :: 0 <= j < |s.users| && s.users[j].resetPasswordToken == Some(Sha256Hex(token)) ==>
      s.users[j].resetPasswordExpires.Some? && s.users[j].resetPasswordExpires.value <= nowMs
    ensures ResetPasswordOutcome(s, token, password, nowMs) == Unchanged(s, 400, "Token invalid or expired")
  {
  }

  /** After a successful verification the same link never verifies again:
      the account's token is cleared, so the lookup falls back to "already
      verified" and nothing changes. */
  lemma VerifySecondUse(s: Accounts, token: string, now1: nat, now2: nat)
    requires forall j, k :: 0 <= j < k < |s.users| && s.users[j].verificationToken.Some? ==>
      s.users[j].verificationToken != s.users[k].verificationToken
    requires VerifyEmailOutcome(s, token, now1).reply.body == Message("Email verified successfully. You can now log in.")
    ensures var s1 := VerifyEmailOutcome(s, token, now1).state;
      VerifyEmailOutcome(s1, token, now2)
        == Outcome(s1, Reply(200, AlreadyVerified("Your email is already verified. You can log in."), [], []))
  {
    var h := Sha256Hex(token);
    var i := FindVerificationHolder(s.users, h, now1).value;
    var s1 := VerifyEmailOutcome(s, token, now1).state;
    forall j | 0 <= j < |s1.users|
      ensures !HoldsVerificationToken(s1.users[j], h, now2)
    {
      if j < i {
        assert s.users[j].verificationToken.Some? ==> s.users[j].verificationToken != s.users[i].verificationToken;
      } else if j > i {
        assert s.users[i].verificationToken != s.users[j].verificationToken;
      }
    }
    assert s1.users[i].isEmailVerified;
  }

  /** A verification link nobody holds is answered "already verified"
      whenever any account at all is verified, whatever the token, and 400
      otherwise; either way nothing changes. */
  lemma VerifyFallback(s: Accounts, token: string, nowMs: nat)
    requires forall j :: 0 <= j < |s.users| ==> !HoldsVerificationToken(s.users[j], Sha256Hex(token), nowMs)
    ensures var o := VerifyEmailOutcome(s, token, nowMs);
      && o.state == s
      && (o.reply.body == AlreadyVerified("Your email is already verified. You can log in.") <==>
            exists j :: 0 <= j < |s.users| && s.users[j].isEmailVerified)
      && (o.reply.status == 400 <==> forall j :: 0 <= j < |s.users| ==> !s.users[j].isEmailVerified)
  {
    assert FindVerificationHolder(s.users, Sha256Hex(token), nowMs).None?;
    if FindVerified(s.users).Some? {
      assert s.users[FindVerified(s.users).value].isEmailVerified;
    }
  }

  /** forgotPassword gives the same answer whether or not the email belongs to
      an account; for an unknown email it changes nothing and sends nothing.
      The two exceptions leave the request unanswered: an account that fails
      the save's required-path validation (an empty stored name), where
      nothing is stored or mailed, and a mailer that rejects, where the new
      digest and expiry are stored but no mail goes out. */
  lemma ForgotPasswordSameAnswer(s: Accounts, email: string, random: seq<byte>, nowMs: nat, mailFails: bool,
                                 reading: Reading)
    requires |random| == 32
    ensures var o := ForgotPasswordOutcome(s, email, random, nowMs, mailFails, reading);
      var found := FindByEmail(s.users, email);
      found.None? || (MissingOnSave(s.users[found.value]) == [] && !mailFails) ==>
        o.reply.status == 200 && o.reply.body == Message("If that email exists, a reset link has been sent.")
    ensures FindByEmail(s.users, email).None? ==>
      ForgotPasswordOutcome(s, email, random, nowMs, mailFails, reading) == Unchanged(s, 200, ResetAnswer)
    ensures var found := FindByEmail(s.users, email);
      found.Some? && MissingOnSave(s.users[found.value]) != [] ==>
        ForgotPasswordOutcome(s, email, random, nowMs, mailFails, reading) == Unanswered(s)
    ensures var found := FindByEmail(s.users, email);
      var issued := Issue(reading, random, nowMs);
      found.Some? && MissingOnSave(s.users[found.value]) == [] && mailFails ==>
        ForgotPasswordOutcome(s, email, random, nowMs, mailFails, reading)
        == Unanswered(Accounts(s.users[found.value := s.users[found.value].(resetPasswordToken := issued.hashedToken,
                                                                           resetPasswordExpires := issued.expires)], s.kv))
  {
  }

  /** forgotPassword matches the email exactly as typed: with every stored
      email in lower case, an address containing an upper-case letter finds
      no account. */
  lemma ForgotPasswordIsCaseSensitive(s: Accounts, email: string, random: seq<byte>, nowMs: nat, mailFails: bool,
                                       k: nat)
    requires |random| == 32
    requires forall j :: 0 <= j < |s.users| ==> ToLower(s.users[j].email) == s.users[j].email
    requires k < |email| && IsUpper(email[k])
    ensures ForgotPasswordOutcome(s, email, random, nowMs, mailFails, Intended) == Unchanged(s, 200, ResetAnswer)
  {
  }

  /** resendVerificationEmail refuses an unknown email and an account already
      verified with 400, and an account whose save fails validation with 500;
      none of these changes anything or mails anything. */
  lemma ResendVerificationRefusals(s: Accounts, email: string, random: seq<byte>, nowMs: nat, mailFails: bool,
                                   reading: Reading)
    requires |random| == 32
    ensures var o := ResendVerificationOutcome(s, email, random, nowMs, mailFails, reading);
      var found := FindByEmail(s.users, email);
      && (found.None? ==> o == Unchanged(s, 400, "No account found with that email."))
      && (found.Some? && s.users[found.value].isEmailVerified ==>
            o == Unchanged(s, 400, "This account is already verified."))
      && (found.Some? && !s.users[found.value].isEmailVerified && MissingOnSave(s.users[found.value]) != [] ==>
            o == Unchanged(s, 500, "Failed to resend verification email."))
  {
  }

  /** Otherwise only that account changes, and only in its verification
      digest and expiry, which become what the chosen reading issues: under
      the generator's own key names, the SHA-256 of the mailed raw token and
      an hour from now. The save comes before the mail, so a mail failure
      answers 500 but keeps the new digest. */
  lemma ResendVerificationStores(s: Accounts, email: string, random: seq<byte>, nowMs: nat, mailFails: bool,
                                 reading: Reading)
    requires |random| == 32
    requires FindByEmail(s.users, email).Some?
    requires !s.users[FindByEmail(s.users, email).value].isEmailVerified
    requires MissingOnSave(s.users[FindByEmail(s.users, email).value]) == []
    ensures var o := ResendVerificationOutcome(s, email, random, nowMs, mailFails, reading);
      var i := FindByEmail(s.users, email).value;
      var issued := Issue(reading, random, nowMs);
      && |o.state.users| == |s.users| && o.state.kv == s.kv
      && (forall j :: 0 <= j < |s.users| && j != i ==> o.state.users[j] == s.users[j])
      && o.state.users[i] == s.users[i].(verificationToken := issued.hashedToken, verificationTokenExpires := issued.expires)
      && (mailFails ==> o.reply == Reply(500, Message("Failed to resend verification email."), [], []))
      && (!mailFails ==> o.reply == Reply(200, Message("Verification email resent."), [], [Mail(VerifyMail, email, issued.rawToken)]))
    ensures reading == Intended ==>
      var o := ResendVerificationOutcome(s, email, random, nowMs, mailFails, reading);
      var i := FindByEmail(s.users, email).value;
      var t := GenerateHashedToken(random, nowMs);
      && o.state.users[i].verificationToken == Some(Sha256Hex(t.raw))
      && o.state.users[i].verificationTokenExpires == Some(nowMs + 3_600_000)
      && (!mailFails ==> o.reply.mail == [Mail(VerifyMail, email, Some(t.raw))])
  {
  }

  /** Under the generator's own key names, the link a resend mails verifies
      the account within the hour. */
  lemma ResendThenVerify(s: Accounts, email: string, random: seq<byte>, now1: nat, now2: nat)
    requires |random| == 32
    requires FindByEmail(s.users, email).Some?
    requires !s.users[FindByEmail(s.users, email).value].isEmailVerified
    requires MissingOnSave(s.users[FindByEmail(s.users, email).value]) == []
    requires forall j :: 0 <= j < |s.users| ==> s.users[j].verificationToken != Some(GenerateHashedToken(random, now1).hashed)
    requires now2 < now1 + 3_600_000
    ensures var o1 := ResendVerificationOutcome(s, email, random, now1, false, Intended);
      && |o1.reply.mail| == 1 && o1.reply.mail[0].token.Some?
      && var o2 := VerifyEmailOutcome(o1.state, o1.reply.mail[0].token.value, now2);
         var i := FindByEmail(s.users, email).value;
         && o2.reply.body == Message("Email verified successfully. You can now log in.")
         && o2.state.users[i].isEmailVerified
  {
    ResendVerificationStores(s, email, random, now1, false, Intended);
    var i := FindByEmail(s.users, email).value;
    var t := GenerateHashedToken(random, now1);
    var o1 := ResendVerificationOutcome(s, email, random, now1, false, Intended);
    assert HoldsVerificationToken(o1.state.users[i], Sha256Hex(t.raw), now2);
    forall j | 0 <= j < i
      ensures !HoldsVerificationToken(o1.state.users[j], Sha256Hex(t.raw), now2)
    {
      assert o1.state.users[j] == s.users[j];
    }
    assert FindVerificationHolder(o1.state.users, Sha256Hex(t.raw), now2) == Some(i);
    assert MissingOnSave(o1.state.users[i].(isEmailVerified := true, verificationToken := None, verificationTokenExpires := None)) == [];
  }

  // ----------------------------------------------------------------- signup

  /** Signup stores the email in lower case, lets the client choose any of
      the three roles (admin included), refuses an email already taken, and
      hands out a session at once. */
  lemma SignupEffects(s: Accounts, cfg: Config, req: SignupRequest, newId: UserId, jti: string, random: seq<byte>,
                      nowMs: nat)
    requires |random| == 32 && req.email.Some? && !ReferralThrows(s.kv, req.referrer, nowMs, None)
    ensures var o := SignupOutcome(s, cfg, req, newId, jti, random, nowMs, None, Intended);
      var email := ToLower(req.email.value);
      && (FindByEmail(s.users, email).Some? ==> o == Unchanged(s, 400, "User already exists"))
      && (FindByEmail(s.users, email).None? && Creatable(email, req) ==>
            && o.reply.status == 201
            && |o.state.users| == |s.users| + 1 && o.state.users[..|s.users|] == s.users
            && o.state.users[|s.users|].email == email
            && o.state.users[|s.users|].role == (if req.role.Some? then ParseRole(req.role.value).value else UserRole)
            && ComparePassword(o.state.users[|s.users|], req.password.value)
            && Get(o.state.kv, RefreshKey(newId), nowMs) == Some(TokenValue(GenerateTokens(cfg, newId, jti, nowMs).refreshToken)))
  {
  }

  // --------------------------------------------------------------- findings

  /** As written, forgotPassword stores no reset digest and mails no token,
      because it reads the generator's result under key names it does not
      have; from a state without reset digests no reset can ever succeed. */
  lemma ResetNeverSucceedsAsWritten(s: Accounts, email: string, random: seq<byte>, now1: nat, mailFails: bool,
                                    token: string, password: string, now2: nat)
    requires |random| == 32
    requires forall j :: 0 <= j < |s.users| ==> s.users[j].resetPasswordToken.None?
    ensures var o1 := ForgotPasswordOutcome(s, email, random, now1, mailFails, AsWritten);
      && (forall m :: m in o1.reply.mail ==> m.token.None?)
      && ResetPasswordOutcome(o1.state, token, password, now2) == Unchanged(o1.state, 400, "Token invalid or expired")
  {
    var o1 := ForgotPasswordOutcome(s, email, random, now1, mailFails, AsWritten);
    forall j | 0 <= j < |o1.state.users|
      ensures !HoldsResetToken(o1.state.users[j], Sha256Hex(token), now2)
    {
    }
  }

  /** Read under the generator's own key names, with the mailer accepting the
      mail, the mailed token resets the password within the hour: the account
      then accepts exactly the new password and no longer holds a reset token. An empty new password fails
      the save's validation instead: no response, and the token stays valid.
      An account that fails validation already is sent no token at all. */
  lemma ForgotThenReset(s: Accounts, email: string, random: seq<byte>, now1: nat, password: string, now2: nat,
                        candidate: string)
    requires |random| == 32
    requires FindByEmail(s.users, email).Some?
    requires forall j :: 0 <= j < |s.users| ==> s.users[j].resetPasswordToken != Some(GenerateHashedToken(random, now1).hashed)
    requires now2 < now1 + 3_600_000
    ensures var i := FindByEmail(s.users, email).value;
      MissingOnSave(s.users[i]) != [] ==> ForgotPasswordOutcome(s, email, random, now1, false, Intended) == Unanswered(s)
    ensures var o1 := ForgotPasswordOutcome(s, email, random, now1, false, Intended);
      var i := FindByEmail(s.users, email).value;
      MissingOnSave(s.users[i]) == [] ==>
        && |o1.reply.mail| == 1 && o1.reply.mail[0].token.Some?
        && var o2 := ResetPasswordOutcome(o1.state, o1.reply.mail[0].token.value, password, now2);
           && (password == [] ==> o2 == Unanswered(o1.state))
           && (password != [] ==>
                 && o2.reply == Reply(200, Message("Password has been reset successfully."), [], [])
                 && (ComparePassword(o2.state.users[i], candidate) <==> candidate == password)
                 && o2.state.users[i].resetPasswordToken.None?)
  {
    var i := FindByEmail(s.users, email).value;
    if MissingOnSave(s.users[i]) != [] {
      return;
    }
    var t := GenerateHashedToken(random, now1);
    var o1 := ForgotPasswordOutcome(s, email, random, now1, false, Intended);
    assert o1.state.users[i].resetPasswordToken == Some(Sha256Hex(t.raw));
    assert HoldsResetToken(o1.state.users[i], Sha256Hex(t.raw), now2);
    forall j | 0 <= j < i
      ensures !HoldsResetToken(o1.state.users[j], Sha256Hex(t.raw), now2)
    {
      assert o1.state.users[j] == s.users[j];
    }
    assert FindResetHolder(o1.state.users, Sha256Hex(t.raw), now2) == Some(i);
  }

  /** A signup that creates the account appends exactly one record, holding
      the issued digest and expiry, and mails the issued raw token to it. */
  lemma SignupCreates(s: Accounts, cfg: Config, req: SignupRequest, newId: UserId, jti: string,
                      random: seq<byte>, nowMs: nat, kvFault: Option<string>, reading: Reading)
    requires |random| == 32
    requires SignupOutcome(s, cfg, req, newId, jti, random, nowMs, kvFault, reading).reply.status == 201
    ensures var o := SignupOutcome(s, cfg, req, newId, jti, random, nowMs, kvFault, reading);
      var issued := Issue(reading, random, nowMs);
      var n := |s.users|;
      && |o.state.users| == n + 1
      && (forall j :: 0 <= j < n ==> o.state.users[j] == s.users[j])
      && o.state.users[n].verificationToken == issued.hashedToken
      && o.state.users[n].verificationTokenExpires == issued.expires
      && o.reply.mail == [Mail(VerifyMail, o.state.users[n].email, issued.rawToken)]
  {
    var email := ToLower(req.email.value);
    var c := SignupCreated(s, cfg, req, email, newId, jti, random, nowMs, kvFault, reading);
    assert SignupOutcome(s, cfg, req, newId, jti, random, nowMs, kvFault, reading) == c;
  }

  /** Any other signup answer leaves the accounts as they were and mails nothing. */
  lemma SignupRefuses(s: Accounts, cfg: Config, req: SignupRequest, newId: UserId, jti: string,
                      random: seq<byte>, nowMs: nat, kvFault: Option<string>, reading: Reading)
    requires |random| == 32
    requires SignupOutcome(s, cfg, req, newId, jti, random, nowMs, kvFault, reading).reply.status != 201
    ensures var o := SignupOutcome(s, cfg, req, newId, jti, random, nowMs, kvFault, reading);
      o.state.users == s.users && o.reply.mail == []
  {
  }

  /** As written, signup mails no token and stores no verification digest:
      from a state without digests it leaves a state without digests. */
  lemma SignupStoresNoDigestAsWritten(s: Accounts, cfg: Config, req: SignupRequest, newId: UserId, jti: string,
                                      random: seq<byte>, nowMs: nat, kvFault: Option<string>)
    requires |random| == 32
    requires forall j :: 0 <= j < |s.users| ==> s.users[j].verificationToken.None?
    ensures var o := SignupOutcome(s, cfg, req, newId, jti, random, nowMs, kvFault, AsWritten);
      && (forall m :: m in o.reply.mail ==> m.token.None?)
      && (forall j :: 0 <= j < |o.state.users| ==> o.state.users[j].verificationToken.None?)
  {
    var o := SignupOutcome(s, cfg, req, newId, jti, random, nowMs, kvFault, AsWritten);
    if o.reply.status == 201 {
      SignupCreates(s, cfg, req, newId, jti, random, nowMs, kvFault, AsWritten);
      var issued := Issue(AsWritten, random, nowMs);
      assert issued.hashedToken.None? && issued.rawToken.None?;
      forall j | 0 <= j < |o.state.users|
        ensures o.state.users[j].verificationToken.None?
      {
        if j < |s.users| {
          assert o.state.users[j] == s.users[j];
        }
      }
    } else {
      SignupRefuses(s, cfg, req, newId, jti, random, nowMs, kvFault, AsWritten);
    }
  }

  /** With no verification digest stored, no link verifies anything. */
  lemma VerifyFailsWithoutDigests(s: Accounts, token: string, nowMs: nat)
    requires forall j :: 0 <= j < |s.users| ==> s.users[j].verificationToken.None?
    ensures VerifyEmailOutcome(s, token, nowMs).reply.body != Message("Email verified successfully. You can now log in.")
    ensures VerifyEmailOutcome(s, token, nowMs).state == s
  {
    assert FindVerificationHolder(s.users, Sha256Hex(token), nowMs).None?;
  }

  /** As written, signup stores no verification digest, so from a state
      without digests no verification link ever succeeds. */
  lemma VerifyNeverSucceedsAsWritten(s: Accounts, cfg: Config, req: SignupRequest, newId: UserId, jti: string,
                                     random: seq<byte>, now1: nat, kvFault: Option<string>, token: string, now2: nat)
    requires |random| == 32
    requires forall j :: 0 <= j < |s.users| ==> s.users[j].verificationToken.None?
    ensures var o1 := SignupOutcome(s, cfg, req, newId, jti, random, now1, kvFault, AsWritten);
      && (forall m :: m in o1.reply.mail ==> m.token.None?)
      && VerifyEmailOutcome(o1.state, token, now2).reply.body != Message("Email verified successfully. You can now log in.")
  {
    SignupStoresNoDigestAsWritten(s, cfg, req, newId, jti, random, now1, kvFault);
    VerifyFailsWithoutDigests(SignupOutcome(s, cfg, req, newId, jti, random, now1, kvFault, AsWritten).state, token, now2);
  }

  /** Read under the generator's own key names, the link mailed at signup
      verifies the new account within the hour. */
  lemma SignupThenVerify(s: Accounts, cfg: Config, req: SignupRequest, newId: UserId, jti: string,
                         random: seq<byte>, now1: nat, kvFault: Option<string>, now2: nat)
    requires |random| == 32
    requires SignupOutcome(s, cfg, req, newId, jti, random, now1, kvFault, Intended).reply.status == 201
    requires forall j :: 0 <= j < |s.users| ==> s.users[j].verificationToken != Some(GenerateHashedToken(random, now1).hashed)
    requires now2 < now1 + 3_600_000
    ensures var o1 := SignupOutcome(s, cfg, req, newId, jti, random, now1, kvFault, Intended);
      && |o1.reply.mail| == 1 && o1.reply.mail[0].token.Some?
      && var o2 := VerifyEmailOutcome(o1.state, o1.reply.mail[0].token.value, now2);
         && o2.reply.body == Message("Email verified successfully. You can now log in.")
         && |s.users| < |o2.state.users| && o2.state.users[|s.users|].isEmailVerified
  {
    SignupCreates(s, cfg, req, newId, jti, random, now1, kvFault, Intended);
    var t := GenerateHashedToken(random, now1);
    var o1 := SignupOutcome(s, cfg, req, newId, jti, random, now1, kvFault, Intended);
    var n := |s.users|;
    assert HoldsVerificationToken(o1.state.users[n], Sha256Hex(t.raw), now2);
    forall j | 0 <= j < n
      ensures !HoldsVerificationToken(o1.state.users[j], Sha256Hex(t.raw), now2)
    {
    }
    HolderAfterNoneBefore(o1.state.users, Sha256Hex(t.raw), now2, n);
    assert MissingOnSave(o1.state.users[n]) == [];
    VerifiesHolder(o1.state, t.raw, now2, n);
  }

  /** Verifying through the first live holder of the digest, whose save
      validates, marks that account verified and answers success. */
  lemma VerifiesHolder(s: Accounts, token: string, nowMs: nat, n: nat)
    requires FindVerificationHolder(s.users, Sha256Hex(token), nowMs) == Some(n)
    requires MissingOnSave(s.users[n]) == []
    ensures var o := VerifyEmailOutcome(s, token, nowMs);
      && o.reply.body == Message("Email verified successfully. You can now log in.")
      && |o.state.users| == |s.users| && o.state.users[n].isEmailVerified
  {
    var u := s.users[n].(isEmailVerified := true, verificationToken := None, verificationTokenExpires := None);
    assert MissingOnSave(u) == MissingOnSave(s.users[n]);
  }

  /** The first record holding a live verification digest is the one at `n`
      when none before it does. */
  lemma HolderAfterNoneBefore(users: seq<User>, h: Digest, nowMs: int, n: nat)
    requires n < |users| && HoldsVerificationToken(users[n], h, nowMs)
    requires forall j :: 0 <= j < n ==> !HoldsVerificationToken(users[j], h, nowMs)
    ensures FindVerificationHolder(users, h, nowMs) == Some(n)
  {
    var r := FindVerificationHolder(users, h, nowMs);
    assert r.Some?;
  }

  /** As written, the guard consults the Mongo blacklist, which logout never
      writes: whatever logout did, the guard answers exactly as before it. */
  lemma LogoutDoesNotRevokeAsWritten(s: Accounts, cfg: Config, access: Option<Jwt>, refresh: Option<Jwt>,
                                     nowMs: nat, kvFault: Option<string>, docs: seq<Records.BlacklistDoc>,
                                     token: Option<Jwt>, header: Option<Jwt>, at: nat, storeFails: bool)
    ensures var s1 := LogoutOutcome(s, cfg, access, refresh, nowMs, kvFault).state;
      ProtectRoute(s1.users, MongoBlacklist(docs), cfg, token, header, at, storeFails)
        == ProtectRoute(s.users, MongoBlacklist(docs), cfg, token, header, at, storeFails)
  {
  }

  /** Reading the marks logout writes, the guard refuses a logged-out access
      token for the hour the mark lasts. */
  lemma LogoutRevokes(s: Accounts, cfg: Config, access: Jwt, refresh: Option<Jwt>, nowMs: nat,
                      header: Option<Jwt>, at: nat, storeFails: bool)
    requires !access.Empty()
    requires LogoutOutcome(s, cfg, Some(access), refresh, nowMs, None).reply.status == 200
    requires nowMs <= at < nowMs + 3_600_000
    requires Verify(cfg.jwtSecret, access, at).Success? && !storeFails
    ensures var s1 := LogoutOutcome(s, cfg, Some(access), refresh, nowMs, None).state;
      ProtectRoute(s1.users, KvBlacklist(s1.kv), cfg, Some(access), header, at, storeFails)
        == Deny(401, "Token invalidated. Please log in again.")
  {
    var claims := Verify(cfg.jwtSecret, access, nowMs).value;
    var kv1 := Set(s.kv, BlacklistKey(claims.jti), TrueFlag, 3600, nowMs);
    var s1 := LogoutOutcome(s, cfg, Some(access), refresh, nowMs, None).state;
    assert Verify(cfg.jwtSecret, access, at).value == claims;
    if Present(refresh) {
      var userId := Verify(cfg.jwtSecret, refresh.value, nowMs).value.userId;
      KeysDistinct(userId, claims.jti);
      assert s1.kv == Del(kv1, RefreshKey(userId));
    }
    assert Get(s1.kv, BlacklistKey(claims.jti), at).Some?;
  }

  // ----------------------------------------------------------- the secrets

  /** Tokens are signed with the access and refresh secrets but checked with
      a third one: unless that one equals the access secret, the guard
      refuses every access token login issues, and unless it equals the
      refresh secret, no refresh token login issues can be exchanged. */
  lemma IssuedTokensNeedSharedSecret(s: Accounts, revoked: Revocations, cfg: Config, userId: UserId, jti: string,
                                     issuedAt: nat, newJti: string, at: nat, header: Option<Jwt>, fails: bool,
                                     kvFault: Option<string>)
    ensures var pair := GenerateTokens(cfg, userId, jti, issuedAt);
      cfg.accessTokenSecret != cfg.jwtSecret ==>
        ProtectRoute(s.users, revoked, cfg, Some(pair.accessToken), header, at, fails) == Deny(401, "Invalid access token")
    ensures var pair := GenerateTokens(cfg, userId, jti, issuedAt);
      cfg.refreshTokenSecret != cfg.jwtSecret ==>
        RefreshOutcome(s, cfg, Some(pair.refreshToken), newJti, at, kvFault)
          == Outcome(s, Reply(401, Message("invalid signature"), ClearAuthCookies(), []))
  {
  }

  /** When the refresh secret and the checking secret coincide, the guard
      accepts a refresh token as an access token for its whole 30 days. */
  lemma SharedSecretAcceptsRefreshToken(users: seq<User>, revoked: Revocations, cfg: Config, userId: UserId,
                                        jti: string, issuedAt: nat, at: nat, header: Option<Jwt>)
    requires cfg.refreshTokenSecret == cfg.jwtSecret
    requires at / 1000 < issuedAt / 1000 + 2_592_000
    requires !IsRevoked(revoked, jti, at)
    requires FindUser(users, userId).Some? && !users[FindUser(users, userId).value].isBanned
    ensures ProtectRoute(users, revoked, cfg, Some(GenerateTokens(cfg, userId, jti, issuedAt).refreshToken), header, at, false)
         == Pass(users[FindUser(users, userId).value])
  {
  }
}
