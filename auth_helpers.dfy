/** utils/authHelpers.js: issuing the access/refresh token pair, keeping the
    refresh token in the key-value store, and the authentication cookies. */
module AuthHelpers {
  import opened Common
  import opened Crypto
  import opened KeyValue

  /** The environment the session code reads: three signing secrets, the
      optional cookie domain and whether the server runs in production. */
  datatype Config = Config(
    accessTokenSecret: string,
    refreshTokenSecret: string,
    jwtSecret: string,
    cookieDomain: Option<string>,
    production: bool)

  /** `expiresIn: '1h'` and `expiresIn: '30d'`, in seconds. */
  const AccessTokenSeconds: nat := 60 * 60
  const RefreshTokenSeconds: nat := 30 * 24 * 60 * 60

  datatype TokenPair = TokenPair(accessToken: Jwt, refreshToken: Jwt, jti: string)

  /** `generateTokens(userId)`; the fresh uuid is the input `jti`. */
  function GenerateTokens(cfg: Config, userId: string, jti: string, nowMs: nat): (p: TokenPair)
    ensures p.accessToken.Signed? && p.refreshToken.Signed? && p.jti == jti
    ensures p.accessToken.claims == p.refreshToken.claims == Claims(userId, jti)
    ensures p.accessToken.secret == cfg.accessTokenSecret
    ensures p.refreshToken.secret == cfg.refreshTokenSecret
  {
    TokenPair(
      Sign(cfg.accessTokenSecret, Claims(userId, jti), nowMs, AccessTokenSeconds),
      Sign(cfg.refreshTokenSecret, Claims(userId, jti), nowMs, RefreshTokenSeconds),
      jti)
  }

  /** The access token is good for one hour and the refresh token for thirty
      days, under their own secrets; whatever the caller wanted for the
      cookies, the token lifetimes are fixed. With distinct secrets neither
      token verifies under the other one's secret. */
  lemma GeneratedTokenLifetimes(cfg: Config, userId: string, jti: string, nowMs: nat, at: nat)
    ensures var p := GenerateTokens(cfg, userId, jti, nowMs);
      && (Verify(cfg.accessTokenSecret, p.accessToken, at) == Success(Claims(userId, jti)) <==>
            at / 1000 < nowMs / 1000 + 3600)
      && (Verify(cfg.refreshTokenSecret, p.refreshToken, at) == Success(Claims(userId, jti)) <==>
            at / 1000 < nowMs / 1000 + 2_592_000)
    ensures var p := GenerateTokens(cfg, userId, jti, nowMs);
      cfg.accessTokenSecret != cfg.refreshTokenSecret ==>
        Verify(cfg.refreshTokenSecret, p.accessToken, at).Failure?
        && Verify(cfg.accessTokenSecret, p.refreshToken, at).Failure?
  {
    var p := GenerateTokens(cfg, userId, jti, nowMs);
    VerifySign(cfg.accessTokenSecret, cfg.refreshTokenSecret, Claims(userId, jti), nowMs, AccessTokenSeconds, at);
    VerifySign(cfg.refreshTokenSecret, cfg.accessTokenSecret, Claims(userId, jti), nowMs, RefreshTokenSeconds, at);
  }

  /** The store contents after `storeRefreshToken`: the token under the user's
      key for thirty days, or nothing changed when the store call fails. */
  function StoredRefresh(m: KvMap, userId: string, token: Jwt, nowMs: int, fault: Option<string>): KvMap {
    if fault.None? then Set(m, RefreshKey(userId), TokenValue(token), RefreshTokenSeconds, nowMs) else m
  }

  /** `storeRefreshToken`: a store failure is logged and swallowed. */
  method StoreRefreshToken(kv: KeyValueStore, userId: string, token: Jwt, nowMs: int, fault: Option<string>)
    modifies kv`entries
    ensures kv.entries == StoredRefresh(old(kv.entries), userId, token, nowMs, fault)
  {
    if fault.None? {
      kv.SetEx(RefreshKey(userId), TokenValue(token), RefreshTokenSeconds, nowMs);
    }
  }

  /** Storing writes exactly one key: the user's refresh key then holds the
      new token (replacing any earlier one) for 2,592,000 seconds, and every
      other key is as before. */
  lemma StoredRefreshOneKey(m: KvMap, userId: string, token: Jwt, nowMs: int, key: string, at: int)
    ensures var m' := StoredRefresh(m, userId, token, nowMs, None);
      && Get(m', RefreshKey(userId), at) == (if at < nowMs + 2_592_000_000 then Some(TokenValue(token)) else None)
      && (key != RefreshKey(userId) ==> (key in m' <==> key in m))
      && (key != RefreshKey(userId) && key in m ==> m'[key] == m[key])
    ensures forall fault: Option<string> :: fault.Some? ==> StoredRefresh(m, userId, token, nowMs, fault) == m
  {
  }

  /** The options object shared by both cookies. */
  datatype CookieOptions = CookieOptions(
    httpOnly: bool, secure: bool, sameSite: string, path: string, domain: Option<string>, maxAge: int)

  /** What a handler does to the response's cookies. `ClearCookie` clears with
      the default options. */
  datatype CookieDirective = SetCookie(name: string, value: Jwt, options: CookieOptions) | ClearCookie(name: string)

  /** Cookie lifetimes in milliseconds. */
  function AccessCookieMaxAge(rememberMe: bool): int {
    if rememberMe then 7 * MsPerDay else MsPerHour
  }

  function RefreshCookieMaxAge(rememberMe: bool): int {
    if rememberMe then 30 * MsPerDay else MsPerDay
  }

  /** The base options: a domain is added only when the configured domain is a
      non-empty string. */
  function BaseCookieOptions(cfg: Config): (o: CookieOptions)
    ensures o.httpOnly && o.secure && o.sameSite == "None" && o.path == "/"
    ensures o.domain.Some? <==> cfg.cookieDomain.Some? && cfg.cookieDomain.value != []
    ensures o.domain.Some? ==> o.domain == cfg.cookieDomain
  {
    var base := CookieOptions(true, true, "None", "/", None, 0);
    if cfg.cookieDomain.Some? && cfg.cookieDomain.value != [] then base.(domain := cfg.cookieDomain) else base
  }

  /** `setCookies(res, accessToken, refreshToken, rememberMe)`. */
  function SetCookies(cfg: Config, accessToken: Jwt, refreshToken: Jwt, rememberMe: bool): (cs: seq<CookieDirective>)
    ensures |cs| == 2 && cs[0].SetCookie? && cs[1].SetCookie?
    ensures cs[0].name == "accessToken" && cs[0].value == accessToken
    ensures cs[1].name == "refreshToken" && cs[1].value == refreshToken
    ensures cs[0].options.maxAge == (if rememberMe then 604_800_000 else 3_600_000)
    ensures cs[1].options.maxAge == (if rememberMe then 2_592_000_000 else 86_400_000)
    ensures forall i :: 0 <= i < 2 ==> cs[i].options == BaseCookieOptions(cfg).(maxAge := cs[i].options.maxAge)
  {
    var base := BaseCookieOptions(cfg);
    [SetCookie("accessToken", accessToken, base.(maxAge := AccessCookieMaxAge(rememberMe))),
     SetCookie("refreshToken", refreshToken, base.(maxAge := RefreshCookieMaxAge(rememberMe)))]
  }

  /** `res.clearCookie("accessToken"); res.clearCookie("refreshToken")`. */
  function ClearAuthCookies(): seq<CookieDirective> {
    [ClearCookie("accessToken"), ClearCookie("refreshToken")]
  }
}
