/** `createAuthRouter` (apps/api/src/routers/AuthRouter.js): the `/login`,
    `/refresh` and `/logout` handlers. Login is written out in the router
    itself (issue, save, three cookies); it does not go through the login or
    cookie services. The CSRF token drawn from `crypto.randomBytes`, the
    clock and the token generators are represented by the values they
    return. */
module AuthRouter {
  import opened Common
  import opened TokenService
  import opened RefreshStore
  import opened CookiePolicy
  import opened Http
  import opened Credentials
  import AuthSession
  import AuthCookies
  import AuthLogin
  import Csrf

  const CookieAccess: string := "access_token"
  const CookieRefresh: string := "refresh_token"
  const CookieCsrf: string := "csrf_token"

  /** The three cookie writes of a successful login or refresh. */
  function IssueCookieOps(cfg: CookieConfig, accessToken: string, refreshToken: string, csrfToken: string): (r: seq<CookieOp>)
    ensures |r| == 3
  {
    [ SetCookie(CookieAccess, accessToken, BuildCookieOptions(true, None, None, cfg)),
      SetCookie(CookieRefresh, refreshToken, BuildCookieOptions(true, None, Some("/auth"), cfg)),
      SetCookie(CookieCsrf, csrfToken, BuildCookieOptions(false, None, None, cfg)) ]
  }

  /** The three cookie clears of a logout. */
  function ClearCookieOps(cfg: CookieConfig): (r: seq<CookieOp>)
    ensures |r| == 3
  {
    [ CookieOp.ClearCookie(CookieAccess, BuildCookieOptions(true, None, None, cfg)),
      CookieOp.ClearCookie(CookieRefresh, BuildCookieOptions(true, None, Some("/auth"), cfg)),
      CookieOp.ClearCookie(CookieCsrf, BuildCookieOptions(false, None, None, cfg)) ]
  }

  /** The router's inline cookie writes are the ones the cookie service
      would make with its default names: access on "/", refresh on "/auth",
      both script-proof, and a script-readable CSRF cookie on "/". */
  lemma InlineCookiesMatchCookieService(cfg: CookieConfig, accessToken: string, refreshToken: string, csrfToken: string)
    ensures IssueCookieOps(cfg, accessToken, refreshToken, csrfToken) ==
      AuthCookies.SetOps(AuthCookies.CreateAuthCookieService(cfg, AuthCookies.DefaultCookieNames),
                         AuthLogin.LoginSession(accessToken, refreshToken, csrfToken))
    ensures ClearCookieOps(cfg) ==
      AuthCookies.ClearOps(AuthCookies.CreateAuthCookieService(cfg, AuthCookies.DefaultCookieNames))
    ensures var ops := IssueCookieOps(cfg, accessToken, refreshToken, csrfToken);
      && ops[0].options.httpOnly && ops[0].options.path == "/"
      && ops[1].options.httpOnly && ops[1].options.path == "/auth"
      && !ops[2].options.httpOnly && ops[2].options.path == "/"
  {
  }

  /** What a handler leaves behind: the refresh ledger and the response. */
  datatype RouteStep = RouteStep(records: map<string, RefreshRecord>, written: Written)

  /** `POST /login` */
  function LoginRoute(
    svc: TokenService, cookieCfg: CookieConfig, creds: CredentialConfig, compare: (string, string) -> bool,
    records: map<string, RefreshRecord>, body: RequestBody, w: Written,
    draws: Draws, csrfToken: string): (r: RouteStep)
    ensures !ValidateCredentials(creds, body.username, body.password, compare) ==>
      r == RouteStep(records, Replied(w, 401, Message("Invalid credentials")))
    ensures ValidateCredentials(creds, body.username, body.password, compare) ==>
      var issued := IssueTokens(svc, AuthUserId, creds.adminUsername, draws);
      && r.records == records[draws.jti := RefreshRecord("user-1", issued.refreshExpiresAtMs)]
      && r.written == Replied(w.(cookieOps := w.cookieOps + IssueCookieOps(cookieCfg, issued.accessToken, issued.refreshToken, csrfToken)),
                              200, AccessToken(issued.accessToken))
  {
    if !ValidateCredentials(creds, body.username, body.password, compare) then
      RouteStep(records, Replied(w, 401, Message("Invalid credentials")))
    else
      var user := AuthUserOf(creds);
      var issued := IssueTokens(svc, user.id, user.username, draws);
      var saved := records[issued.jti := RefreshRecord(user.id, issued.refreshExpiresAtMs)];
      var cookies := w.cookieOps + IssueCookieOps(cookieCfg, issued.accessToken, issued.refreshToken, csrfToken);
      RouteStep(saved, Replied(w.(cookieOps := cookies), 200, AccessToken(issued.accessToken)))
  }

  /** The token a refresh or logout request carries: the body's, else the
      `refresh_token` cookie. */
  function PresentedToken(body: RequestBody, refreshCookie: Option<string>): (r: Option<string>)
    ensures Truthy(body.refreshToken) ==> r == body.refreshToken
    ensures !Truthy(body.refreshToken) ==> r == refreshCookie
  {
    Or(body.refreshToken, refreshCookie)
  }

  /** The checks both `/refresh` and `/logout` run before acting: the
      response written when one fails, or `None` to go on. A missing token is
      400; a cookie token must also pass the CSRF check. */
  function RefreshGate(body: RequestBody, refreshCookie: Option<string>, csrfHeader: Option<string>, csrfCookie: Option<string>, w: Written): (r: Option<Written>)
    ensures !Truthy(PresentedToken(body, refreshCookie)) ==> r == Some(Replied(w, 400, Message("Missing refresh token")))
    ensures Truthy(body.refreshToken) ==> r == None
    ensures !Truthy(body.refreshToken) && Truthy(refreshCookie) ==>
      r == if Csrf.CsrfValid(csrfHeader, csrfCookie) then None else Some(Replied(w, 403, Message("Invalid CSRF token")))
  {
    var refreshToken := PresentedToken(body, refreshCookie);
    if !Truthy(refreshToken) then Some(Replied(w, 400, Message("Missing refresh token")))
    else if !Truthy(body.refreshToken) && !Csrf.CsrfValid(csrfHeader, csrfCookie) then
      Some(Replied(w, 403, Message("Invalid CSRF token")))
    else None
  }

  /** `POST /refresh` */
  function RefreshRoute(
    sessionSvc: TokenService, cookieCfg: CookieConfig, adminUsername: string,
    records: map<string, RefreshRecord>,
    body: RequestBody, refreshCookie: Option<string>, csrfHeader: Option<string>, csrfCookie: Option<string>,
    w: Written, now: int, draws: Draws, csrfToken: string): (r: RouteStep)
    ensures RefreshGate(body, refreshCookie, csrfHeader, csrfCookie, w).Some? ==>
      r == RouteStep(records, RefreshGate(body, refreshCookie, csrfHeader, csrfCookie, w).value)
    ensures RefreshGate(body, refreshCookie, csrfHeader, csrfCookie, w).None? ==>
      var rotation := AuthSession.Rotate(sessionSvc, records, PresentedToken(body, refreshCookie).value, adminUsername, now, draws);
      && r.records == rotation.records
      && (rotation.result.Rejected? ==>
            r.written == Replied(w, rotation.result.status, Message(rotation.result.message)))
      && (rotation.result.Rotated? ==>
            r.written == Replied(
              w.(cookieOps := w.cookieOps + IssueCookieOps(cookieCfg, rotation.result.accessToken, rotation.result.refreshToken, csrfToken)),
              200, AccessToken(rotation.result.accessToken)))
  {
    match RefreshGate(body, refreshCookie, csrfHeader, csrfCookie, w)
    case Some(stopped) => RouteStep(records, stopped)
    case None =>
      var rotation := AuthSession.Rotate(sessionSvc, records, PresentedToken(body, refreshCookie).value, adminUsername, now, draws);
      match rotation.result
      case Rejected(status, message) => RouteStep(rotation.records, Replied(w, status, Message(message)))
      case Rotated(accessToken, refreshToken) =>
        var cookies := w.cookieOps + IssueCookieOps(cookieCfg, accessToken, refreshToken, csrfToken);
        RouteStep(rotation.records, Replied(w.(cookieOps := cookies), 200, AccessToken(accessToken)))
  }

  /** `POST /logout`: once the checks pass, the answer is always 200
      "Logged out" with the three cookies cleared, whether or not the token
      was valid. */
  function LogoutRoute(
    sessionSvc: TokenService, cookieCfg: CookieConfig, records: map<string, RefreshRecord>,
    body: RequestBody, refreshCookie: Option<string>, csrfHeader: Option<string>, csrfCookie: Option<string>,
    w: Written): (r: RouteStep)
    ensures RefreshGate(body, refreshCookie, csrfHeader, csrfCookie, w).Some? ==>
      r == RouteStep(records, RefreshGate(body, refreshCookie, csrfHeader, csrfCookie, w).value)
    ensures RefreshGate(body, refreshCookie, csrfHeader, csrfCookie, w).None? ==>
      && r.records == AuthSession.Revoke(sessionSvc, records, PresentedToken(body, refreshCookie).value)
      && r.written == Replied(w.(cookieOps := w.cookieOps + ClearCookieOps(cookieCfg)), 200, Message("Logged out"))
  {
    match RefreshGate(body, refreshCookie, csrfHeader, csrfCookie, w)
    case Some(stopped) => RouteStep(records, stopped)
    case None =>
      var revoked := AuthSession.Revoke(sessionSvc, records, PresentedToken(body, refreshCookie).value);
      RouteStep(revoked, Replied(w.(cookieOps := w.cookieOps + ClearCookieOps(cookieCfg)), 200, Message("Logged out")))
  }

  /** A token in the body wins over the cookie, and skips the CSRF check:
      the outcome does not depend on the refresh cookie or the CSRF values. */
  lemma BodyTokenBypassesCookieAndCsrf(
    sessionSvc: TokenService, cookieCfg: CookieConfig, adminUsername: string,
    records: map<string, RefreshRecord>, body: RequestBody,
    refreshCookie1: Option<string>, csrfHeader1: Option<string>, csrfCookie1: Option<string>,
    refreshCookie2: Option<string>, csrfHeader2: Option<string>, csrfCookie2: Option<string>,
    w: Written, now: int, draws: Draws, csrfToken: string)
    requires Truthy(body.refreshToken)
    ensures RefreshRoute(sessionSvc, cookieCfg, adminUsername, records, body, refreshCookie1, csrfHeader1, csrfCookie1, w, now, draws, csrfToken) ==
            RefreshRoute(sessionSvc, cookieCfg, adminUsername, records, body, refreshCookie2, csrfHeader2, csrfCookie2, w, now, draws, csrfToken)
    ensures LogoutRoute(sessionSvc, cookieCfg, records, body, refreshCookie1, csrfHeader1, csrfCookie1, w) ==
            LogoutRoute(sessionSvc, cookieCfg, records, body, refreshCookie2, csrfHeader2, csrfCookie2, w)
  {
  }

  /** A refresh that does not rotate sets no cookie. */
  lemma {:induction false} FailedRefreshSetsNoCookie(
    sessionSvc: TokenService, cookieCfg: CookieConfig, adminUsername: string,
    records: map<string, RefreshRecord>,
    body: RequestBody, refreshCookie: Option<string>, csrfHeader: Option<string>, csrfCookie: Option<string>,
    w: Written, now: int, draws: Draws, csrfToken: string)
    requires var r := RefreshRoute(sessionSvc, cookieCfg, adminUsername, records, body, refreshCookie, csrfHeader, csrfCookie, w, now, draws, csrfToken);
      r.written.status != Some(200)
    ensures RefreshRoute(sessionSvc, cookieCfg, adminUsername, records, body, refreshCookie, csrfHeader, csrfCookie, w, now, draws, csrfToken).written.cookieOps == w.cookieOps
  {
    var gate := RefreshGate(body, refreshCookie, csrfHeader, csrfCookie, w);
    if gate.None? {
      var rotation := AuthSession.Rotate(sessionSvc, records, PresentedToken(body, refreshCookie).value, adminUsername, now, draws);
      assert rotation.result.Rejected? ==> rotation.result.status == 401;
    }
  }

  /** A refresh stopped before rotation (no token, or a failed CSRF check)
      leaves the ledger as it was. */
  lemma GateLeavesLedger(
    sessionSvc: TokenService, cookieCfg: CookieConfig, adminUsername: string,
    records: map<string, RefreshRecord>,
    body: RequestBody, refreshCookie: Option<string>, csrfHeader: Option<string>, csrfCookie: Option<string>,
    w: Written, now: int, draws: Draws, csrfToken: string)
    requires !Truthy(PresentedToken(body, refreshCookie)) ||
             (!Truthy(body.refreshToken) && !Csrf.CsrfValid(csrfHeader, csrfCookie))
    ensures RefreshRoute(sessionSvc, cookieCfg, adminUsername, records, body, refreshCookie, csrfHeader, csrfCookie, w, now, draws, csrfToken).records == records
    ensures LogoutRoute(sessionSvc, cookieCfg, records, body, refreshCookie, csrfHeader, csrfCookie, w).records == records
  {
  }

  /** Login followed by refresh with the returned cookie: with a provider
      whose `verify` gives back what `sign` signed, the cookie token rotates
      while its record is live, provided the CSRF header echoes the cookie
      (a signed token is never the empty string). */
  lemma {:induction false} LoginThenRefresh(
    svc: TokenService, cookieCfg: CookieConfig, creds: CredentialConfig, compare: (string, string) -> bool,
    records: map<string, RefreshRecord>, body: RequestBody, w: Written, draws: Draws, csrfToken: string,
    now: int, draws2: Draws, csrfToken2: string)
    requires RoundTrips(svc.tokenProvider)
    requires ValidateCredentials(creds, body.username, body.password, compare)
    requires now <= IssueTokens(svc, AuthUserId, creds.adminUsername, draws).refreshExpiresAtMs
    requires IssueTokens(svc, AuthUserId, creds.adminUsername, draws).refreshToken != ""
    requires csrfToken != ""
    ensures var login := LoginRoute(svc, cookieCfg, creds, compare, records, body, w, draws, csrfToken);
      var refreshCookie := IssueTokens(svc, AuthUserId, creds.adminUsername, draws).refreshToken;
      var r := RefreshRoute(svc, cookieCfg, creds.adminUsername, login.records, RequestBody(None, None, None),
                            Some(refreshCookie), Some(csrfToken), Some(csrfToken), w, now, draws2, csrfToken2);
      r.written.status == Some(200)
  {
    var issued := IssueTokens(svc, AuthUserId, creds.adminUsername, draws);
    var login := LoginRoute(svc, cookieCfg, creds, compare, records, body, w, draws, csrfToken);
    IssueVerifyRoundTrip(svc, AuthUserId, creds.adminUsername, draws);
    assert login.records == records[draws.jti := RefreshRecord("user-1", issued.refreshExpiresAtMs)];
    assert AuthSession.RotationAllowed(svc, login.records, issued.refreshToken, now);
  }

  class AuthRouter {
    const store: RefreshTokenStore
    const tokenService: TokenService
    const sessionService: AuthSession.AuthSessionService
    const cookieConfig: CookieConfig
    const credentials: CredentialConfig
    const compare: (string, string) -> bool

    constructor (
      store: RefreshTokenStore, tokenService: TokenService, sessionService: AuthSession.AuthSessionService,
      cookieConfig: CookieConfig, credentials: CredentialConfig, compare: (string, string) -> bool)
      ensures this.store == store && this.tokenService == tokenService && this.sessionService == sessionService
      ensures this.cookieConfig == cookieConfig && this.credentials == credentials && this.compare == compare
    {
      this.store := store;
      this.tokenService := tokenService;
      this.sessionService := sessionService;
      this.cookieConfig := cookieConfig;
      this.credentials := credentials;
      this.compare := compare;
    }

    method Login(req: Request, res: Response, draws: Draws, csrfToken: string)
      modifies store, res
      ensures RouteStep(store.records, res.State()) ==
        LoginRoute(tokenService, cookieConfig, credentials, compare, old(store.records), req.Body(), old(res.State()), draws, csrfToken)
    {
      var body := req.Body();
      var isValid := ValidateCredentials(credentials, body.username, body.password, compare);
      if !isValid {
        res.Reply(401, Message("Invalid credentials"));
        return;
      }
      var user := AuthUserOf(credentials);
      var issued := IssueTokens(tokenService, user.id, user.username, draws);
      store.Save(issued.jti, user.id, issued.refreshExpiresAtMs);
      res.Cookie(CookieAccess, issued.accessToken, BuildCookieOptions(true, None, None, cookieConfig));
      res.Cookie(CookieRefresh, issued.refreshToken, BuildCookieOptions(true, None, Some("/auth"), cookieConfig));
      res.Cookie(CookieCsrf, csrfToken, BuildCookieOptions(false, None, None, cookieConfig));
      res.Reply(200, AccessToken(issued.accessToken));
    }

    method Refresh(req: Request, res: Response, now: int, draws: Draws, csrfToken: string)
      modifies sessionService.store, res
      ensures RouteStep(sessionService.store.records, res.State()) ==
        RefreshRoute(sessionService.tokenService, cookieConfig, credentials.adminUsername, old(sessionService.store.records),
                     req.Body(), req.Cookie(CookieRefresh), req.Header(Csrf.DefaultHeaderName), req.Cookie(CookieCsrf),
                     old(res.State()), now, draws, csrfToken)
    {
      var refreshTokenBody := req.Body().refreshToken;
      var refreshToken := Or(refreshTokenBody, req.Cookie(CookieRefresh));
      if !Truthy(refreshToken) {
        res.Reply(400, Message("Missing refresh token"));
        return;
      }
      if !Truthy(refreshTokenBody) {
        var ok := Csrf.EnsureCsrf(req, res, CookieCsrf, Csrf.DefaultHeaderName);
        if !ok {
          return;
        }
      }
      var result := sessionService.RotateRefreshSession(refreshToken.value, credentials.adminUsername, now, draws);
      if result.Rejected? {
        res.Reply(result.status, Message(result.message));
        return;
      }
      res.Cookie(CookieAccess, result.accessToken, BuildCookieOptions(true, None, None, cookieConfig));
      res.Cookie(CookieRefresh, result.refreshToken, BuildCookieOptions(true, None, Some("/auth"), cookieConfig));
      res.Cookie(CookieCsrf, csrfToken, BuildCookieOptions(false, None, None, cookieConfig));
      res.Reply(200, AccessToken(result.accessToken));
    }

    method Logout(req: Request, res: Response)
      modifies sessionService.store, res
      ensures RouteStep(sessionService.store.records, res.State()) ==
        LogoutRoute(sessionService.tokenService, cookieConfig, old(sessionService.store.records),
                    req.Body(), req.Cookie(CookieRefresh), req.Header(Csrf.DefaultHeaderName), req.Cookie(CookieCsrf),
                    old(res.State()))
    {
      var refreshTokenBody := req.Body().refreshToken;
      var refreshToken := Or(refreshTokenBody, req.Cookie(CookieRefresh));
      if !Truthy(refreshToken) {
        res.Reply(400, Message("Missing refresh token"));
        return;
      }
      if !Truthy(refreshTokenBody) {
        var ok := Csrf.EnsureCsrf(req, res, CookieCsrf, Csrf.DefaultHeaderName);
        if !ok {
          return;
        }
      }
      var _ := sessionService.RevokeRefreshSession(refreshToken.value);
      res.ClearCookie(CookieAccess, BuildCookieOptions(true, None, None, cookieConfig));
      res.ClearCookie(CookieRefresh, BuildCookieOptions(true, None, Some("/auth"), cookieConfig));
      res.ClearCookie(CookieCsrf, BuildCookieOptions(false, None, None, cookieConfig));
      res.Reply(200, Message("Logged out"));
    }
  }
}
