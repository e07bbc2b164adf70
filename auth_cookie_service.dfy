/** `createAuthCookieService` (apps/api/src/auth/authCookieService.js): the
    three option records are built once from the configuration; setting and
    clearing the auth cookies write them in a fixed order. */
module AuthCookies {
  import opened Common
  import opened CookiePolicy
  import opened Http
  import AuthLogin

  datatype CookieNames = CookieNames(access: string, refresh: string, csrf: string)

  const DefaultCookieNames: CookieNames := CookieNames("access_token", "refresh_token", "csrf_token")

  datatype AuthCookieService = AuthCookieService(
    names: CookieNames,
    accessOptions: CookieOptions,
    refreshOptions: CookieOptions,
    csrfOptions: CookieOptions)

  /** The access and CSRF cookies live on "/", the refresh cookie on
      "/auth"; only the CSRF cookie is readable by scripts. */
  function CreateAuthCookieService(cfg: CookieConfig, names: CookieNames): (s: AuthCookieService)
    ensures s.names == names
    ensures s.accessOptions.httpOnly && s.accessOptions.path == "/"
    ensures s.refreshOptions.httpOnly && s.refreshOptions.path == "/auth"
    ensures !s.csrfOptions.httpOnly && s.csrfOptions.path == "/"
    ensures s.accessOptions.maxAge.None? && s.refreshOptions.maxAge.None? && s.csrfOptions.maxAge.None?
    ensures s.accessOptions.secure == s.refreshOptions.secure == s.csrfOptions.secure == cfg.cookieSecure
    ensures s.accessOptions.sameSite == s.refreshOptions.sameSite == s.csrfOptions.sameSite == cfg.cookieSameSite
    ensures s.accessOptions.domain == s.refreshOptions.domain == s.csrfOptions.domain
    ensures s.accessOptions.domain == if Truthy(cfg.cookieDomain) then cfg.cookieDomain else None
  {
    AuthCookieService(
      names,
      BuildCookieOptions(true, None, None, cfg),
      BuildCookieOptions(true, None, Some("/auth"), cfg),
      BuildCookieOptions(false, None, None, cfg))
  }

  /** The writes of `setAuthCookies`, in order. */
  function SetOps(svc: AuthCookieService, session: AuthLogin.LoginSession): (r: seq<CookieOp>)
    ensures |r| == 3
    ensures r[0] == SetCookie(svc.names.access, session.accessToken, svc.accessOptions)
    ensures r[1] == SetCookie(svc.names.refresh, session.refreshToken, svc.refreshOptions)
    ensures r[2] == SetCookie(svc.names.csrf, session.csrfToken, svc.csrfOptions)
  {
    [ SetCookie(svc.names.access, session.accessToken, svc.accessOptions),
      SetCookie(svc.names.refresh, session.refreshToken, svc.refreshOptions),
      SetCookie(svc.names.csrf, session.csrfToken, svc.csrfOptions) ]
  }

  /** The writes of `clearAuthCookies`, in order. */
  function ClearOps(svc: AuthCookieService): (r: seq<CookieOp>)
    ensures |r| == 3 && forall i :: 0 <= i < 3 ==> r[i].ClearCookie?
  {
    [ CookieOp.ClearCookie(svc.names.access, svc.accessOptions),
      CookieOp.ClearCookie(svc.names.refresh, svc.refreshOptions),
      CookieOp.ClearCookie(svc.names.csrf, svc.csrfOptions) ]
  }

  /** Clearing targets exactly the cookies that setting wrote: the same
      names, in the same order, with the same options. */
  lemma ClearMatchesSet(svc: AuthCookieService, session: AuthLogin.LoginSession)
    ensures var written := SetOps(svc, session);
      var clear := ClearOps(svc);
      forall i :: 0 <= i < 3 ==> clear[i].name == written[i].name && clear[i].options == written[i].options
  {
  }

  /** The default names, and the cookie each token of a session goes to. */
  lemma DefaultNamesUsed(cfg: CookieConfig, session: AuthLogin.LoginSession)
    ensures var ops := SetOps(CreateAuthCookieService(cfg, DefaultCookieNames), session);
      && ops[0].name == "access_token" && ops[0].value == session.accessToken
      && ops[1].name == "refresh_token" && ops[1].value == session.refreshToken
      && ops[2].name == "csrf_token" && ops[2].value == session.csrfToken
  {
  }

  method SetAuthCookies(svc: AuthCookieService, res: Response, session: AuthLogin.LoginSession)
    modifies res
    ensures res.State() == old(res.State()).(cookieOps := old(res.cookieOps) + SetOps(svc, session))
  {
    res.Cookie(svc.names.access, session.accessToken, svc.accessOptions);
    res.Cookie(svc.names.refresh, session.refreshToken, svc.refreshOptions);
    res.Cookie(svc.names.csrf, session.csrfToken, svc.csrfOptions);
  }

  method ClearAuthCookies(svc: AuthCookieService, res: Response)
    modifies res
    ensures res.State() == old(res.State()).(cookieOps := old(res.cookieOps) + ClearOps(svc))
  {
    res.ClearCookie(svc.names.access, svc.accessOptions);
    res.ClearCookie(svc.names.refresh, svc.refreshOptions);
    res.ClearCookie(svc.names.csrf, svc.csrfOptions);
  }
}
