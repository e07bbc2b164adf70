/** `buildCookieOptions` (apps/api/src/auth/cookiePolicy.js): the options
    record passed to `res.cookie` and `res.clearCookie`. */
module CookiePolicy {
  import opened Common

  /** The cookie settings of the API configuration. */
  datatype CookieConfig = CookieConfig(cookieSecure: bool, cookieSameSite: string, cookieDomain: Option<string>)

  /** A JavaScript number as far as `Number.isFinite` can tell: an integral
      finite value, `NaN`, or one of the infinities. */
  datatype JsNumber = Finite(n: int) | NaN | PositiveInfinity | NegativeInfinity

  /** The options record; `domain` and `maxAge` are keys that may be absent. */
  datatype CookieOptions = CookieOptions(
    httpOnly: bool,
    secure: bool,
    sameSite: string,
    path: string,
    domain: Option<string>,
    maxAge: Option<int>)

  /** The keys the options object carries. */
  function Keys(o: CookieOptions): (r: set<string>)
    ensures {"httpOnly", "secure", "sameSite", "path"} <= r
    ensures "domain" in r <==> o.domain.Some?
    ensures "maxAge" in r <==> o.maxAge.Some?
  {
    {"httpOnly", "secure", "sameSite", "path"}
      + (if o.domain.Some? then {"domain"} else {})
      + (if o.maxAge.Some? then {"maxAge"} else {})
  }

  /** `path` is the caller's value, "/" when the caller leaves it out. */
  function BuildCookieOptions(isHttpOnly: bool, maxAgeMs: Option<JsNumber>, path: Option<string>, cfg: CookieConfig): (r: CookieOptions)
    ensures r.httpOnly == isHttpOnly && r.secure == cfg.cookieSecure
    ensures r.sameSite == cfg.cookieSameSite
    ensures path.None? ==> r.path == "/"
    ensures path.Some? ==> r.path == path.value
    ensures r.domain.Some? <==> Truthy(cfg.cookieDomain)
    ensures r.domain.Some? ==> r.domain == cfg.cookieDomain
    ensures r.maxAge.Some? <==> maxAgeMs.Some? && maxAgeMs.value.Finite?
    ensures r.maxAge.Some? ==> r.maxAge.value == maxAgeMs.value.n
  {
    CookieOptions(
      httpOnly := isHttpOnly,
      secure := cfg.cookieSecure,
      sameSite := cfg.cookieSameSite,
      path := if path.Some? then path.value else "/",
      domain := if Truthy(cfg.cookieDomain) then cfg.cookieDomain else None,
      maxAge := if maxAgeMs.Some? && maxAgeMs.value.Finite? then Some(maxAgeMs.value.n) else None)
  }

  /** Without a domain and a finite max age, the record has exactly the four
      keys `httpOnly`, `secure`, `sameSite` and `path`. */
  lemma FourKeysByDefault(isHttpOnly: bool, maxAgeMs: Option<JsNumber>, path: Option<string>, cfg: CookieConfig)
    requires !Truthy(cfg.cookieDomain)
    requires !(maxAgeMs.Some? && maxAgeMs.value.Finite?)
    ensures Keys(BuildCookieOptions(isHttpOnly, maxAgeMs, path, cfg)) == {"httpOnly", "secure", "sameSite", "path"}
  {
  }

  /** An empty domain is treated as no domain, and a non-finite max age as
      no max age. */
  lemma EmptyDomainAndNonFiniteAgeOmitted(isHttpOnly: bool, path: Option<string>, secure: bool, sameSite: string)
    ensures BuildCookieOptions(isHttpOnly, Some(NaN), path, CookieConfig(secure, sameSite, Some(""))) ==
      BuildCookieOptions(isHttpOnly, None, path, CookieConfig(secure, sameSite, None))
    ensures BuildCookieOptions(isHttpOnly, Some(PositiveInfinity), path, CookieConfig(secure, sameSite, None)).maxAge == None
  {
  }

  /** A zero max age is finite and is kept. */
  lemma ZeroMaxAgeKept(isHttpOnly: bool, path: Option<string>, cfg: CookieConfig)
    ensures BuildCookieOptions(isHttpOnly, Some(Finite(0)), path, cfg).maxAge == Some(0)
  {
  }
}
