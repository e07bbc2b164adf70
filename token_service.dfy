/** `createTokenService` (apps/api/src/auth/tokenService.js): issuing an
    access/refresh token pair and verifying each kind of token. Signing and
    verification are done by an injected provider; the JSON Web Key Set
    provider is built from the configured URL by an injected factory. The
    injected `idGenerator` and `nowMs` are represented by the values they
    return during one call. */
module TokenService {
  import opened Common
  import opened TokenConfig
  import TimeUtil

  /** A token payload: the claims the code signs or reads back. A field the
      payload lacks is `None`. */
  datatype Claims = Claims(
    sub: Option<string>,
    username: Option<string>,
    jti: Option<string>,
    tokenType: Option<string>)

  /** `{ sub: userId, username }` */
  function AccessClaims(userId: string, username: string): (c: Claims)
    ensures c.sub == Some(userId) && c.username == Some(username)
    ensures c.jti.None? && c.tokenType != Some("refresh")
  {
    Claims(Some(userId), Some(username), None, None)
  }

  /** `{ sub: userId, jti, type: "refresh" }` */
  function RefreshClaims(userId: string, jti: string): (c: Claims)
    ensures c.sub == Some(userId) && c.jti == Some(jti) && c.tokenType == Some("refresh")
    ensures c.username.None?
  {
    Claims(Some(userId), None, Some(jti), Some("refresh"))
  }

  /** `{ secret, expiresIn }` passed to `sign`. */
  datatype SignOptions = SignOptions(secret: string, expiresIn: string)

  /** `{ secret }` or `{}` passed to `verify`. */
  datatype VerifyOptions = VerifyOptions(secret: Option<string>)

  /** A token provider: `sign` and a `verify` that either returns the
      payload or throws. */
  datatype TokenProvider = TokenProvider(
    sign: (Claims, SignOptions) -> string,
    verify: (string, VerifyOptions) -> Result<Claims>)

  /** A provider whose `verify`, given the secret a token was signed with,
      gives back exactly the claims that were signed. */
  ghost predicate RoundTrips(p: TokenProvider) {
    forall c: Claims, o: SignOptions {:trigger p.sign(c, o)} ::
      p.verify(p.sign(c, o), VerifyOptions(Some(o.secret))) == Ok(c)
  }

  /** The payload read from a value that is not a token payload: every
      field `undefined`. */
  const NoClaims: Claims := Claims(None, None, None, None)

  /** The key-set provider as a synchronous caller sees it. Its `verify`
      returns a Promise, which never throws where it is called; reading
      `sub` or `username` from a Promise gives `undefined`. Its `sign` throws
      and is never reached through the verification provider, so it is
      modelled as returning the empty text. */
  function UnawaitedKeySetProvider(): (p: TokenProvider)
    ensures forall token, options {:trigger p.verify(token, options)} :: p.verify(token, options) == Ok(NoClaims)
  {
    TokenProvider((c: Claims, o: SignOptions) => "", (token: string, o: VerifyOptions) => Ok(NoClaims))
  }

  datatype TokenService = TokenService(
    tokenProvider: TokenProvider,
    config: TokenConfig,
    verificationProvider: TokenProvider)

  /** Access tokens are checked against a key set only when validation is
      switched on and a URL is configured. */
  predicate JwksEnabled(config: TokenConfig) {
    config.jwksValidation && config.jwksUrl != ""
  }

  function CreateTokenService(
    tokenProvider: TokenProvider,
    config: TokenConfig,
    createJwksTokenProvider: string -> TokenProvider): (s: TokenService)
    ensures s.config == config
  {
    var verificationProvider :=
      if JwksEnabled(config) then createJwksTokenProvider(config.jwksUrl) else tokenProvider;
    TokenService(tokenProvider, config, verificationProvider)
  }

  /** What the injected generators return during one `issueTokens` call:
      the single `idGenerator()` value and the single `nowMs()` value. */
  datatype Draws = Draws(jti: string, nowMs: int)

  datatype IssuedTokens = IssuedTokens(
    accessToken: string,
    refreshToken: string,
    jti: string,
    refreshExpiresAtMs: int)

  function IssueTokens(svc: TokenService, userId: string, username: string, draws: Draws): (r: IssuedTokens)
    ensures r.jti == draws.jti
  {
    var cfg := svc.config;
    var accessToken := svc.tokenProvider.sign(
      AccessClaims(userId, username), SignOptions(cfg.accessSecret, cfg.accessTtl));
    var jti := draws.jti;
    var refreshToken := svc.tokenProvider.sign(
      RefreshClaims(userId, jti), SignOptions(cfg.refreshSecret, cfg.refreshTtl));
    var refreshExpiresAtMs := draws.nowMs + TimeUtil.ParseDurationToMs(TimeUtil.Text(cfg.refreshTtl));
    IssuedTokens(accessToken, refreshToken, jti, refreshExpiresAtMs)
  }

  /** `verifyAccessToken(token)`: with key-set validation on, the key-set
      provider decides with no secret; otherwise the local provider, given
      the access secret, gives back the claims of any token it signed with
      that secret. */
  function VerifyAccessToken(svc: TokenService, token: string): (r: Result<Claims>)
    ensures JwksEnabled(svc.config) ==> r == svc.verificationProvider.verify(token, VerifyOptions(None))
    ensures !JwksEnabled(svc.config) && RoundTrips(svc.tokenProvider) ==>
      forall c: Claims, ttl: string {:trigger svc.tokenProvider.sign(c, SignOptions(svc.config.accessSecret, ttl))} ::
        token == svc.tokenProvider.sign(c, SignOptions(svc.config.accessSecret, ttl)) ==> r == Ok(c)
  {
    if JwksEnabled(svc.config) then svc.verificationProvider.verify(token, VerifyOptions(None))
    else svc.tokenProvider.verify(token, VerifyOptions(Some(svc.config.accessSecret)))
  }

  /** `verifyRefreshToken(token)`: always the local provider with the
      refresh secret, so any token it signed with that secret verifies back
      to its claims, whatever the key-set settings. */
  function VerifyRefreshToken(svc: TokenService, token: string): (r: Result<Claims>)
    ensures RoundTrips(svc.tokenProvider) ==>
      forall c: Claims, ttl: string {:trigger svc.tokenProvider.sign(c, SignOptions(svc.config.refreshSecret, ttl))} ::
        token == svc.tokenProvider.sign(c, SignOptions(svc.config.refreshSecret, ttl)) ==> r == Ok(c)
  {
    svc.tokenProvider.verify(token, VerifyOptions(Some(svc.config.refreshSecret)))
  }

  /** The access token carries exactly `{sub, username}` under the access
      secret, the refresh token exactly `{sub, jti, type: "refresh"}` under the
      refresh secret, with the drawn `jti`; and the refresh expiry is the
      clock reading plus the parsed refresh lifetime. */
  lemma IssuedTokensSigned(svc: TokenService, userId: string, username: string, draws: Draws)
    ensures var r := IssueTokens(svc, userId, username, draws);
      && r.accessToken == svc.tokenProvider.sign(
           Claims(Some(userId), Some(username), None, None),
           SignOptions(svc.config.accessSecret, svc.config.accessTtl))
      && r.refreshToken == svc.tokenProvider.sign(
           Claims(Some(userId), None, Some(draws.jti), Some("refresh")),
           SignOptions(svc.config.refreshSecret, svc.config.refreshTtl))
      && r.refreshExpiresAtMs ==
           draws.nowMs + TimeUtil.ParseDurationToMs(TimeUtil.Text(svc.config.refreshTtl))
  {
  }

  /** Issued tokens verify back to their claims: the refresh token always
      (refresh verification uses the local provider and secret), the access
      token whenever the local provider verifies access tokens. */
  lemma IssueVerifyRoundTrip(svc: TokenService, userId: string, username: string, draws: Draws)
    requires RoundTrips(svc.tokenProvider)
    ensures var r := IssueTokens(svc, userId, username, draws);
      && VerifyRefreshToken(svc, r.refreshToken) == Ok(RefreshClaims(userId, r.jti))
      && (!JwksEnabled(svc.config) ==>
            VerifyAccessToken(svc, r.accessToken) == Ok(AccessClaims(userId, username)))
  {
    var cfg := svc.config;
    var p := svc.tokenProvider;
    assert p.verify(p.sign(RefreshClaims(userId, draws.jti), SignOptions(cfg.refreshSecret, cfg.refreshTtl)),
                    VerifyOptions(Some(cfg.refreshSecret))) == Ok(RefreshClaims(userId, draws.jti));
    assert p.verify(p.sign(AccessClaims(userId, username), SignOptions(cfg.accessSecret, cfg.accessTtl)),
                    VerifyOptions(Some(cfg.accessSecret))) == Ok(AccessClaims(userId, username));
  }

  /** Refresh tokens are verified by the local provider with the refresh
      secret, whether or not key-set validation is switched on. */
  lemma RefreshVerificationIsLocal(
    tokenProvider: TokenProvider, config: TokenConfig,
    createJwksTokenProvider: string -> TokenProvider, token: string)
    ensures VerifyRefreshToken(CreateTokenService(tokenProvider, config, createJwksTokenProvider), token) ==
      tokenProvider.verify(token, VerifyOptions(Some(config.refreshSecret)))
  {
  }

  /** Access tokens go to the key-set provider built from the URL, with no
      secret, exactly when validation is on and a URL is set; otherwise to
      the local provider with the access secret. */
  lemma AccessVerificationBackend(
    tokenProvider: TokenProvider, config: TokenConfig,
    createJwksTokenProvider: string -> TokenProvider, token: string)
    ensures config.jwksValidation && config.jwksUrl != "" ==>
      VerifyAccessToken(CreateTokenService(tokenProvider, config, createJwksTokenProvider), token) ==
        createJwksTokenProvider(config.jwksUrl).verify(token, VerifyOptions(None))
    ensures !(config.jwksValidation && config.jwksUrl != "") ==>
      VerifyAccessToken(CreateTokenService(tokenProvider, config, createJwksTokenProvider), token) ==
        tokenProvider.verify(token, VerifyOptions(Some(config.accessSecret)))
  {
  }

  /** With a refresh lifetime of "2h" and a clock at 1000, the refresh
      record expires at 1000 + 2 hours. */
  lemma RefreshExpiryExample(svc: TokenService, userId: string, username: string, jti: string)
    requires svc.config.refreshTtl == "2h"
    ensures IssueTokens(svc, userId, username, Draws(jti, 1000)).refreshExpiresAtMs == 1000 + 2 * 60 * 60 * 1000
  {
    assert "2h"[..1] == "2" && "2"[..0] == [];
  }
}
