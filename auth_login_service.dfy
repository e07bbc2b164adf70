/** `createAuthLoginService` (apps/api/src/auth/authLoginService.js): a login
    issues a token pair, records the refresh token in the store and draws a
    CSRF token. The injected CSRF generator is represented by the value it
    returns. */
module AuthLogin {
  import opened Common
  import opened TokenService
  import opened RefreshStore

  /** `{ accessToken, refreshToken, csrfToken }`: the token id is not exposed. */
  datatype LoginSession = LoginSession(accessToken: string, refreshToken: string, csrfToken: string)

  datatype LoginStep = LoginStep(session: LoginSession, records: map<string, RefreshRecord>)

  /** What `createLoginSession` returns and what the store holds afterwards. */
  function Login(
    svc: TokenService, records: map<string, RefreshRecord>,
    userId: string, username: string, draws: Draws, csrfToken: string): (r: LoginStep)
    ensures var issued := IssueTokens(svc, userId, username, draws);
      && r.session == LoginSession(issued.accessToken, issued.refreshToken, csrfToken)
      && r.records.Keys == records.Keys + {draws.jti}
      && r.records[draws.jti] == RefreshRecord(userId, issued.refreshExpiresAtMs)
      && (forall k :: k in records && k != draws.jti ==> r.records[k] == records[k])
  {
    var issued := IssueTokens(svc, userId, username, draws);
    LoginStep(
      LoginSession(issued.accessToken, issued.refreshToken, csrfToken),
      records[issued.jti := RefreshRecord(userId, issued.refreshExpiresAtMs)])
  }

  /** Every refresh token a login hands out has its record in the store:
      verified, it names a `jti` whose record belongs to the user and expires
      at the issued expiry. */
  lemma {:induction false} LoginAnchorsRefreshToken(
    svc: TokenService, records: map<string, RefreshRecord>,
    userId: string, username: string, draws: Draws, csrfToken: string)
    requires RoundTrips(svc.tokenProvider)
    ensures var step := Login(svc, records, userId, username, draws, csrfToken);
      var payload := VerifyRefreshToken(svc, step.session.refreshToken);
      && payload.Ok?
      && payload.value.jti.Some?
      && payload.value.jti.value in step.records
      && step.records[payload.value.jti.value].userId == userId
      && step.records[payload.value.jti.value].expiresAtMs ==
           IssueTokens(svc, userId, username, draws).refreshExpiresAtMs
  {
    IssueVerifyRoundTrip(svc, userId, username, draws);
  }

  class AuthLoginService {
    const tokenService: TokenService
    const store: RefreshTokenStore

    constructor (tokenService: TokenService, store: RefreshTokenStore)
      ensures this.tokenService == tokenService && this.store == store
    {
      this.tokenService := tokenService;
      this.store := store;
    }

    /** Issue, then save the refresh record, then return the session: the
        record is in the store before the tokens leave the method. */
    method CreateLoginSession(userId: string, username: string, draws: Draws, csrfToken: string)
      returns (session: LoginSession)
      modifies store
      ensures LoginStep(session, store.records) ==
        Login(tokenService, old(store.records), userId, username, draws, csrfToken)
    {
      var issued := IssueTokens(tokenService, userId, username, draws);
      store.Save(issued.jti, userId, issued.refreshExpiresAtMs);
      session := LoginSession(issued.accessToken, issued.refreshToken, csrfToken);
    }
  }
}
