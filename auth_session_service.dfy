/** `createAuthSessionService` (apps/api/src/auth/authSessionService.js):
    refresh-token rotation and revocation over the refresh-token store.
    Rotation runs verify, type check, record and owner check, expiry check,
    then deletes the old record, issues a new pair and saves the new record.
    The injected `nowMs` is represented by the value it returns. */
module AuthSession {
  import opened Common
  import opened TokenService
  import opened RefreshStore
  import AuthLogin

  /** `{ ok: true, accessToken, refreshToken }` or `{ ok: false, status, message }`. */
  datatype RotateResult =
    | Rotated(accessToken: string, refreshToken: string)
    | Rejected(status: int, message: string)

  datatype Rotation = Rotation(result: RotateResult, records: map<string, RefreshRecord>)

  /** Every check of a rotation passes: the token verifies, is a refresh
      token, its `jti` has a record owned by its subject, and that record has
      not expired (`expiresAtMs < now` is expired, so equality still passes). */
  predicate RotationAllowed(svc: TokenService, records: map<string, RefreshRecord>, refreshToken: string, now: int) {
    var verified := VerifyRefreshToken(svc, refreshToken);
    && verified.Ok?
    && verified.value.tokenType == Some("refresh")
    && verified.value.jti.Some?
    && verified.value.jti.value in records
    && verified.value.sub == Some(records[verified.value.jti.value].userId)
    && !(records[verified.value.jti.value].expiresAtMs < now)
  }

  /** `rotateRefreshSession`: the result and the store afterwards. */
  function Rotate(
    svc: TokenService, records: map<string, RefreshRecord>,
    refreshToken: string, username: string, now: int, draws: Draws): (r: Rotation)
    ensures r.result.Rotated? <==> RotationAllowed(svc, records, refreshToken, now)
    ensures r.result.Rejected? ==> r.result.status == 401
    ensures r.result.Rejected? && r.result.message != "Refresh token expired" ==> r.records == records
    ensures r.result.Rejected? ==> r.records.Keys <= records.Keys
  {
    match VerifyRefreshToken(svc, refreshToken)
    case Err(_) => Rotation(Rejected(401, "Invalid refresh token"), records)
    case Ok(payload) =>
      if payload.tokenType != Some("refresh") then
        Rotation(Rejected(401, "Invalid refresh token"), records)
      else
        var record := Lookup(records, payload.jti);
        if record.None? || Some(record.value.userId) != payload.sub then
          Rotation(Rejected(401, "Refresh token revoked"), records)
        else if record.value.expiresAtMs < now then
          Rotation(Rejected(401, "Refresh token expired"), Removed(records, payload.jti))
        else
          var afterDelete := Removed(records, payload.jti);
          var issued := IssueTokens(svc, payload.sub.value, username, draws);
          Rotation(
            Rotated(issued.accessToken, issued.refreshToken),
            afterDelete[issued.jti := RefreshRecord(payload.sub.value, issued.refreshExpiresAtMs)])
  }

  /** A token that fails verification or is not a refresh token is
      "Invalid refresh token" and the store is left alone. */
  lemma RotateInvalidToken(
    svc: TokenService, records: map<string, RefreshRecord>,
    refreshToken: string, username: string, now: int, draws: Draws)
    requires VerifyRefreshToken(svc, refreshToken).Err? ||
             VerifyRefreshToken(svc, refreshToken).value.tokenType != Some("refresh")
    ensures Rotate(svc, records, refreshToken, username, now, draws) ==
      Rotation(Rejected(401, "Invalid refresh token"), records)
  {
  }

  /** A refresh token whose record is missing or owned by someone else is
      "Refresh token revoked" and the store is left alone. */
  lemma RotateRevoked(
    svc: TokenService, records: map<string, RefreshRecord>,
    refreshToken: string, username: string, now: int, draws: Draws)
    requires VerifyRefreshToken(svc, refreshToken).Ok?
    requires VerifyRefreshToken(svc, refreshToken).value.tokenType == Some("refresh")
    requires var p := VerifyRefreshToken(svc, refreshToken).value;
      p.jti.None? || p.jti.value !in records || Some(records[p.jti.value].userId) != p.sub
    ensures Rotate(svc, records, refreshToken, username, now, draws) ==
      Rotation(Rejected(401, "Refresh token revoked"), records)
  {
  }

  /** An expired record is deleted and the answer is "Refresh token expired". */
  lemma RotateExpired(
    svc: TokenService, records: map<string, RefreshRecord>,
    refreshToken: string, username: string, now: int, draws: Draws)
    requires VerifyRefreshToken(svc, refreshToken).Ok?
    requires var p := VerifyRefreshToken(svc, refreshToken).value;
      && p.tokenType == Some("refresh") && p.jti.Some? && p.jti.value in records
      && p.sub == Some(records[p.jti.value].userId)
      && records[p.jti.value].expiresAtMs < now
    ensures var p := VerifyRefreshToken(svc, refreshToken).value;
      Rotate(svc, records, refreshToken, username, now, draws) ==
        Rotation(Rejected(401, "Refresh token expired"), records - {p.jti.value})
  {
  }

  /** A successful rotation removes the old `jti`, adds the new one for the
      same subject with the issued expiry, returns the new pair, and leaves
      every other entry of the store as it was. */
  lemma RotateSucceeds(
    svc: TokenService, records: map<string, RefreshRecord>,
    refreshToken: string, username: string, now: int, draws: Draws)
    requires RotationAllowed(svc, records, refreshToken, now)
    ensures var p := VerifyRefreshToken(svc, refreshToken).value;
      var oldJti := p.jti.value;
      var userId := records[oldJti].userId;
      var issued := IssueTokens(svc, userId, username, draws);
      var r := Rotate(svc, records, refreshToken, username, now, draws);
      && r.result == Rotated(issued.accessToken, issued.refreshToken)
      && (oldJti != draws.jti ==> oldJti !in r.records)
      && r.records.Keys == (records.Keys - {oldJti}) + {draws.jti}
      && r.records[draws.jti] == RefreshRecord(userId, issued.refreshExpiresAtMs)
      && (forall k :: k in records && k != oldJti && k != draws.jti ==> r.records[k] == records[k])
  {
  }

  /** Rotation is single use: once a refresh token has been rotated (and the
      new id differs from the old one), presenting it again is refused as
      revoked, whatever the clock and the generators then say. */
  lemma {:induction false} RotationIsSingleUse(
    svc: TokenService, records: map<string, RefreshRecord>,
    refreshToken: string, username: string, now: int, draws: Draws,
    username2: string, now2: int, draws2: Draws)
    requires Rotate(svc, records, refreshToken, username, now, draws).result.Rotated?
    requires VerifyRefreshToken(svc, refreshToken).value.jti != Some(draws.jti)
    ensures var after := Rotate(svc, records, refreshToken, username, now, draws).records;
      Rotate(svc, after, refreshToken, username2, now2, draws2) ==
        Rotation(Rejected(401, "Refresh token revoked"), after)
  {
    var after := Rotate(svc, records, refreshToken, username, now, draws).records;
    var p := VerifyRefreshToken(svc, refreshToken).value;
    assert RotationAllowed(svc, records, refreshToken, now);
    RotateSucceeds(svc, records, refreshToken, username, now, draws);
    assert p.jti.value !in after;
    RotateRevoked(svc, after, refreshToken, username2, now2, draws2);
  }

  /** `revokeRefreshSession`: the store after logout. It deletes the token's
      `jti` when the token verifies and otherwise leaves the store alone; the
      call itself always answers `{ ok: true }`. */
  function Revoke(svc: TokenService, records: map<string, RefreshRecord>, refreshToken: string): (r: map<string, RefreshRecord>)
    ensures VerifyRefreshToken(svc, refreshToken).Err? ==> r == records
    ensures VerifyRefreshToken(svc, refreshToken).Ok? ==>
      r == Removed(records, VerifyRefreshToken(svc, refreshToken).value.jti)
  {
    match VerifyRefreshToken(svc, refreshToken)
    case Ok(payload) => Removed(records, payload.jti)
    case Err(_) => records
  }

  /** After logout with a token, that token can no longer be rotated. */
  lemma RevokedTokenCannotRotate(
    svc: TokenService, records: map<string, RefreshRecord>,
    refreshToken: string, username: string, now: int, draws: Draws)
    ensures !Rotate(svc, Revoke(svc, records, refreshToken), refreshToken, username, now, draws).result.Rotated?
  {
  }

  /** Login then rotate: with a provider whose `verify` gives back what `sign`
      signed, the refresh token a login just returned rotates successfully as
      long as the clock has not passed its record's expiry. */
  lemma {:induction false} LoginThenRotate(
    svc: TokenService, records: map<string, RefreshRecord>,
    userId: string, username: string, draws: Draws, csrfToken: string,
    now: int, username2: string, draws2: Draws)
    requires RoundTrips(svc.tokenProvider)
    requires now <= IssueTokens(svc, userId, username, draws).refreshExpiresAtMs
    ensures var login := AuthLogin.Login(svc, records, userId, username, draws, csrfToken);
      Rotate(svc, login.records, login.session.refreshToken, username2, now, draws2).result.Rotated?
  {
    var login := AuthLogin.Login(svc, records, userId, username, draws, csrfToken);
    IssueVerifyRoundTrip(svc, userId, username, draws);
    assert RotationAllowed(svc, login.records, login.session.refreshToken, now);
  }

  class AuthSessionService {
    const tokenService: TokenService
    const store: RefreshTokenStore

    constructor (tokenService: TokenService, store: RefreshTokenStore)
      ensures this.tokenService == tokenService && this.store == store
    {
      this.tokenService := tokenService;
      this.store := store;
    }

    method RotateRefreshSession(refreshToken: string, username: string, now: int, draws: Draws)
      returns (result: RotateResult)
      modifies store
      ensures Rotation(result, store.records) ==
        Rotate(tokenService, old(store.records), refreshToken, username, now, draws)
    {
      var verified := VerifyRefreshToken(tokenService, refreshToken);
      if verified.Err? {
        return Rejected(401, "Invalid refresh token");
      }
      var payload := verified.value;
      if payload.tokenType != Some("refresh") {
        return Rejected(401, "Invalid refresh token");
      }
      var record := store.Get(payload.jti);
      if record.None? || Some(record.value.userId) != payload.sub {
        return Rejected(401, "Refresh token revoked");
      }
      if record.value.expiresAtMs < now {
        store.Delete(payload.jti);
        return Rejected(401, "Refresh token expired");
      }
      store.Delete(payload.jti);
      var issued := IssueTokens(tokenService, payload.sub.value, username, draws);
      store.Save(issued.jti, payload.sub.value, issued.refreshExpiresAtMs);
      result := Rotated(issued.accessToken, issued.refreshToken);
    }

    /** Fail-open logout: always `{ ok: true }`. */
    method RevokeRefreshSession(refreshToken: string) returns (ok: bool)
      modifies store
      ensures ok
      ensures store.records == Revoke(tokenService, old(store.records), refreshToken)
    {
      var verified := VerifyRefreshToken(tokenService, refreshToken);
      if verified.Ok? {
        store.Delete(verified.value.jti);
      }
      ok := true;
    }
  }
}
