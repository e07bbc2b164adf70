# home-video API core in Dafny

This project models the core of the home-video API server and its web client's configuration, and proves properties of that model. The parts modelled are:

- **Authentication and sessions.**
  - Token configuration and issuing/verifying access and refresh tokens.
  - The refresh-token ledger.
  - Login, refresh-token rotation and revocation.
  - Cookie options and the auth cookies.
  - The CSRF double-submit check.
  - The access-token middleware.
  - The single admin account.
  - The `/login`, `/refresh` and `/logout` handlers.
  - The read-only store over Spring Session hashes in Redis.
- **The media library.**
  - The folder and flat scans of a library directory.
  - Merging their tables.
  - The movie, series and episode use cases.
- **Users.**
  - Per-user video directories.
  - The JSON user dictionary.
- **Configuration.**
  - The API server's `config()`.
  - The web client's `config()`.

Pure code is written as datatypes, functions and lemmas. Code that mutates state is written as classes with `modifies` clauses:
- the refresh-token store;
- the HTTP response;
- the Redis client;
- the Spring session store;
- the file system;
- the user store;
- the route handlers.

Each method is proved against a specification function, and the properties are lemmas about those functions. The following become parameters:
- everything the code draws from outside: the clock, random ids and CSRF tokens, `os.homedir()`, the local IP address, `window.location`;
- the injected collaborators: JWT signing/verification, `bcrypt.compare`, `JSON.parse`, the file helpers, `mapMedia`.

For such a collaborator, a lemma states what the model requires of it (for example, `RoundTrips`: verifying a signed token gives back its claims).

Module layout, one `.dfy` file per source file, plus:
- `common.dfy`: JavaScript `||`, truthiness, `trim`, `toLowerCase`, `split`;
- `http.dfy`: the request and response parts the handlers use;
- `redis.dfy`: the Redis commands the session store issues;
- `refresh_store.dfy`: the refresh ledger.

Where the system's documentation and the code differ, the model follows the code:
- **Spring security context.** A security context that starts with `{` but does not parse as JSON still yields an authenticated session: the exception is caught inside `TranslateContext`, and the session keeps the principal name (or "unknown") and `ROLE_USER` (`SpringSession.UnparsableContextStillAuthenticated`).
- **Access-token middleware.** `requireAuth` does only a bearer-or-cookie token verification. It consults no server-side session and no stored profile (`RequireAuth.Authenticate`).
- **Login handler.** The `/login` handler writes its cookies inline rather than through the cookie service. `AuthRouter.InlineCookiesMatchCookieService` proves the writes are identical to the service's with its default names.

Observations about the code, stated as lemmas:
- Two top-level videos with the same derived id (`A.mp4`, `A.mkv`) are both listed in `allIds` under one shared entry (`MediaScan.RepeatedFlatIdListedTwice`).
- A custom `MOVIES_DIR` changes the path `getUserMoviesPath` reports but not the directory `ensureUserDirectory` creates (`UserDirectory.CustomMoviesDirIsNotCreated`).
- In production the web client demands `REACT_APP_SERVER_HOST` even when it then takes the host from `window.location` (`WebConfig.ProductionRequiresEnvHost`).
- `protocol.replace(":", "")` removes only the first colon (`WebConfig.OnlyFirstColonRemoved`).
- With key-set validation on, `requireAuth` does not await the Promise the key-set provider returns, so it accepts every non-empty token with an empty `req.user` (`RequireAuth.KeySetValidationAcceptsEveryToken`; see Findings).

## Model

| member | source | states |
|---|---|---|
| `Common.Or` | apps/api/src/config.js:49 | `a \|\| b` on optional strings: `a` when it is a non-empty string, else `b` |
| `Common.OrDefault` | apps/api/src/auth/tokenConfig.js:3-8 | `a \|\| "default"`: the value when non-empty, else the default |
| `Common.ToLower` | apps/api/src/config.js:46-48 | same length, every character lower-cased |
| `Common.Trim` | apps/web/src/config.js:8 | the result is a contiguous part of the input that neither starts nor ends with white space, and everything dropped before and after it is white space |
| `Common.Split` | apps/api/src/middleware/auth.js:11 | `split` always yields at least one piece |
| `Common.SplitTwoPieces` | apps/api/src/middleware/auth.js:11 | `a + sep + b` splits into exactly `[a, b]` when `sep` occurs only at the join |
| `Common.TrimStart` | apps/api/src/config.js:47 | the result is a suffix of the input, everything dropped is white space, and it does not start with white space |
| `Common.TrimEnd` | apps/api/src/config.js:47 | the result is a prefix of the input, everything dropped is white space, and it does not end with white space |
| `Common.NatToString` | apps/api/src/auth/springSessionStore.js:227 | `now.toString()` of a natural number is a non-empty string of decimal digits |
| `Common.JoinPath` | apps/api/src/user/userDirectory.js:22-24 | the joined path is the base, one "/", then exactly the segment |
| `TimeUtil.UnitMultiplier` | apps/api/src/common/timeUtil.js:10-17 | every accepted unit letter, in either case, has a positive multiplier |
| `TimeUtil.MatchesDuration` | apps/api/src/common/timeUtil.js:5-6 | the pattern `^(\d+)([smhd])$/i` as a definition: at least one digit followed by one unit letter, nothing else |
| `TimeUtil.DigitsValue` | apps/api/src/common/timeUtil.js:9 | `Number` of a digit string; it is 0 exactly when every digit is "0" |
| `TimeUtil.ParseDurationToMs` | apps/api/src/common/timeUtil.js:1-18 | a number is returned unchanged; text not wholly digits plus one unit letter gives 0; a match gives the digits' value times the unit's milliseconds; text never gives a negative value |
| `TimeUtil.DigitsValueOfNatToString` | apps/api/src/common/timeUtil.js:9 | reading back the decimal rendering of `n` gives `n` |
| `TimeUtil.ParseUnits` | apps/api/src/common/timeUtil.js:5-17 | `"<n>s"`, `"<n>m"`, `"<n>h"`, `"<n>d"` (either case) are n seconds, minutes, hours, days in milliseconds |
| `TimeUtil.UnitCaseInsensitive` | apps/api/src/common/timeUtil.js:5-10 | upper-casing the unit letter does not change the result |
| `TimeUtil.RejectedExamples` | apps/api/src/common/timeUtil.js:5-8 | padded, signed, fractional, unit-less, unknown-unit and empty texts all give 0 |
| `TimeUtil.AcceptedExamples` | apps/api/src/common/timeUtil.js:1-18 | "10s" is 10000, "2h" is 7200000, "180d" is 15552000000, the number 5 is 5 |
| `TokenConfig.CreateTokenConfig` | apps/api/src/auth/tokenConfig.js:1-10 | each secret, lifetime and URL is its environment value when non-empty, else its default; key-set validation is on exactly when `JWKS_VALIDATION` is "true" |
| `TokenConfig.EmptyEnvValueIsMissing` | apps/api/src/auth/tokenConfig.js:3-8 | an empty environment value gives the same configuration as no value |
| `TokenConfig.Defaults` | apps/api/src/auth/tokenConfig.js:1-10 | an empty environment gives "access-secret", "refresh-secret", "15m", "180d", no validation, no URL |
| `CookiePolicy.Keys` | apps/api/src/auth/cookiePolicy.js:2-13 | the four base keys are always present; `domain` and `maxAge` exactly when set |
| `CookiePolicy.BuildCookieOptions` | apps/api/src/auth/cookiePolicy.js:1-15 | flags and same-site come from the arguments and configuration; the path defaults to "/"; a domain only when truthy; a max age only when finite |
| `CookiePolicy.FourKeysByDefault` | apps/api/src/auth/cookiePolicy.js:2-7 | without a domain or finite max age the options have exactly four keys |
| `CookiePolicy.EmptyDomainAndNonFiniteAgeOmitted` | apps/api/src/auth/cookiePolicy.js:8-13 | an empty domain is no domain; NaN and infinite max ages are omitted |
| `CookiePolicy.ZeroMaxAgeKept` | apps/api/src/auth/cookiePolicy.js:11-13 | a zero max age is finite and kept |
| `TokenService.CreateTokenService` | apps/api/src/auth/tokenService.js:7-20 | the service keeps the configuration it was given (which provider verifies is `AccessVerificationBackend`) |
| `TokenService.JwksEnabled` | apps/api/src/auth/tokenService.js:17 | definition: key-set validation is on and the key-set URL is non-empty |
| `TokenService.RoundTrips` | apps/api/src/auth/tokenService.js:22-50 | definition of what the model assumes of a local provider: verifying with the signing secret gives back the signed claims |
| `TokenService.AccessClaims` | apps/api/src/auth/tokenService.js:24 | the access payload carries `sub` and `username`, no `jti` and no refresh `type` |
| `TokenService.RefreshClaims` | apps/api/src/auth/tokenService.js:30 | the refresh payload carries `sub`, the drawn `jti` and `type: "refresh"`, and no `username` |
| `TokenService.UnawaitedKeySetProvider` | apps/api/src/auth/providers/jwksTokenProvider.js:27-42 | the key-set provider's `verify` as a synchronous caller sees it: it never throws and every claim read from its Promise is `undefined` |
| `TokenService.IssueTokens` | apps/api/src/auth/tokenService.js:22-37 | the returned token id is the single id drawn; the signed claims are `IssuedTokensSigned` |
| `TokenService.VerifyAccessToken` | apps/api/src/auth/tokenService.js:39-45 | with key-set validation on, the answer is the key-set provider's `verify` with no secret (the real provider answers a Promise: `UnawaitedKeySetProvider`); otherwise a round-tripping local provider gives back the claims of any token signed with the access secret |
| `TokenService.VerifyRefreshToken` | apps/api/src/auth/tokenService.js:47-50 | a round-tripping local provider gives back the claims of any token signed with the refresh secret |
| `TokenService.IssuedTokensSigned` | apps/api/src/auth/tokenService.js:22-37 | the access token signs exactly `{sub, username}` with the access secret and lifetime, the refresh token exactly `{sub, jti, type: "refresh"}` with the refresh ones; the expiry is the clock plus the parsed refresh lifetime |
| `TokenService.IssueVerifyRoundTrip` | apps/api/src/auth/tokenService.js:22-50 | with a round-tripping provider the refresh token always verifies to its claims, and the access token does whenever key-set validation is off |
| `TokenService.RefreshVerificationIsLocal` | apps/api/src/auth/tokenService.js:47-50 | refresh tokens are verified by the local provider with the refresh secret, whatever the key-set settings |
| `TokenService.AccessVerificationBackend` | apps/api/src/auth/tokenService.js:15-45 | access tokens go to the key-set provider built from the URL exactly when validation is on and a URL is set, else to the local provider with the access secret |
| `TokenService.RefreshExpiryExample` | apps/api/src/auth/tokenService.js:34 | a "2h" lifetime at clock 1000 expires at 1000 + 7200000 |
| `RefreshStore.Removed` | apps/api/src/auth/authSessionService.js:23-27 | deleting a token id removes exactly that key; an undefined id changes nothing |
| `RefreshStore.RefreshTokenStore.constructor` | apps/api/src/composition/app.js:57 | a new store is empty |
| `RefreshStore.RefreshTokenStore.Get` | apps/api/src/auth/authSessionService.js:18 | a record is found exactly for a present id, and it is the stored one |
| `RefreshStore.RefreshTokenStore.Save` | apps/api/src/auth/authLoginService.js:15-19 | the ledger gains or replaces exactly that record |
| `RefreshStore.RefreshTokenStore.Delete` | apps/api/src/auth/authSessionService.js:23 | the ledger becomes `Removed` of the old one |
| `AuthLogin.Login` | apps/api/src/auth/authLoginService.js:8-26 | the session holds the issued pair and the drawn CSRF token; the ledger gains the drawn id for the user with the issued expiry, all else unchanged |
| `AuthLogin.LoginAnchorsRefreshToken` | apps/api/src/auth/authLoginService.js:9-19 | the refresh token a login returns verifies to an id whose record belongs to that user and expires at the issued expiry |
| `AuthLogin.AuthLoginService.constructor` | apps/api/src/auth/authLoginService.js:3-7 | the service keeps its token service and store |
| `AuthLogin.AuthLoginService.CreateLoginSession` | apps/api/src/auth/authLoginService.js:8-26 | the returned session and the new ledger are those of `Login` |
| `RefreshStore.Lookup` | apps/api/src/auth/authSessionService.js:18 | a record exactly for a present id, and it is the stored one |
| `AuthSession.Rotate` | apps/api/src/auth/authSessionService.js:6-44 | rotation succeeds exactly when every check passes; every refusal is 401; only the expiry refusal touches the ledger, and no refusal adds to it |
| `AuthSession.RotationAllowed` | apps/api/src/auth/authSessionService.js:8-25 | definition of a rotation that passes every check: the token verifies as a refresh token, its id is recorded for its `sub`, and the record has not expired |
| `AuthSession.RotateInvalidToken` | apps/api/src/auth/authSessionService.js:8-16 | an unverifiable or non-refresh token is "Invalid refresh token" and the ledger is unchanged |
| `AuthSession.RotateRevoked` | apps/api/src/auth/authSessionService.js:18-21 | a missing record or another owner is "Refresh token revoked" and the ledger is unchanged |
| `AuthSession.RotateExpired` | apps/api/src/auth/authSessionService.js:22-25 | an expired record is deleted and the answer is "Refresh token expired" |
| `AuthSession.RotateSucceeds` | apps/api/src/auth/authSessionService.js:27-43 | a success returns the new pair, removes the old id, adds the new id for the same owner with the issued expiry, and keeps every other record |
| `AuthSession.RotationIsSingleUse` | apps/api/src/auth/authSessionService.js:18-37 | a rotated refresh token presented again is refused as revoked |
| `AuthSession.Revoke` | apps/api/src/auth/authSessionService.js:46-54 | a verifying token's id is deleted; an invalid token leaves the ledger alone |
| `AuthSession.RevokedTokenCannotRotate` | apps/api/src/auth/authSessionService.js:18-54 | after logout with a token, that token never rotates |
| `AuthSession.LoginThenRotate` | apps/api/src/auth/authSessionService.js:6-44 | a login's refresh token rotates while its record has not expired |
| `AuthSession.AuthSessionService.constructor` | apps/api/src/auth/authSessionService.js:1-5 | the service keeps its token service and store |
| `AuthSession.AuthSessionService.RotateRefreshSession` | apps/api/src/auth/authSessionService.js:6-44 | the result and the new ledger are those of `Rotate` |
| `AuthSession.AuthSessionService.RevokeRefreshSession` | apps/api/src/auth/authSessionService.js:46-54 | always answers ok; the new ledger is `Revoke` of the old |
| `AuthCookies.CreateAuthCookieService` | apps/api/src/auth/authCookieService.js:9-19 | access and CSRF cookies on "/", refresh on "/auth"; only CSRF readable by scripts; no max age; one secure, same-site and domain setting for all, the domain only when it is non-empty |
| `AuthCookies.SetOps` | apps/api/src/auth/authCookieService.js:21-25 | access, refresh, CSRF tokens set in that order with their options |
| `AuthCookies.ClearOps` | apps/api/src/auth/authCookieService.js:27-31 | three clears |
| `AuthCookies.ClearMatchesSet` | apps/api/src/auth/authCookieService.js:13-31 | clearing targets the same names with the same options, in the same order, as setting |
| `AuthCookies.DefaultNamesUsed` | apps/api/src/auth/authCookieService.js:3-7 | by default the tokens go to `access_token`, `refresh_token`, `csrf_token` |
| `AuthCookies.SetAuthCookies` | apps/api/src/auth/authCookieService.js:21-25 | the response gains exactly `SetOps` |
| `AuthCookies.ClearAuthCookies` | apps/api/src/auth/authCookieService.js:27-31 | the response gains exactly `ClearOps` |
| `Csrf.CsrfValidMeaning` | apps/api/src/middleware/csrf.js:11-15 | a request passes exactly when the header is a non-empty string and the cookie holds that string |
| `Csrf.CsrfValid` | apps/api/src/middleware/csrf.js:11 | definition: the negation of the refusal condition `!header \|\| !cookie \|\| header !== cookie` (its meaning is `CsrfValidMeaning`) |
| `Csrf.EmptyValuesRejected` | apps/api/src/middleware/csrf.js:11 | an empty or missing header or cookie never passes |
| `Csrf.EnsureCsrf` | apps/api/src/middleware/csrf.js:3-16 | returns whether it passes; a refusal writes 403 "Invalid CSRF token", a pass writes nothing |
| `RequireAuth.SelectAccessToken` | apps/api/src/middleware/auth.js:10-14 | the second space-separated field when the first is exactly "Bearer" and the second is non-empty, and the cookie token in every other case; a token other than the cookie's is non-empty and space-free |
| `RequireAuth.BearerTokenWins` | apps/api/src/middleware/auth.js:10-14 | `Bearer <t>` selects `t` whatever the cookie holds |
| `RequireAuth.CookieFallback` | apps/api/src/middleware/auth.js:10-14 | no header, any scheme other than exactly "Bearer" (alone or followed by anything), a bare "Bearer", or "Bearer" followed by an empty second field fall back to the cookie |
| `RequireAuth.Authenticate` | apps/api/src/middleware/auth.js:9-27 | no token is "Missing access token"; success exactly when the selected token verifies, with `req.user` from its `sub` and `username`; otherwise "Invalid access token". This is the middleware with the verification awaited; how the code as written behaves under key-set validation is `KeySetValidationAcceptsEveryToken` |
| `RequireAuth.MissingTokenSkipsVerification` | apps/api/src/middleware/auth.js:16-18 | without a token the verifier is never consulted |
| `RequireAuth.VerifiesSelectedToken` | apps/api/src/middleware/auth.js:20-26 | the decision depends on the verifier only through the selected token |
| `RequireAuth.RejectedTokenRefused` | apps/api/src/middleware/auth.js:20-26 | a selected token whose verification fails is answered "Invalid access token" |
| `RequireAuth.KeySetValidationAcceptsEveryToken` | apps/api/src/middleware/auth.js:20-23 | with key-set validation on and the real key-set provider, every request with a non-empty selected token is authenticated with `req.user` `{id: undefined, username: undefined}` |
| `RequireAuth.RequireAuth` | apps/api/src/middleware/auth.js:9-27 | `next` is called exactly on success, which sets `req.user` and writes nothing; a failure writes the 401 message and leaves `req.user` |
| `Credentials.LoadCredentialConfig` | apps/api/src/auth/user.js:4-20 | name and password default from the environment; a direct hash wins; else in production a named hash file supplies the trimmed hash, and an unreadable one leaves it empty |
| `Credentials.HashFileOnlyInProduction` | apps/api/src/auth/user.js:10 | outside production the hash file's contents make no difference |
| `Credentials.AuthUserOf` | apps/api/src/auth/user.js:22-25 | the user is "user-1" with the configured admin name |
| `Credentials.ValidateCredentials` | apps/api/src/auth/user.js:27-49 | success needs both fields and the admin name; then a hash decides through `compare`, else a non-empty plaintext password must equal |
| `Credentials.HashAloneDecides` | apps/api/src/auth/user.js:30-38 | with a hash configured the plaintext setting plays no part |
| `Credentials.NothingConfiguredRejects` | apps/api/src/auth/user.js:47-48 | with neither hash nor password nothing logs in |
| `Credentials.DefaultsExample` | apps/api/src/auth/user.js:4-49 | the default account is "admin" with nothing configured; an empty password never passes |
| `AuthRouter.IssueCookieOps` | apps/api/src/routers/AuthRouter.js:46-60 | three cookie writes (their names and options are `InlineCookiesMatchCookieService`) |
| `AuthRouter.ClearCookieOps` | apps/api/src/routers/AuthRouter.js:128-133 | three cookie clears |
| `AuthRouter.InlineCookiesMatchCookieService` | apps/api/src/routers/AuthRouter.js:46-60 | the router's inline writes and clears equal the cookie service's with its default names |
| `AuthRouter.LoginRoute` | apps/api/src/routers/AuthRouter.js:26-63 | bad credentials give 401 and change nothing; good ones record the drawn id for "user-1", set the three cookies and answer 200 with the access token |
| `AuthRouter.PresentedToken` | apps/api/src/routers/AuthRouter.js:66-68 | the body's token when non-empty, else the cookie |
| `AuthRouter.RefreshGate` | apps/api/src/routers/AuthRouter.js:66-78 | no token is 400; a body token goes on; a cookie token goes on exactly when the CSRF check passes, else 403 |
| `AuthRouter.RefreshRoute` | apps/api/src/routers/AuthRouter.js:65-109 | a stopped request leaves the ledger; otherwise the ledger is `Rotate`'s, a refusal answers its status and message, a success sets the three cookies and answers 200 |
| `AuthRouter.LogoutRoute` | apps/api/src/routers/AuthRouter.js:111-135 | past the gate the ledger is `Revoke`'s and the answer is always 200 "Logged out" with the cookies cleared |
| `AuthRouter.BodyTokenBypassesCookieAndCsrf` | apps/api/src/routers/AuthRouter.js:66-78 | with a body token, refresh and logout do not depend on the refresh cookie or the CSRF values |
| `AuthRouter.FailedRefreshSetsNoCookie` | apps/api/src/routers/AuthRouter.js:84-89 | a refresh that does not answer 200 writes no cookie |
| `AuthRouter.GateLeavesLedger` | apps/api/src/routers/AuthRouter.js:69-78 | a request stopped by the gate leaves the ledger unchanged |
| `AuthRouter.LoginThenRefresh` | apps/api/src/routers/AuthRouter.js:26-109 | the refresh cookie a login sets, with a matching CSRF header, refreshes with 200 while live |
| `AuthRouter.AuthRouter.constructor` | apps/api/src/routers/AuthRouter.js:15-24 | the router keeps its store, services, cookie settings and credentials |
| `AuthRouter.AuthRouter.Login` | apps/api/src/routers/AuthRouter.js:26-63 | the new ledger and response are those of `LoginRoute` |
| `AuthRouter.AuthRouter.Refresh` | apps/api/src/routers/AuthRouter.js:65-109 | the new ledger and response are those of `RefreshRoute` |
| `AuthRouter.AuthRouter.Logout` | apps/api/src/routers/AuthRouter.js:111-135 | the new ledger and response are those of `LogoutRoute` |
| `Redis.HashOf` | apps/api/src/auth/springSessionStore.js:32-37 | an absent key reads as the empty hash; a set key is a WRONGTYPE error |
| `Redis.RedisClient.HGetAll` | apps/api/src/auth/springSessionStore.js:32 | an absent key reads as `{}`, a hash as its fields, a set as a WRONGTYPE error; nothing changes |
| `Redis.SetRemoved` | apps/api/src/auth/springSessionStore.js:199-201 | only the named set loses the member, and an emptied set disappears |
| `Redis.HashSet` | apps/api/src/auth/springSessionStore.js:227 | the field gets the value; other fields and keys are kept |
| `Redis.KeysWithPrefix` | apps/api/src/auth/springSessionStore.js:197-198 | exactly the keys starting with the prefix |
| `Redis.RedisClient.Del` | apps/api/src/auth/springSessionStore.js:192 | the key is gone; the count is 1 exactly when it existed |
| `Redis.RedisClient.Keys` | apps/api/src/auth/springSessionStore.js:198 | every matching key once |
| `Redis.RedisClient.SRem` | apps/api/src/auth/springSessionStore.js:200 | WRONGTYPE on a hash, changing nothing; else `SetRemoved`, counting the member removed |
| `Redis.RedisClient.HSet` | apps/api/src/auth/springSessionStore.js:227 | WRONGTYPE on a set, changing nothing; else `HashSet` |
| `SpringSession.JsOr` | apps/api/src/auth/springSessionStore.js:77-78 | `a \|\| b` on JavaScript values |
| `SpringSession.Prop` | apps/api/src/auth/springSessionStore.js:77-78 | an object's own property, else `undefined` |
| `SpringSession.PrincipalName` | apps/api/src/auth/springSessionStore.js:42 | the `principalName` field when non-empty, else the `spring:session:principalName` field |
| `SpringSession.ExpirationPrefix` | apps/api/src/auth/springSessionStore.js:197 | the store prefix followed by exactly "expirations:" |
| `SpringSession.IndexKey` | apps/api/src/auth/springSessionStore.js:206 | the store prefix, "index:", then exactly the principal name |
| `SpringSession.RoleRun` | apps/api/src/auth/springSessionStore.js:124 | the longest prefix of role characters |
| `SpringSession.RoleMatches` | apps/api/src/auth/springSessionStore.js:124 | every match is "ROLE_" followed by at least one of A-Z or `_` |
| `SpringSession.RoleMatchesTake` | apps/api/src/auth/springSessionStore.js:124 | a maximal role token is matched and the scan continues after it |
| `SpringSession.RoleMatchesSkip` | apps/api/src/auth/springSessionStore.js:124 | a position where no role starts is skipped |
| `SpringSession.RoleMatchesList` | apps/api/src/auth/springSessionStore.js:124-127 | "ROLE_ADMIN,ROLE_USER" gives both roles in order |
| `SpringSession.RoleMatchesNeedUpperCase` | apps/api/src/auth/springSessionStore.js:124 | "ROLE_" alone or with lower case is no role |
| `SpringSession.RoleMatchesLongestRun` | apps/api/src/auth/springSessionStore.js:124 | a match runs over underscores and stops at a digit |
| `SpringSession.MapAuthority` | apps/api/src/auth/springSessionStore.js:90-93 | `null` and `undefined` throw; a string stays |
| `SpringSession.MapAuthorities` | apps/api/src/auth/springSessionStore.js:90-93 | the map throws exactly when some element throws, else maps elementwise |
| `SpringSession.FilterTruthy` | apps/api/src/auth/springSessionStore.js:93 | keeps exactly the truthy elements; a single element is kept exactly when truthy |
| `SpringSession.FromJson` | apps/api/src/auth/springSessionStore.js:73-95 | the username is the principal's `email \|\| username` when there is a principal; when the selected authority entry is an array whose mapping does not throw, the authorities are its mapped truthy elements in order, else the fallback's |
| `SpringSession.FilterTruthyAppend` | apps/api/src/auth/springSessionStore.js:93 | filtering a concatenation concatenates the filtered parts, so order is kept |
| `SpringSession.AuthorityArray` | apps/api/src/auth/springSessionStore.js:86-88 | the second authority entry when there are two or more, the first when there is one, else `undefined`; nothing when the authorities are not an array |
| `SpringSession.SpringShapedContext` | apps/api/src/auth/springSessionStore.js:74-95 | Spring's nested shape with a principal without e-mail gives the principal's username and the listed roles' truthy members in order |
| `SpringSession.TranslateContext` | apps/api/src/auth/springSessionStore.js:66-129 | a context starting with "{" is `FromJson` of its parse, or the fallback when the parse fails; any other context is `FromText` of its decoded text |
| `SpringSession.FromText` | apps/api/src/auth/springSessionStore.js:109-129 | a found e-mail becomes the username; found roles replace the authorities |
| `SpringSession.SessionFromHash` | apps/api/src/auth/springSessionStore.js:34-160 | null exactly for an empty hash or no security context; otherwise an authenticated user with identical id, username and e-mail, whose username and authorities are `TranslateContext` of the context with the principal name (or "unknown") and `ROLE_USER` as fallback, the hash's times, and a cookie of the store's lifetime |
| `SpringSession.GetSession` | apps/api/src/auth/springSessionStore.js:26-165 | an error exactly when the key holds a set; otherwise `SessionFromHash` of the hash |
| `SpringSession.GetReadsOnlyItsKey` | apps/api/src/auth/springSessionStore.js:27-32 | only the session's own key is read |
| `SpringSession.UnparsableContextStillAuthenticated` | apps/api/src/auth/springSessionStore.js:66-133 | an unparsable JSON context still authenticates, with the principal name or "unknown" and `ROLE_USER` |
| `SpringSession.JsonContextExample` | apps/api/src/auth/springSessionStore.js:74-95 | Spring's nested shape gives the principal's username and the listed roles without the empty one |
| `SpringSession.NullAuthorityKeepsDefaultRoles` | apps/api/src/auth/springSessionStore.js:86-132 | a `null` authority keeps the principal's e-mail but the default roles |
| `SpringSession.TextContextRoles` | apps/api/src/auth/springSessionStore.js:98-129 | a non-JSON context gives the found roles and e-mail |
| `SpringSession.RemovedFromSets` | apps/api/src/auth/springSessionStore.js:199-201 | keys outside the cleaned ones are untouched; a cleaned set loses only the member and disappears exactly when it becomes empty |
| `SpringSession.RemovedFromSetsStep` | apps/api/src/auth/springSessionStore.js:199-201 | one more `SREM` extends the cleaned keys by one |
| `SpringSession.Destroyed` | apps/api/src/auth/springSessionStore.js:182-216 | the main key is gone, no expiration set holds the session key, every other member of an expiration set stays and a set survives exactly while non-empty, the principal index is gone, every other key is kept |
| `SpringSession.IndexKeyIsNoExpirationKey` | apps/api/src/auth/springSessionStore.js:197-207 | the principal index key never matches the expiration pattern, so cleaning expiration sets cannot touch it |
| `SpringSession.SpringSessionStore.constructor` | apps/api/src/auth/springSessionStore.js:10-16 | prefix and lifetime default when missing, and a zero lifetime too |
| `SpringSession.SpringSessionStore.Get` | apps/api/src/auth/springSessionStore.js:26-165 | the answer is `GetSession` |
| `SpringSession.SpringSessionStore.Set` | apps/api/src/auth/springSessionStore.js:170-173 | always the read-only error |
| `SpringSession.SpringSessionStore.Destroy` | apps/api/src/auth/springSessionStore.js:182-216 | a set at the key is an error changing nothing; with well-typed expiration keys the keyspace becomes `Destroyed`; else an error after the main key is deleted |
| `SpringSession.SpringSessionStore.Touch` | apps/api/src/auth/springSessionStore.js:221-233 | only `lastAccessedTime` changes, to the clock's decimal text; a set at the key is an error |
| `UserDirectory.UserVideoPath` | apps/api/src/user/userDirectory.js:58-67 | the shared base path, or in multi-user mode the base path followed by "/" and the username |
| `UserDirectory.MultiUserEnabled` | apps/api/src/user/userDirectory.js:14 | definition: `MULTI_USER_ENABLED` is exactly the text "true" |
| `UserDirectory.BaseVideoPath` | apps/api/src/user/userDirectory.js:60 | `VIDEO_PATH` when non-empty, else "/mnt-host"; never empty |
| `UserDirectory.UserPathsSeparateUsers` | apps/api/src/user/userDirectory.js:58-67 | two users get distinct paths exactly in multi-user mode |
| `UserDirectory.MediaPath` | apps/api/src/user/userDirectory.js:74-103 | the configured sub-directory, or the default, under the user's path |
| `UserDirectory.UserDirsOf` | apps/api/src/user/userDirectory.js:21-24 | the user's base directory and its Movies and Series children |
| `UserDirectory.CustomMoviesDirIsNotCreated` | apps/api/src/user/userDirectory.js:21-85 | with `MOVIES_DIR` set, the reported movies path is not the directory created |
| `UserDirectory.DefaultDirsAgree` | apps/api/src/user/userDirectory.js:21-103 | without overrides the reported paths are the created directories |
| `UserDirectory.FileSystem.EnsureDir` | apps/api/src/user/userDirectory.js:28-31 | succeeds exactly when the directory exists or its creation does not fail, and then it exists |
| `UserDirectory.EnsureUserDirectory` | apps/api/src/user/userDirectory.js:13-51 | nothing is created outside multi-user mode; otherwise success exactly when all three directories can exist, creating exactly them, and a failure creates at most them |
| `UserDirectory.GetUserMediaPath` | apps/api/src/user/userDirectory.js:74-103 | returns `MediaPath`; creates only the user's directories, and only in multi-user mode |
| `UserDirectory.GetUserMoviesPath` | apps/api/src/user/userDirectory.js:74-85 | the movies path; nothing created outside multi-user mode |
| `UserDirectory.GetUserSeriesPath` | apps/api/src/user/userDirectory.js:92-103 | the series path; nothing created outside multi-user mode |
| `UserStore.ReadUsers` | apps/api/src/user/userStore.js:38-47 | the dictionary held, or `{}` for a missing or unparsable file |
| `UserStore.AfterRead` | apps/api/src/user/userStore.js:29-35 | a missing file becomes `{}`; reading then gives the same users |
| `UserStore.NewUser` | apps/api/src/user/userStore.js:85-98 | the generated id, name, time and video path, each overridden by the caller's field of that name |
| `UserStore.UpsertSpec` | apps/api/src/user/userStore.js:76-105 | an existing user is returned unchanged; a new one is added under its name, others kept |
| `UserStore.UpsertIsIdempotent` | apps/api/src/user/userStore.js:79-83 | a second upsert of a name returns the first record and changes nothing |
| `UserStore.UpsertThenGet` | apps/api/src/user/userStore.js:100 | the record an upsert returns is what the dictionary holds under the name |
| `UserStore.NewUserVideoPath` | apps/api/src/user/userStore.js:85-90 | a new record's video path is the user's own directory exactly in multi-user mode |
| `UserStore.UserStore.Read` | apps/api/src/user/userStore.js:38-47 | returns `ReadUsers` of the file, which becomes `AfterRead` |
| `UserStore.UserStore.GetUser` | apps/api/src/user/userStore.js:65-68 | the stored record or null |
| `UserStore.UserStore.UpsertUser` | apps/api/src/user/userStore.js:76-105 | returns `UpsertSpec`'s record; the file is rewritten only for a new user |
| `UserStore.UserStore.GetAllUsers` | apps/api/src/user/userStore.js:111-114 | every stored record exactly once |
| `UserStore.UserStore.DeleteUser` | apps/api/src/user/userStore.js:121-130 | true exactly when the user existed, and only then is the file rewritten without it |
| `MediaScan.SliceTo` | apps/api/src/domain/fileUseCases/MediaScanUtil.js:7 | a prefix of the string; a negative end counts back from the end |
| `MediaScan.CreateEmptyTable` | apps/api/src/domain/fileUseCases/MediaScanUtil.js:1-3 | no entries and no ids |
| `MediaScan.CollisionMessage` | apps/api/src/domain/fileUseCases/MediaScanUtil.js:13 | the message begins with the collision text and the id, and ends with the base location and a full stop |
| `MediaScan.DeriveMediaId` | apps/api/src/domain/fileUseCases/MediaScanUtil.js:5-8 | a prefix of the name, and the name minus its extension when the extension ends it |
| `MediaScan.OverlongExtension` | apps/api/src/domain/fileUseCases/MediaScanUtil.js:7 | an extension longer than the name cuts from the end |
| `MediaScan.AssertNoIdCollision` | apps/api/src/domain/fileUseCases/MediaScanUtil.js:10-16 | throws exactly when the id is already a folder entry |
| `MediaScan.SelectFolders` | apps/api/src/domain/fileUseCases/MediaScanUtil.js:33-48 | keeps exactly the folders with a valid video file |
| `MediaScan.HasMedia` | apps/api/src/domain/fileUseCases/MediaScanUtil.js:34-37 | true exactly when some file is a video |
| `MediaScan.FolderStep` | apps/api/src/domain/fileUseCases/MediaScanUtil.js:38-44 | one reduce step adds the folder's mapped media under its name, keeps every other entry, and appends its id to the ids kept so far |
| `MediaScan.FolderMedia` | apps/api/src/domain/fileUseCases/MediaScanUtil.js:18-50 | a folder has an entry exactly when it is listed and holds a valid video file, and the entry is its mapped media |
| `MediaScan.SelectFoldersAppend` | apps/api/src/domain/fileUseCases/MediaScanUtil.js:46-48 | the selection keeps listing order: it distributes over concatenation |
| `MediaScan.BuildFolderTable` | apps/api/src/domain/fileUseCases/MediaScanUtil.js:38-49 | one id per folder in order, entries under the folder names, each its mapped media |
| `MediaScan.FolderMediaKeys` | apps/api/src/domain/fileUseCases/MediaScanUtil.js:28-50 | the folder table holds exactly the folders with a valid video file |
| `MediaScan.ListFolderMedia` | apps/api/src/domain/fileUseCases/MediaScanUtil.js:18-50 | the table built is `FolderMedia` |
| `MediaScan.ValidFilesByFolder` | apps/api/src/domain/fileUseCases/MediaScanUtil.js:29-32 | one entry per listed folder with its valid files |
| `MediaScan.FoldersWithMedia` | apps/api/src/domain/fileUseCases/MediaScanUtil.js:33-48 | the filters give `SelectFolders` |
| `MediaScan.ReduceFolderTable` | apps/api/src/domain/fileUseCases/MediaScanUtil.js:38-49 | the reduce gives `BuildFolderTable` |
| `MediaScan.FileNames` | apps/api/src/domain/fileUseCases/MediaScanUtil.js:61-63 | exactly the names of the non-directory entries |
| `MediaScan.VideoFiles` | apps/api/src/domain/fileUseCases/MediaScanUtil.js:65-67 | exactly the video files |
| `MediaScan.Siblings` | apps/api/src/domain/fileUseCases/MediaScanUtil.js:72-74 | exactly the files starting with the id and a dot |
| `MediaScan.FlatEntry` | apps/api/src/domain/fileUseCases/MediaScanUtil.js:72-81 | the media mapped from the id's sibling files, marked flat |
| `MediaScan.FlatStep` | apps/api/src/domain/fileUseCases/MediaScanUtil.js:69-84 | fails with the collision message exactly when the video's id is a folder entry; else adds the id's flat entry and appends the id |
| `MediaScan.FlatMedia` | apps/api/src/domain/fileUseCases/MediaScanUtil.js:52-85 | fails exactly when some top-level valid video's id is a folder entry; else an id has an entry exactly when it is listed, each entry its flat entry |
| `MediaScan.BuildFlatTable` | apps/api/src/domain/fileUseCases/MediaScanUtil.js:69-84 | a failure is the collision error |
| `MediaScan.FlatTableShape` | apps/api/src/domain/fileUseCases/MediaScanUtil.js:69-84 | one derived id per video in order, entries for exactly those ids, each the flat entry of its id |
| `MediaScan.FlatTableIds` | apps/api/src/domain/fileUseCases/MediaScanUtil.js:70-82 | one derived id per video, in order |
| `MediaScan.FlatTableEntries` | apps/api/src/domain/fileUseCases/MediaScanUtil.js:75-81 | entries for exactly the listed ids, each the flat entry |
| `MediaScan.FlatTableFailsOnCollision` | apps/api/src/domain/fileUseCases/MediaScanUtil.js:70-71 | the flat scan throws exactly when some video's id is a folder entry |
| `MediaScan.FlatEntriesAreFlat` | apps/api/src/domain/fileUseCases/MediaScanUtil.js:72-81 | every flat entry is marked flat and maps the id's sibling files |
| `MediaScan.RepeatedFlatIdListedTwice` | apps/api/src/domain/fileUseCases/MediaScanUtil.js:81-82 | two videos with one id list it twice over one entry |
| `MediaScan.ListFlatMedia` | apps/api/src/domain/fileUseCases/MediaScanUtil.js:52-85 | the result is `FlatMedia` |
| `MediaScan.TopLevelFiles` | apps/api/src/domain/fileUseCases/MediaScanUtil.js:61-63 | the loop gives `FileNames` |
| `MediaScan.FilterVideos` | apps/api/src/domain/fileUseCases/MediaScanUtil.js:65-67 | the loop gives `VideoFiles` |
| `MediaScan.ReduceFlatTable` | apps/api/src/domain/fileUseCases/MediaScanUtil.js:69-84 | the loop gives `BuildFlatTable`, stopping at the first collision |
| `MediaScan.BuildFlatTableStops` | apps/api/src/domain/fileUseCases/MediaScanUtil.js:69-71 | once a prefix throws, the whole scan throws the same error |
| `MediaScan.SiblingFiles` | apps/api/src/domain/fileUseCases/MediaScanUtil.js:72-74 | the loop gives `Siblings` |
| `MediaScan.MergeMediaTables` | apps/api/src/domain/fileUseCases/MediaScanUtil.js:87-95 | ids of both tables in order; entries of both, the flat one winning on a shared key |
| `MediaScan.MergeWithEmpty` | apps/api/src/domain/fileUseCases/MediaScanUtil.js:87-95 | the empty table is neutral on either side |
| `FileUseCase.ParseSeriesFolderName` | apps/api/src/domain/fileUseCases/FileUseCase.js:28-36 | succeeds exactly when the first two `__` pieces are non-empty, giving them; otherwise the format error |
| `FileUseCase.ValidFileList` | apps/api/src/domain/fileUseCases/FileUseCase.js:23-26 | for every folder, the valid files of its listing |
| `FileUseCase.ParseJoinedFolderName` | apps/api/src/domain/fileUseCases/FileUseCase.js:28-36 | `parent__child` parses back to the two names |
| `FileUseCase.ExtraSegmentsIgnored` | apps/api/src/domain/fileUseCases/FileUseCase.js:29 | pieces after a second `__` are ignored |
| `FileUseCase.MissingPartRejected` | apps/api/src/domain/fileUseCases/FileUseCase.js:29-34 | a missing name, a name without `__`, or an empty parent is rejected |
| `FileUseCase.TripleUnderscore` | apps/api/src/domain/fileUseCases/FileUseCase.js:29 | "a___b" is parent "a" and child "_b" |
| `FileUseCase.GetVideo` | apps/api/src/domain/fileUseCases/FileUseCase.js:80-86 | fails exactly when the name does not parse; else the child folder's media with the parent as `parentId` |
| `FileUseCase.GetVideoOfJoinedName` | apps/api/src/domain/fileUseCases/FileUseCase.js:80-86 | the video of `parent__child` reports `parent` as its parent |
| `FileUseCase.GetVideos` | apps/api/src/domain/fileUseCases/FileUseCase.js:87-115 | a missing directory gives the empty table; a failure is the collision error |
| `FileUseCase.GetVideosCollision` | apps/api/src/domain/fileUseCases/FileUseCase.js:87-115 | fails exactly when a top-level video's id names a listed folder with a valid video |
| `FileUseCase.GetVideosMergesDisjointTables` | apps/api/src/domain/fileUseCases/FileUseCase.js:95-114 | a success merges the folder and flat tables, whose keys are disjoint |
| `FileUseCase.GetVideosOf` | apps/api/src/domain/fileUseCases/FileUseCase.js:87-115 | the method gives `GetVideos` |
| `FileUseCase.SubFolders` | apps/api/src/domain/fileUseCases/FileUseCase.js:68-72 | exactly the entries that are directories |
| `FileUseCase.SeriesEntry` | apps/api/src/domain/fileUseCases/FileUseCase.js:60-76 | the folder's mapped media as a series, with the folder's sub-directories as `fileIds` |
| `FileUseCase.SeriesTable` | apps/api/src/domain/fileUseCases/FileUseCase.js:54-79 | one id per listed folder, and entries only under listed folders |
| `FileUseCase.SeriesTableShape` | apps/api/src/domain/fileUseCases/FileUseCase.js:54-79 | every folder listed, in order, each with its sub-directories as `fileIds` |
| `FileUseCase.GetSeries` | apps/api/src/domain/fileUseCases/FileUseCase.js:54-79 | the method gives `SeriesTable` |
| `FileUseCase.DirectoryEntries` | apps/api/src/domain/fileUseCases/FileUseCase.js:68-72 | the loop gives `SubFolders` |
| `ApiConfig.SelectedVideoPath` | apps/api/src/config.js:50-54 | "local" is the local path, "gdrive" the Google Drive path, any other profile nothing |
| `ApiConfig.NormalizedProfile` | apps/api/src/config.js:46-48 | definition: the profile variable or "local", trimmed and lower-cased (its properties are `DefaultProfileIsLocal` and `ProfileIgnoresPaddingAndCase`) |
| `ApiConfig.DefaultProfileIsLocal` | apps/api/src/config.js:46 | without a non-empty `VIDEO_SOURCE_PROFILE` the profile is "local" |
| `ApiConfig.LocalVideoPath` | apps/api/src/config.js:49 | `VIDEO_PATH_LOCAL` when non-empty, else `VIDEO_PATH` |
| `ApiConfig.CookieSecure` | apps/api/src/config.js:73-78 | "true"/"false" in any case decide; anything else means production |
| `ApiConfig.CookieSameSite` | apps/api/src/config.js:79-83 | always one of lax, strict, none: a valid value lower-cased, else "lax" |
| `ApiConfig.LoadConfig` | apps/api/src/config.js:16-89 | every field of the record from its variable, its default, or the injected host and home directory, including the four image settings and the profile-dependent videos path |
| `ApiConfig.VideosPathChoice` | apps/api/src/config.js:46-56 | the Google Drive path exactly when that profile has one, else the local path |
| `ApiConfig.VideosPathConfigured` | apps/api/src/config.js:49-56 | a usable video path exists exactly when a local path is set or the Google Drive profile has its path |
| `ApiConfig.UnknownProfileFallsBackToLocal` | apps/api/src/config.js:50-56 | an unknown profile keeps its name and reads the local path |
| `ApiConfig.ProfileIgnoresPaddingAndCase` | apps/api/src/config.js:46-48 | the profile is compared trimmed and lower-cased |
| `ApiConfig.GdriveWithoutPathUsesLocal` | apps/api/src/config.test.js:102-112 | the Google Drive profile without its path falls back to the local path |
| `ApiConfig.CookieSecureOverridesNodeEnv` | apps/api/src/config.js:73-78 | in production, "False" gives false, "TRUE" true, other values and absence production's true |
| `ApiConfig.SameSiteExamples` | apps/api/src/config.js:79-83 | "Strict" is strict; "bogus" and absence are lax |
| `ApiConfig.CookieSettings` | apps/api/src/routers/AuthRouter.js:24 | the cookie policy reads the configuration's three cookie fields |
| `ApiConfig.ConfiguredCookieOptions` | apps/api/src/config.js:73-84 | every cookie built from the configuration has a valid same-site value, a domain exactly when `COOKIE_DOMAIN` is set, and the secure flag `CookieSecure` |
| `WebConfig.EnvHost` | apps/web/src/config.js:8 | the trimmed configured host, exactly when one is configured |
| `WebConfig.PublicUrl` | apps/web/src/config.js:31 | `PUBLIC_URL` when non-empty, else "/home-video"; never empty |
| `WebConfig.ShowsPort` | apps/web/src/config.js:42-43 | definition: http with a port other than 80, or https with a port other than 443, and the port non-empty |
| `WebConfig.DevHost` | apps/web/src/config.js:9-14 | the page's non-empty host name, else "localhost"; never empty |
| `WebConfig.Host` | apps/web/src/config.js:15 | the page's host in development, else the configured host or "" |
| `WebConfig.RemoveFirst` | apps/web/src/config.js:37 | removes only the first occurrence, leaving the rest |
| `WebConfig.CurrentPort` | apps/web/src/config.js:36 | the page's port, else 443 for https and 80 otherwise; never empty |
| `WebConfig.FromLocation` | apps/web/src/config.js:35-50 | protocol without colon, port and host from the page; the URL names the port exactly when `ShowsPort` |
| `WebConfig.LoadWebConfig` | apps/web/src/config.js:5-69 | throws exactly in production with an empty host; production uses the page, or without one the configured protocol, host and port joined into the URL with the public path; elsewhere http on 8080 |
| `WebConfig.NonProductionUrl` | apps/web/src/config.js:60-66 | outside production the URL is `http://<host>:8080<publicUrl>` |
| `WebConfig.ServerUrlEndsWithPublicUrl` | apps/web/src/config.js:31-66 | every URL ends with the public URL |
| `WebConfig.DevelopmentIgnoresEnvHost` | apps/web/src/config.js:15-25 | in development the configured host makes no difference |
| `WebConfig.ProductionRequiresEnvHost` | apps/web/src/config.js:8-20 | in production a blank or missing host throws even in a browser |
| `WebConfig.ProductionUsesPageLocation` | apps/web/src/config.js:35-40 | in a browser in production the host and port come from the page |
| `WebConfig.PortShownUnlessDefault` | apps/web/src/config.js:36-49 | for http and https the port appears exactly when it is not the default |
| `WebConfig.ColonStripped` | apps/web/src/config.js:37 | "http:" and "https:" lose their colon |
| `WebConfig.OtherProtocolsOmitPort` | apps/web/src/config.js:42-48 | other protocols never show the port |
| `WebConfig.OnlyFirstColonRemoved` | apps/web/src/config.js:37 | "a:b:" becomes "ab:" |

## Left out

- Signing, verifying, JSON Web Key Sets and bcrypt are injected functions (a provider record, `compare`). Cryptography is not modelled.
- The refresh-token store's own implementation (apps/api/src/auth/refreshTokenStore.js) is not part of this model. It is modelled as a map with get, save and delete.
- `getCookie` (apps/api/src/common/Util.js) is not part of this model. The request's cookies are an already parsed map.
- Spring contexts stored as binary buffers are not modelled. The base64-to-text decoding and the e-mail pattern are injected functions, and only the `ROLE_[A-Z_]+` scan is written out.
- JSON numbers in the Spring context are integers, because floating point is outside the model.
- Cookie max ages are integers or non-finite, because fractional milliseconds are outside the model.
- `Common.ToLower` and `Common.Trim` only handle ASCII letters and white space. Unicode case mapping and Unicode white space are outside the model.
- `path.join` is plain "/"-concatenation. It does not normalise "..", doubled or trailing slashes.
- `mkdirSync` with `recursive: true` creates one directory per call. The ancestors it also creates are not tracked.
- `KEYS` takes a literal prefix followed by `*`. Other glob metacharacters in the prefix are not interpreted.
- Redis replies are synchronous, and the only client error modelled is WRONGTYPE. Connection errors, timeouts and concurrent clients are left out.
- `SpringSession.SpringSessionStore.Destroy`: on a WRONGTYPE error partway through the expiration keys, the contract only says the main key is gone. It does not list which sets were already cleaned.
- `UserStore.UserStore.GetAllUsers`: the order of `Object.values` is left open. The method returns each record once, in an order exposed as a ghost sequence.
- `UserStore.UserStore.GetUser`: a username that names a property inherited from `Object.prototype` (such as "constructor" or "toString") is treated as absent. The source finds the inherited function and returns it.
- `UserStore.UserStore.UpsertUser`: for such an inherited name the model creates and writes a new record. The source finds the inherited function, returns it and writes nothing.
- `UserStore.UserStore.DeleteUser`: for such an inherited name the model answers false and writes nothing. The source answers true and rewrites the file.
- `MediaScan.AssertNoIdCollision`: an id that names a property inherited from `Object.prototype` is treated as free. The source finds the inherited function and throws.
- Users-file write failures are not modelled, because writing is assumed to succeed. A users file holding JSON other than an object is treated like an unparsable one.
- User-record field values are strings. The generated id and creation time are parameters.
- `verifyingOrphanFiles`, `getFileDirInfo`, `readFile` and `getFileExt` are not modelled; they are treated as having no effect on the modelled state. FileHelperUseCase.js and MediaMapper.js are not part of this model; their functions are parameters.
- `getLocalIPAddress` and `os.homedir()` are parameters of `ApiConfig.LoadConfig`, because they read the operating system.
- `TimeUtil.ParseDurationToMs`: numbers are integers, so fractional, NaN and infinite numbers are not modelled. Digit strings are read exactly, whereas the source rounds them to a double (for example "9007199254740993s").
- `TokenService.IssueTokens`: `sign` is a total function, so a `sign` that throws is not modelled.
- Promises are not modelled. The key-set provider's `verify` is a synchronous function; how the un-awaited Promise is read is stated by `TokenService.UnawaitedKeySetProvider` and `RequireAuth.KeySetValidationAcceptsEveryToken`.
- `RequireAuth.RequireAuth`: the source also catches an exception thrown by `next()` and answers 401 "Invalid access token". The model ends where `next` is called, so that path is not modelled.
- `FileUseCase.GetSeries`: `readFileInfo` and `isDirectory` always return, so an exception from them is not modelled.
- `AuthRouter.AuthRouter`: login saves to `store`, while refresh and logout use `sessionService.store`. The model does not require the two to be the same object, although the composition root passes the same store to both.
- dotenv loading and all logging are left out, because console output is not observable behaviour.
- `ApiConfig.SelectedVideoPath` knows only the profiles "local" and "gdrive". A profile named after an inherited object property (such as "constructor") reads a function in the source; the model treats it as unknown.
- `WebConfig.LoadWebConfig`: the port is the number 8080 in two branches of the source. It is modelled as the text "8080", which renders the same in the URL.
- `window.location` is `Option<Location>`. A `window` without a `location` is the same as no window.
- The web client's other modules, the Express session store over Redis (redisSessionStore.js), the composition root and the other routers are not part of this model.

## Findings

| source | as written | input that shows it | evidently intended | confidence | as-written member | corrected member |
|---|---|---|---|---|---|---|
| apps/api/src/middleware/auth.js:21-23 | `verifyAccessToken` is called without `await`; with key-set validation on it returns the Promise of apps/api/src/auth/providers/jwksTokenProvider.js:32-41, which never throws synchronously, so `payload.sub` and `payload.username` are `undefined` and `next()` runs | `JWKS_VALIDATION=true`, `JWKS_URL` set, header `Authorization: Bearer x` for any non-empty `x` | await the verification and answer 401 "Invalid access token" when the key set rejects the token | not executed | `RequireAuth.KeySetValidationAcceptsEveryToken` | `RequireAuth.Authenticate` (with `RequireAuth.RejectedTokenRefused`) |
