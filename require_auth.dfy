/** `createRequireAuth` (apps/api/src/middleware/auth.js): the access-token
    middleware. It picks a bearer token from the `Authorization` header, or
    else the `access_token` cookie, verifies it with the token service and
    sets `req.user`. It consults nothing else: no server-side session and no
    stored profile. */
module RequireAuth {
  import opened Common
  import opened TokenConfig
  import opened TokenService
  import opened Http

  const AccessCookie: string := "access_token"

  /** `const [type, token] = (authorization || "").split(" ")`, then the bearer
      token when the scheme is exactly "Bearer" and the second field is
      non-empty, else the cookie token. */
  function SelectAccessToken(authorization: Option<string>, cookieToken: Option<string>): (r: Option<string>)
    ensures var pieces := Split(OrDefault(authorization, ""), " ");
      if pieces[0] == "Bearer" && Truthy(PieceAt(pieces, 1)) then r == PieceAt(pieces, 1) else r == cookieToken
    ensures r.Some? && r != cookieToken ==> r.value != "" && ' ' !in r.value
  {
    var pieces := Split(OrDefault(authorization, ""), " ");
    var token := PieceAt(pieces, 1);
    if pieces[0] == "Bearer" && Truthy(token) then
      SplitPieceHasNoSeparator(OrDefault(authorization, ""), 1);
      token
    else cookieToken
  }

  /** No piece of a split on a one-character separator contains that
      character. */
  lemma {:induction false} SplitPieceHasNoSeparator(s: string, k: nat)
    requires k < |Split(s, " ")|
    ensures ' ' !in Split(s, " ")[k]
  {
    SplitFromPiecesFree(s, [], k);
  }

  lemma {:induction false} SplitFromPiecesFree(s: string, current: string, k: nat)
    requires ' ' !in current
    requires k < |SplitFrom(s, " ", current)|
    ensures ' ' !in SplitFrom(s, " ", current)[k]
    decreases |s|
  {
    if s == [] {
    } else if StartsWith(s, " ") {
      if k > 0 {
        SplitFromPiecesFree(s[1..], [], k - 1);
      }
    } else {
      assert s[0] != ' ' by { assert s[..1] == [s[0]]; }
      SplitFromPiecesFree(s[1..], current + [s[0]], k);
    }
  }

  /** A string without the character `c` has no occurrence of `[c]`, and no
      occurrence of `[c]` starts inside it when `c` follows it. */
  lemma CharFree(a: string, c: char)
    requires c !in a
    ensures Free(a, [c])
    ensures forall i :: i < |a| ==> !OccursAt(a + [c], [c], i)
  {
    forall i ensures !OccursAt(a, [c], i) && (i < |a| ==> !OccursAt(a + [c], [c], i)) {
      if 0 <= i < |a| {
        assert a[i..i + 1][0] == a[i] == (a + [c])[i..i + 1][0];
      }
    }
  }

  /** `Authorization: Bearer <t>` with a non-empty, space-free `t` selects
      `t`, whatever the cookie holds. */
  lemma {:induction false} BearerTokenWins(t: string, cookieToken: Option<string>)
    requires t != "" && ' ' !in t
    ensures SelectAccessToken(Some("Bearer " + t), cookieToken) == Some(t)
  {
    CharFree("Bearer", ' ');
    CharFree(t, ' ');
    SplitTwoPieces("Bearer", " ", t);
    assert "Bearer " + t == "Bearer" + " " + t;
  }

  /** A space-free header is one field. */
  lemma SplitSpaceFree(scheme: string)
    requires ' ' !in scheme
    ensures Split(scheme, " ") == [scheme]
  {
    CharFree(scheme, ' ');
    SplitFromFree(scheme, " ", []);
    assert [] + scheme == scheme;
  }

  /** A space-free first field followed by a space is the first piece, and
      the rest of the text is split on its own. */
  lemma SplitAfterScheme(scheme: string, rest: string)
    requires ' ' !in scheme
    ensures Split(scheme + " " + rest, " ") == [scheme] + Split(rest, " ")
  {
    CharFree(scheme, ' ');
    SplitFromPrefix(scheme, " ", rest, []);
    assert [] + scheme == scheme;
  }

  /** Without a header, with a scheme other than exactly "Bearer" (whatever
      follows it), or with "Bearer" and an empty second field, the cookie
      token is used. */
  lemma {:induction false} CookieFallback(scheme: string, rest: string, cookieToken: Option<string>)
    requires ' ' !in scheme
    ensures SelectAccessToken(None, cookieToken) == cookieToken
    ensures scheme != "Bearer" ==> SelectAccessToken(Some(scheme), cookieToken) == cookieToken
    ensures scheme != "Bearer" ==> SelectAccessToken(Some(scheme + " " + rest), cookieToken) == cookieToken
    ensures SelectAccessToken(Some("Bearer"), cookieToken) == cookieToken
    ensures SelectAccessToken(Some("Bearer  " + rest), cookieToken) == cookieToken
  {
    SplitSpaceFree("");
    SplitSpaceFree(scheme);
    SplitAfterScheme(scheme, rest);
    SplitSpaceFree("Bearer");
    SplitAfterScheme("Bearer", " " + rest);
    assert "Bearer  " + rest == "Bearer" + " " + (" " + rest);
    SplitAfterScheme("", rest);
    assert " " + rest == "" + " " + rest;
  }

  /** The outcome for the next handler: `req.user`, or a 401 message. */
  datatype AuthDecision = Authenticated(user: RequestUser) | Unauthorized(message: string)

  function Authenticate(svc: TokenService, authorization: Option<string>, cookieToken: Option<string>): (r: AuthDecision)
    ensures !Truthy(SelectAccessToken(authorization, cookieToken)) <==> r == Unauthorized("Missing access token")
    ensures r.Authenticated? <==>
      Truthy(SelectAccessToken(authorization, cookieToken)) &&
      VerifyAccessToken(svc, SelectAccessToken(authorization, cookieToken).value).Ok?
    ensures r.Authenticated? ==>
      var payload := VerifyAccessToken(svc, SelectAccessToken(authorization, cookieToken).value).value;
      r.user == RequestUser(payload.sub, payload.username)
    ensures r.Unauthorized? ==> r.message in {"Missing access token", "Invalid access token"}
  {
    var accessToken := SelectAccessToken(authorization, cookieToken);
    if !Truthy(accessToken) then Unauthorized("Missing access token")
    else
      match VerifyAccessToken(svc, accessToken.value)
      case Ok(payload) => Authenticated(RequestUser(payload.sub, payload.username))
      case Err(_) => Unauthorized("Invalid access token")
  }

  /** With no token from either source the verifier is never consulted:
      any two token services give the same answer. */
  lemma MissingTokenSkipsVerification(svc1: TokenService, svc2: TokenService, authorization: Option<string>, cookieToken: Option<string>)
    requires !Truthy(SelectAccessToken(authorization, cookieToken))
    ensures Authenticate(svc1, authorization, cookieToken) == Authenticate(svc2, authorization, cookieToken)
  {
  }

  /** Verification sees exactly the selected token: two token services that
      verify that one string alike give the same decision. */
  lemma VerifiesSelectedToken(svc1: TokenService, svc2: TokenService, authorization: Option<string>, cookieToken: Option<string>)
    requires Truthy(SelectAccessToken(authorization, cookieToken))
    requires var t := SelectAccessToken(authorization, cookieToken).value;
      VerifyAccessToken(svc1, t) == VerifyAccessToken(svc2, t)
    ensures Authenticate(svc1, authorization, cookieToken) == Authenticate(svc2, authorization, cookieToken)
  {
  }

  /** As written, the middleware does not await `verifyAccessToken`. With
      key-set validation switched on, the verification provider answers a
      Promise, so every non-empty token is accepted, including one the key
      set would reject, and `req.user` has no id and no username. */
  lemma KeySetValidationAcceptsEveryToken(
    tokenProvider: TokenProvider, config: TokenConfig, authorization: Option<string>, cookieToken: Option<string>)
    requires JwksEnabled(config)
    requires Truthy(SelectAccessToken(authorization, cookieToken))
    ensures Authenticate(
      CreateTokenService(tokenProvider, config, (url: string) => UnawaitedKeySetProvider()), authorization, cookieToken)
      == Authenticated(RequestUser(None, None))
  {
    var svc := CreateTokenService(tokenProvider, config, (url: string) => UnawaitedKeySetProvider());
    assert svc.verificationProvider == UnawaitedKeySetProvider();
    assert VerifyAccessToken(svc, SelectAccessToken(authorization, cookieToken).value) == Ok(NoClaims);
  }

  /** With an awaited verification, a token the verification provider
      rejects is refused with 401 "Invalid access token". */
  lemma RejectedTokenRefused(svc: TokenService, authorization: Option<string>, cookieToken: Option<string>)
    requires Truthy(SelectAccessToken(authorization, cookieToken))
    requires VerifyAccessToken(svc, SelectAccessToken(authorization, cookieToken).value).Err?
    ensures Authenticate(svc, authorization, cookieToken) == Unauthorized("Invalid access token")
  {
  }

  /** `requireAuth(req, res, next)`: returns whether `next` was called. On
      success `req.user` is set and nothing is written; otherwise the
      response is the 401 message and `req.user` is left alone. */
  method RequireAuth(svc: TokenService, req: Request, res: Response) returns (calledNext: bool)
    modifies req, res
    ensures var d := Authenticate(svc, req.Header("authorization"), req.Cookie(AccessCookie));
      && (calledNext <==> d.Authenticated?)
      && (d.Authenticated? ==> req.user == Some(d.user) && res.State() == old(res.State()))
      && (d.Unauthorized? ==>
            req.user == old(req.user) && res.State() == Replied(old(res.State()), 401, Message(d.message)))
  {
    var accessToken := SelectAccessToken(req.Header("authorization"), req.Cookie(AccessCookie));
    if !Truthy(accessToken) {
      res.Reply(401, Message("Missing access token"));
      return false;
    }
    var verified := VerifyAccessToken(svc, accessToken.value);
    if verified.Err? {
      res.Reply(401, Message("Invalid access token"));
      return false;
    }
    req.user := Some(RequestUser(verified.value.sub, verified.value.username));
    calledNext := true;
  }
}
