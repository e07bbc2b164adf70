/** `SpringSessionStore` (apps/api/src/auth/springSessionStore.js): an
    express-session store that reads the sessions a Spring application keeps
    in Redis. `get` turns a session hash into an express session, `set` is
    refused, `destroy` removes the session and its index entries, `touch`
    stamps the access time. `JSON.parse`, base64-to-text decoding and the
    e-mail pattern are parameters; the `ROLE_[A-Z_]+` scan is written out. */
module SpringSession {
  import opened Common
  import opened Redis

  const DefaultPrefix: string := "spring:session:sessions:"
  const DefaultTtl: int := 86400
  const SecurityContextKey: string := "sessionAttr:SPRING_SECURITY_CONTEXT"
  const ReadOnlyMessage: string := "Spring Session store is read-only"

  // ---------------------------------------------------------------------
  // JavaScript values as `TranslateContext` reads them

  /** A JavaScript value as `JSON.parse` produces it, plus `undefined` for
      a missing property. Numbers are integral here. */
  datatype JsValue =
    | Undefined
    | Null
    | Bool(b: bool)
    | Num(n: int)
    | Str(s: string)
    | Arr(items: seq<JsValue>)
    | Obj(fields: map<string, JsValue>)

  predicate JsTruthy(v: JsValue) {
    match v
    case Undefined => false
    case Null => false
    case Bool(b) => b
    case Num(n) => n != 0
    case Str(s) => s != ""
    case Arr(_) => true
    case Obj(_) => true
  }

  /** `a || b` */
  function JsOr(a: JsValue, b: JsValue): (r: JsValue)
    ensures JsTruthy(a) ==> r == a
    ensures !JsTruthy(a) ==> r == b
  {
    if JsTruthy(a) then a else b
  }

  /** `v.name` on a value that is not `null` or `undefined`: an object's own
      property, and `undefined` on any other value (none of the names read
      here is a property of strings, numbers, booleans or arrays). */
  function Prop(v: JsValue, name: string): (r: JsValue)
    ensures v.Obj? && name in v.fields ==> r == v.fields[name]
    ensures !(v.Obj? && name in v.fields) ==> r == Undefined
  {
    if v.Obj? && name in v.fields then v.fields[name] else Undefined
  }

  // ---------------------------------------------------------------------
  // The role scan `text.match(/ROLE_[A-Z_]+/g)`

  predicate IsRoleChar(c: char) { 'A' <= c <= 'Z' || c == '_' }

  /** A token the pattern matches: "ROLE_" and at least one role character. */
  ghost predicate IsRoleToken(m: string) {
    |m| >= 6 && m[..5] == "ROLE_" && forall j :: 5 <= j < |m| ==> IsRoleChar(m[j])
  }

  /** The length of the run of role characters that starts `s`. */
  function RoleRun(s: string): (n: nat)
    ensures n <= |s|
    ensures forall j :: 0 <= j < n ==> IsRoleChar(s[j])
    ensures n < |s| ==> !IsRoleChar(s[n])
  {
    if s != [] && IsRoleChar(s[0]) then 1 + RoleRun(s[1..]) else 0
  }

  /** All matches, left to right, each as long as possible, none
      overlapping: the array `match` returns, with `[]` for its `null`. */
  function RoleMatches(text: string): (r: seq<string>)
    ensures forall i :: 0 <= i < |r| ==> IsRoleToken(r[i])
    decreases |text|
  {
    if |text| < 6 then []
    else if text[..5] == "ROLE_" && IsRoleChar(text[5]) then
      var n := 5 + RoleRun(text[5..]);
      assert forall j :: 5 <= j < n ==> text[..n][j] == text[5..][j - 5];
      [text[..n]] + RoleMatches(text[n..])
    else RoleMatches(text[1..])
  }

  /** A role token followed by a character that cannot extend it is
      matched whole, and the scan resumes after it. */
  lemma RoleMatchesTake(role: string, rest: string)
    requires IsRoleToken(role)
    requires rest == [] || !IsRoleChar(rest[0])
    ensures RoleMatches(role + rest) == [role] + RoleMatches(rest)
  {
    var text := role + rest;
    assert text[..5] == "ROLE_" && IsRoleChar(text[5]);
    var tail := text[5..];
    assert forall j :: 0 <= j < |role| - 5 ==> tail[j] == role[j + 5];
    assert |role| - 5 < |tail| ==> tail[|role| - 5] == rest[0];
    var n := 5 + RoleRun(tail);
    assert n == |role|;
    assert text[..n] == role;
    assert text[n..] == rest;
  }

  /** A position where no role token starts is skipped. */
  lemma RoleMatchesSkip(text: string)
    requires text != []
    requires |text| < 6 || text[..5] != "ROLE_" || !IsRoleChar(text[5])
    ensures RoleMatches(text) == RoleMatches(text[1..])
  {
  }

  /** Two roles in a comma-separated list are both found. */
  lemma RoleMatchesList()
    ensures RoleMatches("ROLE_ADMIN,ROLE_USER") == ["ROLE_ADMIN", "ROLE_USER"]
  {
    RoleMatchesListAdmin();
    RoleMatchesListComma();
    RoleMatchesListUser();
  }

  lemma RoleMatchesListAdmin()
    ensures RoleMatches("ROLE_ADMIN,ROLE_USER") == ["ROLE_ADMIN"] + RoleMatches(",ROLE_USER")
  {
    assert "ROLE_ADMIN,ROLE_USER" == "ROLE_ADMIN" + ",ROLE_USER";
    RoleMatchesTake("ROLE_ADMIN", ",ROLE_USER");
  }

  lemma RoleMatchesListComma()
    ensures RoleMatches(",ROLE_USER") == RoleMatches("ROLE_USER")
  {
    assert ",ROLE_USER"[0] == ',';
    RoleMatchesSkip(",ROLE_USER");
    assert ",ROLE_USER"[1..] == "ROLE_USER";
  }

  lemma RoleMatchesListUser()
    ensures RoleMatches("ROLE_USER") == ["ROLE_USER"]
  {
    assert "ROLE_USER" == "ROLE_USER" + "";
    RoleMatchesTake("ROLE_USER", "");
  }

  /** A position that does not start with 'R' is skipped. */
  lemma RoleMatchesSkipChar(text: string)
    requires text != [] && text[0] != 'R'
    ensures RoleMatches(text) == RoleMatches(text[1..])
  {
    if |text| >= 6 {
      assert text[..5][0] != "ROLE_"[0];
    }
  }

  /** "ROLE_" alone, or followed by lower case, is no role. */
  lemma RoleMatchesNeedUpperCase()
    ensures RoleMatches("ROLE_") == []
    ensures RoleMatches("ROLE_admin") == []
  {
    RoleMatchesLowerCaseTail();
    var t := "ROLE_admin";
    assert !IsRoleChar(t[5]);
    RoleMatchesSkip(t);
    assert t[1..] == "OLE_admin";
  }

  lemma RoleMatchesLowerCaseTail()
    ensures RoleMatches("OLE_admin") == []
  {
    RoleMatchesSkipChar("OLE_admin");
    assert "OLE_admin"[1..] == "LE_admin";
    RoleMatchesSkipChar("LE_admin");
    assert "LE_admin"[1..] == "E_admin";
    RoleMatchesSkipChar("E_admin");
    assert "E_admin"[1..] == "_admin";
    RoleMatchesSkipChar("_admin");
    assert "_admin"[1..] == "admin";
  }

  /** A match runs as far as role characters go and stops at the first
      other character; the scan starts anywhere in the text. */
  lemma RoleMatchesLongestRun()
    ensures RoleMatches("xROLE_A_B1") == ["ROLE_A_B"]
  {
    RoleMatchesSkipChar("xROLE_A_B1");
    assert "xROLE_A_B1"[1..] == "ROLE_A_B1";
    RoleMatchesUnderscoreRun();
  }

  lemma RoleMatchesUnderscoreRun()
    ensures RoleMatches("ROLE_A_B1") == ["ROLE_A_B"]
  {
    var role := "ROLE_A_B";
    assert role[..5] == "ROLE_";
    assert forall j :: 5 <= j < |role| ==> IsRoleChar(role[j]);
    assert role + "1" == "ROLE_A_B1";
    RoleMatchesTake(role, "1");
  }

  // ---------------------------------------------------------------------
  // Translating a security context

  /** What `get` learns about the user. */
  datatype Identity = Identity(username: JsValue, authorities: seq<JsValue>)

  /** The abstract decoders: `JSON.parse` on a context starting with "{"
      (an object or a thrown error), the text of the base64-decoded context
      (at most its first 1000 bytes, decoded as UTF-8), and the first match
      of the e-mail pattern's capture group in a text. */
  datatype ContextDecoders = ContextDecoders(
    parseJson: string -> Result<map<string, JsValue>>,
    decodeText: string -> string,
    findEmail: string -> Option<string>)

  /** One element of `authArray.map(...)`: a string stays, anything else
      becomes `a.role || a.authority || a`; reading a property of `null`
      throws a TypeError. */
  function MapAuthority(a: JsValue): (r: Result<JsValue>)
    ensures r.Err? <==> a.Null? || a.Undefined?
    ensures a.Str? ==> r == Ok(a)
  {
    match a
    case Str(_) => Ok(a)
    case Null => Err("Cannot read properties of null (reading 'role')")
    case Undefined => Err("Cannot read properties of undefined (reading 'role')")
    case _ => Ok(JsOr(Prop(a, "role"), JsOr(Prop(a, "authority"), a)))
  }

  /** `authArray.map(...)`: the first throwing element aborts the whole map. */
  function MapAuthorities(items: seq<JsValue>): (r: Result<seq<JsValue>>)
    ensures r.Err? <==> exists i :: 0 <= i < |items| && MapAuthority(items[i]).Err?
    ensures r.Ok? ==> |r.value| == |items| && forall i :: 0 <= i < |items| ==> MapAuthority(items[i]) == Ok(r.value[i])
  {
    if items == [] then Ok([])
    else match MapAuthority(items[0])
      case Err(e) => Err(e)
      case Ok(first) =>
        match MapAuthorities(items[1..])
        case Err(e) =>
          assert forall i :: 0 <= i < |items| - 1 ==> items[1..][i] == items[i + 1];
          Err(e)
        case Ok(rest) =>
          assert forall i :: 1 <= i < |items| ==> items[i] == items[1..][i - 1];
          Ok([first] + rest)
  }

  /** `.filter(Boolean)` */
  function FilterTruthy(items: seq<JsValue>): (r: seq<JsValue>)
    ensures forall i :: 0 <= i < |r| ==> JsTruthy(r[i]) && r[i] in items
    ensures forall v :: v in items && JsTruthy(v) ==> v in r
    ensures |r| <= |items|
    ensures |items| == 1 ==> r == if JsTruthy(items[0]) then items else []
  {
    if items == [] then []
    else if JsTruthy(items[0]) then [items[0]] + FilterTruthy(items[1..])
    else FilterTruthy(items[1..])
  }

  /** The filter keeps order and multiplicity: it distributes over
      concatenation, one element at a time. */
  lemma {:induction false} FilterTruthyAppend(a: seq<JsValue>, b: seq<JsValue>)
    ensures FilterTruthy(a + b) == FilterTruthy(a) + FilterTruthy(b)
    decreases |a|
  {
    if a == [] {
      assert a + b == b;
    } else {
      assert (a + b)[0] == a[0];
      assert (a + b)[1..] == a[1..] + b;
      FilterTruthyAppend(a[1..], b);
    }
  }

  /** `auth.authorities.length > 1 ? auth.authorities[1] : auth.authorities[0]`
      when `auth.authorities` is an array, and `undefined` otherwise (an
      empty array's first element is `undefined` too). */
  function AuthorityArray(auth: JsValue): (a: JsValue)
    ensures !Prop(auth, "authorities").Arr? ==> a == Undefined
    ensures var list := Prop(auth, "authorities");
      list.Arr? ==> a == if |list.items| > 1 then list.items[1] else if |list.items| == 1 then list.items[0] else Undefined
  {
    var list := Prop(auth, "authorities");
    if list.Arr? then
      if |list.items| > 1 then list.items[1] else if |list.items| == 1 then list.items[0] else Undefined
    else Undefined
  }

  /** The JSON branch. `json.authentication || json` is the authentication
      object, the principal is its `principal` or the top-level one, the
      username is the principal's `email || username`; the authority list is
      the second element of `authentication.authorities` when it has more
      than one, else its first. A map that throws leaves the authorities as
      they were but keeps the username already taken. */
  function FromJson(json: map<string, JsValue>, fallback: Identity): (r: Identity)
    ensures var auth := JsOr(Prop(Obj(json), "authentication"), Obj(json));
      var principal := JsOr(Prop(auth, "principal"), Prop(Obj(json), "principal"));
      && (JsTruthy(principal) ==>
            r.username == JsOr(Prop(principal, "email"), JsOr(Prop(principal, "username"), fallback.username)))
      && (!JsTruthy(principal) ==> r.username == fallback.username)
    ensures var authArray := AuthorityArray(JsOr(Prop(Obj(json), "authentication"), Obj(json)));
      if authArray.Arr? && MapAuthorities(authArray.items).Ok?
      then r.authorities == FilterTruthy(MapAuthorities(authArray.items).value)
      else r.authorities == fallback.authorities
    ensures r.authorities != fallback.authorities ==> forall i :: 0 <= i < |r.authorities| ==> JsTruthy(r.authorities[i])
  {
    var root := Obj(json);
    var auth := JsOr(Prop(root, "authentication"), root);
    var principal := JsOr(Prop(auth, "principal"), Prop(root, "principal"));
    var username :=
      if JsTruthy(principal) then JsOr(Prop(principal, "email"), JsOr(Prop(principal, "username"), fallback.username))
      else fallback.username;
    var authArray := AuthorityArray(auth);
    if authArray.Arr? then
      match MapAuthorities(authArray.items)
      case Ok(mapped) => Identity(username, FilterTruthy(mapped))
      case Err(_) => Identity(username, fallback.authorities)
    else Identity(username, fallback.authorities)
  }

  /** A context in Spring's shape, for every principal without an e-mail
      and every list of role names: the principal's username, and the role
      names with the empty ones dropped, in their order. */
  lemma SpringShapedContext(principal: map<string, JsValue>, typeInfo: JsValue, roles: seq<string>, fallback: Identity)
    requires "email" !in principal && "username" in principal && JsTruthy(principal["username"])
    ensures FromJson(
      map["authentication" := Obj(map["principal" := Obj(principal), "authorities" := Arr([typeInfo, Arr(Strs(roles))])])],
      fallback)
      == Identity(principal["username"], FilterTruthy(Strs(roles)))
  {
    var items := Strs(roles);
    var auth := Obj(map["principal" := Obj(principal), "authorities" := Arr([typeInfo, Arr(items)])]);
    var json := map["authentication" := auth];
    assert JsOr(Prop(Obj(json), "authentication"), Obj(json)) == auth;
    assert JsOr(Prop(auth, "principal"), Prop(Obj(json), "principal")) == Obj(principal);
    assert AuthorityArray(auth) == Arr(items);
    StringsMapToThemselves(roles);
  }

  /** Role names given as strings pass through the authority mapping. */
  lemma StringsMapToThemselves(roles: seq<string>)
    ensures MapAuthorities(Strs(roles)) == Ok(Strs(roles))
  {
    var items := Strs(roles);
    assert forall i :: 0 <= i < |items| ==> MapAuthority(items[i]) == Ok(items[i]);
    var mapped := MapAuthorities(items);
    assert mapped.Ok?;
    assert mapped.value == items;
  }

  function Strs(roles: seq<string>): (r: seq<JsValue>)
    ensures |r| == |roles| && forall i :: 0 <= i < |r| ==> r[i] == Str(roles[i])
  {
    if roles == [] then [] else [Str(roles[0])] + Strs(roles[1..])
  }

  /** The text branch: the first e-mail-like string becomes the username,
      and every role token found replaces the authorities. */
  function FromText(text: string, fallback: Identity, findEmail: string -> Option<string>): (r: Identity)
    ensures findEmail(text).Some? ==> r.username == Str(findEmail(text).value)
    ensures findEmail(text).None? ==> r.username == fallback.username
    ensures RoleMatches(text) != [] ==> r.authorities == Strs(RoleMatches(text))
    ensures RoleMatches(text) == [] ==> r.authorities == fallback.authorities
  {
    var username := if findEmail(text).Some? then Str(findEmail(text).value) else fallback.username;
    var roles := RoleMatches(text);
    Identity(username, if roles != [] then Strs(roles) else fallback.authorities)
  }

  /** The `try` block: a context starting with "{" is parsed as JSON (a
      parse error is swallowed and the fallback kept); any other context is
      base64-decoded and scanned as text. */
  function TranslateContext(ctx: string, fallback: Identity, dec: ContextDecoders): (r: Identity)
    ensures StartsWith(ctx, "{") && dec.parseJson(ctx).Ok? ==> r == FromJson(dec.parseJson(ctx).value, fallback)
    ensures StartsWith(ctx, "{") && dec.parseJson(ctx).Err? ==> r == fallback
    ensures !StartsWith(ctx, "{") ==> r == FromText(dec.decodeText(ctx), fallback, dec.findEmail)
  {
    if StartsWith(ctx, "{") then
      match dec.parseJson(ctx)
      case Ok(json) => FromJson(json, fallback)
      case Err(_) => fallback
    else FromText(dec.decodeText(ctx), fallback, dec.findEmail)
  }

  // ---------------------------------------------------------------------
  // The express session `get` produces

  datatype SessionUser = SessionUser(
    id: JsValue,
    username: JsValue,
    email: JsValue,
    authorities: seq<JsValue>,
    accountNonLocked: bool,
    accountNonExpired: bool,
    credentialsNonExpired: bool,
    enabled: bool)

  datatype SessionCookie = SessionCookie(originalMaxAge: int, expiresAtMs: int, httpOnly: bool, path: string)

  datatype Session = Session(
    authenticated: bool,
    user: SessionUser,
    creationTime: Option<string>,
    lastAccessedTime: Option<string>,
    maxInactiveInterval: Option<string>,
    cookie: SessionCookie)

  /** `principalName || spring:session:principalName` of a session hash. */
  function PrincipalName(fields: map<string, string>): (r: Option<string>)
    ensures Truthy(EnvGet(fields, "principalName")) ==> r == Some(fields["principalName"])
    ensures !Truthy(EnvGet(fields, "principalName")) ==> r == EnvGet(fields, "spring:session:principalName")
  {
    Or(EnvGet(fields, "principalName"), EnvGet(fields, "spring:session:principalName"))
  }

  /** The session `get` hands to its callback for the hash `fields` (null
      for an empty hash or one without a security context). `now` is the
      clock reading behind `expires`. */
  function SessionFromHash(fields: map<string, string>, ttl: int, now: int, dec: ContextDecoders): (r: Option<Session>)
    ensures r.None? <==> fields == map[] || !Truthy(EnvGet(fields, SecurityContextKey))
    ensures r.Some? ==>
      && r.value.authenticated
      && r.value.user.id == r.value.user.username == r.value.user.email
      && r.value.user.accountNonLocked && r.value.user.accountNonExpired
      && r.value.user.credentialsNonExpired && r.value.user.enabled
      && r.value.creationTime == EnvGet(fields, "creationTime")
      && r.value.lastAccessedTime == EnvGet(fields, "lastAccessedTime")
      && r.value.maxInactiveInterval == EnvGet(fields, "maxInactiveInterval")
      && r.value.cookie == SessionCookie(ttl * 1000, now + ttl * 1000, true, "/")
    ensures r.Some? ==>
      var fallback := Identity(Str(OrDefault(PrincipalName(fields), "unknown")), [Str("ROLE_USER")]);
      Identity(r.value.user.username, r.value.user.authorities) ==
        TranslateContext(fields[SecurityContextKey], fallback, dec)
  {
    if fields == map[] then None
    else
      var principalName := PrincipalName(fields);
      var securityContextData := EnvGet(fields, SecurityContextKey);
      if !Truthy(securityContextData) then None
      else
        var fallback := Identity(Str(OrDefault(principalName, "unknown")), [Str("ROLE_USER")]);
        var identity := TranslateContext(securityContextData.value, fallback, dec);
        Some(Session(
          authenticated := true,
          user := SessionUser(identity.username, identity.username, identity.username, identity.authorities,
                              true, true, true, true),
          creationTime := EnvGet(fields, "creationTime"),
          lastAccessedTime := EnvGet(fields, "lastAccessedTime"),
          maxInactiveInterval := EnvGet(fields, "maxInactiveInterval"),
          cookie := SessionCookie(ttl * 1000, now + ttl * 1000, true, "/")))
  }

  /** `get(sessionId)`: what the callback receives, an error (a key of the
      wrong type) or a session or null. */
  function GetSession(m: Keyspace, prefix: string, ttl: int, sessionId: string, now: int, dec: ContextDecoders): (r: Result<Option<Session>>)
    ensures r.Err? <==> HashOf(m, prefix + sessionId).Err?
    ensures r.Ok? ==> r.value == SessionFromHash(HashOf(m, prefix + sessionId).value, ttl, now, dec)
  {
    match HashOf(m, prefix + sessionId)
    case Err(e) => Err(e)
    case Ok(fields) => Ok(SessionFromHash(fields, ttl, now, dec))
  }

  /** Only the key `prefix + sessionId` is read: keyspaces that agree on it
      give the same answer. */
  lemma GetReadsOnlyItsKey(m1: Keyspace, m2: Keyspace, prefix: string, ttl: int, sessionId: string, now: int, dec: ContextDecoders)
    requires (prefix + sessionId in m1) == (prefix + sessionId in m2)
    requires prefix + sessionId in m1 ==> m1[prefix + sessionId] == m2[prefix + sessionId]
    ensures GetSession(m1, prefix, ttl, sessionId, now, dec) == GetSession(m2, prefix, ttl, sessionId, now, dec)
  {
  }

  /** A context that starts with "{" but does not parse still gives an
      authenticated session, with the principal name (or "unknown") and the
      single authority "ROLE_USER". */
  lemma {:induction false} UnparsableContextStillAuthenticated(fields: map<string, string>, ttl: int, now: int, dec: ContextDecoders)
    requires Truthy(EnvGet(fields, SecurityContextKey))
    requires StartsWith(fields[SecurityContextKey], "{")
    requires dec.parseJson(fields[SecurityContextKey]).Err?
    ensures var r := SessionFromHash(fields, ttl, now, dec);
      && r.Some? && r.value.authenticated
      && r.value.user.username == Str(OrDefault(PrincipalName(fields), "unknown"))
      && r.value.user.authorities == [Str("ROLE_USER")]
  {
    assert fields != map[] by { assert SecurityContextKey in fields; }
  }

  /** A JSON context in Spring's shape: the principal's username and the
      authority list nested as the second element, with its empty entry
      filtered out. */
  lemma JsonContextExample(principalName: string, dec: ContextDecoders)
    ensures FromJson(
      map["authentication" := Obj(map[
        "principal" := Obj(map["username" := Str("bob")]),
        "authorities" := Arr([Str("java.util.Collections$UnmodifiableRandomAccessList"),
                              Arr([Obj(map["role" := Str("ROLE_ADMIN")]), Str("ROLE_USER"), Str("")])])])],
      Identity(Str(principalName), [Str("ROLE_USER")]))
      == Identity(Str("bob"), [Str("ROLE_ADMIN"), Str("ROLE_USER")])
  {
    var roles := Arr([Obj(map["role" := Str("ROLE_ADMIN")]), Str("ROLE_USER"), Str("")]);
    var list := Arr([Str("java.util.Collections$UnmodifiableRandomAccessList"), roles]);
    var principal := Obj(map["username" := Str("bob")]);
    var auth := Obj(map["principal" := principal, "authorities" := list]);
    var json := map["authentication" := auth];
    assert JsOr(Prop(Obj(json), "authentication"), Obj(json)) == auth;
    assert JsOr(Prop(auth, "principal"), Prop(Obj(json), "principal")) == principal;
    assert JsOr(Prop(principal, "email"), JsOr(Prop(principal, "username"), Str(principalName))) == Str("bob");
    assert Prop(auth, "authorities") == list;
    assert list.items[1] == roles;
    assert AuthorityArray(auth) == roles;
    MapSpringAuthorities();
    FilterSpringAuthorities();
  }

  lemma MapSpringAuthorities()
    ensures MapAuthorities([Obj(map["role" := Str("ROLE_ADMIN")]), Str("ROLE_USER"), Str("")]) ==
      Ok([Str("ROLE_ADMIN"), Str("ROLE_USER"), Str("")])
  {
    var items := [Obj(map["role" := Str("ROLE_ADMIN")]), Str("ROLE_USER"), Str("")];
    assert MapAuthority(items[0]) == Ok(Str("ROLE_ADMIN"));
    assert MapAuthority(items[1]) == Ok(Str("ROLE_USER"));
    assert MapAuthority(items[2]) == Ok(Str(""));
    assert forall i :: 0 <= i < |items| ==> MapAuthority(items[i]).Ok?;
    var r := MapAuthorities(items);
    assert r.value == [Str("ROLE_ADMIN"), Str("ROLE_USER"), Str("")];
  }

  lemma FilterSpringAuthorities()
    ensures FilterTruthy([Str("ROLE_ADMIN"), Str("ROLE_USER"), Str("")]) == [Str("ROLE_ADMIN"), Str("ROLE_USER")]
  {
    var mapped := [Str("ROLE_ADMIN"), Str("ROLE_USER"), Str("")];
    assert mapped[1..] == [Str("ROLE_USER"), Str("")];
    assert mapped[1..][1..] == [Str("")];
    assert mapped[1..][1..][1..] == [];
  }

  /** A `null` entry in the authority list throws inside the `try`: the
      username the principal gave is kept, the authorities stay the default. */
  lemma NullAuthorityKeepsDefaultRoles(fallbackName: string)
    ensures FromJson(
      map["principal" := Obj(map["email" := Str("ann@example.org")]),
          "authorities" := Arr([Str("list"), Arr([Str("ROLE_ADMIN"), Null])])],
      Identity(Str(fallbackName), [Str("ROLE_USER")]))
      == Identity(Str("ann@example.org"), [Str("ROLE_USER")])
  {
    var items := [Str("ROLE_ADMIN"), Null];
    assert MapAuthority(items[1]).Err?;
    assert MapAuthorities(items).Err?;
  }

  /** A non-JSON context: the e-mail found in its text is the username and
      every role token found becomes an authority. */
  lemma TextContextRoles(fields: map<string, string>, ttl: int, now: int, dec: ContextDecoders)
    requires Truthy(EnvGet(fields, SecurityContextKey))
    requires !StartsWith(fields[SecurityContextKey], "{")
    requires RoleMatches(dec.decodeText(fields[SecurityContextKey])) != []
    ensures var text := dec.decodeText(fields[SecurityContextKey]);
      var r := SessionFromHash(fields, ttl, now, dec);
      && r.Some?
      && r.value.user.authorities == Strs(RoleMatches(text))
      && (dec.findEmail(text).Some? ==> r.value.user.id == Str(dec.findEmail(text).value))
  {
  }

  // ---------------------------------------------------------------------
  // destroy

  /** The expiration sets `destroy` cleans: `<prefix>expirations:*`. */
  function ExpirationPrefix(prefix: string): (p: string)
    ensures StartsWith(p, prefix) && p[|prefix|..] == "expirations:"
  {
    prefix + "expirations:"
  }

  /** `<prefix>index:<principalName>` */
  function IndexKey(prefix: string, principalName: string): (k: string)
    ensures StartsWith(k, prefix + "index:") && k[|prefix| + 6..] == principalName
  {
    prefix + "index:" + principalName
  }

  /** The principal index is never one of the expiration keys. */
  lemma IndexKeyIsNoExpirationKey(prefix: string, principalName: string)
    ensures !StartsWith(IndexKey(prefix, principalName), ExpirationPrefix(prefix))
  {
    assert IndexKey(prefix, principalName)[|prefix|] == 'i';
    assert ExpirationPrefix(prefix)[|prefix|] == 'e';
  }

  /** The keyspace after removing `member` from every set among `keys`
      (each emptied set disappears). Keys outside `keys` are untouched. */
  ghost function RemovedFromSets(m: Keyspace, keys: set<string>, member: string): (r: Keyspace)
    ensures forall k :: k !in keys ==> (k in r <==> k in m) && (k in r ==> r[k] == m[k])
    ensures forall k :: k in keys && k in m && m[k].Members? ==>
      (k in r <==> m[k].members - {member} != {}) && (k in r ==> r[k] == Members(m[k].members - {member}))
  {
    map k | k in m.Keys && !(k in keys && m[k].Members? && m[k].members - {member} == {}) ::
      if k in keys && m[k].Members? then Members(m[k].members - {member}) else m[k]
  }

  /** One more `SREM` extends the set of cleaned keys by one. */
  lemma RemovedFromSetsStep(m: Keyspace, keys: set<string>, k: string, member: string)
    requires k !in keys
    requires k in m ==> m[k].Members?
    ensures SetRemoved(RemovedFromSets(m, keys, member), k, member) == RemovedFromSets(m, keys + {k}, member)
  {
    var before := RemovedFromSets(m, keys, member);
    var lhs := SetRemoved(before, k, member);
    var rhs := RemovedFromSets(m, keys + {k}, member);
    forall x | x in lhs ensures x in rhs && lhs[x] == rhs[x] {
    }
    forall x | x in rhs ensures x in lhs {
    }
  }

  /** Whether every expiration key after the main key is gone holds a set,
      so that no `SREM` meets the wrong type. */
  predicate ExpirationsAreSets(m: Keyspace, prefix: string) {
    forall k :: k in m && StartsWith(k, ExpirationPrefix(prefix)) ==> m[k].Members?
  }

  /** The keyspace after a `destroy` that met no error: the main key
      deleted, the session key removed from every expiration set, and the
      principal's index deleted when the hash named a principal. */
  ghost function Destroyed(m: Keyspace, prefix: string, sessionId: string): (r: Keyspace)
    requires HashOf(m, prefix + sessionId).Ok?
    ensures prefix + sessionId !in r
    ensures forall k :: k in r && StartsWith(k, ExpirationPrefix(prefix)) && r[k].Members? ==>
      prefix + sessionId !in r[k].members
    ensures var p := PrincipalName(HashOf(m, prefix + sessionId).value);
      Truthy(p) ==> IndexKey(prefix, p.value) !in r
    ensures var p := PrincipalName(HashOf(m, prefix + sessionId).value);
      forall k :: (k in m && k != prefix + sessionId && !StartsWith(k, ExpirationPrefix(prefix)) &&
                   !(Truthy(p) && k == IndexKey(prefix, p.value))) ==> k in r && r[k] == m[k]
    ensures forall k :: k in m && k != prefix + sessionId && StartsWith(k, ExpirationPrefix(prefix)) && m[k].Members? ==>
      && (k in r <==> m[k].members - {prefix + sessionId} != {})
      && (k in r ==> r[k] == Members(m[k].members - {prefix + sessionId}))
  {
    var key := prefix + sessionId;
    var principalName := PrincipalName(HashOf(m, key).value);
    var afterDel := m - {key};
    var cleaned := RemovedFromSets(afterDel, KeysWithPrefix(afterDel, ExpirationPrefix(prefix)), key);
    if Truthy(principalName) then
      IndexKeyIsNoExpirationKey(prefix, principalName.value);
      cleaned - {IndexKey(prefix, principalName.value)}
    else cleaned
  }

  // ---------------------------------------------------------------------
  // The store

  class SpringSessionStore {
    const client: RedisClient
    const prefix: string
    const ttl: int

    /** `options.prefix || default`, `options.ttl || 86400`. */
    constructor (client: RedisClient, prefix: Option<string>, ttl: Option<int>)
      ensures this.client == client
      ensures this.prefix == OrDefault(prefix, DefaultPrefix)
      ensures this.ttl == if ttl.Some? && ttl.value != 0 then ttl.value else DefaultTtl
    {
      this.client := client;
      this.prefix := OrDefault(prefix, DefaultPrefix);
      this.ttl := if ttl.Some? && ttl.value != 0 then ttl.value else DefaultTtl;
    }

    method Get(sessionId: string, now: int, dec: ContextDecoders) returns (r: Result<Option<Session>>)
      ensures r == GetSession(client.data, prefix, ttl, sessionId, now, dec)
    {
      var data := client.HGetAll(prefix + sessionId);
      if data.Err? {
        return Err(data.message);
      }
      r := Ok(SessionFromHash(data.value, ttl, now, dec));
    }

    /** The store is read-only: the callback always receives this error. */
    method Set(sessionId: string, session: Session) returns (err: Option<string>)
      ensures err == Some(ReadOnlyMessage)
    {
      err := Some(ReadOnlyMessage);
    }

    /** `destroy(sessionId)`: `None` is `callback(null)`. When every
        expiration key holds a set the keyspace ends as `Destroyed`; a
        WRONGTYPE error stops the sequence where it occurs. */
    method Destroy(sessionId: string) returns (err: Option<string>)
      modifies client
      ensures HashOf(old(client.data), prefix + sessionId).Err? ==>
        err == Some(WrongType) && client.data == old(client.data)
      ensures HashOf(old(client.data), prefix + sessionId).Ok? && ExpirationsAreSets(old(client.data) - {prefix + sessionId}, prefix) ==>
        err.None? && client.data == Destroyed(old(client.data), prefix, sessionId)
      ensures HashOf(old(client.data), prefix + sessionId).Ok? && !ExpirationsAreSets(old(client.data) - {prefix + sessionId}, prefix) ==>
        err == Some(WrongType) && prefix + sessionId !in client.data
    {
      var key := prefix + sessionId;
      var data := client.HGetAll(key);
      if data.Err? {
        return Some(data.message);
      }
      var principalName := PrincipalName(data.value);
      ghost var m0 := client.data;
      assert data.value == HashOf(m0, key).value;
      var _ := client.Del(key);
      ghost var afterDel := client.data;
      assert afterDel == m0 - {key};
      var expirationKeys := client.Keys(ExpirationPrefix(prefix));
      ghost var done: set<string> := {};
      for i := 0 to |expirationKeys|
        invariant forall k :: k in expirationKeys <==> k in KeysWithPrefix(afterDel, ExpirationPrefix(prefix))
        invariant done == set j | 0 <= j < i :: expirationKeys[j]
        invariant client.data == RemovedFromSets(afterDel, done, key)
        invariant forall j :: 0 <= j < i ==> expirationKeys[j] in afterDel && afterDel[expirationKeys[j]].Members?
      {
        var expKey := expirationKeys[i];
        assert expKey in expirationKeys;
        assert expKey !in done;
        if expKey in client.data && client.data[expKey].Hash? {
          var removed := client.SRem(expKey, key);
          assert !ExpirationsAreSets(afterDel, prefix);
          return Some(WrongType);
        }
        RemovedFromSetsStep(afterDel, done, expKey, key);
        var removed := client.SRem(expKey, key);
        done := done + {expKey};
      }
      assert done == KeysWithPrefix(afterDel, ExpirationPrefix(prefix));
      ghost var cleaned := client.data;
      assert cleaned == RemovedFromSets(afterDel, KeysWithPrefix(afterDel, ExpirationPrefix(prefix)), key);
      if Truthy(principalName) {
        var _ := client.Del(IndexKey(prefix, principalName.value));
      }
      err := None;
    }

    /** `touch(sessionId)`: only `lastAccessedTime` changes, to the decimal
        clock reading; an absent key becomes a hash with just that field. */
    method Touch(sessionId: string, now: nat) returns (err: Option<string>)
      modifies client
      ensures var key := prefix + sessionId;
        if key in old(client.data) && old(client.data)[key].Members? then
          err == Some(WrongType) && client.data == old(client.data)
        else
          err.None? && client.data == HashSet(old(client.data), key, "lastAccessedTime", NatToString(now))
    {
      var r := client.HSet(prefix + sessionId, "lastAccessedTime", NatToString(now));
      err := if r.Err? then Some(r.message) else None;
    }
  }
}
