/** The web client's server address (apps/web/src/config.js): which host,
    protocol and port the browser application calls, and the base URL it
    builds from them. The browser's `window.location`, when there is one, is
    a parameter. */
module WebConfig {
  import opened Common

  /** The parts of `window.location` the configuration reads; `protocol`
      keeps its trailing colon ("https:"), `port` is "" for the default. */
  datatype Location = Location(hostname: string, port: string, protocol: string)

  datatype WebConfig = WebConfig(protocol: string, port: string, host: string, serverUrl: string)

  const HostRequired: string := "REACT_APP_SERVER_HOST is required in production to avoid localhost fallback"
  const DefaultPublicUrl: string := "/home-video"

  predicate IsProduction(env: Env) {
    EnvGet(env, "NODE_ENV") == Some("production")
  }

  predicate IsDevelopment(env: Env) {
    EnvGet(env, "NODE_ENV") == Some("development")
  }

  /** `REACT_APP_SERVER_HOST?.trim()` */
  function EnvHost(env: Env): (h: Option<string>)
    ensures h.Some? <==> "REACT_APP_SERVER_HOST" in env
    ensures h.Some? ==> h.value == Trim(env["REACT_APP_SERVER_HOST"])
  {
    match EnvGet(env, "REACT_APP_SERVER_HOST")
    case None => None
    case Some(raw) => Some(Trim(raw))
  }

  /** The page's own host name, or "localhost" without one. */
  function DevHost(window: Option<Location>): (h: string)
    ensures h != ""
    ensures window.Some? && window.value.hostname != "" ==> h == window.value.hostname
  {
    if window.Some? && window.value.hostname != "" then window.value.hostname else "localhost"
  }

  /** The host: the page's own in development, the configured one (or "")
      otherwise. */
  function Host(env: Env, window: Option<Location>): (h: string)
    ensures IsDevelopment(env) ==> h == DevHost(window)
    ensures !IsDevelopment(env) ==> h == OrDefault(EnvHost(env), "")
  {
    if IsDevelopment(env) then DevHost(window) else OrDefault(EnvHost(env), "")
  }

  /** `process.env.PUBLIC_URL || '/home-video'` */
  function PublicUrl(env: Env): (u: string)
    ensures Truthy(EnvGet(env, "PUBLIC_URL")) ==> u == env["PUBLIC_URL"]
    ensures !Truthy(EnvGet(env, "PUBLIC_URL")) ==> u == DefaultPublicUrl
    ensures u != ""
  {
    OrDefault(EnvGet(env, "PUBLIC_URL"), DefaultPublicUrl)
  }

  /** The index of the first `c` in `s`. */
  function FirstIndex(s: string, c: char): (i: nat)
    requires c in s
    ensures i < |s| && s[i] == c
    ensures forall j :: 0 <= j < i ==> s[j] != c
  {
    if s[0] == c then 0 else 1 + FirstIndex(s[1..], c)
  }

  /** `s.replace(":", "")` with a one-character pattern: only the first
      occurrence goes. */
  function RemoveFirst(s: string, c: char): (r: string)
    ensures c !in s ==> r == s
    ensures c in s ==> |r| == |s| - 1
    ensures c in s ==> r[..FirstIndex(s, c)] == s[..FirstIndex(s, c)] && r[FirstIndex(s, c)..] == s[FirstIndex(s, c) + 1..]
  {
    if c in s then s[..FirstIndex(s, c)] + s[FirstIndex(s, c) + 1..] else s
  }

  /** `location.port`, or the protocol's default port when it is "". */
  function CurrentPort(loc: Location): (p: string)
    ensures p != ""
    ensures loc.port != "" ==> p == loc.port
    ensures loc.port == "" ==> p == if loc.protocol == "https:" then "443" else "80"
  {
    if loc.port != "" then loc.port else if loc.protocol == "https:" then "443" else "80"
  }

  /** Whether the production URL names the port: only for http and https,
      and only a port other than the protocol's default. */
  predicate ShowsPort(protocol: string, port: string) {
    || (protocol == "http" && port != "80" && port != "")
    || (protocol == "https" && port != "443" && port != "")
  }

  /** Production in a browser: everything comes from the page's location. */
  function FromLocation(loc: Location, publicUrl: string): (c: WebConfig)
    ensures c.protocol == RemoveFirst(loc.protocol, ':') && c.port == CurrentPort(loc) && c.host == loc.hostname
    ensures ShowsPort(c.protocol, c.port) ==>
      c.serverUrl == c.protocol + "://" + c.host + ":" + c.port + publicUrl
    ensures !ShowsPort(c.protocol, c.port) ==>
      c.serverUrl == c.protocol + "://" + c.host + publicUrl
  {
    var protocol := RemoveFirst(loc.protocol, ':');
    var port := CurrentPort(loc);
    var url := if ShowsPort(protocol, port) then protocol + "://" + loc.hostname + ":" + port + publicUrl
               else protocol + "://" + loc.hostname + publicUrl;
    WebConfig(protocol, port, loc.hostname, url)
  }

  /** `config()`: throws in production when no host is configured. */
  function LoadWebConfig(env: Env, window: Option<Location>): (r: Result<WebConfig>)
    ensures r.Err? <==> IsProduction(env) && Host(env, window) == ""
    ensures r.Err? ==> r.message == HostRequired
    ensures r.Ok? && IsProduction(env) && window.Some? ==> r.value == FromLocation(window.value, PublicUrl(env))
    ensures r.Ok? && IsProduction(env) && window.None? ==>
      && r.value.protocol == OrDefault(EnvGet(env, "REACT_APP_SERVER_PROTOCOL"), "https")
      && r.value.port == OrDefault(EnvGet(env, "PORT"), "8080")
      && r.value.host == Host(env, window)
      && r.value.serverUrl == r.value.protocol + "://" + r.value.host + ":" + r.value.port + PublicUrl(env)
    ensures r.Ok? && !IsProduction(env) ==>
      r.value.protocol == "http" && r.value.port == "8080" && r.value.host == Host(env, window)
  {
    var host := Host(env, window);
    if host == "" && IsProduction(env) then Err(HostRequired)
    else
      var publicUrl := PublicUrl(env);
      if IsProduction(env) then
        if window.Some? then Ok(FromLocation(window.value, publicUrl))
        else
          var protocol := OrDefault(EnvGet(env, "REACT_APP_SERVER_PROTOCOL"), "https");
          var port := OrDefault(EnvGet(env, "PORT"), "8080");
          Ok(WebConfig(protocol, port, host, protocol + "://" + host + ":" + port + publicUrl))
      else
        Ok(WebConfig("http", "8080", host, "http://" + host + ":8080" + publicUrl))
  }

  /** Outside production the URL always names port 8080 over http, and the
      host may be empty (test mode without a configured host). */
  lemma NonProductionUrl(env: Env, window: Option<Location>)
    requires !IsProduction(env)
    ensures LoadWebConfig(env, window).Ok?
    ensures LoadWebConfig(env, window).value.serverUrl == "http://" + Host(env, window) + ":8080" + PublicUrl(env)
  {
  }

  lemma ConcatEndsWith(a: string, p: string)
    ensures EndsWith(a + p, p)
  {
    assert (a + p)[|a|..] == p;
  }

  /** Every base URL ends with the public URL path. */
  lemma ServerUrlEndsWithPublicUrl(env: Env, window: Option<Location>)
    requires LoadWebConfig(env, window).Ok?
    ensures EndsWith(LoadWebConfig(env, window).value.serverUrl, PublicUrl(env))
  {
    var c := LoadWebConfig(env, window).value;
    var p := PublicUrl(env);
    if !IsProduction(env) {
      ConcatEndsWith("http://" + c.host + ":8080", p);
    } else if window.Some? {
      if ShowsPort(c.protocol, c.port) {
        ConcatEndsWith(c.protocol + "://" + c.host + ":" + c.port, p);
      } else {
        ConcatEndsWith(c.protocol + "://" + c.host, p);
      }
    } else {
      ConcatEndsWith(c.protocol + "://" + c.host + ":" + c.port, p);
    }
  }

  /** In development the configured host is ignored: the page's own host
      name is used whatever `REACT_APP_SERVER_HOST` says. */
  lemma DevelopmentIgnoresEnvHost(env: Env, window: Option<Location>, configured: string)
    requires IsDevelopment(env)
    ensures var withHost := env["REACT_APP_SERVER_HOST" := configured];
      && LoadWebConfig(withHost, window) == LoadWebConfig(env - {"REACT_APP_SERVER_HOST"}, window)
      && LoadWebConfig(withHost, window) == Ok(WebConfig("http", "8080", DevHost(window),
           "http://" + DevHost(window) + ":8080" + PublicUrl(env)))
  {
    var withHost := env["REACT_APP_SERVER_HOST" := configured];
    var without := env - {"REACT_APP_SERVER_HOST"};
    assert EnvGet(withHost, "NODE_ENV") == EnvGet(env, "NODE_ENV");
    assert EnvGet(without, "NODE_ENV") == EnvGet(env, "NODE_ENV");
    assert EnvGet(withHost, "PUBLIC_URL") == EnvGet(env, "PUBLIC_URL");
    assert EnvGet(without, "PUBLIC_URL") == EnvGet(env, "PUBLIC_URL");
  }

  lemma TrimBlank()
    ensures Trim("  ") == ""
  {
    TrimStartSpace(' ', " ");
    TrimStartSpace(' ', "");
    assert [' '] + " " == "  " && [' '] + "" == " ";
  }

  /** Production demands `REACT_APP_SERVER_HOST` even in a browser, where the
      URL then uses the page's host name instead; a value of only white
      space counts as missing. */
  lemma ProductionRequiresEnvHost(env: Env, loc: Location)
    requires IsProduction(env)
    requires EnvGet(env, "REACT_APP_SERVER_HOST") == Some("  ")
    ensures LoadWebConfig(env, Some(loc)) == Err(HostRequired)
    ensures LoadWebConfig(env - {"REACT_APP_SERVER_HOST"}, Some(loc)) == Err(HostRequired)
  {
    TrimBlank();
    assert EnvGet(env - {"REACT_APP_SERVER_HOST"}, "NODE_ENV") == EnvGet(env, "NODE_ENV");
  }

  /** With a host configured, production in a browser takes host, protocol
      and port from the page, not from the configuration. */
  lemma ProductionUsesPageLocation(env: Env, loc: Location)
    requires IsProduction(env) && Truthy(EnvHost(env))
    ensures LoadWebConfig(env, Some(loc)).Ok?
    ensures LoadWebConfig(env, Some(loc)).value.host == loc.hostname
    ensures LoadWebConfig(env, Some(loc)).value.port == CurrentPort(loc)
  {
  }

  /** For the http and https pages the URL names the port exactly when it
      is not the protocol's default. */
  lemma PortShownUnlessDefault(loc: Location, publicUrl: string)
    requires loc.protocol == "http:" || loc.protocol == "https:"
    ensures var c := FromLocation(loc, publicUrl);
      var default := if loc.protocol == "https:" then "443" else "80";
      c.serverUrl == c.protocol + "://" + loc.hostname + ":" + c.port + publicUrl <==> c.port != default
  {
    var c := FromLocation(loc, publicUrl);
    ColonStripped(loc.protocol);
    if !ShowsPort(c.protocol, c.port) {
      assert |c.serverUrl| < |c.protocol + "://" + loc.hostname + ":" + c.port + publicUrl|;
    }
  }

  /** The protocol loses its colon: "http:" and "https:" become "http" and
      "https". */
  lemma ColonStripped(protocol: string)
    requires protocol == "http:" || protocol == "https:"
    ensures RemoveFirst(protocol, ':') == protocol[..|protocol| - 1]
  {
    assert protocol[|protocol| - 1] == ':';
    assert forall j :: 0 <= j < |protocol| - 1 ==> protocol[j] != ':';
    var i := FirstIndex(protocol, ':');
    assert i == |protocol| - 1;
  }

  /** Other page protocols never show the port. */
  lemma OtherProtocolsOmitPort(loc: Location, publicUrl: string)
    requires RemoveFirst(loc.protocol, ':') != "http" && RemoveFirst(loc.protocol, ':') != "https"
    ensures FromLocation(loc, publicUrl).serverUrl == RemoveFirst(loc.protocol, ':') + "://" + loc.hostname + publicUrl
  {
  }

  /** Only the first colon is removed. */
  lemma OnlyFirstColonRemoved()
    ensures RemoveFirst("a:b:", ':') == "ab:"
  {
    assert FirstIndex("a:b:", ':') == 1;
    assert "a:b:"[..1] == "a" && "a:b:"[2..] == "b:";
  }
}
