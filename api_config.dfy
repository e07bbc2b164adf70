/** The API server's configuration (apps/api/src/config.js): one record built
    from the environment. The machine's external IPv4 address and the home
    directory, which the source asks the operating system for, are
    parameters. */
module ApiConfig {
  import opened Common
  import CookiePolicy

  datatype Config = Config(
    protocol: Option<string>,
    port: Option<string>,
    host: string,
    imgFolderFallBack: Option<string>,
    videoSourceProfile: string,
    videosPath: Option<string>,
    moviesDir: Option<string>,
    seriesDir: Option<string>,
    baseLocation: string,
    serverUrl: string,
    imageFallbackBaseUrl: string,
    imageServerHost: string,
    imagePort: Option<string>,
    imageMapFileName: Option<string>,
    imageMapEnabled: Option<string>,
    cookieSecure: bool,
    cookieSameSite: string,
    cookieDomain: Option<string>,
    corsOrigin: string)

  /** `String(VIDEO_SOURCE_PROFILE || "local").trim().toLowerCase()` */
  function NormalizedProfile(env: Env): string {
    ToLower(Trim(OrDefault(EnvGet(env, "VIDEO_SOURCE_PROFILE"), "local")))
  }

  /** Without a (non-empty) `VIDEO_SOURCE_PROFILE` the profile is "local". */
  lemma DefaultProfileIsLocal(env: Env)
    requires !Truthy(EnvGet(env, "VIDEO_SOURCE_PROFILE"))
    ensures NormalizedProfile(env) == "local"
  {
    var raw := OrDefault(EnvGet(env, "VIDEO_SOURCE_PROFILE"), "local");
    assert raw == "local";
    assert TrimStart("local") == "local";
    assert TrimEnd("local") == "local";
    assert Trim(raw) == "local";
  }

  /** `VIDEO_PATH_LOCAL || VIDEO_PATH` */
  function LocalVideoPath(env: Env): (p: Option<string>)
    ensures Truthy(EnvGet(env, "VIDEO_PATH_LOCAL")) ==> p == Some(env["VIDEO_PATH_LOCAL"])
    ensures !Truthy(EnvGet(env, "VIDEO_PATH_LOCAL")) ==> p == EnvGet(env, "VIDEO_PATH")
  {
    Or(EnvGet(env, "VIDEO_PATH_LOCAL"), EnvGet(env, "VIDEO_PATH"))
  }

  /** The path the profile table gives: `local` and `gdrive` are its only
      entries, any other profile finds nothing. */
  function SelectedVideoPath(env: Env, profile: string): (r: Option<string>)
    ensures profile == "local" ==> r == LocalVideoPath(env)
    ensures profile == "gdrive" ==> r == EnvGet(env, "VIDEO_PATH_GDRIVE")
    ensures profile != "local" && profile != "gdrive" ==> r == None
  {
    if profile == "local" then LocalVideoPath(env)
    else if profile == "gdrive" then EnvGet(env, "VIDEO_PATH_GDRIVE")
    else None
  }

  /** `COOKIE_SECURE` read case-insensitively as "true" or "false"; any other
      value, or none, means secure exactly in production. */
  function CookieSecure(env: Env): (secure: bool)
    ensures
      var raw := ToLower(OrDefault(EnvGet(env, "COOKIE_SECURE"), ""));
      && (raw == "true" ==> secure)
      && (raw == "false" ==> !secure)
      && (raw != "true" && raw != "false" ==> (secure <==> EnvGet(env, "NODE_ENV") == Some("production")))
  {
    var raw := ToLower(OrDefault(EnvGet(env, "COOKIE_SECURE"), ""));
    if raw == "true" || raw == "false" then raw == "true"
    else EnvGet(env, "NODE_ENV") == Some("production")
  }

  predicate IsSameSite(s: string) {
    s == "lax" || s == "strict" || s == "none"
  }

  /** `COOKIE_SAMESITE` lower-cased when it is one of the three values the
      browser accepts, "lax" otherwise. */
  function CookieSameSite(env: Env): (sameSite: string)
    ensures IsSameSite(sameSite)
    ensures IsSameSite(ToLower(OrDefault(EnvGet(env, "COOKIE_SAMESITE"), "lax"))) ==>
      sameSite == ToLower(OrDefault(EnvGet(env, "COOKIE_SAMESITE"), "lax"))
    ensures !IsSameSite(ToLower(OrDefault(EnvGet(env, "COOKIE_SAMESITE"), "lax"))) ==> sameSite == "lax"
  {
    var sameSite := ToLower(OrDefault(EnvGet(env, "COOKIE_SAMESITE"), "lax"));
    if IsSameSite(sameSite) then sameSite else "lax"
  }

  /** `config()`. `host` stands for `getLocalIPAddress()` and `homeDir` for
      `os.homedir()`. */
  function LoadConfig(env: Env, host: string, homeDir: string): (c: Config)
    ensures c.videoSourceProfile == NormalizedProfile(env)
    ensures c.protocol == EnvGet(env, "SERVER_PROTOCOL") && c.port == EnvGet(env, "SERVER_PORT")
    ensures c.host == host && c.imageServerHost == host && c.baseLocation == homeDir
    ensures c.moviesDir == EnvGet(env, "MOVIES_DIR") && c.seriesDir == EnvGet(env, "SERIES_DIR")
    ensures c.serverUrl == TemplateText(c.protocol) + "://" + host + ":" + TemplateText(c.port)
    ensures Truthy(EnvGet(env, "IMAGE_FALLBACK_BASE_URL")) ==>
      c.imageFallbackBaseUrl == EnvGet(env, "IMAGE_FALLBACK_BASE_URL").value
    ensures !Truthy(EnvGet(env, "IMAGE_FALLBACK_BASE_URL")) ==> c.imageFallbackBaseUrl == c.serverUrl + "/public"
    ensures c.cookieSecure == CookieSecure(env) && c.cookieSameSite == CookieSameSite(env)
    ensures c.cookieDomain.Some? <==> Truthy(EnvGet(env, "COOKIE_DOMAIN"))
    ensures c.cookieDomain.Some? ==> c.cookieDomain == EnvGet(env, "COOKIE_DOMAIN")
    ensures Truthy(EnvGet(env, "CORS_ORIGIN")) ==> c.corsOrigin == EnvGet(env, "CORS_ORIGIN").value
    ensures !Truthy(EnvGet(env, "CORS_ORIGIN")) ==> c.corsOrigin == ""
    ensures c.imgFolderFallBack == EnvGet(env, "IMG_FOLDER_FALL_BACK") && c.imagePort == EnvGet(env, "IMAGES_PORT_SERVER")
    ensures c.imageMapFileName == EnvGet(env, "IMAGE_MAP") && c.imageMapEnabled == EnvGet(env, "IMAGE_MAP_ENABLED")
    ensures c.videosPath ==
      if NormalizedProfile(env) == "gdrive" && Truthy(EnvGet(env, "VIDEO_PATH_GDRIVE"))
      then EnvGet(env, "VIDEO_PATH_GDRIVE") else LocalVideoPath(env)
  {
    var profile := NormalizedProfile(env);
    var selected := SelectedVideoPath(env, profile);
    var protocol := EnvGet(env, "SERVER_PROTOCOL");
    var port := EnvGet(env, "SERVER_PORT");
    var serverUrl := TemplateText(protocol) + "://" + host + ":" + TemplateText(port);
    Config(
      protocol := protocol,
      port := port,
      host := host,
      imgFolderFallBack := EnvGet(env, "IMG_FOLDER_FALL_BACK"),
      videoSourceProfile := profile,
      videosPath := Or(selected, LocalVideoPath(env)),
      moviesDir := EnvGet(env, "MOVIES_DIR"),
      seriesDir := EnvGet(env, "SERIES_DIR"),
      baseLocation := homeDir,
      serverUrl := serverUrl,
      imageFallbackBaseUrl := OrDefault(EnvGet(env, "IMAGE_FALLBACK_BASE_URL"), serverUrl + "/public"),
      imageServerHost := host,
      imagePort := EnvGet(env, "IMAGES_PORT_SERVER"),
      imageMapFileName := EnvGet(env, "IMAGE_MAP"),
      imageMapEnabled := EnvGet(env, "IMAGE_MAP_ENABLED"),
      cookieSecure := CookieSecure(env),
      cookieSameSite := CookieSameSite(env),
      cookieDomain := Or(EnvGet(env, "COOKIE_DOMAIN"), None),
      corsOrigin := OrDefault(EnvGet(env, "CORS_ORIGIN"), ""))
  }

  /** The video path: the Google Drive path when that profile is chosen and
      the path is set, the local path (`VIDEO_PATH_LOCAL`, else `VIDEO_PATH`)
      in every other case. */
  lemma VideosPathChoice(env: Env, host: string, homeDir: string)
    ensures var c := LoadConfig(env, host, homeDir);
      && (NormalizedProfile(env) == "gdrive" && Truthy(EnvGet(env, "VIDEO_PATH_GDRIVE")) ==>
            c.videosPath == EnvGet(env, "VIDEO_PATH_GDRIVE"))
      && (!(NormalizedProfile(env) == "gdrive" && Truthy(EnvGet(env, "VIDEO_PATH_GDRIVE"))) ==>
            c.videosPath == LocalVideoPath(env))
  {
  }

  /** A usable (non-empty) video path exists exactly when one of the
      variables that can supply it is set. */
  lemma VideosPathConfigured(env: Env, host: string, homeDir: string)
    ensures Truthy(LoadConfig(env, host, homeDir).videosPath) <==>
      || Truthy(EnvGet(env, "VIDEO_PATH_LOCAL"))
      || Truthy(EnvGet(env, "VIDEO_PATH"))
      || (NormalizedProfile(env) == "gdrive" && Truthy(EnvGet(env, "VIDEO_PATH_GDRIVE")))
  {
    VideosPathChoice(env, host, homeDir);
  }

  /** An unknown profile keeps its (normalised) name but reads the local
      path. */
  lemma UnknownProfileFallsBackToLocal(env: Env, host: string, homeDir: string)
    requires NormalizedProfile(env) != "local" && NormalizedProfile(env) != "gdrive"
    ensures LoadConfig(env, host, homeDir).videosPath == LocalVideoPath(env)
    ensures LoadConfig(env, host, homeDir).videoSourceProfile == NormalizedProfile(env)
  {
  }

  /** The profile name is compared after trimming and lower-casing: a
      profile written with a space on each side, in any case, is the same
      profile. */
  lemma ProfileIgnoresPaddingAndCase(env: Env, name: string)
    requires name != [] && !IsSpace(name[0]) && !IsSpace(name[|name| - 1])
    requires EnvGet(env, "VIDEO_SOURCE_PROFILE") == Some([' '] + name + [' '])
    ensures NormalizedProfile(env) == ToLower(name)
  {
    var padded := [' '] + name + [' '];
    assert |padded| > 0;
    assert OrDefault(EnvGet(env, "VIDEO_SOURCE_PROFILE"), "local") == padded;
    TrimPadded(name);
  }

  lemma GdriveIsNormal()
    ensures Trim("gdrive") == "gdrive" && ToLower("gdrive") == "gdrive"
  {
    assert TrimStart("gdrive") == "gdrive";
    assert TrimEnd("gdrive") == "gdrive";
  }

  /** With the profile "gdrive" but no Google Drive path, the local path is
      used and the profile still reads "gdrive". */
  lemma GdriveWithoutPathUsesLocal(env: Env, host: string, homeDir: string)
    requires EnvGet(env, "VIDEO_SOURCE_PROFILE") == Some("gdrive")
    requires EnvGet(env, "VIDEO_PATH_GDRIVE") == None
    requires EnvGet(env, "VIDEO_PATH_LOCAL") == Some("/videos-local")
    ensures LoadConfig(env, host, homeDir).videoSourceProfile == "gdrive"
    ensures LoadConfig(env, host, homeDir).videosPath == Some("/videos-local")
  {
    GdriveProfile(env);
    assert !Truthy(EnvGet(env, "VIDEO_PATH_GDRIVE"));
    assert LocalVideoPath(env) == Some("/videos-local");
  }

  lemma GdriveProfile(env: Env)
    requires EnvGet(env, "VIDEO_SOURCE_PROFILE") == Some("gdrive")
    ensures NormalizedProfile(env) == "gdrive"
  {
    var raw := OrDefault(EnvGet(env, "VIDEO_SOURCE_PROFILE"), "local");
    assert raw == "gdrive";
    GdriveIsNormal();
    assert Trim(raw) == "gdrive";
  }

  /** `COOKIE_SECURE` is read without regard to case and overrides the
      environment default. */
  lemma CookieSecureOverridesNodeEnv(env: Env)
    requires EnvGet(env, "NODE_ENV") == Some("production")
    ensures CookieSecure(env["COOKIE_SECURE" := "False"]) == false
    ensures CookieSecure(env["COOKIE_SECURE" := "TRUE"]) == true
    ensures CookieSecure(env["COOKIE_SECURE" := "yes"]) == true
    ensures CookieSecure(env - {"COOKIE_SECURE"}) == true
  {
    CookieSecureWords();
    assert EnvGet(env["COOKIE_SECURE" := "yes"], "NODE_ENV") == Some("production");
    assert EnvGet(env - {"COOKIE_SECURE"}, "NODE_ENV") == Some("production");
  }

  lemma CookieSecureWords()
    ensures ToLower("False") == "false" && ToLower("TRUE") == "true" && ToLower("yes") == "yes"
  {
    LowerOf("False", "false");
    LowerOf("TRUE", "true");
    LowerOf("yes", "yes");
  }

  /** An invalid `COOKIE_SAMESITE` becomes "lax"; a valid one in any case is
      lower-cased. */
  lemma SameSiteExamples(env: Env)
    ensures CookieSameSite(env["COOKIE_SAMESITE" := "Strict"]) == "strict"
    ensures CookieSameSite(env["COOKIE_SAMESITE" := "bogus"]) == "lax"
    ensures CookieSameSite(env - {"COOKIE_SAMESITE"}) == "lax"
  {
    SameSiteWords();
    assert EnvGet(env["COOKIE_SAMESITE" := "Strict"], "COOKIE_SAMESITE") == Some("Strict");
    assert EnvGet(env["COOKIE_SAMESITE" := "bogus"], "COOKIE_SAMESITE") == Some("bogus");
    assert EnvGet(env - {"COOKIE_SAMESITE"}, "COOKIE_SAMESITE") == None;
  }

  lemma SameSiteWords()
    ensures ToLower("Strict") == "strict" && ToLower("bogus") == "bogus" && ToLower("lax") == "lax"
    ensures !IsSameSite("bogus")
  {
    LowerOf("Strict", "strict");
    LowerOf("bogus", "bogus");
    LowerOf("lax", "lax");
  }

  /** The cookie settings the auth router passes, as `cfg`, to the cookie
      policy. */
  function CookieSettings(c: Config): (cfg: CookiePolicy.CookieConfig)
    ensures cfg.cookieSecure == c.cookieSecure && cfg.cookieSameSite == c.cookieSameSite
    ensures cfg.cookieDomain == c.cookieDomain
  {
    CookiePolicy.CookieConfig(c.cookieSecure, c.cookieSameSite, c.cookieDomain)
  }

  /** Every cookie the policy builds from this configuration carries a
      `SameSite` the browser accepts, and a domain only when `COOKIE_DOMAIN`
      is set. */
  lemma ConfiguredCookieOptions(
    env: Env, host: string, homeDir: string,
    isHttpOnly: bool, maxAgeMs: Option<CookiePolicy.JsNumber>, path: Option<string>)
    ensures var o := CookiePolicy.BuildCookieOptions(isHttpOnly, maxAgeMs, path, CookieSettings(LoadConfig(env, host, homeDir)));
      && IsSameSite(o.sameSite)
      && (o.domain.Some? <==> Truthy(EnvGet(env, "COOKIE_DOMAIN")))
      && o.secure == CookieSecure(env)
  {
  }
}
