/** The single admin account (apps/api/src/auth/user.js): its settings are
    read from the environment when the module loads, and `validateCredentials`
    checks a login against them. The hash comparison (`bcrypt.compare`) is a
    parameter, and so is reading the hash file. */
module Credentials {
  import opened Common

  datatype CredentialConfig = CredentialConfig(
    adminUsername: string,
    adminPasswordHash: string,
    adminPassword: string)

  /** The module-load settings. In production, when a hash file is named and
      no hash is given directly, the hash is the trimmed file contents; a file
      that cannot be read (`None`) leaves the hash empty. */
  function LoadCredentialConfig(env: Env, readFile: string -> Option<string>): (c: CredentialConfig)
    ensures c.adminUsername == OrDefault(EnvGet(env, "ADMIN_USERNAME"), "admin")
    ensures c.adminPassword == OrDefault(EnvGet(env, "ADMIN_PASSWORD"), "")
    ensures Truthy(EnvGet(env, "ADMIN_PASSWORD_HASH")) ==> c.adminPasswordHash == env["ADMIN_PASSWORD_HASH"]
    ensures !Truthy(EnvGet(env, "ADMIN_PASSWORD_HASH")) ==>
      var file := OrDefault(EnvGet(env, "ADMIN_PASSWORD_HASH_FILE"), "");
      if EnvGet(env, "NODE_ENV") == Some("production") && file != "" && readFile(file).Some?
      then c.adminPasswordHash == Trim(readFile(file).value)
      else c.adminPasswordHash == ""
  {
    var hashFile := OrDefault(EnvGet(env, "ADMIN_PASSWORD_HASH_FILE"), "");
    var envHash := OrDefault(EnvGet(env, "ADMIN_PASSWORD_HASH"), "");
    var nodeEnv := OrDefault(EnvGet(env, "NODE_ENV"), "");
    var hash :=
      if nodeEnv == "production" && hashFile != "" && envHash == "" then
        match readFile(hashFile)
        case Some(text) => Trim(text)
        case None => envHash
      else envHash;
    CredentialConfig(
      OrDefault(EnvGet(env, "ADMIN_USERNAME"), "admin"),
      hash,
      OrDefault(EnvGet(env, "ADMIN_PASSWORD"), ""))
  }

  /** The hash file is not read outside production: the hash is then the
      `ADMIN_PASSWORD_HASH` value or empty, whatever the file holds. */
  lemma HashFileOnlyInProduction(env: Env, readFile1: string -> Option<string>, readFile2: string -> Option<string>)
    requires EnvGet(env, "NODE_ENV") != Some("production")
    ensures LoadCredentialConfig(env, readFile1) == LoadCredentialConfig(env, readFile2)
  {
  }

  const AuthUserId: string := "user-1"

  /** `AUTH_USER`: the fixed id and the configured admin name. */
  datatype AuthUser = AuthUser(id: string, username: string)

  function AuthUserOf(cfg: CredentialConfig): (u: AuthUser)
    ensures u.id == "user-1" && u.username == cfg.adminUsername
  {
    AuthUser(AuthUserId, cfg.adminUsername)
  }

  /** `validateCredentials`, an ordered chain of early returns. `compare` is
      the truthiness of `bcrypt.compare(password, hash)`. */
  function ValidateCredentials(
    cfg: CredentialConfig, username: Option<string>, password: Option<string>,
    compare: (string, string) -> bool): (ok: bool)
    ensures ok ==> Truthy(username) && Truthy(password) && username.value == cfg.adminUsername
    ensures Truthy(username) && Truthy(password) && username.value == cfg.adminUsername ==>
      if cfg.adminPasswordHash != "" then ok == compare(password.value, cfg.adminPasswordHash)
      else ok == (cfg.adminPassword != "" && password.value == cfg.adminPassword)
  {
    if !Truthy(username) || !Truthy(password) then false
    else if username.value != cfg.adminUsername then false
    else if cfg.adminPasswordHash != "" then compare(password.value, cfg.adminPasswordHash)
    else if cfg.adminPassword != "" then password.value == cfg.adminPassword
    else false
  }

  /** With a hash configured, the plaintext setting plays no part. */
  lemma HashAloneDecides(
    cfg: CredentialConfig, otherPassword: string,
    username: Option<string>, password: Option<string>, compare: (string, string) -> bool)
    requires cfg.adminPasswordHash != ""
    ensures ValidateCredentials(cfg, username, password, compare) ==
      ValidateCredentials(cfg.(adminPassword := otherPassword), username, password, compare)
  {
  }

  /** With neither a hash nor a plaintext password configured, nothing logs in. */
  lemma NothingConfiguredRejects(
    cfg: CredentialConfig, username: Option<string>, password: Option<string>, compare: (string, string) -> bool)
    requires cfg.adminPasswordHash == "" && cfg.adminPassword == ""
    ensures !ValidateCredentials(cfg, username, password, compare)
  {
  }

  /** The default account name is "admin" and an empty password never
      passes, even when the configured password is empty too. */
  lemma DefaultsExample(compare: (string, string) -> bool, readFile: string -> Option<string>)
    ensures LoadCredentialConfig(map[], readFile) == CredentialConfig("admin", "", "")
    ensures !ValidateCredentials(CredentialConfig("admin", "", ""), Some("admin"), Some(""), compare)
    ensures ValidateCredentials(CredentialConfig("admin", "", "pw"), Some("admin"), Some("pw"), compare)
    ensures !ValidateCredentials(CredentialConfig("admin", "", "pw"), Some("root"), Some("pw"), compare)
  {
  }
}
