/** `createTokenConfig` (apps/api/src/auth/tokenConfig.js): the token secrets,
    lifetimes and key-set settings read from the environment with defaults. */
module TokenConfig {
  import opened Common

  datatype TokenConfig = TokenConfig(
    accessSecret: string,
    refreshSecret: string,
    accessTtl: string,
    refreshTtl: string,
    jwksValidation: bool,
    jwksUrl: string)

  /** The env value when it is present and non-empty (`env.X || default`). */
  predicate SetIn(env: Env, key: string) {
    key in env && env[key] != ""
  }

  function CreateTokenConfig(env: Env): (c: TokenConfig)
    ensures SetIn(env, "JWT_ACCESS_SECRET") ==> c.accessSecret == env["JWT_ACCESS_SECRET"]
    ensures !SetIn(env, "JWT_ACCESS_SECRET") ==> c.accessSecret == "access-secret"
    ensures SetIn(env, "JWT_REFRESH_SECRET") ==> c.refreshSecret == env["JWT_REFRESH_SECRET"]
    ensures !SetIn(env, "JWT_REFRESH_SECRET") ==> c.refreshSecret == "refresh-secret"
    ensures SetIn(env, "JWT_ACCESS_TTL") ==> c.accessTtl == env["JWT_ACCESS_TTL"]
    ensures !SetIn(env, "JWT_ACCESS_TTL") ==> c.accessTtl == "15m"
    ensures SetIn(env, "JWT_REFRESH_TTL") ==> c.refreshTtl == env["JWT_REFRESH_TTL"]
    ensures !SetIn(env, "JWT_REFRESH_TTL") ==> c.refreshTtl == "180d"
    ensures c.jwksValidation <==> "JWKS_VALIDATION" in env && env["JWKS_VALIDATION"] == "true"
    ensures SetIn(env, "JWKS_URL") ==> c.jwksUrl == env["JWKS_URL"]
    ensures !SetIn(env, "JWKS_URL") ==> c.jwksUrl == ""
  {
    TokenConfig(
      accessSecret := OrDefault(EnvGet(env, "JWT_ACCESS_SECRET"), "access-secret"),
      refreshSecret := OrDefault(EnvGet(env, "JWT_REFRESH_SECRET"), "refresh-secret"),
      accessTtl := OrDefault(EnvGet(env, "JWT_ACCESS_TTL"), "15m"),
      refreshTtl := OrDefault(EnvGet(env, "JWT_REFRESH_TTL"), "180d"),
      jwksValidation := EnvGet(env, "JWKS_VALIDATION") == Some("true"),
      jwksUrl := OrDefault(EnvGet(env, "JWKS_URL"), ""))
  }

  /** An empty string in the environment is the same as no entry at all. */
  lemma EmptyEnvValueIsMissing(env: Env, key: string)
    requires key in env && env[key] == ""
    ensures CreateTokenConfig(env) == CreateTokenConfig(env - {key})
  {
  }

  /** With nothing configured, every field takes its default. */
  lemma Defaults()
    ensures CreateTokenConfig(map[]) ==
      TokenConfig("access-secret", "refresh-secret", "15m", "180d", false, "")
  {
  }
}
