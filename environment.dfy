/**
 * The process environment and the three different ways the handlers pick a JWT key.
 * `a || b` in JavaScript skips unset and empty variables alike.
 */
module Environment {
  import opened Wrappers
  import opened Text

  datatype Env = Env(
    mongodbUri: Option<string>,
    jwtSecret: Option<string>,
    nextauthSecret: Option<string>)

  const FallbackSecret := "awaaz-secret-key"

  /** `v || otherwise` for an environment variable. */
  function OrElse(v: Option<string>, otherwise: string): string {
    if Truthy(v) then v.value else otherwise
  }

  /**
   * Key of the citizen login and of `/api/auth/me`:
   * JWT_SECRET, else NEXTAUTH_SECRET, else the hard-coded fallback.
   */
  function SessionKey(env: Env): (k: string)
    ensures k != ""
    ensures Truthy(env.jwtSecret) ==> k == env.jwtSecret.value
    ensures !Truthy(env.jwtSecret) ==> k == AdminKey(env)
  {
    OrElse(env.jwtSecret, OrElse(env.nextauthSecret, FallbackSecret))
  }

  /**
   * Key of the admin login, `verifyAdminToken` and the `/api/profile` middleware:
   * NEXTAUTH_SECRET, else the fallback. JWT_SECRET is never consulted.
   */
  function AdminKey(env: Env): (k: string)
    ensures k != ""
    ensures Truthy(env.nextauthSecret) ==> k == env.nextauthSecret.value
    ensures !Truthy(env.nextauthSecret) ==> k == FallbackSecret
  {
    OrElse(env.nextauthSecret, FallbackSecret)
  }

  /**
   * Key of change-password and update-profile: `process.env.JWT_SECRET!` with no fallback.
   * An unset variable reaches `jwt.verify` as a missing key, modelled as the empty key.
   */
  function ProfileKey(env: Env): (k: string)
    ensures k == "" <==> !Truthy(env.jwtSecret)
  {
    if env.jwtSecret.Some? then env.jwtSecret.value else ""
  }

  /** Citizen sessions and admin sessions share a key exactly when JWT_SECRET is unset or repeats the admin key. */
  lemma SessionAndAdminKeysAgree(env: Env)
    ensures SessionKey(env) == AdminKey(env) <==> !Truthy(env.jwtSecret) || env.jwtSecret.value == AdminKey(env)
  {
  }

  /** The profile handlers share the session key exactly when JWT_SECRET is set. */
  lemma ProfileAndSessionKeysAgree(env: Env)
    ensures ProfileKey(env) == SessionKey(env) <==> Truthy(env.jwtSecret)
  {
  }
}
