/** `verifyAdminToken` and `adminMiddleware` (src/lib/adminAuth.ts). */
module AdminAuth {
  import opened Wrappers
  import opened Jwt
  import opened Environment
  import opened Http
  import AdminLoginRoute

  /** `admin_token` when its value is non-empty, else `token`; `None` when neither is usable. */
  function ChosenToken(c: Cookies): (t: Option<Token>)
    ensures Present(c.adminToken) ==> t == c.adminToken
    ensures !Present(c.adminToken) && Present(c.token) ==> t == c.token
    ensures t.Some? <==> Present(c.adminToken) || Present(c.token)
  {
    if Present(c.adminToken) then c.adminToken
    else if Present(c.token) then c.token
    else None
  }

  /** The claim test: an admin type, the authorized email, and `isAdmin === true`. */
  predicate AdminClaimsOk(p: Claims) {
    p.userType == "admin" && p.email == AdminLoginRoute.AuthorizedAdminEmail && p.isAdmin == Some(true)
  }

  /**
   * `verifyAdminToken(request)` at time `now`: the chosen token, verified under the admin key,
   * whose claims pass the test. Every failure, including a thrown verification error, is `None`.
   */
  function VerifyAdminToken(env: Env, now: int, c: Cookies): (r: Option<Claims>)
    ensures r.Some? ==> AdminClaimsOk(r.value)
    ensures r.Some? <==>
              ChosenToken(c).Some? && Verify(ChosenToken(c).value, AdminKey(env), now).Valid?
              && AdminClaimsOk(Verify(ChosenToken(c).value, AdminKey(env), now).payload)
    ensures r.Some? ==> r.value == ChosenToken(c).value.claims && ChosenToken(c).value.key == AdminKey(env)
  {
    var t := ChosenToken(c);
    if t.None? then None
    else
      match Verify(t.value, AdminKey(env), now)
      case Invalid => None
      case Valid(p) => if AdminClaimsOk(p) then Some(p) else None
  }

  /** A usable `admin_token` decides alone: whatever `token` holds is not consulted. */
  lemma AdminTokenShadowsToken(env: Env, now: int, c: Cookies, other: Option<Token>)
    requires Present(c.adminToken)
    ensures VerifyAdminToken(env, now, c) == VerifyAdminToken(env, now, c.(token := other))
  {
  }

  /** A token without `isAdmin` (every citizen token) is never accepted, whatever else it claims. */
  lemma CitizenTokenNeverAdmin(env: Env, now: int, c: Cookies)
    requires ChosenToken(c).Some? && ChosenToken(c).value.Signed?
    requires ChosenToken(c).value.claims.isAdmin == None
    ensures VerifyAdminToken(env, now, c) == None
  {
  }

  /** `adminMiddleware`: 403 exactly when `verifyAdminToken` yields nothing, otherwise pass through. */
  function AdminMiddleware(env: Env, now: int, c: Cookies): (g: Gate)
    ensures g == Next <==> VerifyAdminToken(env, now, c).Some?
    ensures g != Next ==> g == Deny(403, "Access denied. Admin privileges required.")
  {
    if VerifyAdminToken(env, now, c).None? then Deny(403, "Access denied. Admin privileges required.")
    else Next
  }
}
