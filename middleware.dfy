/** The Next.js middleware guarding `/api/profile` (src/middleware.ts). */
module Middleware {
  import opened Wrappers
  import opened Text
  import opened Jwt
  import opened Environment
  import opened Http

  const ProtectedPrefix := "/api/profile"

  /**
   * `middleware(request)` at time `now`: a raw prefix test on the path; on a gated path the
   * `token` cookie must be present and verify under the admin key. No claim is inspected.
   */
  function Guard(env: Env, now: int, path: string, c: Cookies): (g: Gate)
    ensures !StartsWith(path, ProtectedPrefix) ==> g == Next
    ensures StartsWith(path, ProtectedPrefix) && !Present(c.token) ==> g == Deny(401, "Unauthorized - No token provided")
    ensures g == Next <==> !StartsWith(path, ProtectedPrefix) || (Present(c.token) && Verify(c.token.value, AdminKey(env), now).Valid?)
    ensures g != Next ==> g.status == 401
  {
    if StartsWith(path, ProtectedPrefix) then
      if !Present(c.token) then Deny(401, "Unauthorized - No token provided")
      else if Verify(c.token.value, AdminKey(env), now).Invalid? then Deny(401, "Unauthorized - Invalid token")
      else Next
    else Next
  }

  /** The test is on the raw string: `/api/profiles` is gated too, `/api/Profile` is not. */
  lemma RawPrefixTest(env: Env, now: int)
    ensures Guard(env, now, "/api/profiles", Cookies(None, None)).Deny?
    ensures Guard(env, now, "/api/Profile", Cookies(None, None)) == Next
  {
    assert StartsWith("/api/profiles", ProtectedPrefix);
    assert !StartsWith("/api/Profile", ProtectedPrefix) by {
      assert "/api/Profile"[5] != ProtectedPrefix[5];
    }
  }

  /** Any valid token passes, whatever its claims say. */
  lemma ClaimsNotInspected(env: Env, now: int, path: string, c: Cookies, claims: Claims)
    requires Present(c.token) && c.token.value.Signed?
    ensures Guard(env, now, path, c) == Guard(env, now, path, c.(token := Some(c.token.value.(claims := claims))))
  {
  }
}
