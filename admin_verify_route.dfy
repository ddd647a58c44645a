/** GET /api/auth/admin-verify (src/app/api/auth/admin-verify/route.ts). */
module AdminVerifyRoute {
  import opened Wrappers
  import opened Jwt
  import opened Environment
  import opened Http
  import opened AdminAuth

  const OfficialName := "Awaaz Official Administrator"

  datatype AdminInfo = AdminInfo(id: nat, email: string, name: string, userType: string, isVerified: bool, loginTime: int)

  datatype AdminSession = AdminSession(admin: AdminInfo, adminAccess: bool)

  /**
   * The session echo at time `now`: 401 without an admin session; otherwise the id, email
   * and type come from the token, while the name and the verified flag are fixed.
   */
  function AdminVerify(env: Env, now: int, c: Cookies): (r: Response<AdminSession>)
    ensures r.status == 401 <==> VerifyAdminToken(env, now, c).None?
    ensures r.status == 401 ==> r == Fail(401, "Invalid admin session")
    ensures r.status != 401 ==>
              var p := VerifyAdminToken(env, now, c).value;
              r == Ok(200, AdminSession(AdminInfo(p.userId, p.email, OfficialName, p.userType, true, now), true))
  {
    match VerifyAdminToken(env, now, c)
    case None => Fail(401, "Invalid admin session")
    case Some(p) => Ok(200, AdminSession(AdminInfo(p.userId, p.email, OfficialName, p.userType, true, now), true))
  }

  /** A successful echo always names the authorized admin email with the admin type. */
  lemma EchoIsAuthorizedAdmin(env: Env, now: int, c: Cookies)
    requires AdminVerify(env, now, c).status == 200
    ensures AdminVerify(env, now, c).body.data.admin.email == AdminLoginRoute.AuthorizedAdminEmail
    ensures AdminVerify(env, now, c).body.data.admin.userType == "admin"
  {
  }
}
