/** GET /api/auth/me (src/app/api/auth/me/route.ts). */
module MeRoute {
  import opened Wrappers
  import opened Jwt
  import opened Environment
  import opened Http
  import opened UserModel

  datatype Me = Me(user: Profile)

  /** How the lookup raced the five-second timer. */
  datatype Lookup = Finished | TimedOut

  /**
   * The handler at time `now`: the token is checked before any database work, then the
   * connection, then the id lookup (which may lose the race against the timer).
   */
  function GetMe(env: Env, now: int, c: Cookies, dbUp: bool, lookup: Lookup, users: seq<User>): (r: Response<Me>)
    ensures r.status in {200, 401, 404, 500, 503}
    ensures !Present(c.token) ==> r == Fail(401, "No token provided")
    ensures Present(c.token) && Verify(c.token.value, SessionKey(env), now).Invalid? ==> r == Fail(401, "Invalid token")
    ensures r.status == 401 <==> !Present(c.token) || Verify(c.token.value, SessionKey(env), now).Invalid?
    ensures Present(c.token) && Verify(c.token.value, SessionKey(env), now).Valid? ==>
              var id := Verify(c.token.value, SessionKey(env), now).payload.userId;
              && (!dbUp ==> r == Fail(500, "Internal server error"))
              && (dbUp && lookup == TimedOut ==> r == Fail(503, "Service temporarily unavailable"))
              && (dbUp && lookup == Finished && FindById(users, id).None? ==> r == Fail(404, "User not found"))
              && (dbUp && lookup == Finished && FindById(users, id).Some? ==>
                    r == Ok(200, Me(ProfileOf(FindById(users, id).value))))
    ensures r.status == 200 ==>
              var id := Verify(c.token.value, SessionKey(env), now).payload.userId;
              dbUp && lookup == Finished && FindById(users, id).Some?
              && r == Ok(200, Me(ProfileOf(FindById(users, id).value)))
  {
    if !Present(c.token) then Fail(401, "No token provided")
    else
      match Verify(c.token.value, SessionKey(env), now)
      case Invalid => Fail(401, "Invalid token")
      case Valid(claims) =>
        if !dbUp then Fail(500, "Internal server error")
        else if lookup == TimedOut then Fail(503, "Service temporarily unavailable")
        else
          match FindById(users, claims.userId)
          case None => Fail(404, "User not found")
          case Some(u) => Ok(200, Me(ProfileOf(u)))
  }

  /** A request without a usable session is answered the same whatever the database's state. */
  lemma NoDatabaseBeforeToken(
    env: Env, now: int, c: Cookies, up1: bool, up2: bool, l1: Lookup, l2: Lookup, u1: seq<User>, u2: seq<User>)
    requires !Present(c.token) || Verify(c.token.value, SessionKey(env), now).Invalid?
    ensures GetMe(env, now, c, up1, l1, u1) == GetMe(env, now, c, up2, l2, u2)
  {
  }
}
