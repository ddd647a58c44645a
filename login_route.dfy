/** POST /api/auth/login (src/app/api/auth/login/route.ts): the citizen login. */
module LoginRoute {
  import opened Wrappers
  import opened Text
  import opened Bcrypt
  import opened Jwt
  import opened Environment
  import opened Http
  import opened UserModel

  datatype Credentials = Credentials(email: Option<string>, password: Option<string>)

  datatype SignedIn = SignedIn(message: string, user: Profile)

  /** Seven days, in seconds: the token's `expiresIn` and the cookie's `maxAge`. */
  const SessionLifetime: nat := 7 * 24 * 60 * 60

  const InvalidCredentials := "Invalid credentials"
  const Required := "Email and password are required"
  const AdminPortalOnly := "Admin users must use the dedicated admin login portal"
  const AccessDenied := "Access denied"
  const ServerError := "Internal server error"

  /** A citizen token carries exactly the user id, email and type. */
  function CitizenClaims(u: User): Claims {
    Claims(u.id, u.email, u.userType, None, None)
  }

  /** The `token` cookie: HTTP-only, same-site strict, seven days, no explicit path. */
  function SessionCookie(t: Token): SetCookie {
    SetCookie("token", t, true, "strict", SessionLifetime, None)
  }

  /** `r` is the successful login of citizen `u` with password `password`. */
  predicate Granted(env: Env, now: int, u: User, password: string, r: Response<SignedIn>) {
    && u.userType == CitizenType
    && Compare(password, u.password)
    && r.body == Success(SignedIn("Login successful", ProfileOf(u)))
    && r.cookies == [SessionCookie(Sign(CitizenClaims(u), SessionKey(env), now, SessionLifetime))]
  }

  /**
   * The handler at time `now`: connect, required fields, lookup by email, refuse admins
   * and any non-citizen before the password is compared, then sign the session.
   */
  function Login(env: Env, now: int, dbUp: bool, users: seq<User>, req: Credentials): (r: Response<SignedIn>)
    ensures r.status in {200, 400, 401, 403, 500}
    ensures !dbUp ==> r == Fail(500, ServerError)
    ensures dbUp && !(Truthy(req.email) && Truthy(req.password)) ==> r == Fail(400, Required)
    ensures dbUp && Truthy(req.email) && Truthy(req.password) ==>
              var found := FindByEmail(users, req.email.value);
              && (found.None? ==> r == Fail(401, InvalidCredentials))
              && (found.Some? && found.value.userType == AdminType ==>
                    r == Fail(403, AdminPortalOnly))
              && (found.Some? && found.value.userType != AdminType && found.value.userType != CitizenType ==>
                    r == Fail(403, AccessDenied))
              && (found.Some? && found.value.userType == CitizenType && !Compare(req.password.value, found.value.password) ==>
                    r == Fail(401, InvalidCredentials))
              && (found.Some? && found.value.userType == CitizenType && Compare(req.password.value, found.value.password) ==>
                    r.status == 200 && Granted(env, now, found.value, req.password.value, r))
    ensures r.status == 200 ==>
              && Truthy(req.email) && Truthy(req.password)
              && exists u :: FindByEmail(users, req.email.value) == Some(u) && Granted(env, now, u, req.password.value, r)
    ensures r.status != 200 ==> r.cookies == [] && r.body.Failure?
  {
    if !dbUp then Fail(500, ServerError)
    else if !(Truthy(req.email) && Truthy(req.password)) then Fail(400, Required)
    else
      var found := FindByEmail(users, req.email.value);
      if found.None? then Fail(401, InvalidCredentials)
      else
        var u := found.value;
        if u.userType == AdminType then Fail(403, AdminPortalOnly)
        else if u.userType != CitizenType then Fail(403, AccessDenied)
        else if !Compare(req.password.value, u.password) then Fail(401, InvalidCredentials)
        else
          var token := Sign(CitizenClaims(u), SessionKey(env), now, SessionLifetime);
          Response(200, Success(SignedIn("Login successful", ProfileOf(u))), [SessionCookie(token)])
  }

  /**
   * An unknown email and a wrong password for a known citizen get the same answer,
   * so the response does not reveal which of the two was wrong.
   */
  lemma UnknownEmailLooksLikeWrongPassword(
    env: Env, now: int, users: seq<User>, unknown: string, known: string, wrong: string)
    requires unknown != "" && known != "" && wrong != ""
    requires FindByEmail(users, unknown).None?
    requires FindByEmail(users, known).Some? && FindByEmail(users, known).value.userType == CitizenType
    requires !Compare(wrong, FindByEmail(users, known).value.password)
    ensures Login(env, now, true, users, Credentials(Some(unknown), Some(wrong)))
         == Login(env, now, true, users, Credentials(Some(known), Some(wrong)))
         == Fail(401, InvalidCredentials)
  {
  }

  /** An admin account is refused with 403 whatever password is given, right or wrong. */
  lemma AdminRefusedWhateverPassword(env: Env, now: int, users: seq<User>, email: string, p1: string, p2: string)
    requires email != "" && p1 != "" && p2 != ""
    requires FindByEmail(users, email).Some? && FindByEmail(users, email).value.userType == AdminType
    ensures Login(env, now, true, users, Credentials(Some(email), Some(p1)))
         == Login(env, now, true, users, Credentials(Some(email), Some(p2)))
    ensures Login(env, now, true, users, Credentials(Some(email), Some(p1))).status == 403
  {
  }

  /**
   * `isVerified` is never consulted: flipping it on the matching account changes
   * the status of no login attempt.
   */
  lemma VerificationIgnored(env: Env, now: int, users: seq<User>, k: nat, req: Credentials)
    requires k < |users|
    ensures Login(env, now, true, users[k := users[k].(isVerified := !users[k].isVerified)], req).status
         == Login(env, now, true, users, req).status
  {
    var flipped := users[k := users[k].(isVerified := !users[k].isVerified)];
    if Truthy(req.email) && Truthy(req.password) {
      FindByEmailIgnoresVerified(users, k, EmailKey(req.email.value));
    }
  }

  lemma {:induction false} FindByEmailIgnoresVerified(users: seq<User>, k: nat, key: string)
    requires k < |users|
    ensures var r := Sequences.FindFirst(users[k := users[k].(isVerified := !users[k].isVerified)], HasEmail(key));
            var s := Sequences.FindFirst(users, HasEmail(key));
            r.Some? == s.Some? && (r.Some? ==> r.value == s.value.(isVerified := r.value.isVerified))
  {
    if k > 0 {
      var flipped := users[k := users[k].(isVerified := !users[k].isVerified)];
      assert flipped[1..] == users[1..][k - 1 := users[k].(isVerified := !users[k].isVerified)];
      FindByEmailIgnoresVerified(users[1..], k - 1, key);
    }
  }

  /** The issued token verifies under the session key for seven days and carries the citizen claims. */
  lemma TokenVerifiesForSevenDays(env: Env, now: int, users: seq<User>, req: Credentials, later: int)
    requires Login(env, now, true, users, req).status == 200
    requires now <= later < now + SessionLifetime
    ensures var t := Login(env, now, true, users, req).cookies[0].value;
            Verify(t, SessionKey(env), later) == Valid(CitizenClaims(FindByEmail(users, req.email.value).value))
  {
  }
}
