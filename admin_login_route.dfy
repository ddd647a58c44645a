/** POST /api/auth/admin-login (src/app/api/auth/admin-login/route.ts). */
module AdminLoginRoute {
  import opened Wrappers
  import opened Text
  import opened Bcrypt
  import opened Jwt
  import opened Environment
  import opened Http
  import opened UserModel
  import Sequences

  /** The one email allowed into the admin portal. */
  const AuthorizedAdminEmail := "admin@awaaz.gov.in"

  /** Twenty-four hours, in seconds: the token's `expiresIn` and both cookies' `maxAge`. */
  const AdminLifetime: nat := 24 * 60 * 60

  /** The refusal messages, one per rung of the ladder. */
  const Required := "Email and password are required"
  const NotAuthorized := "Access denied. Only authorized officials can access the admin portal."
  const AccountNotFound := "Admin account not found. Contact system administrator."
  const InvalidAdminCredentials := "Invalid admin credentials"
  const NotVerified := "Admin account is not verified. Contact system administrator."
  const ServerError := "Internal server error"

  datatype Credentials = Credentials(email: Option<string>, password: Option<string>)

  /** The admin echoed back, without password; `loginTime` is the request time. */
  datatype AdminView = AdminView(id: nat, email: string, name: string, userType: string, isVerified: bool, loginTime: int)

  datatype AdminSignedIn = AdminSignedIn(message: string, user: AdminView, adminAccess: bool)

  /** The admin token adds `isAdmin: true` and `adminLevel: "super"` to the citizen claims. */
  function AdminClaims(u: User): Claims {
    Claims(u.id, u.email, u.userType, Some(true), Some("super"))
  }

  /** `User.findOne({ email: AUTHORIZED_ADMIN_EMAIL, userType: "admin" })`. */
  function IsAuthorizedAdmin(): User -> bool {
    (u: User) => u.email == AuthorizedAdminEmail && u.userType == AdminType
  }

  function FindAuthorizedAdmin(users: seq<User>): (r: Option<User>)
    ensures r.Some? ==> r.value in users && r.value.email == AuthorizedAdminEmail && r.value.userType == AdminType
    ensures r.None? ==> forall i :: 0 <= i < |users| ==>
              !(users[i].email == AuthorizedAdminEmail && users[i].userType == AdminType)
  {
    Sequences.FindFirst(users, IsAuthorizedAdmin())
  }

  /** The same token twice: `admin_token` with path "/" and `token` without, both for 24 hours. */
  function AdminCookies(t: Token): seq<SetCookie> {
    [SetCookie("admin_token", t, true, "strict", AdminLifetime, Some("/")),
     SetCookie("token", t, true, "strict", AdminLifetime, None)]
  }

  /** `r` is the successful admin login of `u`. */
  predicate Granted(env: Env, now: int, u: User, password: string, r: Response<AdminSignedIn>) {
    && u.email == AuthorizedAdminEmail && u.userType == AdminType && u.isVerified
    && Compare(password, u.password)
    && r.body == Success(AdminSignedIn("Admin login successful",
                                      AdminView(u.id, u.email, u.name, u.userType, u.isVerified, now), true))
    && r.cookies == AdminCookies(Sign(AdminClaims(u), AdminKey(env), now, AdminLifetime))
  }

  /**
   * The handler at time `now`: connect, required fields, the literal email check before
   * any lookup, the admin lookup, the password, and only then the verified flag.
   */
  function AdminLogin(env: Env, now: int, dbUp: bool, users: seq<User>, req: Credentials): (r: Response<AdminSignedIn>)
    ensures r.status in {200, 400, 401, 403, 500}
    ensures !dbUp ==> r == Fail(500, ServerError)
    ensures dbUp && !(Truthy(req.email) && Truthy(req.password)) ==> r == Fail(400, Required)
    ensures dbUp && Truthy(req.email) && Truthy(req.password) && req.email.value != AuthorizedAdminEmail ==>
              r == Fail(403, NotAuthorized)
    ensures dbUp && req.email == Some(AuthorizedAdminEmail) && Truthy(req.password) ==>
              var found := FindAuthorizedAdmin(users);
              && (found.None? ==> r == Fail(401, AccountNotFound))
              && (found.Some? && !Compare(req.password.value, found.value.password) ==>
                    r == Fail(401, InvalidAdminCredentials))
              && (found.Some? && Compare(req.password.value, found.value.password) && !found.value.isVerified ==>
                    r == Fail(403, NotVerified))
              && (found.Some? && Compare(req.password.value, found.value.password) && found.value.isVerified ==>
                    r.status == 200 && Granted(env, now, found.value, req.password.value, r))
    ensures r.status == 200 ==>
              && req.email == Some(AuthorizedAdminEmail) && Truthy(req.password)
              && FindAuthorizedAdmin(users).Some?
              && Granted(env, now, FindAuthorizedAdmin(users).value, req.password.value, r)
    ensures r.status != 200 ==> r.cookies == [] && r.body.Failure?
  {
    if !dbUp then Fail(500, ServerError)
    else if !(Truthy(req.email) && Truthy(req.password)) then Fail(400, Required)
    else if req.email.value != AuthorizedAdminEmail then
      Fail(403, NotAuthorized)
    else
      var found := FindAuthorizedAdmin(users);
      if found.None? then Fail(401, AccountNotFound)
      else Authenticate(env, now, found.value, req.password.value)
  }

  /**
   * The rungs after the admin is found: the password first, then the verified flag, and
   * only then the token is signed and both cookies are set.
   */
  function Authenticate(env: Env, now: int, u: User, password: string): (r: Response<AdminSignedIn>)
    requires u.email == AuthorizedAdminEmail && u.userType == AdminType
    ensures !Compare(password, u.password) ==> r == Fail(401, InvalidAdminCredentials)
    ensures Compare(password, u.password) && !u.isVerified ==>
              r == Fail(403, NotVerified)
    ensures r.status == 200 <==> Compare(password, u.password) && u.isVerified
    ensures r.status == 200 ==> Granted(env, now, u, password, r)
    ensures r.status != 200 ==> r.cookies == [] && r.body.Failure?
  {
    if !Compare(password, u.password) then Fail(401, InvalidAdminCredentials)
    else if !u.isVerified then Fail(403, NotVerified)
    else
      var token := Sign(AdminClaims(u), AdminKey(env), now, AdminLifetime);
      Response(200,
               Success(AdminSignedIn("Admin login successful",
                                     AdminView(u.id, u.email, u.name, u.userType, u.isVerified, now), true)),
               AdminCookies(token))
  }

  /** Any other email is refused before the collection is read: the answer is the same for every store. */
  lemma OtherEmailsNeverReachTheStore(
    env: Env, now: int, users: seq<User>, others: seq<User>, req: Credentials)
    requires !(req.email == Some(AuthorizedAdminEmail) && Truthy(req.password))
    ensures AdminLogin(env, now, true, users, req) == AdminLogin(env, now, true, others, req)
  {
  }

  /**
   * The verified flag is consulted only after the password: with a wrong password an
   * unverified admin gets the same 401 as a verified one.
   */
  lemma PasswordCheckedBeforeVerification(env: Env, now: int, users: seq<User>, req: Credentials)
    requires req.email == Some(AuthorizedAdminEmail) && Truthy(req.password)
    requires FindAuthorizedAdmin(users).Some?
    ensures var u := FindAuthorizedAdmin(users).value;
            AdminLogin(env, now, true, users, req).status ==
              if !Compare(req.password.value, u.password) then 401
              else if !u.isVerified then 403
              else 200
  {
  }
}
