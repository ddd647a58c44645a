/** Properties that span several handlers: what one request leaves behind, the next one sees. */
module Scenarios {
  import opened Wrappers
  import opened Text
  import opened Bcrypt
  import opened Jwt
  import opened Environment
  import opened Http
  import opened UserModel
  import RegisterRoute
  import LoginRoute
  import AdminLoginRoute
  import AdminAuth
  import Middleware
  import SeedAdminRoute
  import ChangePasswordRoute
  import TicketModel
  import TicketsRoute

  /** A citizen who has just registered can log in with the same email and password. */
  method RegisterThenLogin(store: UserStore, env: Env, req: RegisterRoute.RegisterRequest, now: int, later: int)
    returns (registered: Response<RegisterRoute.Registered>, login: Response<LoginRoute.SignedIn>)
    requires store.Valid()
    requires req.userType == Some(CitizenType)
    modifies store
    ensures store.Valid()
    ensures registered.status == 201 ==> login.status == 200
  {
    registered := RegisterRoute.Register(store, req, now, true);
    if registered.status == 201 {
      var u := RegisterRoute.Candidate(req, old(store.nextId), now);
      assert store.users[|store.users| - 1] == u;
      StoredCitizenLogsIn(env, later, store.users, store.nextId, u, req.email.value, req.password.value);
    }
    login := LoginRoute.Login(env, later, true, store.users, LoginRoute.Credentials(req.email, req.password));
  }

  /** A stored citizen whose digest was made from `password` logs in with any spelling of its email. */
  lemma StoredCitizenLogsIn(env: Env, later: int, users: seq<User>, nextId: nat, u: User, email: string, password: string)
    requires Consistent(users, nextId) && u in users
    requires email != "" && password != "" && u.email == EmailKey(email)
    requires u.userType == CitizenType && u.password == Hash(password, RegisterRoute.SaltRounds)
    ensures LoginRoute.Login(env, later, true, users, LoginRoute.Credentials(Some(email), Some(password))).status == 200
  {
    FindByEmailUnique(users, nextId, email, u);
    CompareHash(password, password, RegisterRoute.SaltRounds);
  }

  /** The cookies a browser sends back after an admin login. */
  function CookiesAfterAdminLogin(r: Response<AdminLoginRoute.AdminSignedIn>): Cookies
    requires |r.cookies| == 2
  {
    Cookies(Some(r.cookies[1].value), Some(r.cookies[0].value))
  }

  /** The admin login's cookies pass `adminMiddleware` for the 24 hours the token lives, and not after. */
  lemma AdminTokenAcceptedForADay(
    env: Env, now: int, users: seq<User>, req: AdminLoginRoute.Credentials, later: int)
    requires AdminLoginRoute.AdminLogin(env, now, true, users, req).status == 200
    ensures var r := AdminLoginRoute.AdminLogin(env, now, true, users, req);
            |r.cookies| == 2
            && (AdminAuth.AdminMiddleware(env, later, CookiesAfterAdminLogin(r)) == Next
                <==> later < now + AdminLoginRoute.AdminLifetime)
  {
  }

  /** Once the seeding has replaced the legacy admin, the seeded credentials open the admin portal. */
  lemma SeededCredentialsAccepted(env: Env, later: int, users: seq<User>, nextId: nat, now: int)
    requires Consistent(users, nextId)
    requires FindByEmail(users, AdminLoginRoute.AuthorizedAdminEmail).None?
    ensures AdminLoginRoute.AdminLogin(env, later, true, SeedAdminRoute.Reseeded(users, nextId, now),
              AdminLoginRoute.Credentials(Some(AdminLoginRoute.AuthorizedAdminEmail), Some(SeedAdminRoute.SeedPassword))).status == 200
  {
    var after := SeedAdminRoute.Reseeded(users, nextId, now);
    SeedAdminRoute.SeedingKeepsConsistent(users, nextId, now);
    SeededLastAccepted(env, later, after, nextId + 1, nextId, now);
  }

  /** A consistent collection that ends with the seeded admin admits the seeded credentials. */
  lemma SeededLastAccepted(env: Env, later: int, users: seq<User>, nextId: nat, id: nat, now: int)
    requires Consistent(users, nextId)
    requires users != [] && users[|users| - 1] == SeedAdminRoute.SeededAdmin(id, now)
    ensures AdminLoginRoute.AdminLogin(env, later, true, users,
              AdminLoginRoute.Credentials(Some(AdminLoginRoute.AuthorizedAdminEmail), Some(SeedAdminRoute.SeedPassword))).status == 200
  {
    var j := |users| - 1;
    var found := AdminLoginRoute.FindAuthorizedAdmin(users);
    assert found.Some? by {
      assert AdminLoginRoute.IsAuthorizedAdmin()(users[j]);
    }
    var i :| 0 <= i < |users| && users[i] == found.value;
    assert i == j;
    CompareHash(SeedAdminRoute.SeedPassword, SeedAdminRoute.SeedPassword, SeedAdminRoute.SaltRounds);
  }

  /**
   * After `POST /api/seed-admin` creates the admin, the admin portal accepts the seeded
   * credentials.
   */
  method SeedThenAdminLogin(store: UserStore, env: Env, now: int, later: int)
    returns (seeded: Response<SeedAdminRoute.Seeded>, login: Response<AdminLoginRoute.AdminSignedIn>)
    requires store.Valid()
    modifies store
    ensures store.Valid()
    ensures seeded.status == 201 ==> login.status == 200
  {
    if FindByEmail(store.users, AdminLoginRoute.AuthorizedAdminEmail).None? {
      SeededCredentialsAccepted(env, later, store.users, store.nextId, now);
    }
    seeded := SeedAdminRoute.SeedAdmin(store, now, true);
    var req := AdminLoginRoute.Credentials(Some(AdminLoginRoute.AuthorizedAdminEmail), Some(SeedAdminRoute.SeedPassword));
    login := AdminLoginRoute.AdminLogin(env, later, true, store.users, req);
  }

  /** The account the command-line seeder creates can never use the admin portal. */
  lemma LegacyAdminRefused(env: Env, now: int, users: seq<User>, password: string)
    requires password != ""
    ensures AdminLoginRoute.AdminLogin(env, now, true, users,
              AdminLoginRoute.Credentials(Some(SeedAdminRoute.LegacyAdminEmail), Some(password))).status == 403
  {
    SeedAdminRoute.LegacyEmailNotAuthorized();
  }

  /**
   * A citizen's session cookie passes the `/api/profile` middleware, within its seven days,
   * exactly when the login key and the middleware key coincide: when JWT_SECRET is set to
   * anything but the admin key, every citizen is turned away.
   */
  lemma LoginTokenAtMiddleware(
    env: Env, now: int, users: seq<User>, req: LoginRoute.Credentials, later: int, path: string)
    requires LoginRoute.Login(env, now, true, users, req).status == 200
    requires later < now + LoginRoute.SessionLifetime && StartsWith(path, Middleware.ProtectedPrefix)
    ensures var r := LoginRoute.Login(env, now, true, users, req);
            |r.cookies| == 1
            && (Middleware.Guard(env, later, path, Cookies(Some(r.cookies[0].value), None)) == Next
                <==> SessionKey(env) == AdminKey(env))
  {
    var r := LoginRoute.Login(env, now, true, users, req);
    var u :| FindByEmail(users, req.email.value) == Some(u) && LoginRoute.Granted(env, now, u, req.password.value, r);
  }

  /**
   * Logging in as a stored user with the password its digest was made from succeeds exactly
   * when the account with that email is a citizen's.
   */
  lemma LoginWithOwnPassword(env: Env, later: int, users: seq<User>, nextId: nat, k: nat, password: string)
    requires Consistent(users, nextId) && k < |users| && password != ""
    requires users[k].password == Hash(password, ChangePasswordRoute.SaltRounds)
    ensures users[k].email != ""
    ensures LoginRoute.Login(env, later, true, users, LoginRoute.Credentials(Some(users[k].email), Some(password))).status == 200
            <==> exists u :: u in users && u.email == users[k].email && u.userType == CitizenType
  {
    var u := users[k];
    assert Conforms(u);
    FindByEmailUnique(users, nextId, u.email, u);
    CompareHash(password, password, ChangePasswordRoute.SaltRounds);
    forall v | v in users && v.email == u.email ensures v == u {
      FindByEmailUnique(users, nextId, u.email, v);
    }
  }

  /** After a successful password change, the citizen logs in with the new password. */
  method ChangeThenLogin(
    store: UserStore, env: Env, now: int, c: Cookies, req: ChangePasswordRoute.PasswordChange, later: int)
    returns (changed: Response<ChangePasswordRoute.Changed>, login: Response<LoginRoute.SignedIn>, email: string)
    requires store.Valid()
    modifies store
    ensures store.Valid()
    ensures ChangePasswordRoute.Authenticated(env, now, c) && ChangePasswordRoute.BodyAccepted(req) ==>
              var found := FindById(old(store.users), Verify(c.token.value, ProfileKey(env), now).payload.userId);
              found.Some? && Compare(req.currentPassword.value, found.value.password) ==> changed.status == 200
    ensures changed.status == 200 ==>
              email != "" && login == LoginRoute.Login(env, later, true, store.users,
                                                        LoginRoute.Credentials(Some(email), req.newPassword))
    ensures changed.status == 200 ==>
              (login.status == 200 <==> exists u :: u in store.users && u.email == email && u.userType == CitizenType)
  {
    var d := ChangePasswordRoute.Decide(env, now, c, req, true, store.users);
    assert ChangePasswordRoute.Authenticated(env, now, c) && ChangePasswordRoute.BodyAccepted(req) ==>
             var found := FindById(store.users, Verify(c.token.value, ProfileKey(env), now).payload.userId);
             found.Some? && Compare(req.currentPassword.value, found.value.password) ==> d.Overwrite?;
    changed := ChangePasswordRoute.ChangePassword(store, env, now, c, req, true);
    email := "";
    if changed.status == 200 {
      email := store.users[d.index].email;
      LoginWithOwnPassword(env, later, store.users, store.nextId, d.index, req.newPassword.value);
    }
    login := LoginRoute.Login(env, later, true, store.users, LoginRoute.Credentials(Some(email), req.newPassword));
  }

  /** A ticket just created is open and is listed to everyone, and to its author's email. */
  method CreateThenList(store: TicketModel.TicketStore, body: TicketsRoute.TicketBody, now: int)
    returns (created: Response<TicketsRoute.Submitted>)
    requires store.Valid()
    modifies store
    ensures store.Valid()
    ensures created.status == 201 ==> created.body.Success?
    ensures created.status == 201 && created.body.Success? ==>
              var t := created.body.data.ticket;
              && t.status == TicketModel.DefaultStatus
              && t in TicketsRoute.ListTickets(true, TicketsRoute.Query(None, None), store.tickets).body.data.tickets
              && (Truthy(body.userEmail) ==>
                    t in TicketsRoute.ListTickets(true, TicketsRoute.Query(body.userEmail, None), store.tickets).body.data.tickets)
  {
    created := TicketsRoute.Create(store, body, now, true);
    if created.status == 201 {
      var t := created.body.data.ticket;
      assert store.tickets[|store.tickets| - 1] == t;
      TicketsRoute.ListedIffOwned(TicketsRoute.Query(None, None), store.tickets, t);
      TicketsRoute.ListedIffOwned(TicketsRoute.Query(body.userEmail, None), store.tickets, t);
    }
  }
}
