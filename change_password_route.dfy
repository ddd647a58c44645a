/** PUT /api/auth/change-password (src/app/api/auth/change-password/route.ts). */
module ChangePasswordRoute {
  import opened Wrappers
  import opened Text
  import opened Bcrypt
  import opened Jwt
  import opened Environment
  import opened Http
  import opened UserModel
  import Sequences

  datatype PasswordChange = PasswordChange(currentPassword: Option<string>, newPassword: Option<string>)

  datatype Changed = Changed(message: string)

  const SaltRounds: nat := 12

  /** The refusal messages, one per rung of the ladder. */
  const NotAuthenticated := "Not authenticated"
  const UpdateFailed := "Failed to update password"
  const PasswordsRequired := "Current password and new password are required"
  const TooShort := "New password must be at least 6 characters long"
  const UserNotFound := "User not found"
  const WrongCurrentPassword := "Current password is incorrect"

  /** What the checks decide: answer with an error, or overwrite the password of the user at `index`. */
  datatype Decision = Refuse(response: Response<Changed>) | Overwrite(index: nat, digest: Digest)

  /** The token cookie is present and verifies under JWT_SECRET. */
  predicate Authenticated(env: Env, now: int, c: Cookies) {
    Present(c.token) && Verify(c.token.value, ProfileKey(env), now).Valid?
  }

  /** Both passwords are sent and the new one is long enough. */
  predicate BodyAccepted(req: PasswordChange) {
    Truthy(req.currentPassword) && Truthy(req.newPassword) && |req.newPassword.value| >= PasswordMinLength
  }

  /**
   * The ladder at time `now`. The token is verified with JWT_SECRET alone, and a failed
   * verification throws into the handler's catch, so it answers 500, not 401. The body
   * checks come before the database is touched; the password is overwritten exactly when
   * the token's user exists and the current password matches its digest.
   */
  function Decide(env: Env, now: int, c: Cookies, req: PasswordChange, dbUp: bool, users: seq<User>): (d: Decision)
    ensures !Present(c.token) ==> d == Refuse(Fail(401, NotAuthenticated))
    ensures Present(c.token) && Verify(c.token.value, ProfileKey(env), now).Invalid? ==>
              d == Refuse(Fail(500, UpdateFailed))
    ensures Authenticated(env, now, c) && !(Truthy(req.currentPassword) && Truthy(req.newPassword)) ==>
              d == Refuse(Fail(400, PasswordsRequired))
    ensures Authenticated(env, now, c) && Truthy(req.currentPassword) && Truthy(req.newPassword)
            && |req.newPassword.value| < PasswordMinLength ==>
              d == Refuse(Fail(400, TooShort))
    ensures Authenticated(env, now, c) && BodyAccepted(req) && !dbUp ==>
              d == Refuse(Fail(500, UpdateFailed))
    ensures Authenticated(env, now, c) && BodyAccepted(req) && dbUp ==>
              var found := FindById(users, Verify(c.token.value, ProfileKey(env), now).payload.userId);
              && (found.None? ==> d == Refuse(Fail(404, UserNotFound)))
              && (found.Some? && !Compare(req.currentPassword.value, found.value.password) ==>
                    d == Refuse(Fail(400, WrongCurrentPassword)))
              && (found.Some? && Compare(req.currentPassword.value, found.value.password) ==>
                    d.Overwrite? && d.index < |users| && users[d.index] == found.value)
    ensures d.Overwrite? ==>
              && Authenticated(env, now, c) && BodyAccepted(req) && dbUp
              && d.index < |users|
              && users[d.index].id == Verify(c.token.value, ProfileKey(env), now).payload.userId
              && Compare(req.currentPassword.value, users[d.index].password)
              && d.digest == Hash(req.newPassword.value, SaltRounds)
  {
    if !Present(c.token) then Refuse(Fail(401, NotAuthenticated))
    else
      match Verify(c.token.value, ProfileKey(env), now)
      case Invalid => Refuse(Fail(500, UpdateFailed))
      case Valid(claims) =>
        if !(Truthy(req.currentPassword) && Truthy(req.newPassword)) then
          Refuse(Fail(400, PasswordsRequired))
        else if |req.newPassword.value| < PasswordMinLength then
          Refuse(Fail(400, TooShort))
        else if !dbUp then Refuse(Fail(500, UpdateFailed))
        else
          var k := Sequences.FirstMatch(users, HasId(claims.userId));
          Sequences.FindFirstAtFirstMatch(users, HasId(claims.userId));
          if k == |users| then Refuse(Fail(404, UserNotFound))
          else if !Compare(req.currentPassword.value, users[k].password) then
            Refuse(Fail(400, WrongCurrentPassword))
          else Overwrite(k, Hash(req.newPassword.value, SaltRounds))
  }

  /** With JWT_SECRET unset, no token at all can change a password. */
  lemma UnsetSecretRefusesEveryToken(env: Env, now: int, c: Cookies, req: PasswordChange, dbUp: bool, users: seq<User>)
    requires !Truthy(env.jwtSecret) && Present(c.token)
    ensures Decide(env, now, c, req, dbUp, users) == Refuse(Fail(500, UpdateFailed))
  {
  }

  /** Missing or short passwords are refused with 400 whatever the database's state. */
  lemma BodyCheckedBeforeDatabase(
    env: Env, now: int, c: Cookies, req: PasswordChange, up1: bool, up2: bool, u1: seq<User>, u2: seq<User>)
    requires Present(c.token) && Verify(c.token.value, ProfileKey(env), now).Valid?
    requires !(Truthy(req.currentPassword) && Truthy(req.newPassword)) || |req.newPassword.value| < PasswordMinLength
    ensures Decide(env, now, c, req, up1, u1) == Decide(env, now, c, req, up2, u2)
    ensures Decide(env, now, c, req, up1, u1).response.status == 400
  {
  }

  /**
   * The handler: run the ladder, then `findByIdAndUpdate` the password (and, through the
   * schema's timestamps, `updatedAt`). Nothing is written on any refusal.
   */
  method ChangePassword(store: UserStore, env: Env, now: int, c: Cookies, req: PasswordChange, dbUp: bool)
    returns (r: Response<Changed>)
    requires store.Valid()
    modifies store
    ensures store.Valid() && store.nextId == old(store.nextId)
    ensures var d := Decide(env, now, c, req, dbUp, old(store.users));
            && (d.Refuse? ==> r == d.response && store.users == old(store.users))
            && (d.Overwrite? ==>
                  && r == Ok(200, Changed("Password updated successfully"))
                  && store.users == old(store.users)[d.index := old(store.users)[d.index].(password := d.digest, updatedAt := now)])
  {
    var d := Decide(env, now, c, req, dbUp, store.users);
    if d.Refuse? {
      return d.response;
    }
    var u := store.users[d.index].(password := d.digest, updatedAt := now);
    ReplaceKeepsConsistent(store.users, store.nextId, d.index, u);
    store.users := store.users[d.index := u];
    r := Ok(200, Changed("Password updated successfully"));
  }
}
