/** PUT /api/auth/update-profile (src/app/api/auth/update-profile/route.ts). */
module UpdateProfileRoute {
  import opened Wrappers
  import opened Text
  import opened Jwt
  import opened Environment
  import opened Http
  import opened UserModel
  import Sequences

  /** The three fields the update may carry; an absent field is left out of the update. */
  datatype ProfileChange = ProfileChange(name: Option<string>, phoneNumber: Option<string>, address: Option<string>)

  datatype ProfileUpdated = ProfileUpdated(message: string, user: Profile)

  /**
   * The update applied to a user: the supplied fields pass through their trim setters,
   * `updatedAt` is refreshed, and nothing else changes.
   */
  function Patch(u: User, req: ProfileChange, now: int): (v: User)
    ensures v.id == u.id && v.email == u.email && v.password == u.password
    ensures v.userType == u.userType && v.isVerified == u.isVerified && v.createdAt == u.createdAt
    ensures v.name == if req.name.Some? then Trim(req.name.value) else u.name
    ensures v.phoneNumber == if req.phoneNumber.Some? then TrimOpt(req.phoneNumber) else u.phoneNumber
    ensures v.address == if req.address.Some? then TrimOpt(req.address) else u.address
  {
    u.(name := if req.name.Some? then Trim(req.name.value) else u.name,
       phoneNumber := if req.phoneNumber.Some? then TrimOpt(req.phoneNumber) else u.phoneNumber,
       address := if req.address.Some? then TrimOpt(req.address) else u.address,
       updatedAt := now)
  }

  /** `runValidators`: a supplied name must not be blank; the other two fields have no validators. */
  predicate PatchValid(req: ProfileChange) {
    req.name.Some? ==> Trim(req.name.value) != ""
  }

  /** A valid patch of a valid user is a valid user with the same id and email. */
  lemma PatchKeepsConforming(u: User, req: ProfileChange, now: int)
    requires Conforms(u) && PatchValid(req)
    ensures Conforms(Patch(u, req, now))
  {
  }

  /**
   * The handler at time `now`: the token (verified with JWT_SECRET alone; failure lands in
   * the catch as 500), the connection, the update validators, then the lookup.
   */
  method UpdateProfile(store: UserStore, env: Env, now: int, c: Cookies, req: ProfileChange, dbUp: bool)
    returns (r: Response<ProfileUpdated>)
    requires store.Valid()
    modifies store
    ensures store.Valid() && store.nextId == old(store.nextId)
    ensures r.status in {200, 401, 404, 500}
    ensures !Present(c.token) ==> r == Fail(401, "Not authenticated")
    ensures Present(c.token) && Verify(c.token.value, ProfileKey(env), now).Invalid? ==>
              r == Fail(500, "Failed to update profile")
    ensures Present(c.token) && Verify(c.token.value, ProfileKey(env), now).Valid? && !(dbUp && PatchValid(req)) ==>
              r == Fail(500, "Failed to update profile")
    ensures Present(c.token) && Verify(c.token.value, ProfileKey(env), now).Valid? && dbUp && PatchValid(req)
            && FindById(old(store.users), Verify(c.token.value, ProfileKey(env), now).payload.userId).None? ==>
              r == Fail(404, "User not found")
    ensures r.status != 200 ==> store.users == old(store.users)
    ensures r.status == 200 <==>
              && Present(c.token) && Verify(c.token.value, ProfileKey(env), now).Valid? && dbUp && PatchValid(req)
              && FindById(old(store.users), Verify(c.token.value, ProfileKey(env), now).payload.userId).Some?
    ensures r.status == 200 ==>
              var k := Sequences.FirstMatch(old(store.users), HasId(Verify(c.token.value, ProfileKey(env), now).payload.userId));
              && k < |old(store.users)|
              && store.users == old(store.users)[k := Patch(old(store.users)[k], req, now)]
              && r == Ok(200, ProfileUpdated("Profile updated successfully", ProfileOf(store.users[k])))
  {
    if !Present(c.token) {
      return Fail(401, "Not authenticated");
    }
    var verdict := Verify(c.token.value, ProfileKey(env), now);
    if verdict.Invalid? {
      return Fail(500, "Failed to update profile");
    }
    if !dbUp || !PatchValid(req) {
      return Fail(500, "Failed to update profile");
    }
    var k := Sequences.FirstMatch(store.users, HasId(verdict.payload.userId));
    if k == |store.users| {
      return Fail(404, "User not found");
    }
    var u := Patch(store.users[k], req, now);
    PatchKeepsConforming(store.users[k], req, now);
    ReplaceKeepsConsistent(store.users, store.nextId, k, u);
    store.users := store.users[k := u];
    r := Ok(200, ProfileUpdated("Profile updated successfully", ProfileOf(u)));
  }
}
