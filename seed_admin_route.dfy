/** POST /api/seed-admin (src/app/api/seed-admin/route.ts): creates the authorized admin once. */
module SeedAdminRoute {
  import opened Wrappers
  import opened Text
  import opened Bcrypt
  import opened Http
  import opened UserModel
  import Sequences
  import AdminLoginRoute

  /** The address of the earlier admin account, which this handler deletes. */
  const LegacyAdminEmail := "admin@awaaz.gov"
  const SeedPassword := "12AwaazAdmin@#"
  const SaltRounds: nat := 12

  datatype Seeded =
    | AlreadyExists(message: string)
    | Created(message: string, email: string, password: string)

  /** The admin document this handler saves. */
  function SeededAdmin(id: nat, now: int): (u: User)
    ensures u.email == AdminLoginRoute.AuthorizedAdminEmail && u.userType == AdminType && u.isVerified
    ensures u.password == Hash(SeedPassword, SaltRounds) && u.id == id
    ensures u.name == "Awaaz Official Administrator" && u.phoneNumber.None? && u.address.None?
    ensures IsNormalEmail(u.email) && IsTrimmed(u.name)
    ensures Conforms(u)
  {
    var n := "Awaaz Official Administrator";
    LowerFixes(AdminLoginRoute.AuthorizedAdminEmail);
    assert IsNormalEmail(AdminLoginRoute.AuthorizedAdminEmail);
    assert IsTrimmed(n);
    TrimFixesTrimmed(n);
    Build(id, AdminLoginRoute.AuthorizedAdminEmail, Hash(SeedPassword, SaltRounds), n, AdminType, None, None, true, now)
  }

  /** The collection after a seeding: the first legacy admin deleted, the seeded admin appended. */
  function Reseeded(users: seq<User>, nextId: nat, now: int): seq<User> {
    Sequences.RemoveFirst(users, HasEmail(LegacyAdminEmail)) + [SeededAdmin(nextId, now)]
  }

  /** Replacing the legacy admin by the seeded one keeps the collection consistent and finds the new admin. */
  lemma SeedingKeepsConsistent(users: seq<User>, nextId: nat, now: int)
    requires Consistent(users, nextId)
    requires FindByEmail(users, AdminLoginRoute.AuthorizedAdminEmail).None?
    ensures Consistent(Reseeded(users, nextId, now), nextId + 1)
    ensures FindByEmail(Reseeded(users, nextId, now), AdminLoginRoute.AuthorizedAdminEmail).Some?
  {
    var kept := Sequences.RemoveFirst(users, HasEmail(LegacyAdminEmail));
    var u := SeededAdmin(nextId, now);
    assert Reseeded(users, nextId, now) == kept + [u];
    RemoveFirstKeepsConsistent(users, nextId, HasEmail(LegacyAdminEmail));
    assert EmailKey(u.email) == u.email;
    forall i | 0 <= i < |kept| ensures kept[i].email != u.email {
      assert kept[i] in users;
    }
    InsertKeepsConsistent(kept, nextId, u);
    assert (kept + [u])[|kept|] == u;
  }

  lemma LegacyEmailNotAuthorized()
    ensures LegacyAdminEmail != AdminLoginRoute.AuthorizedAdminEmail
  {
    assert |LegacyAdminEmail| != |AdminLoginRoute.AuthorizedAdminEmail|;
  }

  /** After a seeding no account has the legacy address: the unique one there was is deleted. */
  lemma LegacyAdminRemoved(users: seq<User>, nextId: nat, now: int)
    requires Consistent(users, nextId)
    ensures forall u :: u in Reseeded(users, nextId, now) ==> u.email != LegacyAdminEmail
  {
    var kept := Sequences.RemoveFirst(users, HasEmail(LegacyAdminEmail));
    assert Reseeded(users, nextId, now) == kept + [SeededAdmin(nextId, now)];
    LegacyEmailNotAuthorized();
    RemoveFirstClearsEmail(users, nextId, LegacyAdminEmail);
  }

  /**
   * The handler at time `now`: if any account already has the authorized email (of any
   * type) nothing is written; otherwise the legacy admin is deleted and the new one saved.
   */
  method SeedAdmin(store: UserStore, now: int, dbUp: bool) returns (r: Response<Seeded>)
    requires store.Valid()
    modifies store
    ensures store.Valid()
    ensures !dbUp ==> r == Fail(500, "Internal server error")
    ensures dbUp && old(FindByEmail(store.users, AdminLoginRoute.AuthorizedAdminEmail)).Some? ==>
              r == Ok(200, AlreadyExists("Admin user already exists"))
    ensures dbUp && old(FindByEmail(store.users, AdminLoginRoute.AuthorizedAdminEmail)).None? ==>
              && r == Ok(201, Created("Admin user created successfully", AdminLoginRoute.AuthorizedAdminEmail, SeedPassword))
              && store.users == Reseeded(old(store.users), old(store.nextId), now)
              && store.nextId == old(store.nextId) + 1
    ensures r.status != 201 ==> store.users == old(store.users) && store.nextId == old(store.nextId)
    ensures dbUp ==> FindByEmail(store.users, AdminLoginRoute.AuthorizedAdminEmail).Some?
    ensures r.status == 201 ==> forall u :: u in store.users ==> u.email != LegacyAdminEmail
  {
    if !dbUp {
      return Fail(500, "Internal server error");
    }
    var existing := FindByEmail(store.users, AdminLoginRoute.AuthorizedAdminEmail);
    if existing.Some? {
      return Ok(200, AlreadyExists("Admin user already exists"));
    }
    Reseed(store, now);
    r := Ok(201, Created("Admin user created successfully", AdminLoginRoute.AuthorizedAdminEmail, SeedPassword));
  }

  /** The write of a seeding that found the authorized email free. */
  method Reseed(store: UserStore, now: int)
    requires store.Valid() && FindByEmail(store.users, AdminLoginRoute.AuthorizedAdminEmail).None?
    modifies store
    ensures store.Valid()
    ensures store.users == Reseeded(old(store.users), old(store.nextId), now) && store.nextId == old(store.nextId) + 1
    ensures FindByEmail(store.users, AdminLoginRoute.AuthorizedAdminEmail).Some?
    ensures forall u :: u in store.users ==> u.email != LegacyAdminEmail
  {
    SeedingKeepsConsistent(store.users, store.nextId, now);
    LegacyAdminRemoved(store.users, store.nextId, now);
    store.users, store.nextId := Reseeded(store.users, store.nextId, now), store.nextId + 1;
  }

  /** Seeding twice: the second call answers 200 and leaves the collection as the first left it. */
  method SeedTwice(store: UserStore, now: int, later: int) returns (first: Response<Seeded>, second: Response<Seeded>)
    requires store.Valid()
    modifies store
    ensures store.Valid()
    ensures second == Ok(200, AlreadyExists("Admin user already exists"))
    ensures first.status == 201 ==>
              store.users == Reseeded(old(store.users), old(store.nextId), now)
    ensures first.status != 201 ==> store.users == old(store.users)
  {
    first := SeedAdmin(store, now, true);
    second := SeedAdmin(store, later, true);
  }
}
