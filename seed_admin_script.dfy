/** scripts/seed-admin.js: the command-line seeder of the legacy admin account. */
module SeedAdminScript {
  import opened Wrappers
  import opened Text
  import opened Bcrypt
  import opened UserModel
  import SeedAdminRoute

  const ScriptPassword := "admin123"
  const SaltRounds: nat := 12

  /** The document the script saves: the legacy address, an admin, verified. */
  function LegacyAdmin(id: nat, now: int): (u: User)
    ensures u.email == SeedAdminRoute.LegacyAdminEmail && u.userType == AdminType && u.isVerified
    ensures u.password == Hash(ScriptPassword, SaltRounds) && u.id == id
    ensures u.name == "Awaaz Admin" && u.phoneNumber.None? && u.address.None?
    ensures IsNormalEmail(u.email) && IsTrimmed(u.name)
    ensures Conforms(u)
  {
    var n := "Awaaz Admin";
    LowerFixes(SeedAdminRoute.LegacyAdminEmail);
    assert IsNormalEmail(SeedAdminRoute.LegacyAdminEmail);
    assert IsTrimmed(n);
    TrimFixesTrimmed(n);
    Build(id, SeedAdminRoute.LegacyAdminEmail, Hash(ScriptPassword, SaltRounds), n, AdminType, None, None, true, now)
  }

  /**
   * `seedAdminUser()` at time `now`: insert the legacy admin unless that address is taken.
   * Every outcome, a failed connection included, ends in `process.exit(0)`.
   */
  method SeedAdminUser(store: UserStore, now: int, dbUp: bool) returns (exitCode: int)
    requires store.Valid()
    modifies store
    ensures store.Valid()
    ensures exitCode == 0
    ensures !dbUp ==> store.users == old(store.users) && store.nextId == old(store.nextId)
    ensures dbUp && old(FindByEmail(store.users, SeedAdminRoute.LegacyAdminEmail)).Some? ==>
              store.users == old(store.users) && store.nextId == old(store.nextId)
    ensures dbUp && old(FindByEmail(store.users, SeedAdminRoute.LegacyAdminEmail)).None? ==>
              store.users == old(store.users) + [LegacyAdmin(old(store.nextId), now)]
              && store.nextId == old(store.nextId) + 1
    ensures dbUp ==> FindByEmail(store.users, SeedAdminRoute.LegacyAdminEmail).Some?
  {
    exitCode := 0;
    if !dbUp {
      return;
    }
    var existing := FindByEmail(store.users, SeedAdminRoute.LegacyAdminEmail);
    if existing.Some? {
      return;
    }
    var u := LegacyAdmin(store.nextId, now);
    store.Add(u);
    assert store.users[|store.users| - 1] == u;
  }

  /** Running the script twice: the second run finds the account the first made or found, and writes nothing. */
  method RunTwice(store: UserStore, now: int, later: int) returns (first: int, second: int)
    requires store.Valid()
    modifies store
    ensures store.Valid()
    ensures first == 0 && second == 0
    ensures old(FindByEmail(store.users, SeedAdminRoute.LegacyAdminEmail)).Some? ==> store.users == old(store.users)
    ensures old(FindByEmail(store.users, SeedAdminRoute.LegacyAdminEmail)).None? ==>
              store.users == old(store.users) + [LegacyAdmin(old(store.nextId), now)]
  {
    first := SeedAdminUser(store, now, true);
    second := SeedAdminUser(store, later, true);
  }
}
