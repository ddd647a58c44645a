/** GET /api/admin/users (src/app/api/admin/users/route.ts). */
module AdminUsersRoute {
  import opened Wrappers
  import opened Http
  import opened UserModel
  import opened Sequences

  /** A user as listed: every stored field except `password` (and the version key, not modelled). */
  datatype Listed = Listed(
    id: nat, email: string, name: string, userType: string, phoneNumber: Option<string>,
    address: Option<string>, isVerified: bool, createdAt: int, updatedAt: int)

  datatype UserList = UserList(users: seq<Listed>)

  function Listing(u: User): Listed {
    Listed(u.id, u.email, u.name, u.userType, u.phoneNumber, u.address, u.isVerified, u.createdAt, u.updatedAt)
  }

  function ListedAt(l: Listed): int {
    l.createdAt
  }

  /**
   * The handler. It takes no cookies: it answers every caller, admin or not, with every
   * user, projected and newest first; a database failure is 500.
   */
  function ListUsers(dbUp: bool, users: seq<User>): (r: Response<UserList>)
    ensures !dbUp ==> r == Fail(500, "Failed to fetch users")
    ensures dbUp ==> r.status == 200 && r.body.Success?
    ensures dbUp ==> NewestFirst(r.body.data.users, ListedAt)
    ensures dbUp ==> multiset(r.body.data.users) == multiset(Map(users, Listing))
  {
    if !dbUp then Fail(500, "Failed to fetch users")
    else Ok(200, UserList(SortNewestFirst(Map(users, Listing), ListedAt)))
  }

  /** Every stored user is listed, and every listed entry is some stored user minus the password. */
  lemma ListsEveryUser(users: seq<User>, k: nat)
    requires k < |users|
    ensures Listing(users[k]) in ListUsers(true, users).body.data.users
    ensures forall l :: l in ListUsers(true, users).body.data.users ==> exists u :: u in users && l == Listing(u)
  {
    var listed := ListUsers(true, users).body.data.users;
    var all := Map(users, Listing);
    assert all[k] == Listing(users[k]);
    assert Listing(users[k]) in multiset(all);
    forall l | l in listed ensures exists u :: u in users && l == Listing(u) {
      assert l in multiset(all);
      var i :| 0 <= i < |all| && all[i] == l;
      assert users[i] in users;
    }
  }
}
