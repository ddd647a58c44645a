/**
 * The `User` collection of src/models/User.ts: the document shape, the setters Mongoose
 * applies (lowercase and trim), the schema's validators, and the collection itself.
 */
module UserModel {
  import opened Wrappers
  import opened Text
  import opened Bcrypt
  import opened Sequences

  const AdminType := "admin"
  const CitizenType := "citizen"
  const PasswordMinLength: nat := 6

  datatype User = User(
    id: nat,
    email: string,
    password: Digest,
    name: string,
    userType: string,
    phoneNumber: Option<string>,
    address: Option<string>,
    isVerified: bool,
    createdAt: int,
    updatedAt: int)

  /** The user fields the handlers echo back; it has no password field. */
  datatype Profile = Profile(
    id: nat,
    email: string,
    name: string,
    userType: string,
    phoneNumber: Option<string>,
    address: Option<string>,
    isVerified: bool)

  function ProfileOf(u: User): Profile {
    Profile(u.id, u.email, u.name, u.userType, u.phoneNumber, u.address, u.isVerified)
  }

  /** An email as the schema stores it: lower case and trimmed. */
  predicate IsNormalEmail(e: string) {
    Lower(e) == e && IsTrimmed(e)
  }

  /**
   * The `lowercase` and `trim` setters of `email`. Mongoose applies them when a document
   * is built and also to the value of a query filter on `email`.
   */
  function EmailKey(e: string): (k: string)
    ensures IsNormalEmail(k)
    ensures IsNormalEmail(e) ==> k == e
  {
    LowerTrimCommute(Lower(e));
    LowerIdempotent(e);
    assert IsNormalEmail(e) ==> Trim(Lower(e)) == e by {
      if IsNormalEmail(e) {
        TrimFixesTrimmed(e);
      }
    }
    Trim(Lower(e))
  }

  /** The `trim` setter on an optional field. */
  function TrimOpt(v: Option<string>): (r: Option<string>)
    ensures r.Some? <==> v.Some?
    ensures r.Some? ==> IsTrimmed(r.value)
  {
    if v.Some? then Some(Trim(v.value)) else None
  }

  /** Length of the stored password field: always that of an encoded digest. */
  function StoredLength(d: Digest): nat {
    EncodedLength
  }

  /** The validators of `UserSchema`, over a document whose setters have run. */
  predicate Conforms(u: User) {
    && u.email != "" && IsNormalEmail(u.email)
    && StoredLength(u.password) >= PasswordMinLength
    && u.name != "" && IsTrimmed(u.name)
    && (u.userType == AdminType || u.userType == CitizenType)
    && (u.phoneNumber.Some? ==> IsTrimmed(u.phoneNumber.value))
    && (u.address.Some? ==> IsTrimmed(u.address.value))
  }

  /** `new User({ ... })`: the setters run and the timestamps are set. */
  function Build(
    id: nat, email: string, password: Digest, name: string, userType: string,
    phoneNumber: Option<string>, address: Option<string>, isVerified: bool, now: int): User
  {
    User(id, EmailKey(email), password, Trim(name), userType, TrimOpt(phoneNumber), TrimOpt(address),
         isVerified, now, now)
  }

  /**
   * A built document passes validation exactly when its email and name are non-blank
   * and its type is one of the two roles. The password rule is met by every digest,
   * whatever the length of the password it was made from.
   */
  lemma BuildConforms(
    id: nat, email: string, password: Digest, name: string, userType: string,
    phoneNumber: Option<string>, address: Option<string>, isVerified: bool, now: int)
    ensures Conforms(Build(id, email, password, name, userType, phoneNumber, address, isVerified, now))
            <==> EmailKey(email) != "" && Trim(name) != "" && (userType == AdminType || userType == CitizenType)
  {
  }

  function HasEmail(key: string): User -> bool {
    (u: User) => u.email == key
  }

  function HasId(id: nat): User -> bool {
    (u: User) => u.id == id
  }

  /** `User.findOne({ email })`, with the filter value passed through the email setters. */
  function FindByEmail(users: seq<User>, email: string): (r: Option<User>)
    ensures r.Some? ==> r.value in users && r.value.email == EmailKey(email)
    ensures r.None? ==> forall i :: 0 <= i < |users| ==> users[i].email != EmailKey(email)
  {
    FindFirst(users, HasEmail(EmailKey(email)))
  }

  /** `User.findById(id)`. */
  function FindById(users: seq<User>, id: nat): (r: Option<User>)
    ensures r.Some? ==> r.value in users && r.value.id == id
    ensures r.None? ==> forall i :: 0 <= i < |users| ==> users[i].id != id
  {
    FindFirst(users, HasId(id))
  }

  /**
   * What the collection guarantees between requests: the unique index on `email`,
   * unique ids below the next one to be issued, and every document valid.
   */
  predicate Consistent(users: seq<User>, nextId: nat) {
    && (forall i, j :: 0 <= i < j < |users| ==> users[i].email != users[j].email)
    && (forall i, j :: 0 <= i < j < |users| ==> users[i].id != users[j].id)
    && (forall i :: 0 <= i < |users| ==> users[i].id < nextId && Conforms(users[i]))
  }

  /** In a consistent collection an email, or an id, names at most one user. */
  lemma {:induction false} FindByEmailUnique(users: seq<User>, nextId: nat, email: string, u: User)
    requires Consistent(users, nextId)
    requires u in users && u.email == EmailKey(email)
    ensures FindByEmail(users, email) == Some(u)
  {
    var r := FindByEmail(users, email);
    var i :| 0 <= i < |users| && users[i] == u;
    var j :| 0 <= j < |users| && users[j] == r.value;
    assert i == j;
  }

  lemma {:induction false} FindByIdUnique(users: seq<User>, nextId: nat, u: User)
    requires Consistent(users, nextId)
    requires u in users
    ensures FindById(users, u.id) == Some(u)
  {
    var r := FindById(users, u.id);
    var i :| 0 <= i < |users| && users[i] == u;
    var j :| 0 <= j < |users| && users[j] == r.value;
    assert i == j;
  }

  /** Inserting a valid document with a fresh id and an unused email keeps the collection consistent. */
  lemma {:induction false} InsertKeepsConsistent(users: seq<User>, nextId: nat, u: User)
    requires Consistent(users, nextId)
    requires Conforms(u) && u.id == nextId
    requires forall i :: 0 <= i < |users| ==> users[i].email != u.email
    ensures Consistent(users + [u], nextId + 1)
  {
  }

  /** Rewriting a document in place, keeping its id and email and its validity, keeps the collection consistent. */
  lemma {:induction false} ReplaceKeepsConsistent(users: seq<User>, nextId: nat, k: nat, u: User)
    requires Consistent(users, nextId)
    requires k < |users| && u.id == users[k].id && u.email == users[k].email && Conforms(u)
    ensures Consistent(users[k := u], nextId)
  {
  }

  /** Deleting a document keeps the collection consistent. */
  lemma {:induction false} RemoveKeepsConsistent(users: seq<User>, nextId: nat, k: nat)
    requires Consistent(users, nextId)
    requires k < |users|
    ensures Consistent(users[..k] + users[k + 1..], nextId)
  {
    var r := users[..k] + users[k + 1..];
    assert forall i :: 0 <= i < |r| ==> r[i] == users[if i < k then i else i + 1];
  }

  /** `deleteOne` on any filter keeps the collection consistent. */
  lemma RemoveFirstKeepsConsistent(users: seq<User>, nextId: nat, p: User -> bool)
    requires Consistent(users, nextId)
    ensures Consistent(RemoveFirst(users, p), nextId)
    ensures forall x :: x in RemoveFirst(users, p) ==> x in users
  {
    var k := FirstMatch(users, p);
    if k < |users| {
      assert RemoveFirst(users, p) == users[..k] + users[k + 1..];
      RemoveKeepsConsistent(users, nextId, k);
    } else {
      assert RemoveFirst(users, p) == users;
    }
    RemoveFirstElements(users, p);
  }

  /** In a consistent collection, `deleteOne({ email })` leaves no user with that email. */
  lemma {:induction false} RemoveFirstClearsEmail(users: seq<User>, nextId: nat, key: string)
    requires Consistent(users, nextId)
    ensures forall u :: u in RemoveFirst(users, HasEmail(key)) ==> u.email != key
  {
    var k := FirstMatch(users, HasEmail(key));
    var kept := RemoveFirst(users, HasEmail(key));
    if k < |users| {
      assert kept == users[..k] + users[k + 1..];
      forall i | 0 <= i < |kept| ensures kept[i].email != key {
        assert kept[i] == users[if i < k then i else i + 1];
      }
    } else {
      assert kept == users;
    }
  }

  /** The `User` collection as the database holds it, in insertion order. */
  class UserStore {
    var users: seq<User>
    var nextId: nat

    ghost predicate Valid()
      reads this
    {
      Consistent(users, nextId)
    }

    constructor ()
      ensures Valid() && users == [] && nextId == 0
    {
      users := [];
      nextId := 0;
    }

    /** `save()` of a new document: it takes the next id, and its email must be unused. */
    method Add(u: User)
      requires Valid() && Conforms(u) && u.id == nextId
      requires forall i :: 0 <= i < |users| ==> users[i].email != u.email
      modifies this
      ensures Valid()
      ensures users == old(users) + [u] && nextId == old(nextId) + 1
    {
      InsertKeepsConsistent(users, nextId, u);
      users, nextId := users + [u], nextId + 1;
    }
  }
}
