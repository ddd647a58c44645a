/** POST /api/auth/register (src/app/api/auth/register/route.ts). */
module RegisterRoute {
  import opened Wrappers
  import opened Text
  import opened Bcrypt
  import opened Http
  import opened UserModel

  datatype RegisterRequest = RegisterRequest(
    email: Option<string>,
    password: Option<string>,
    name: Option<string>,
    userType: Option<string>,
    phoneNumber: Option<string>,
    address: Option<string>)

  /** The 201 body: the new user without its password, plus its creation time. */
  datatype Registered = Registered(message: string, user: Profile, createdAt: int)

  const SaltRounds: nat := 12

  predicate HasRequiredFields(req: RegisterRequest) {
    Truthy(req.email) && Truthy(req.password) && Truthy(req.name) && Truthy(req.userType)
  }

  /**
   * The checks made on the request alone, before the collection is queried:
   * the four required fields first, then the citizen's phone number.
   */
  function Precheck(req: RegisterRequest): (r: Option<Response<Registered>>)
    ensures r.Some? <==> !HasRequiredFields(req) || (req.userType == Some(CitizenType) && !Truthy(req.phoneNumber))
    ensures !HasRequiredFields(req) ==> r == Some(Fail(400, "Missing required fields"))
    ensures HasRequiredFields(req) && r.Some? ==> r == Some(Fail(400, "Phone number is required for citizen accounts"))
  {
    if !HasRequiredFields(req) then
      Some(Fail(400, "Missing required fields"))
    else if req.userType.value == CitizenType && !Truthy(req.phoneNumber) then
      Some(Fail(400, "Phone number is required for citizen accounts"))
    else
      None
  }

  /**
   * The document a request that passed the prechecks becomes: the password is replaced
   * by its digest, the requested type is kept as given, and the account is unverified.
   */
  function Candidate(req: RegisterRequest, id: nat, now: int): (u: User)
    requires HasRequiredFields(req)
    ensures u.password == Hash(req.password.value, SaltRounds)
    ensures u.userType == req.userType.value && !u.isVerified
    ensures u.email == EmailKey(req.email.value) && u.id == id && u.createdAt == now
  {
    Build(id, req.email.value, Hash(req.password.value, SaltRounds), req.name.value, req.userType.value,
          req.phoneNumber, req.address, false, now)
  }

  /** Whether registering `req` against `users` creates an account. */
  predicate Accepts(users: seq<User>, nextId: nat, req: RegisterRequest, now: int) {
    && Precheck(req).None?
    && FindByEmail(users, req.email.value).None?
    && Conforms(Candidate(req, nextId, now))
  }

  /**
   * The handler: connect, the prechecks, the duplicate lookup, then `save()`, whose
   * schema validation failure (a blank name, an unknown user type) surfaces as 500.
   */
  method Register(store: UserStore, req: RegisterRequest, now: int, dbUp: bool) returns (r: Response<Registered>)
    requires store.Valid()
    modifies store
    ensures store.Valid()
    ensures r.status in {201, 400, 409, 500}
    ensures !dbUp ==> r == Fail(500, "Internal server error")
    ensures dbUp && Precheck(req).Some? ==> r == Precheck(req).value
    ensures dbUp && Precheck(req).None? && FindByEmail(old(store.users), req.email.value).Some? ==>
              r == Fail(409, "User already exists with this email")
    ensures r.status == 201 <==> dbUp && Accepts(old(store.users), old(store.nextId), req, now)
    ensures r.status == 201 ==>
              var u := Candidate(req, old(store.nextId), now);
              && store.users == old(store.users) + [u]
              && store.nextId == old(store.nextId) + 1
              && r == Ok(201, Registered("User registered successfully", ProfileOf(u), now))
    ensures r.status != 201 ==> store.users == old(store.users) && store.nextId == old(store.nextId)
  {
    if !dbUp {
      return Fail(500, "Internal server error");
    }
    var rejected := Precheck(req);
    if rejected.Some? {
      return rejected.value;
    }
    var existing := FindByEmail(store.users, req.email.value);
    if existing.Some? {
      return Fail(409, "User already exists with this email");
    }
    var u := Candidate(req, store.nextId, now);
    if !Conforms(u) {
      return Fail(500, "Internal server error");
    }
    store.Add(u);
    r := Ok(201, Registered("User registered successfully", ProfileOf(u), now));
  }
}
