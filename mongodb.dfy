/**
 * The cached Mongoose connection of src/lib/mongodb.ts. The module-level record holds the
 * open connection and the promise of one; `connectDB` reuses either, and a failed attempt
 * clears the promise so that the next call dials again. Calls are taken one at a time.
 */
module MongoDb {
  import opened Wrappers
  import opened Text
  import opened Environment

  const MissingUriMessage := "Please define the MONGODB_URI environment variable inside .env.local"

  /** An open connection, known by the URI it was dialled with. */
  datatype Connection = Connection(uri: string)

  /** What a connection promise settles to. */
  datatype Settled = Resolved(conn: Connection) | Rejected(reason: string)

  /** What `await connectDB()` gives its caller: the connection, or the error it throws. */
  datatype Outcome = Connected(conn: Connection) | Thrown(message: string)

  /** `getMongoURI()`: the variable's value, or the error thrown when it is unset or empty. */
  function GetMongoUri(env: Env): (r: Outcome)
    ensures r.Thrown? <==> !Truthy(env.mongodbUri)
    ensures r.Thrown? ==> r.message == MissingUriMessage
    ensures r.Connected? ==> r.conn.uri == env.mongodbUri.value && r.conn.uri != ""
  {
    if Truthy(env.mongodbUri) then Connected(Connection(env.mongodbUri.value)) else Thrown(MissingUriMessage)
  }

  /** `mongoose.connect(uri)` settles to a connection when the server is reachable, else to its error. */
  function Dial(uri: string, reachable: bool, reason: string): Settled {
    if reachable then Resolved(Connection(uri)) else Rejected(reason)
  }

  /** The `cached` record: both fields start out null. */
  datatype Cache = Cache(conn: Option<Connection>, promise: Option<Settled>)

  const Empty := Cache(None, None)

  /** One call of `connectDB`: the record after it, what the caller gets, and whether it dialled. */
  datatype Step = Step(after: Cache, outcome: Outcome, dialled: bool)

  /**
   * `connectDB()` given the environment and, should it dial, whether the server answers.
   * An existing promise is awaited again instead of dialling.
   */
  function ConnectStep(c: Cache, env: Env, reachable: bool, reason: string): (s: Step)
    ensures s.dialled ==> c.conn.None? && c.promise.None? && Truthy(env.mongodbUri)
    ensures s.outcome.Connected? ==> s.after.conn == Some(s.outcome.conn)
    ensures s.outcome.Thrown? ==> s.after.conn.None?
  {
    if c.conn.Some? then Step(c, Connected(c.conn.value), false)
    else
      var dialled := c.promise.None?;
      if dialled && !Truthy(env.mongodbUri) then Step(c, Thrown(MissingUriMessage), false)
      else
        var promise := if dialled then Dial(env.mongodbUri.value, reachable, reason) else c.promise.value;
        match promise
        case Resolved(conn) => Step(Cache(Some(conn), Some(promise)), Connected(conn), dialled)
        case Rejected(e) => Step(Cache(None, None), Thrown(e), dialled)
  }

  /** What sequential calls can leave behind: nothing, or a connection with the promise that gave it. */
  predicate Settles(c: Cache) {
    && (c.conn.None? <==> c.promise.None?)
    && (c.conn.Some? ==> c.promise == Some(Resolved(c.conn.value)))
  }

  lemma ConnectStepSettles(c: Cache, env: Env, reachable: bool, reason: string)
    requires Settles(c)
    ensures Settles(ConnectStep(c, env, reachable, reason).after)
  {
  }

  /** Once connected, every call returns that same connection and leaves the record alone. */
  lemma ConnectionIsSticky(c: Cache, env: Env, reachable: bool, reason: string)
    requires c.conn.Some?
    ensures ConnectStep(c, env, reachable, reason) == Step(c, Connected(c.conn.value), false)
  {
  }

  /** A missing URI throws before any promise is stored: the record is as it was. */
  lemma MissingUriChangesNothing(c: Cache, env: Env, reachable: bool, reason: string)
    requires c.conn.None? && c.promise.None? && !Truthy(env.mongodbUri)
    ensures ConnectStep(c, env, reachable, reason) == Step(c, Thrown(MissingUriMessage), false)
  {
  }

  /** A failed dial clears the promise and rethrows, so the next call dials afresh. */
  lemma FailureAllowsRetry(c: Cache, env: Env, reason: string, reachable: bool, reason2: string)
    requires Settles(c) && c.conn.None? && Truthy(env.mongodbUri)
    ensures var s := ConnectStep(c, env, false, reason);
            s.after == Empty && s.outcome == Thrown(reason) && s.dialled
            && ConnectStep(s.after, env, reachable, reason2).dialled
  {
  }

  /** A pending promise is awaited, not duplicated: no second dial. */
  lemma PendingPromiseReused(c: Cache, env: Env, reachable: bool, reason: string)
    requires c.conn.None? && c.promise.Some?
    ensures !ConnectStep(c, env, reachable, reason).dialled
  {
  }

  /** A successful dial stores the connection for the URI the environment names. */
  lemma SuccessStoresConnection(env: Env, reason: string)
    requires Truthy(env.mongodbUri)
    ensures var s := ConnectStep(Empty, env, true, reason);
            s.dialled && s.outcome == Connected(Connection(env.mongodbUri.value)) && Settles(s.after)
  {
  }

  /** Calls from a settled record dial at most once between failures: a connected record never dials. */
  lemma {:induction false} DialsUntilConnected(c: Cache, env: Env, tries: seq<bool>, reason: string)
    requires Settles(c)
    ensures var (final, dials) := Run(c, env, tries, reason);
            Settles(final) && (c.conn.Some? ==> final == c && dials == 0)
            && dials <= |tries|
            && (Truthy(env.mongodbUri) && true in tries ==> final.conn.Some?)
    decreases |tries|
  {
    if tries != [] {
      var s := ConnectStep(c, env, tries[0], reason);
      ConnectStepSettles(c, env, tries[0], reason);
      DialsUntilConnected(s.after, env, tries[1..], reason);
      if Truthy(env.mongodbUri) && true in tries && tries[0] != true {
        assert true in tries[1..];
      }
    }
  }

  /** Successive calls, each told whether the server would answer; returns the final record and the dial count. */
  function Run(c: Cache, env: Env, tries: seq<bool>, reason: string): (Cache, nat)
    decreases |tries|
  {
    if tries == [] then (c, 0)
    else
      var s := ConnectStep(c, env, tries[0], reason);
      var (final, dials) := Run(s.after, env, tries[1..], reason);
      (final, dials + if s.dialled then 1 else 0)
  }

  /** The global record, created once with both fields null. */
  class ConnectionCache {
    var conn: Option<Connection>
    var promise: Option<Settled>
    /** How many times `mongoose.connect` has been called. */
    ghost var dials: nat

    function State(): Cache
      reads this
    {
      Cache(conn, promise)
    }

    /** Between calls the record is settled: nothing, or a connection with the promise that gave it. */
    ghost predicate Valid()
      reads this
    {
      Settles(State())
    }

    constructor ()
      ensures Valid() && State() == Empty && dials == 0
    {
      conn := None;
      promise := None;
      dials := 0;
    }

    /** `connectDB()`, where `reachable` and `reason` stand for what the server would answer if dialled. */
    method ConnectDB(env: Env, reachable: bool, reason: string) returns (r: Outcome)
      requires Valid()
      modifies this
      ensures Valid()
      ensures var s := ConnectStep(old(State()), env, reachable, reason);
              State() == s.after && r == s.outcome && dials == old(dials) + (if s.dialled then 1 else 0)
    {
      ConnectStepSettles(State(), env, reachable, reason);
      if conn.Some? {
        return Connected(conn.value);
      }
      if promise.None? {
        var uri := GetMongoUri(env);
        if uri.Thrown? {
          return uri;
        }
        promise := Some(Dial(uri.conn.uri, reachable, reason));
        dials := dials + 1;
      }
      match promise.value
      case Resolved(c) =>
        conn := Some(c);
        r := Connected(c);
      case Rejected(e) =>
        promise := None;
        r := Thrown(e);
    }
  }
}
