/**
 * The database worker of src/app/connection/mod.rs: a registry of open
 * connections keyed by (database name, server id), the six requests it
 * serves, the classification of driver errors, and the loop that answers
 * each received request with exactly one response until a row that fails
 * to read panics and ends the worker thread.
 *
 * The driver is an oracle: every request makes at most one driver call
 * (connect, list the databases, schemas or tables, or run a query), and a
 * `DriverReply` says what each of those calls would answer.
 */
module Connection {
  import Wrappers
  import Uuids

  type Uuid = Uuids.Uuid

  /** The database the worker connects to for server-level requests. */
  const DefaultManagementDatabase: string := "postgres"

  datatype ConnectionKey = ConnectionKey(name: string, serverId: Uuid)

  /** An open connection; the driver handle inside it is not modelled. */
  datatype Connection = Connection(name: string, url: string)

  datatype DbRequest =
    | ListSchemas(serverId: Uuid, database: string, retries: int)
    | ListTables(serverId: Uuid, database: string, schema: string, retries: int)
    | ListDatabases(id: Uuid)
    | ConnectToServer(id: Uuid, url: string)
    | ConnectToDatabase(id: Uuid, name: string, url: string)
    | Execute(id: Uuid, name: string, query: string, retries: int)

  datatype DownConnectionReason = IoError(message: string) | MissingConnection

  datatype DbResponse =
    | DatabasesListed(id: Uuid, databases: seq<string>)
    | SchemasListed(serverId: Uuid, database: string, schemas: seq<string>)
    | TablesListed(serverId: Uuid, database: string, schema: string, tables: seq<string>)
    | Connected(id: Uuid)
    | Executed(id: Uuid, headers: seq<string>, rows: seq<seq<string>>)
    | Error(id: Uuid, message: string)
    | ConnectionIsDown(originalRequest: DbRequest, reason: DownConnectionReason)
    | None

  /**
   * The driver's error classes the worker tells apart: an error reported by
   * the database (with its message), an I/O error (with the `{:?}` text of
   * the `std::io::Error`), and every other error (with the `{:?}` text of the
   * whole error).
   */
  datatype DbError = Database(message: string) | Io(debug: string) | Other(debug: string)

  /** `format!("{:?}", error)`: the derived Debug text of the error. */
  function ErrorDebug(e: DbError): (s: string)
    requires !e.Database?
  {
    match e
    case Io(d) => "Io(" + d + ")"
    case Other(d) => d
  }

  /**
   * What running a query gives: the headers and the rows' cells, the
   * driver's error, or a panic while a row is read (`row.get` in
   * src/app/connection/posgres.rs), which unwinds the worker thread.
   */
  datatype QueryOutcome = Rows(headers: seq<string>, rows: seq<seq<string>>) | QueryError(error: DbError) | RowPanic

  /** What each driver call would answer, if the request makes it. */
  datatype DriverReply = DriverReply(
    connect: Wrappers.Result<(), DbError>,
    databases: Wrappers.Result<seq<string>, DbError>,
    schemas: Wrappers.Result<seq<string>, DbError>,
    tables: Wrappers.Result<seq<string>, DbError>,
    fetched: QueryOutcome)

  type Connections = map<ConnectionKey, Connection>

  /** A response together with the registry after it. */
  datatype Step = Step(response: DbResponse, connections: Connections)

  /** The registry key a request works on. */
  function KeyOf(q: DbRequest): (k: ConnectionKey)
    ensures q.ListDatabases? || q.ConnectToServer? ==> k.name == DefaultManagementDatabase
  {
    match q
    case ListSchemas(s, db, _) => ConnectionKey(db, s)
    case ListTables(s, db, _, _) => ConnectionKey(db, s)
    case ListDatabases(id) => ConnectionKey(DefaultManagementDatabase, id)
    case ConnectToServer(id, _) => ConnectionKey(DefaultManagementDatabase, id)
    case ConnectToDatabase(id, name, _) => ConnectionKey(name, id)
    case Execute(id, name, _, _) => ConnectionKey(name, id)
  }

  /** The server id a request is about. */
  function IdOf(q: DbRequest): (id: Uuid)
    ensures id == KeyOf(q).serverId
  {
    match q
    case ListSchemas(s, _, _) => s
    case ListTables(s, _, _, _) => s
    case ListDatabases(id) => id
    case ConnectToServer(id, _) => id
    case ConnectToDatabase(id, _, _) => id
    case Execute(id, _, _, _) => id
  }

  /** The requests that carry a retry count and can be replayed. */
  predicate Replayable(q: DbRequest)
  {
    q.ListSchemas? || q.ListTables? || q.Execute?
  }

  /** The `repeat` closures: the same request once more, with one more retry. */
  function Replay(q: DbRequest): (r: DbRequest)
    requires Replayable(q)
    ensures Replayable(r)
    ensures r.retries == q.retries + 1
    ensures r.(retries := q.retries) == q
  {
    match q
    case ListTables(s, db, schema, n) => ListTables(s, db, schema, n + 1)
    case ListSchemas(s, db, n) => ListSchemas(s, db, n + 1)
    case Execute(id, name, query, n) => Execute(id, name, query, n + 1)
  }

  /** `process_db_error`: the answer to a failed driver call and the registry after it. */
  function ErrorStep(c: Connections, key: ConnectionKey, e: DbError, id: Uuid, repeat: Wrappers.Option<DbRequest>): (s: Step)
    ensures s.connections == c || (e.Io? && repeat.Some? && s.connections == c - {key})
  {
    match e
    case Database(m) => Step(Error(id, m), c)
    case Io(d) =>
      if repeat.Some? then Step(ConnectionIsDown(repeat.value, IoError("IO Error: " + d)), c - {key})
      else Step(Error(id, "unknown db error: " + ErrorDebug(e)), c)
    case Other(_) => Step(Error(id, "unknown db error: " + ErrorDebug(e)), c)
  }

  /** The request panics the worker: an Execute on an open connection whose rows fail to read. */
  predicate Panics(c: Connections, q: DbRequest, d: DriverReply)
  {
    q.Execute? && KeyOf(q) in c && d.fetched.RowPanic?
  }

  /** `process_request`, as a function of the registry before the request and the driver's replies, when it returns. */
  function Dispatch(c: Connections, q: DbRequest, d: DriverReply): (s: Step)
    requires !Panics(c, q, d)
    ensures s.response.Connected? ==> q.ConnectToServer? && s.response.id == q.id && KeyOf(q) in s.connections
    ensures s.response.None? ==> q.ConnectToDatabase? && KeyOf(q) in s.connections
    ensures s.response.Error? ==> s.response.id == IdOf(q)
    ensures KeyOf(q) !in c && KeyOf(q) in s.connections ==>
      (q.ConnectToServer? || q.ConnectToDatabase?) && s.connections == c[KeyOf(q) := Connection(KeyOf(q).name, q.url)]
  {
    var key := KeyOf(q);
    match q
    case ListTables(id, db, schema, _) =>
      if key in c then
        (match d.tables
        case Ok(tables) => Step(TablesListed(id, db, schema, tables), c)
        case Err(e) => ErrorStep(c, key, e, id, Wrappers.Some(Replay(q))))
      else Step(Error(id, "No connection to database"), c)
    case ListSchemas(id, db, _) =>
      if key in c then
        (match d.schemas
        case Ok(schemas) => Step(SchemasListed(id, db, schemas), c)
        case Err(e) => ErrorStep(c, key, e, id, Wrappers.Some(Replay(q))))
      else Step(ConnectionIsDown(Replay(q), MissingConnection), c)
    case ConnectToServer(id, url) =>
      if key in c then Step(Connected(id), c)
      else
        (match d.connect
        case Ok(_) => Step(Connected(id), c[key := Connection(key.name, url)])
        case Err(e) => ErrorStep(c, key, e, id, Wrappers.None))
    case ConnectToDatabase(id, _, url) =>
      if key in c then Step(None, c)
      else
        (match d.connect
        case Ok(_) => Step(None, c[key := Connection(key.name, url)])
        case Err(e) => ErrorStep(c, key, e, id, Wrappers.None))
    case Execute(id, _, _, _) =>
      if key in c then
        (match d.fetched
        case Rows(headers, rows) => Step(Executed(id, headers, rows), c)
        case QueryError(e) => ErrorStep(c, key, e, id, Wrappers.Some(Replay(q)))
        case RowPanic => assert false; Step(None, c))
      else Step(ConnectionIsDown(Replay(q), MissingConnection), c)
    case ListDatabases(id) =>
      if key in c then
        (match d.databases
        case Ok(databases) => Step(DatabasesListed(id, databases), c)
        case Err(e) => ErrorStep(c, key, e, id, Wrappers.None))
      else Step(Error(id, "No connection to management database"), c)
  }

  /** Whether the request reaches the driver at all, given the registry. */
  predicate CallsDriver(c: Connections, q: DbRequest)
  {
    if q.ConnectToServer? || q.ConnectToDatabase? then KeyOf(q) !in c else KeyOf(q) in c
  }

  /** The error of the one driver call the request makes, if that call fails. */
  function DriverError(q: DbRequest, d: DriverReply): Wrappers.Option<DbError>
  {
    var r: Wrappers.Result<(), DbError> :=
      match q
      case ListTables(_, _, _, _) => if d.tables.Err? then Wrappers.Err(d.tables.error) else Wrappers.Ok(())
      case ListSchemas(_, _, _) => if d.schemas.Err? then Wrappers.Err(d.schemas.error) else Wrappers.Ok(())
      case ListDatabases(_) => if d.databases.Err? then Wrappers.Err(d.databases.error) else Wrappers.Ok(())
      case Execute(_, _, _, _) => if d.fetched.QueryError? then Wrappers.Err(d.fetched.error) else Wrappers.Ok(())
      case _ => d.connect;
    if r.Err? then Wrappers.Some(r.error) else Wrappers.None
  }

  /** Only the request's own key can change: every other entry keeps its value. */
  lemma OnlyOwnKeyChanges(c: Connections, q: DbRequest, d: DriverReply, k: ConnectionKey)
    requires !Panics(c, q, d) && k != KeyOf(q)
    ensures var s := Dispatch(c, q, d); (k in s.connections <==> k in c) && (k in c ==> s.connections[k] == c[k])
  {
  }

  /** ConnectToServer works on ("postgres", id): an open one is reused, otherwise a successful connect registers it. */
  lemma ConnectToServerOutcome(c: Connections, id: Uuid, url: string, d: DriverReply)
    ensures var key := ConnectionKey(DefaultManagementDatabase, id);
      var s := Dispatch(c, ConnectToServer(id, url), d);
      && (key in c ==> s == Step(Connected(id), c))
      && (key !in c && d.connect.Ok? ==> s == Step(Connected(id), c[key := Connection(DefaultManagementDatabase, url)]))
  {
  }

  /** ConnectToDatabase answers None both when the connection is open already and when it has just been opened. */
  lemma ConnectToDatabaseOutcome(c: Connections, id: Uuid, name: string, url: string, d: DriverReply)
    ensures var key := ConnectionKey(name, id);
      var s := Dispatch(c, ConnectToDatabase(id, name, url), d);
      && (key in c ==> s == Step(None, c))
      && (key !in c && d.connect.Ok? ==> s == Step(None, c[key := Connection(name, url)]))
  {
  }

  /** After a successful ConnectToServer, ConnectToDatabase of the management database opens nothing new. */
  lemma NoSecondManagementConnection(c: Connections, id: Uuid, url: string, url2: string, d1: DriverReply, d2: DriverReply)
    ensures var s1 := Dispatch(c, ConnectToServer(id, url), d1);
      var s2 := Dispatch(s1.connections, ConnectToDatabase(id, DefaultManagementDatabase, url2), d2);
      s1.response == Connected(id) ==> s2 == Step(None, s1.connections)
  {
    var key := ConnectionKey(DefaultManagementDatabase, id);
    var s1 := Dispatch(c, ConnectToServer(id, url), d1);
    if s1.response == Connected(id) {
      assert key in s1.connections;
    }
  }

  /** A database-class error is reported with its message and never closes a connection. */
  lemma DatabaseErrorKeepsConnections(c: Connections, q: DbRequest, d: DriverReply, m: string)
    requires CallsDriver(c, q) && DriverError(q, d) == Wrappers.Some(Database(m))
    ensures Dispatch(c, q, d) == Step(Error(IdOf(q), m), c)
  {
  }

  /** An I/O error on a replayable request drops exactly that request's connection and asks for the replay. */
  lemma IoErrorEvicts(c: Connections, q: DbRequest, d: DriverReply, msg: string)
    requires Replayable(q) && CallsDriver(c, q) && DriverError(q, d) == Wrappers.Some(Io(msg))
    ensures Dispatch(c, q, d) == Step(ConnectionIsDown(Replay(q), IoError("IO Error: " + msg)), c - {KeyOf(q)})
  {
  }

  /**
   * An I/O error on a request without a replay (the two connects and
   * ListDatabases) falls through to the "unknown db error" answer and drops
   * nothing: the guard `repeat.is_some()` makes the inner "IO Error" answer
   * of `process_db_error` unreachable.
   */
  lemma IoErrorWithoutReplay(c: Connections, q: DbRequest, d: DriverReply, msg: string)
    requires !Replayable(q) && CallsDriver(c, q) && DriverError(q, d) == Wrappers.Some(Io(msg))
    ensures Dispatch(c, q, d) == Step(Error(IdOf(q), "unknown db error: Io(" + msg + ")"), c)
  {
    assert "unknown db error: " + ErrorDebug(Io(msg)) == "unknown db error: Io(" + msg + ")";
  }

  /** A missing connection: ListSchemas and Execute ask for a reconnect, ListTables and ListDatabases report an error. */
  lemma MissingConnectionAnswers(c: Connections, q: DbRequest, d: DriverReply)
    requires !q.ConnectToServer? && !q.ConnectToDatabase? && KeyOf(q) !in c
    ensures Dispatch(c, q, d).connections == c
    ensures q.ListSchemas? || q.Execute? ==> Dispatch(c, q, d).response == ConnectionIsDown(Replay(q), MissingConnection)
    ensures q.ListTables? ==> Dispatch(c, q, d).response == Error(q.serverId, "No connection to database")
    ensures q.ListDatabases? ==> Dispatch(c, q, d).response == Error(q.id, "No connection to management database")
  {
  }

  /** Every replay the worker asks for is the original request with one more retry. */
  lemma ReplaysIncrementRetries(c: Connections, q: DbRequest, d: DriverReply)
    requires !Panics(c, q, d)
    ensures var r := Dispatch(c, q, d).response;
      r.ConnectionIsDown? ==> Replayable(q) && r.originalRequest == Replay(q)
  {
  }

  /**
   * What `requests_loop` has answered after a sequence of requests, the
   * registry after them, and whether the worker thread is still running.
   */
  datatype Trace = Trace(responses: seq<DbResponse>, connections: Connections, running: bool)

  /** The worker over the requests in order: one answer each, until the first request that panics. */
  function Run(c: Connections, qs: seq<DbRequest>, ds: seq<DriverReply>): (t: Trace)
    requires |qs| == |ds|
    ensures |t.responses| <= |qs|
    ensures t.running ==> |t.responses| == |qs|
    decreases |qs|
  {
    if qs == [] then Trace([], c, true)
    else
      var n := |qs| - 1;
      var t := Run(c, qs[..n], ds[..n]);
      if !t.running then t
      else if Panics(t.connections, qs[n], ds[n]) then Trace(t.responses, t.connections, false)
      else
        var s := Dispatch(t.connections, qs[n], ds[n]);
        Trace(t.responses + [s.response], s.connections, true)
  }

  /**
   * The i-th response answers the i-th request, against the registry the
   * first i requests left, and that request did not panic.
   */
  lemma {:induction false} RunAnswersInOrder(c: Connections, qs: seq<DbRequest>, ds: seq<DriverReply>, i: nat)
    requires |qs| == |ds| && i < |Run(c, qs, ds).responses|
    ensures var before := Run(c, qs[..i], ds[..i]);
      && before.running && !Panics(before.connections, qs[i], ds[i])
      && Run(c, qs, ds).responses[i] == Dispatch(before.connections, qs[i], ds[i]).response
    decreases |qs|
  {
    var n := |qs| - 1;
    var t := Run(c, qs[..n], ds[..n]);
    if i < |t.responses| {
      RunAnswersInOrder(c, qs[..n], ds[..n], i);
      assert qs[..n][..i] == qs[..i] && ds[..n][..i] == ds[..i];
    } else {
      assert qs[..n] == qs[..i] && ds[..n] == ds[..i];
    }
  }

  /**
   * A stopped worker stopped at the request just after its last answer:
   * that request panicked, nothing after it was answered, and the
   * registry is the one it found.
   */
  lemma {:induction false} RunStopsAtPanic(c: Connections, qs: seq<DbRequest>, ds: seq<DriverReply>)
    requires |qs| == |ds|
    ensures var t := Run(c, qs, ds); var k := |t.responses|;
      !t.running ==>
        && k < |qs|
        && var before := Run(c, qs[..k], ds[..k]);
        && before.running && Panics(before.connections, qs[k], ds[k])
        && t.responses == before.responses && t.connections == before.connections
    decreases |qs|
  {
    if qs != [] {
      var n := |qs| - 1;
      var t := Run(c, qs[..n], ds[..n]);
      RunStopsAtPanic(c, qs[..n], ds[..n]);
      if !t.running {
        var k := |t.responses|;
        assert qs[..n][..k] == qs[..k] && ds[..n][..k] == ds[..k];
      } else {
        assert qs[..n] == qs[..|t.responses|] && ds[..n] == ds[..|t.responses|];
      }
    }
  }

  /** Once the worker has stopped, later requests change nothing: they are never received. */
  lemma {:induction false} StoppedStaysStopped(c: Connections, qs: seq<DbRequest>, ds: seq<DriverReply>, more: seq<DbRequest>, moreReplies: seq<DriverReply>)
    requires |qs| == |ds| && |more| == |moreReplies|
    requires !Run(c, qs, ds).running
    ensures Run(c, qs + more, ds + moreReplies) == Run(c, qs, ds)
    decreases |more|
  {
    if more != [] {
      var n := |more| - 1;
      StoppedStaysStopped(c, qs, ds, more[..n], moreReplies[..n]);
      assert (qs + more)[..|qs| + n] == qs + more[..n];
      assert (ds + moreReplies)[..|ds| + n] == ds + moreReplies[..n];
    } else {
      assert qs + more == qs && ds + moreReplies == ds;
    }
  }

  /** One more request for a running worker: it stops at a panic, and otherwise answers as `Dispatch` does. */
  lemma RunStep(c: Connections, qs: seq<DbRequest>, ds: seq<DriverReply>, q: DbRequest, d: DriverReply)
    requires |qs| == |ds|
    requires Run(c, qs, ds).running
    ensures var t := Run(c, qs, ds); var u := Run(c, qs + [q], ds + [d]);
      && (Panics(t.connections, q, d) ==> u == Trace(t.responses, t.connections, false))
      && (!Panics(t.connections, q, d) ==>
            u == Trace(t.responses + [Dispatch(t.connections, q, d).response], Dispatch(t.connections, q, d).connections, true))
  {
    assert (qs + [q])[..|qs|] == qs && (ds + [d])[..|ds|] == ds;
  }

  /** A sequence around its i-th element. */
  lemma SplitAt<T>(s: seq<T>, i: nat)
    requires i < |s|
    ensures s[..i + 1] == s[..i] + [s[i]] && s[..i + 1] + s[i + 1..] == s
  {
  }

  /** The i-th request of a running worker: a panic is the end of the whole run, otherwise one more answer. */
  lemma RunLoopStep(c: Connections, qs: seq<DbRequest>, ds: seq<DriverReply>, i: nat)
    requires |qs| == |ds| && i < |qs|
    requires Run(c, qs[..i], ds[..i]).running
    ensures var t := Run(c, qs[..i], ds[..i]);
      && (Panics(t.connections, qs[i], ds[i]) ==> Run(c, qs, ds) == Trace(t.responses, t.connections, false))
      && (!Panics(t.connections, qs[i], ds[i]) ==>
            Run(c, qs[..i + 1], ds[..i + 1])
              == Trace(t.responses + [Dispatch(t.connections, qs[i], ds[i]).response], Dispatch(t.connections, qs[i], ds[i]).connections, true))
  {
    SplitAt(qs, i);
    SplitAt(ds, i);
    RunStep(c, qs[..i], ds[..i], qs[i], ds[i]);
    if Panics(Run(c, qs[..i], ds[..i]).connections, qs[i], ds[i]) {
      StoppedStaysStopped(c, qs[..i + 1], ds[..i + 1], qs[i + 1..], ds[i + 1..]);
    }
  }

  /** A request that panics ends the worker: it and every later request go unanswered. */
  lemma PanicStopsWorker(c: Connections, earlier: seq<DbRequest>, earlierReplies: seq<DriverReply>, q: DbRequest, d: DriverReply,
                         later: seq<DbRequest>, laterReplies: seq<DriverReply>)
    requires |earlier| == |earlierReplies| && |later| == |laterReplies|
    requires Run(c, earlier, earlierReplies).running && Panics(Run(c, earlier, earlierReplies).connections, q, d)
    ensures var before := Run(c, earlier, earlierReplies);
      Run(c, earlier + [q] + later, earlierReplies + [d] + laterReplies) == Trace(before.responses, before.connections, false)
  {
    RunStep(c, earlier, earlierReplies, q, d);
    StoppedStaysStopped(c, earlier + [q], earlierReplies + [d], later, laterReplies);
  }

  class ConnectionsManager {
    var connections: Connections
    /** Everything sent on the response channel, oldest first. */
    var sent: seq<DbResponse>

    constructor ()
      ensures connections == map[] && sent == []
    {
      connections := map[];
      sent := [];
    }

    method ProcessDbError(key: ConnectionKey, error: DbError, id: Uuid, repeat: Wrappers.Option<DbRequest>) returns (r: DbResponse)
      modifies this
      ensures Step(r, connections) == ErrorStep(old(connections), key, error, id, repeat)
      ensures sent == old(sent)
    {
      match error {
        case Database(m) =>
          r := Error(id, m);
        case Io(d) =>
          if repeat.Some? {
            connections := connections - {key};
            r := ConnectionIsDown(repeat.value, IoError("IO Error: " + d));
          } else {
            r := Error(id, "unknown db error: " + ErrorDebug(error));
          }
        case Other(_) =>
          r := Error(id, "unknown db error: " + ErrorDebug(error));
      }
    }

    /**
     * `execute`: nothing for a missing connection, otherwise what the
     * driver's query gives, a panic included.
     */
    method Execute(query: string, key: ConnectionKey, d: DriverReply) returns (r: Wrappers.Option<QueryOutcome>)
      ensures key !in connections <==> r.None?
      ensures r.Some? ==> r.value == d.fetched
    {
      if key !in connections {
        return Wrappers.None;
      }
      r := Wrappers.Some(d.fetched);
    }

    /**
     * One request of `requests_loop`: its answer (the request made by
     * `process_request`), or None when it panics, in which case the
     * registry stays as it was.
     */
    method ProcessRequest(q: DbRequest, d: DriverReply) returns (a: Wrappers.Option<DbResponse>)
      modifies this
      ensures a.None? <==> Panics(old(connections), q, d)
      ensures a.None? ==> connections == old(connections)
      ensures a.Some? ==> Step(a.value, connections) == Dispatch(old(connections), q, d)
      ensures sent == old(sent)
    {
      if q.Execute? {
        var key := KeyOf(q);
        var result := Execute(q.query, key, d);
        match result {
          case None =>
            return Wrappers.Some(ConnectionIsDown(Replay(q), MissingConnection));
          case Some(Rows(headers, rows)) =>
            return Wrappers.Some(Executed(q.id, headers, rows));
          case Some(QueryError(e)) =>
            var r := ProcessDbError(key, e, q.id, Wrappers.Some(Replay(q)));
            return Wrappers.Some(r);
          case Some(RowPanic) =>
            return Wrappers.None;
        }
      }
      var r := Answer(q, d);
      a := Wrappers.Some(r);
    }

    /** `process_request` for the requests other than Execute, which never panic. */
    method Answer(q: DbRequest, d: DriverReply) returns (r: DbResponse)
      requires !q.Execute?
      modifies this
      ensures Step(r, connections) == Dispatch(old(connections), q, d)
      ensures sent == old(sent)
    {
      var key := KeyOf(q);
      match q {
        case ListTables(id, db, schema, _) =>
          if key in connections {
            match d.tables {
              case Ok(tables) => r := TablesListed(id, db, schema, tables);
              case Err(e) => r := ProcessDbError(key, e, id, Wrappers.Some(Replay(q)));
            }
          } else {
            r := Error(id, "No connection to database");
          }
        case ListSchemas(id, db, _) =>
          if key in connections {
            match d.schemas {
              case Ok(schemas) => r := SchemasListed(id, db, schemas);
              case Err(e) => r := ProcessDbError(key, e, id, Wrappers.Some(Replay(q)));
            }
          } else {
            r := ConnectionIsDown(Replay(q), MissingConnection);
          }
        case ConnectToServer(id, url) =>
          if key in connections {
            return Connected(id);
          }
          match d.connect {
            case Ok(_) =>
              connections := connections[key := Connection(key.name, url)];
              r := Connected(id);
            case Err(e) => r := ProcessDbError(key, e, id, Wrappers.None);
          }
        case ConnectToDatabase(id, _, url) =>
          if key in connections {
            return None;
          }
          match d.connect {
            case Ok(_) =>
              connections := connections[key := Connection(key.name, url)];
              r := None;
            case Err(e) => r := ProcessDbError(key, e, id, Wrappers.None);
          }
        case ListDatabases(id) =>
          if key in connections {
            match d.databases {
              case Ok(databases) => r := DatabasesListed(id, databases);
              case Err(e) => r := ProcessDbError(key, e, id, Wrappers.None);
            }
          } else {
            r := Error(id, "No connection to management database");
          }
      }
    }

    /**
     * `requests_loop` over the requests received so far, each with its
     * driver replies; a panic ends the loop, and the requests after it are
     * never taken off the channel.
     */
    method RequestsLoop(qs: seq<DbRequest>, ds: seq<DriverReply>) returns (running: bool)
      requires |qs| == |ds|
      modifies this
      ensures sent == old(sent) + Run(old(connections), qs, ds).responses
      ensures connections == Run(old(connections), qs, ds).connections
      ensures running == Run(old(connections), qs, ds).running
    {
      var i := 0;
      running := true;
      while i < |qs|
        invariant 0 <= i <= |qs|
        invariant Run(old(connections), qs[..i], ds[..i]).running
        invariant sent == old(sent) + Run(old(connections), qs[..i], ds[..i]).responses
        invariant connections == Run(old(connections), qs[..i], ds[..i]).connections
      {
        RunLoopStep(old(connections), qs, ds, i);
        var response := ProcessRequest(qs[i], ds[i]);
        if response.None? {
          return false;
        }
        sent := sent + [response.value];
        i := i + 1;
      }
      assert qs[..i] == qs && ds[..i] == ds;
    }
  }
}
