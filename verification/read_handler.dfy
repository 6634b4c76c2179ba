/** `dAPIReadHandler` as a whole: the permission gate, the log decision,
    dispatch on the number of path segments, the list read, the single read
    and the audit log record both of them leave behind.

    Everything the handler obtains from elsewhere — the model registry, the
    query helpers, the database driver, the record loader, the global
    settings — arrives in an `Env`, already evaluated for the one request
    being handled. */
module ReadHandler {
  import opened Base
  import Text
  import opened Logging
  import opened Permission
  import opened Query

  /** The request: its URL path, its URL arguments and the client address. */
  datatype Request = Request(path: string, params: map<string, string>, remoteAddr: string)

  /** What the registry knows about a model: the answers of its optional
      hooks for this request (`APIDisabledRead`, `APIPublicRead`,
      `APILogRead`), its table name and its schema's list modifier. */
  datatype Schema = Schema(
    hooks: ReadHooks,
    logRead: Option<bool>,
    tableName: string,
    listModifier: Option<User -> Fragment>)

  /** A loaded model instance; `id` is what `GetID` reports, 0 when nothing
      was loaded. */
  datatype Record = Record(id: int, fields: map<string, Value>)

  /** What the driver's `apiRead` returns on success. */
  datatype Fetched = Fetched(rowsCount: int, rows: seq<map<string, Value>>)

  /** The handler's surroundings. */
  datatype Env = Env(
    apiLogRead: bool,                                 // the global APILogRead
    debugDB: bool,                                    // the global DebugDB
    reportingLevel: int,                              // the global ReportingLevel
    dialectSupported: bool,                           // sqlDialect has Database.Type
    schemaOf: string -> Schema,                       // NewModel / getSchema
    helpers: (map<string, string>, string) -> ListQuery, // the getQuery* helpers
    apiRead: (string, seq<Value>) -> Result<Fetched>, // driver.apiRead
    load: string -> Record)                           // Get(m, "id = ?", id)

  /** The audit log entry of a read. */
  datatype Action = Read
  datatype Activity = Activity(params: map<string, string>, rowsCount: int, ip: string)
  datatype Log = Log(username: string, action: Action, tableName: string, tableID: int, activity: Activity)

  /** What the logging goroutine does: nothing, save an entry, or
      dereference a nil session while building the entry. That last panic
      happens on the goroutine, where nothing recovers it, so it ends the
      whole server process; the answer it accompanies may never reach the
      client. */
  datatype LogWrite = NoLog | Write(entry: Log) | NilSessionCrash

  /** The `result` of a successful answer. */
  datatype Payload = Rows(rows: seq<map<string, Value>>) | One(record: Option<Record>)

  /** The JSON envelope: `status` "ok" with a result, or "error" with a message. */
  datatype Body = StatusOk(result: Payload) | StatusError(errMsg: string)

  /** The messages the handler sends through `Trail`. */
  datatype TrailMessage = SqlText(sql: string) | SqlArgs(args: seq<Value>) | SqlFailure(sql: string, args: seq<Value>)

  datatype PanicReason = ListModifierWithoutSession | UnsupportedDialect

  /** How handling ends: an HTTP answer, or a panic, each with the trail
      emitted on the way. */
  datatype Outcome =
    | Answered(status: int, body: Body, trail: seq<Emission<TrailMessage>>, log: LogWrite)
    | Panicked(reason: PanicReason, trail: seq<Emission<TrailMessage>>)

  const PermissionDenied: Outcome := Answered(401, StatusError("Permission denied"), [], NoLog)

  /** The model name: the path up to its first `/`. */
  function ModelName(path: string): (name: string)
    ensures name <= path && '/' !in name
    ensures |name| < |path| ==> path[|name|] == '/'
  {
    Text.SplitHead(path, '/');
    Text.Split(path, '/')[0]
  }

  /** Which branch the number of path segments selects. */
  datatype Route = ListRoute | SingleRoute(id: string) | BadRoute

  /** Two segments read a list, three read one record identified by the
      third segment, anything else is malformed. */
  function RouteOf(path: string): (r: Route)
    ensures r.ListRoute? <==> Text.Count(path, '/') == 1
    ensures r.SingleRoute? <==> Text.Count(path, '/') == 2
    ensures r.SingleRoute? ==> '/' !in r.id
  {
    var parts := Text.Split(path, '/');
    if |parts| == 2 then ListRoute
    else if |parts| == 3 then SingleRoute(parts[2])
    else BadRoute
  }

  /** `log := APILogRead`, replaced by the model's `APILogRead` hook when it
      has one. */
  function LogWanted(env: Env, schema: Schema): (log: bool)
    ensures schema.logRead.Some? ==> log == schema.logRead.value
    ensures schema.logRead.None? ==> log == env.apiLogRead
  {
    schema.logRead.GetOr(env.apiLogRead)
  }

  /** `Trail(level, msg)` as a sequence of zero or one emissions. */
  function TrailAt(level: Level, reportingLevel: int, msg: TrailMessage): (t: seq<Emission<TrailMessage>>)
    ensures |t| <= 1
    ensures t != [] <==> Code(level) >= reportingLevel
    ensures t != [] ==> t[0] == Emission(ZapFor(Code(level)), msg)
  {
    match Trail(Code(level), reportingLevel, msg)
    case Some(e) => [e]
    case None => []
  }

  /** `createAPIReadLog`, run by the goroutine when `log` is set. The user
      is `&s.User`, which panics on a nil session and so crashes the process. */
  function ReadLog(log: bool, session: Option<User>, modelName: string, id: int,
                   rowsCount: int, params: map<string, string>, ip: string): (w: LogWrite)
    ensures !log <==> w.NoLog?
    ensures w.NilSessionCrash? <==> log && session.None?
    ensures w.Write? ==> w.entry == Log(session.value.username, Read, modelName, id, Activity(params, rowsCount, ip))
  {
    if !log then NoLog
    else if session.None? then NilSessionCrash
    else Write(Log(session.value.username, Read, modelName, id, Activity(params, rowsCount, ip)))
  }

  /** The list modifier's answer for the session user, if the schema has one
      and there is a user to ask. */
  function ModifierAnswer(schema: Schema, session: Option<User>): (lm: Option<Fragment>)
    ensures lm.Some? <==> schema.listModifier.Some? && session.Some?
    ensures lm.Some? ==> lm.value == schema.listModifier.value(session.value)
  {
    if schema.listModifier.Some? && session.Some? then Some(schema.listModifier.value(session.value)) else None
  }

  /** The statement a list read hands to the driver. */
  function ListStatement(env: Env, req: Request, session: Option<User>, schema: Schema): (st: Statement)
    // the header for the model's table, with DISTINCT as `$distinct` asks, comes first
    ensures SelectHeader(DistinctRequested(req.params), schema.tableName,
                         env.helpers(req.params, schema.tableName).fields) <= st.sql
    // without a list modifier the arguments are the filters' own
    ensures schema.listModifier.None? ==> st.args == env.helpers(req.params, schema.tableName).filter.args
    // with one, the modifier's arguments follow when its condition is not empty
    ensures var lm := ModifierAnswer(schema, session);
            lm.Some? && lm.value.sql != "" ==>
              st.args == env.helpers(req.params, schema.tableName).filter.args + lm.value.args
  {
    var q := env.helpers(req.params, schema.tableName);
    var lm := ModifierAnswer(schema, session);
    var st := ListSQL(DistinctRequested(req.params), schema.tableName, q, lm);
    Text.PrefixOfJoined(SelectHeader(DistinctRequested(req.params), schema.tableName, q.fields), JoinText(q.join), st.sql);
    st
  }

  /** The two DEBUG trails of the statement and its arguments when DebugDB is set. */
  function DebugTrail(env: Env, st: Statement): (t: seq<Emission<TrailMessage>>)
    ensures t != [] <==> env.debugDB && env.reportingLevel <= Code(DEBUG)
    ensures t != [] ==> t == [Emission(DebugLevel, SqlText(st.sql)), Emission(DebugLevel, SqlArgs(st.args))]
  {
    if env.debugDB then TrailAt(DEBUG, env.reportingLevel, SqlText(st.sql)) + TrailAt(DEBUG, env.reportingLevel, SqlArgs(st.args))
    else []
  }

  /** The list branch: calling the list modifier with a nil session panics;
      the statement is traced, then an unsupported dialect panics, a driver
      error answers 500 and traces at ERROR, and success answers the rows
      and logs the read with table id 0. */
  function ListRead(env: Env, req: Request, session: Option<User>, modelName: string,
                    schema: Schema, log: bool): (o: Outcome)
    ensures schema.listModifier.Some? && session.None? ==> o == Panicked(ListModifierWithoutSession, [])
    ensures o.Answered? ==> o.status in {200, 500}
    ensures o.Answered? && o.status == 500 ==> o.log.NoLog? && o.body.StatusError?
    ensures o.Answered? && o.status == 200 ==> o.body.StatusOk? && o.body.result.Rows?
  {
    if schema.listModifier.Some? && session.None? then Panicked(ListModifierWithoutSession, [])
    else
      var st := ListStatement(env, req, session, schema);
      var debug := DebugTrail(env, st);
      if !env.dialectSupported then Panicked(UnsupportedDialect, debug)
      else
        match env.apiRead(st.sql, st.args)
        case Failure(e) =>
          Answered(500, StatusError("Unable to execute SQL. " + e),
                   debug + TrailAt(ERROR, env.reportingLevel, SqlFailure(st.sql, st.args)), NoLog)
        case Success(f) =>
          Answered(200, StatusOk(Rows(f.rows)), debug,
                   ReadLog(log, session, modelName, 0, f.rowsCount, req.params, req.remoteAddr))
  }

  /** The single-record branch: the record is the result when its id is not
      zero and the row count is 1; otherwise the result is empty and the
      count 0. The log carries the loaded id and only the `id` argument. */
  function SingleRead(env: Env, req: Request, session: Option<User>, modelName: string,
                      id: string, log: bool): (o: Outcome)
    ensures o.Answered? && o.status == 200 && o.trail == []
    ensures o.body.StatusOk? && o.body.result.One?
    ensures o.body.result.record.Some? <==> env.load(id).id != 0
    ensures o.body.result.record.Some? ==> o.body.result.record.value == env.load(id)
    ensures o.log.Write? ==>
              && o.log.entry.tableID == env.load(id).id
              && o.log.entry.activity.rowsCount == (if env.load(id).id != 0 then 1 else 0)
              && o.log.entry.activity.params == map["id" := id]
  {
    var m := env.load(id);
    var found := m.id != 0;
    var rowsCount := if found then 1 else 0;
    Answered(200, StatusOk(One(if found then Some(m) else None)), [],
             ReadLog(log, session, modelName, m.id, rowsCount, map["id" := id], req.remoteAddr))
  }

  /** The whole handler. */
  function Handle(env: Env, req: Request, session: Option<User>): (o: Outcome)
    // a denied request is answered 401 without tracing or logging
    ensures !ReadAllowed(env.schemaOf(ModelName(req.path)).hooks, session, ModelName(req.path))
            ==> o == PermissionDenied
    // a permitted request with the wrong number of segments is answered 404
    ensures ReadAllowed(env.schemaOf(ModelName(req.path)).hooks, session, ModelName(req.path))
            && RouteOf(req.path).BadRoute?
            ==> o == Answered(404, StatusError("invalid format (" + req.path + ")"), [], NoLog)
    // only permitted requests are answered with data
    ensures o.Answered? && o.body.StatusOk? ==>
              ReadAllowed(env.schemaOf(ModelName(req.path)).hooks, session, ModelName(req.path))
  {
    var modelName := ModelName(req.path);
    var schema := env.schemaOf(modelName);
    if !ReadAllowed(schema.hooks, session, modelName) then PermissionDenied
    else
      var log := LogWanted(env, schema);
      match RouteOf(req.path)
      case ListRoute => ListRead(env, req, session, modelName, schema, log)
      case SingleRoute(id) => SingleRead(env, req, session, modelName, id, log)
      case BadRoute => Answered(404, StatusError("invalid format (" + req.path + ")"), [], NoLog)
  }

  /** The log an outcome leaves behind; a panicking handler leaves none. */
  function LogOf(o: Outcome): LogWrite
  {
    if o.Answered? then o.log else NoLog
  }

  /** Whether the gate lets this request through. */
  predicate Permitted(env: Env, req: Request, session: Option<User>)
  {
    ReadAllowed(env.schemaOf(ModelName(req.path)).hooks, session, ModelName(req.path))
  }

  /** A model whose disable hook answers true is never read, whatever the
      path, the session or the rest of the environment. */
  lemma DisabledModelDenied(env: Env, req: Request, session: Option<User>)
    requires env.schemaOf(ModelName(req.path)).hooks.disabledRead == Some(true)
    ensures Handle(env, req, session) == PermissionDenied
  {
  }

  /** A denied request never reaches the query helpers, the driver or the
      loader: replacing them changes nothing. */
  lemma DeniedConsultsNothing(env: Env, req: Request, session: Option<User>,
                              helpers: (map<string, string>, string) -> ListQuery,
                              apiRead: (string, seq<Value>) -> Result<Fetched>,
                              load: string -> Record)
    requires !Permitted(env, req, session)
    ensures Handle(env.(helpers := helpers, apiRead := apiRead, load := load), req, session)
            == Handle(env, req, session) == PermissionDenied
  {
  }

  /** Two segments name a list read of the first. */
  lemma ListPath(m: string, a: string)
    requires '/' !in m && '/' !in a
    ensures ModelName(m + "/" + a) == m && RouteOf(m + "/" + a) == ListRoute
  {
    var parts := [m, a];
    assert parts[1..] == [a];
    assert Text.Join(parts, '/') == m + "/" + a;
    Text.SplitJoin(parts, '/');
  }

  /** Three segments name a single read of the first, keyed by the third;
      the middle segment is ignored. */
  lemma SinglePath(m: string, x: string, id: string)
    requires '/' !in m && '/' !in x && '/' !in id
    ensures ModelName(m + "/" + x + "/" + id) == m && RouteOf(m + "/" + x + "/" + id) == SingleRoute(id)
  {
    var parts := [m, x, id];
    assert parts[1..] == [x, id];
    assert parts[1..][1..] == [id];
    assert Text.Join(parts[1..], '/') == x + "/" + id;
    assert Text.Join(parts, '/') == m + "/" + x + "/" + id;
    Text.SplitJoin(parts, '/');
  }

  /** A model's own log hook overrides the global setting: answering false
      means no read is ever logged. */
  lemma LogHookFalseSilences(env: Env, req: Request, session: Option<User>)
    requires env.schemaOf(ModelName(req.path)).logRead == Some(false)
    ensures LogOf(Handle(env, req, session)) == NoLog
  {
  }

  /** An anonymous request that passes the gate (through a hook) panics in a
      list read when the schema has a list modifier. */
  lemma AnonymousModifiedListPanics(env: Env, req: Request)
    requires Permitted(env, req, None) && RouteOf(req.path).ListRoute?
    requires env.schemaOf(ModelName(req.path)).listModifier.Some?
    ensures Handle(env, req, None) == Panicked(ListModifierWithoutSession, [])
  {
  }

  /** An anonymous request whose read is to be logged makes the logging
      goroutine dereference the nil session. */
  lemma AnonymousLoggedSingleReadDerefs(env: Env, req: Request)
    requires Permitted(env, req, None) && RouteOf(req.path).SingleRoute?
    requires LogWanted(env, env.schemaOf(ModelName(req.path)))
    ensures LogOf(Handle(env, req, None)) == NilSessionCrash
  {
  }

  /** A permitted single read answers 200 with the loaded record exactly
      when its id is not zero, and its log entry names the model, the loaded
      id, the row count and only the `id` argument. */
  lemma SingleReadAnswer(env: Env, req: Request, session: Option<User>)
    requires Permitted(env, req, session) && RouteOf(req.path).SingleRoute?
    ensures var o := Handle(env, req, session);
            var id := RouteOf(req.path).id;
            var m := env.load(id);
            && o.Answered? && o.status == 200 && o.trail == []
            && (o.body == StatusOk(One(Some(m))) <==> m.id != 0)
            && (o.body == StatusOk(One(None)) <==> m.id == 0)
            && (o.log.Write? <==> LogWanted(env, env.schemaOf(ModelName(req.path))) && session.Some?)
            && (o.log.Write? ==>
                  o.log.entry == Log(session.value.username, Read, ModelName(req.path), m.id,
                                     Activity(map["id" := id], if m.id != 0 then 1 else 0, req.remoteAddr)))
  {
  }

  /** The conditions under which a permitted list read reaches the driver. */
  predicate ReachesDriver(env: Env, req: Request, session: Option<User>)
  {
    && Permitted(env, req, session)
    && RouteOf(req.path).ListRoute?
    && !(env.schemaOf(ModelName(req.path)).listModifier.Some? && session.None?)
    && env.dialectSupported
  }

  /** The statement a list read sends to the driver. */
  function DriverStatement(env: Env, req: Request, session: Option<User>): Statement
  {
    ListStatement(env, req, session, env.schemaOf(ModelName(req.path)))
  }

  /** A permitted two-segment path always runs the list branch with the
      model's own schema and log decision. */
  lemma HandleListRoute(env: Env, req: Request, session: Option<User>)
    requires Permitted(env, req, session) && RouteOf(req.path).ListRoute?
    ensures var schema := env.schemaOf(ModelName(req.path));
            Handle(env, req, session) == ListRead(env, req, session, ModelName(req.path), schema, LogWanted(env, schema))
  {
  }

  /** A successful list read answers the driver's rows; it is logged, with
      table id 0, the model name, the request's arguments and the driver's row
      count, exactly when logging is wanted and there is a session. */
  lemma ListReadSuccess(env: Env, req: Request, session: Option<User>)
    requires ReachesDriver(env, req, session)
    requires var st := DriverStatement(env, req, session); env.apiRead(st.sql, st.args).Success?
    ensures var st := DriverStatement(env, req, session);
            var f := env.apiRead(st.sql, st.args).value;
            var o := Handle(env, req, session);
            && o.Answered? && o.status == 200 && o.body == StatusOk(Rows(f.rows))
            && o.trail == DebugTrail(env, st)
            && (o.log.Write? <==> LogWanted(env, env.schemaOf(ModelName(req.path))) && session.Some?)
            && (o.log.Write? ==>
                  o.log.entry == Log(session.value.username, Read, ModelName(req.path), 0,
                                     Activity(req.params, f.rowsCount, req.remoteAddr)))
  {
    HandleListRoute(env, req, session);
  }

  /** The trail of a failed list read ends with the ERROR trace exactly when
      the threshold lets ERROR through; otherwise it is empty. */
  lemma FailureTrail(env: Env, st: Statement)
    ensures var t := DebugTrail(env, st) + TrailAt(ERROR, env.reportingLevel, SqlFailure(st.sql, st.args));
            && (Code(ERROR) >= env.reportingLevel <==>
                  t != [] && t[|t| - 1] == Emission(ErrorLevel, SqlFailure(st.sql, st.args)))
            && (Code(ERROR) < env.reportingLevel ==> t == [])
  {
  }

  /** A driver error answers 500 with the error text and logs nothing; the
      trail ends with the statement traced at ERROR exactly when the
      threshold lets ERROR through. */
  lemma ListReadFailure(env: Env, req: Request, session: Option<User>)
    requires ReachesDriver(env, req, session)
    requires var st := DriverStatement(env, req, session); env.apiRead(st.sql, st.args).Failure?
    ensures var st := DriverStatement(env, req, session);
            var e := env.apiRead(st.sql, st.args).error;
            var o := Handle(env, req, session);
            && o.Answered? && o.status == 500 && o.body == StatusError("Unable to execute SQL. " + e)
            && o.log == NoLog
            && (Code(ERROR) >= env.reportingLevel <==>
                  o.trail != [] && o.trail[|o.trail| - 1] == Emission(ErrorLevel, SqlFailure(st.sql, st.args)))
  {
    var schema := env.schemaOf(ModelName(req.path));
    var st := DriverStatement(env, req, session);
    HandleListRoute(env, req, session);
    assert st == ListStatement(env, req, session, schema);
    FailureTrail(env, st);
    var e := env.apiRead(st.sql, st.args).error;
    assert Handle(env, req, session)
           == Answered(500, StatusError("Unable to execute SQL. " + e),
                       DebugTrail(env, st) + TrailAt(ERROR, env.reportingLevel, SqlFailure(st.sql, st.args)), NoLog);
  }

  /** An unsupported database panics after the statement has been traced. */
  lemma UnsupportedDialectPanics(env: Env, req: Request, session: Option<User>)
    requires Permitted(env, req, session) && RouteOf(req.path).ListRoute?
    requires !(env.schemaOf(ModelName(req.path)).listModifier.Some? && session.None?)
    requires !env.dialectSupported
    ensures Handle(env, req, session) == Panicked(UnsupportedDialect, DebugTrail(env, DriverStatement(env, req, session)))
  {
  }

  /** When the helpers produce placeholder-free identifiers and balanced
      filters, and the list modifier answers balanced conditions, the driver
      receives exactly one argument per `?`. */
  lemma DriverStatementBalanced(env: Env, req: Request, session: Option<User>)
    requires var schema := env.schemaOf(ModelName(req.path));
             var q := env.helpers(req.params, schema.tableName);
             && '?' !in schema.tableName && '?' !in q.fields && '?' !in q.join
             && '?' !in q.groupBy && '?' !in q.order && '?' !in q.limit && '?' !in q.offset
             && Balanced(q.filter)
             && (schema.listModifier.Some? && session.Some? ==> Balanced(schema.listModifier.value(session.value)))
    ensures var st := DriverStatement(env, req, session);
            Text.Count(st.sql, '?') == |st.args|
  {
    var schema := env.schemaOf(ModelName(req.path));
    ListSQLBalanced(DistinctRequested(req.params), schema.tableName,
                    env.helpers(req.params, schema.tableName), ModifierAnswer(schema, session));
  }
}
