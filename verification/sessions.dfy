/**
 Building Oracle sessions from a configuration dictionary: the choice of
 addressing mode, the connection with its session statements, the session pool
 with its defaults, and the SQLAlchemy engine with its URL. The driver,
 SQLAlchemy and password decryption are an oracle (`Driver`) whose answers
 are inputs.
 */
module Sessions {
  import opened Base
  import opened Dicts
  import opened Values
  import opened Exceptions

  /** A driver-side object (connection, pool, engine), by identity only. */
  type Handle = nat

  /** How the database is addressed: by service name or by SID. */
  datatype Address = ServiceName(service: Value) | Sid(sid: Value)

  /** `oracledb.makedsn(host, port, service_name=... | sid=...)`. */
  datatype Dsn = Dsn(host: Value, port: Value, address: Address)

  /** The arguments `oracledb.SessionPool` is called with. */
  datatype PoolParams = PoolParams(
    user: Value, password: Value, dsn: Dsn,
    min: Value, max: Value, increment: Value,
    threaded: bool, waitMode: bool, timeout: Value)

  /** The keyword arguments `create_engine` is called with. */
  datatype EngineParams = EngineParams(
    poolSize: Value, maxOverflow: Value, poolTimeout: Value, poolRecycle: Value, echo: Value)

  /**
   The answers of everything outside the model: `decrypt_password`,
   `oracledb.connect`, `connection.cursor()`, `cursor.execute` of a session
   statement, `cursor.close()`, `oracledb.SessionPool`, `create_engine` and
   the engine's test query.
   */
  datatype Driver = Driver(
    decrypt: Value -> Result<Value, Failure>,
    connect: (Value, Value, Dsn) -> Result<Handle, Failure>,
    openCursor: Handle -> Option<Failure>,
    execute: string -> Option<Failure>,
    closeCursor: Handle -> Option<Failure>,
    createPool: PoolParams -> Result<Handle, Failure>,
    createEngine: (string, EngineParams) -> Result<Handle, Failure>,
    probeEngine: Handle -> Option<Failure>)

  /** The connection settings as the `create_*` methods read them. */
  type Config = Dict<Value>

  const DefaultPort := Int(1521)
  const MissingAddress := "Either service_name or sid must be provided"

  /** `config.get(key)`: absent keys read as `None`. */
  function Setting(config: Config, key: string): Value {
    GetOr(config, key, Null)
  }

  /**
   `if service_name: ... elif sid: ... else: raise`: a truthy service name wins,
   a truthy SID is the fallback, and with neither there is no address.
   */
  function ChooseAddress(config: Config): (a: Option<Address>)
    ensures a.Some? <==> Truthy(Setting(config, "service_name")) || Truthy(Setting(config, "sid"))
    ensures a.Some? && a.value.ServiceName? <==> Truthy(Setting(config, "service_name"))
    ensures a.Some? && a.value.ServiceName? ==> a.value.service == Setting(config, "service_name")
    ensures a.Some? && a.value.Sid? ==> a.value.sid == Setting(config, "sid")
  {
    var service := Setting(config, "service_name");
    var sid := Setting(config, "sid");
    if Truthy(service) then Some(ServiceName(service))
    else if Truthy(sid) then Some(Sid(sid))
    else None
  }

  /** When both a service name and a SID are given, the service name is used. */
  lemma ServiceNamePreferred(config: Config)
    requires Truthy(Setting(config, "service_name")) && Truthy(Setting(config, "sid"))
    ensures ChooseAddress(config) == Some(ServiceName(Setting(config, "service_name")))
  {
  }

  /** The DSN for a chosen address; the port defaults to 1521. */
  function DsnOf(config: Config, a: Address): (d: Dsn)
    ensures d.host == Setting(config, "host") && d.address == a
    ensures !HasKey(config, "port") ==> d.port == DefaultPort
    ensures HasKey(config, "port") ==> Get(config, "port") == Some(d.port)
  {
    GetFound(config, "port");
    Dsn(Setting(config, "host"), GetOr(config, "port", DefaultPort), a)
  }

  /** The password, decrypted when `password_encrypted` is truthy. */
  function Password(config: Config, driver: Driver): (r: Result<Value, Failure>)
    ensures !Truthy(GetOr(config, "password_encrypted", Bool(false))) ==> r == Ok(Setting(config, "password"))
    ensures Truthy(GetOr(config, "password_encrypted", Bool(false))) ==> r == driver.decrypt(Setting(config, "password"))
  {
    if Truthy(GetOr(config, "password_encrypted", Bool(false))) then driver.decrypt(Setting(config, "password"))
    else Ok(Setting(config, "password"))
  }

  /** One step of the session set-up: a statement to execute, or a Python error. */
  datatype SessionStep = Exec(sql: string) | Fault(fault: PyFault)

  function NlsStatements(params: Dict<Value>): (r: seq<string>)
    ensures |r| == |params|
    ensures forall i :: 0 <= i < |params| ==>
      r[i] == "ALTER SESSION SET " + params[i].0 + " = '" + PyStr(params[i].1) + "'"
  {
    if params == [] then []
    else ["ALTER SESSION SET " + params[0].0 + " = '" + PyStr(params[0].1) + "'"] + NlsStatements(params[1..])
  }

  /**
   The session statements a new connection runs, in order: the time zone when
   one is set, then one per NLS parameter; a `nls_parameters` that is not a
   dictionary fails at `.items()`.
   */
  function SessionPlan(config: Config): (plan: seq<SessionStep>)
    ensures Truthy(Setting(config, "timezone")) ==>
              |plan| >= 1 && plan[0] == Exec("ALTER SESSION SET TIME_ZONE = '" + PyStr(Setting(config, "timezone")) + "'")
    ensures !Truthy(Setting(config, "timezone")) && !HasKey(config, "nls_parameters") ==> plan == []
    ensures var skip := if Truthy(Setting(config, "timezone")) then 1 else 0;
            |plan| >= skip && plan[skip..] == NlsSteps(GetOr(config, "nls_parameters", Obj([])))
  {
    var tz := Setting(config, "timezone");
    var first := if Truthy(tz) then [Exec("ALTER SESSION SET TIME_ZONE = '" + PyStr(tz) + "'")] else [];
    GetFound(config, "nls_parameters");
    var rest := NlsSteps(GetOr(config, "nls_parameters", Obj([])));
    assert (first + rest)[|first|..] == rest;
    first + rest
  }

  /** The steps of `for param, value in nls_params.items()`: a statement per entry, or the fault of `.items()`. */
  function NlsSteps(nls: Value): (steps: seq<SessionStep>)
    ensures nls.Obj? ==> |steps| == |nls.fields|
                         && forall i :: 0 <= i < |nls.fields| ==> steps[i] == Exec(NlsStatements(nls.fields)[i])
    ensures !nls.Obj? ==> steps == [Fault(AttributeError)]
  {
    match Items(nls)
    case Ok(params) => seq(|params|, i requires 0 <= i < |params| => Exec(NlsStatements(params)[i]))
    case Err(f) => [Fault(f)]
  }

  /** Whether one step runs: a statement that executes. */
  predicate StepRuns(step: SessionStep, execute: string -> Option<Failure>) {
    step.Exec? && execute(step.sql).None?
  }

  /** The failure of one step that does not run: its Python error, or the statement's failure. */
  function StepFailure(step: SessionStep, execute: string -> Option<Failure>): Option<Failure> {
    match step
    case Fault(f) => Some(FromFault(f))
    case Exec(sql) => execute(sql)
  }

  /** Runs the plan and stops at the first failure. */
  function RunSession(plan: seq<SessionStep>, execute: string -> Option<Failure>): (r: Option<Failure>)
    ensures r.None? <==> forall i :: 0 <= i < |plan| ==> StepRuns(plan[i], execute)
  {
    if plan == [] then None
    else
      match plan[0]
      case Fault(f) => Some(FromFault(f))
      case Exec(sql) =>
        if execute(sql).Some? then execute(sql) else RunSession(plan[1..], execute)
  }

  /** The session set-up fails with the failure of the first step that does not run. */
  lemma {:induction false} RunSessionFirstFailure(plan: seq<SessionStep>, execute: string -> Option<Failure>, k: nat)
    requires k < |plan|
    requires forall i :: 0 <= i < k ==> StepRuns(plan[i], execute)
    requires !StepRuns(plan[k], execute)
    ensures RunSession(plan, execute) == StepFailure(plan[k], execute)
    ensures RunSession(plan, execute).Some?
  {
    if k > 0 {
      assert StepRuns(plan[0], execute);
      assert plan[1..][k - 1] == plan[k];
      RunSessionFirstFailure(plan[1..], execute, k - 1);
    }
  }

  /**
   The wrapping `create_oracle_connection` applies to whatever it caught: a
   driver error becomes "Oracle connection failed: ...", anything else
   "Connection creation failed: ...", both as a plain ETL exception.
   */
  function WrapConnectionFailure(f: Failure, now: Timestamp): (e: EtlError)
    ensures e.cls == EtlBase && e.code == GenericCode && e.category == UnknownCategory
    ensures f.Foreign? && f.kind == DatabaseError ==> e.message == "Oracle connection failed: " + Text(f)
    ensures !(f.Foreign? && f.kind == DatabaseError) ==> e.message == "Connection creation failed: " + Text(f)
  {
    if f.Foreign? && f.kind == DatabaseError then NewEtlError("Oracle connection failed: " + Text(f), None, None, None, now)
    else NewEtlError("Connection creation failed: " + Text(f), None, None, None, now)
  }

  /**
   The steps of `create_oracle_connection` before wrapping: decrypt, choose
   the address, connect, open a cursor, run the session statements, close
   the cursor.
   */
  function ConnectSteps(config: Config, driver: Driver, now: Timestamp): Result<Handle, Failure> {
    var password :- Password(config, driver);
    match ChooseAddress(config)
    case None => Err(Etl(NewEtlError(MissingAddress, None, None, None, now)))
    case Some(a) =>
      var h :- driver.connect(Setting(config, "username"), password, DsnOf(config, a));
      if driver.openCursor(h).Some? then Err(driver.openCursor(h).value)
      else if RunSession(SessionPlan(config), driver.execute).Some? then Err(RunSession(SessionPlan(config), driver.execute).value)
      else if driver.closeCursor(h).Some? then Err(driver.closeCursor(h).value)
      else Ok(h)
  }

  /** `create_oracle_connection(config)`. */
  function BuildConnection(config: Config, driver: Driver, now: Timestamp): (r: Result<Handle, EtlError>)
    ensures r.Err? ==> r.error.cls == EtlBase && r.error.code == GenericCode && r.error.category == UnknownCategory
    ensures r.Ok? ==> ChooseAddress(config).Some?
  {
    match ConnectSteps(config, driver, now)
    case Ok(h) => Ok(h)
    case Err(f) => Err(WrapConnectionFailure(f, now))
  }

  /**
   Without a usable address (and with a password that reads), the connection
   fails before the driver is asked, as "Connection creation failed: Either
   service_name or sid must be provided".
   */
  lemma ConnectionNeedsAddress(config: Config, driver: Driver, now: Timestamp)
    requires ChooseAddress(config).None?
    requires Password(config, driver).Ok?
    ensures BuildConnection(config, driver, now).Err?
    ensures BuildConnection(config, driver, now).error.message == "Connection creation failed: " + MissingAddress
  {
  }

  /**
   A connection is built exactly when the password reads, an address exists,
   the driver connects, the cursor opens, every session statement runs and
   the cursor closes.
   */
  lemma ConnectionSucceeds(config: Config, driver: Driver, now: Timestamp)
    ensures BuildConnection(config, driver, now).Ok? <==>
            Password(config, driver).Ok? && ChooseAddress(config).Some?
            && var c := driver.connect(Setting(config, "username"), Password(config, driver).value,
                                       DsnOf(config, ChooseAddress(config).value));
               c.Ok? && driver.openCursor(c.value).None?
               && RunSession(SessionPlan(config), driver.execute).None?
               && driver.closeCursor(c.value).None?
  {
  }

  /**
   Every failure on the way reaches the caller wrapped: a failing decrypt,
   `connect`, `cursor()`, session statement or `cursor.close()` each comes
   back as `WrapConnectionFailure` of that very failure.
   */
  lemma ConnectionFailureWrapped(config: Config, driver: Driver, now: Timestamp)
    ensures Password(config, driver).Err? ==>
              BuildConnection(config, driver, now) == Err(WrapConnectionFailure(Password(config, driver).error, now))
    ensures var p := Password(config, driver);
            var a := ChooseAddress(config);
            p.Ok? && a.Some? ==>
              var c := driver.connect(Setting(config, "username"), p.value, DsnOf(config, a.value));
              var run := RunSession(SessionPlan(config), driver.execute);
              && (c.Err? ==> BuildConnection(config, driver, now) == Err(WrapConnectionFailure(c.error, now)))
              && (c.Ok? && driver.openCursor(c.value).Some? ==>
                    BuildConnection(config, driver, now) == Err(WrapConnectionFailure(driver.openCursor(c.value).value, now)))
              && (c.Ok? && driver.openCursor(c.value).None? && run.Some? ==>
                    BuildConnection(config, driver, now) == Err(WrapConnectionFailure(run.value, now)))
              && (c.Ok? && driver.openCursor(c.value).None? && run.None? && driver.closeCursor(c.value).Some? ==>
                    BuildConnection(config, driver, now) == Err(WrapConnectionFailure(driver.closeCursor(c.value).value, now)))
              && (c.Ok? && driver.openCursor(c.value).None? && run.None? && driver.closeCursor(c.value).None? ==>
                    BuildConnection(config, driver, now) == Ok(c.value))
  {
  }

  /** The pool arguments, with the defaults min 1, max 10, increment 1, timeout 3600; no check that min <= max. */
  function PoolParamsOf(config: Config, password: Value, a: Address): (p: PoolParams)
    ensures p.min == GetOr(config, "pool_min", Int(1)) && p.max == GetOr(config, "pool_max", Int(10))
    ensures p.increment == GetOr(config, "pool_increment", Int(1))
    ensures p.timeout == GetOr(config, "pool_timeout", Int(3600))
    ensures p.threaded && p.waitMode
    ensures p.user == Setting(config, "username") && p.password == password && p.dsn == DsnOf(config, a)
  {
    PoolParams(Setting(config, "username"), password, DsnOf(config, a),
               GetOr(config, "pool_min", Int(1)), GetOr(config, "pool_max", Int(10)),
               GetOr(config, "pool_increment", Int(1)), true, true, GetOr(config, "pool_timeout", Int(3600)))
  }

  /**
   `create_oracle_pool(config)`. Only driver errors are caught (and wrapped as
   "Oracle pool creation failed: ..."); a decryption failure and the missing
   address error propagate as raised.
   */
  function BuildPool(config: Config, driver: Driver, now: Timestamp): (r: Result<Handle, Failure>)
    ensures r.Err? && r.error.Foreign? ==> r.error.kind != DatabaseError
    ensures Password(config, driver).Ok? && ChooseAddress(config).None? ==>
              r == Err(Etl(NewEtlError(MissingAddress, None, None, None, now)))
    ensures var p := Password(config, driver);
            p.Err? && !(p.error.Foreign? && p.error.kind == DatabaseError) ==> r == Err(p.error)
    ensures var p := Password(config, driver);
            var a := ChooseAddress(config);
            p.Ok? && a.Some? ==>
              var made := driver.createPool(PoolParamsOf(config, p.value, a.value));
              && (made.Ok? ==> r == made)
              && (made.Err? && made.error.Foreign? && made.error.kind == DatabaseError ==>
                    r == Err(Etl(NewEtlError("Oracle pool creation failed: " + Text(made.error), None, None, None, now))))
              && (made.Err? && !(made.error.Foreign? && made.error.kind == DatabaseError) ==> r == made)
  {
    var steps: Result<Handle, Failure> :=
      var password :- Password(config, driver);
      match ChooseAddress(config)
      case None => Err(Etl(NewEtlError(MissingAddress, None, None, None, now)))
      case Some(a) => driver.createPool(PoolParamsOf(config, password, a));
    match steps
    case Ok(h) => Ok(h)
    case Err(f) =>
      if f.Foreign? && f.kind == DatabaseError
      then Err(Etl(NewEtlError("Oracle pool creation failed: " + Text(f), None, None, None, now)))
      else Err(f)
  }

  /** The pool is created with whatever bounds the configuration gives, even min > max. */
  lemma PoolBoundsUnchecked(config: Config, driver: Driver, now: Timestamp, password: Value, a: Address)
    requires Password(config, driver) == Ok(password) && ChooseAddress(config) == Some(a)
    requires driver.createPool(PoolParamsOf(config, password, a)).Ok?
    ensures BuildPool(config, driver, now) == driver.createPool(PoolParamsOf(config, password, a))
  {
  }

  /** The URL `create_sqlalchemy_engine` connects to. */
  function EngineUrl(user: Value, password: Value, host: Value, port: Value, a: Address): (url: string)
    ensures a.ServiceName? ==> url == "oracle+oracledb://" + PyStr(user) + ":" + PyStr(password) + "@"
                                  + PyStr(host) + ":" + PyStr(port) + "/?service_name=" + PyStr(a.service)
    ensures a.Sid? ==> url == "oracle+oracledb://" + PyStr(user) + ":" + PyStr(password) + "@"
                            + PyStr(host) + ":" + PyStr(port) + "/" + PyStr(a.sid)
  {
    var prefix := "oracle+oracledb://" + PyStr(user) + ":" + PyStr(password) + "@" + PyStr(host) + ":" + PyStr(port);
    match a
    case ServiceName(s) => prefix + "/?service_name=" + PyStr(s)
    case Sid(s) => prefix + "/" + PyStr(s)
  }

  /** The engine settings, with the defaults 10, 20, 30, 3600 and no echo. */
  function EngineParamsOf(config: Config): (p: EngineParams)
    ensures p.poolSize == GetOr(config, "pool_size", Int(10))
    ensures p.maxOverflow == GetOr(config, "max_overflow", Int(20))
    ensures p.poolTimeout == GetOr(config, "pool_timeout", Int(30))
    ensures p.poolRecycle == GetOr(config, "pool_recycle", Int(3600))
    ensures p.echo == GetOr(config, "echo", Bool(false))
  {
    EngineParams(GetOr(config, "pool_size", Int(10)), GetOr(config, "max_overflow", Int(20)),
                 GetOr(config, "pool_timeout", Int(30)), GetOr(config, "pool_recycle", Int(3600)),
                 GetOr(config, "echo", Bool(false)))
  }

  /**
   `create_sqlalchemy_engine(config)`: build the URL, create the engine, run
   the test query; every failure becomes "SQLAlchemy engine creation failed: ...".
   */
  function BuildEngine(config: Config, driver: Driver, now: Timestamp): (r: Result<Handle, EtlError>)
    ensures r.Err? ==> r.error.cls == EtlBase && r.error.code == GenericCode && r.error.category == UnknownCategory
    ensures r.Ok? ==> ChooseAddress(config).Some? && driver.probeEngine(r.value).None?
  {
    var steps: Result<Handle, Failure> :=
      var password :- Password(config, driver);
      match ChooseAddress(config)
      case None => Err(Etl(NewEtlError(MissingAddress, None, None, None, now)))
      case Some(a) =>
        var url := EngineUrl(Setting(config, "username"), password, Setting(config, "host"),
                             GetOr(config, "port", DefaultPort), a);
        var engine :- driver.createEngine(url, EngineParamsOf(config));
        match driver.probeEngine(engine)
        case Some(f) => Err(f)
        case None => Ok(engine);
    match steps
    case Ok(h) => Ok(h)
    case Err(f) => Err(NewEtlError("SQLAlchemy engine creation failed: " + Text(f), None, None, None, now))
  }

  /**
   The engine is created from `EngineUrl` over username, password, host, the
   port (default 1521) and the chosen address, with `EngineParamsOf`; it is
   returned exactly when creation and the test query both succeed, and a
   failure of either is wrapped as "SQLAlchemy engine creation failed: ...".
   */
  lemma EngineBuilt(config: Config, driver: Driver, now: Timestamp, password: Value, a: Address)
    requires Password(config, driver) == Ok(password) && ChooseAddress(config) == Some(a)
    ensures var made := driver.createEngine(EngineUrl(Setting(config, "username"), password, Setting(config, "host"),
                                                      GetOr(config, "port", DefaultPort), a),
                                            EngineParamsOf(config));
            && (BuildEngine(config, driver, now).Ok? <==> made.Ok? && driver.probeEngine(made.value).None?)
            && (made.Ok? && driver.probeEngine(made.value).None? ==> BuildEngine(config, driver, now) == Ok(made.value))
            && (made.Err? ==> BuildEngine(config, driver, now)
                              == Err(NewEtlError("SQLAlchemy engine creation failed: " + Text(made.error), None, None, None, now)))
            && (made.Ok? && driver.probeEngine(made.value).Some? ==>
                  BuildEngine(config, driver, now)
                  == Err(NewEtlError("SQLAlchemy engine creation failed: " + Text(driver.probeEngine(made.value).value),
                                     None, None, None, now)))
  {
  }

  /** A password that does not read, or a missing address, fails the engine with the wrapped message. */
  lemma EngineNeedsPasswordAndAddress(config: Config, driver: Driver, now: Timestamp)
    ensures Password(config, driver).Err? ==>
              BuildEngine(config, driver, now)
              == Err(NewEtlError("SQLAlchemy engine creation failed: " + Text(Password(config, driver).error), None, None, None, now))
    ensures Password(config, driver).Ok? && ChooseAddress(config).None? ==>
              BuildEngine(config, driver, now)
              == Err(NewEtlError("SQLAlchemy engine creation failed: " + MissingAddress, None, None, None, now))
  {
  }
}
