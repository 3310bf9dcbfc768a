/**
 The connection manager's registry of named connections and pools, the
 pooled-connection scope, the connection test with its back-off, and the
 statement helpers with their error wrapping. The lock around the registry is
 not modelled: every operation here is one step on an immutable registry.
 */
module Registry {
  import opened Base
  import opened Dicts
  import opened Values
  import opened Exceptions
  import opened Sessions

  /** `_connections` and `_pools`, name to driver object. */
  datatype Registry = Registry(connections: Dict<Handle>, pools: Dict<Handle>)

  /** The registry a fresh manager starts with. */
  const Empty := Registry([], [])

  /** What a `get_*` call returns, the registry after it, and whether it built a new object. */
  datatype Lookup<E> = Lookup(result: Result<Handle, E>, registry: Registry, built: bool)

  /**
   `get_connection(name, config)`: a registered name answers with its stored
   connection and builds nothing; otherwise a connection is built and, only if
   that succeeds, registered under the name.
   */
  function GetConnection(r: Registry, name: string, config: Config, driver: Driver, now: Timestamp)
    : (l: Lookup<EtlError>)
    ensures l.registry.pools == r.pools
    ensures HasKey(r.connections, name) ==>
              !l.built && l.registry == r && l.result.Ok? && Get(r.connections, name) == Some(l.result.value)
    ensures !HasKey(r.connections, name) ==>
              l.built && l.result == BuildConnection(config, driver, now)
    ensures l.result.Ok? ==> Get(l.registry.connections, name) == Some(l.result.value)
    ensures l.result.Err? ==> l.registry == r
    ensures forall k :: k != name ==> Get(l.registry.connections, k) == Get(r.connections, k)
  {
    GetFound(r.connections, name);
    match Get(r.connections, name)
    case Some(h) => Lookup(Ok(h), r, false)
    case None =>
      match BuildConnection(config, driver, now)
      case Ok(h) => Lookup(Ok(h), r.(connections := Put(r.connections, name, h)), true)
      case Err(e) => Lookup(Err(e), r, true)
  }

  /**
   A successful lookup is cached: asking again for the same name, with any
   configuration, answers with the same connection and builds nothing.
   */
  lemma ConnectionCached(r: Registry, name: string, config: Config, driver: Driver, now: Timestamp,
                         config': Config, driver': Driver, now': Timestamp)
    requires GetConnection(r, name, config, driver, now).result.Ok?
    ensures var l := GetConnection(r, name, config, driver, now);
            var l' := GetConnection(l.registry, name, config', driver', now');
            !l'.built && l'.registry == l.registry && l'.result == l.result
  {
    var l := GetConnection(r, name, config, driver, now);
    GetFound(l.registry.connections, name);
  }

  /** `get_pool(name, config)`: the same caching rule for pools. */
  function GetPool(r: Registry, name: string, config: Config, driver: Driver, now: Timestamp)
    : (l: Lookup<Failure>)
    ensures l.registry.connections == r.connections
    ensures HasKey(r.pools, name) ==>
              !l.built && l.registry == r && l.result.Ok? && Get(r.pools, name) == Some(l.result.value)
    ensures !HasKey(r.pools, name) ==>
              l.built && l.result == BuildPool(config, driver, now)
    ensures l.result.Ok? ==> Get(l.registry.pools, name) == Some(l.result.value)
    ensures l.result.Err? ==> l.registry == r
    ensures forall k :: k != name ==> Get(l.registry.pools, k) == Get(r.pools, k)
  {
    GetFound(r.pools, name);
    match Get(r.pools, name)
    case Some(h) => Lookup(Ok(h), r, false)
    case None =>
      match BuildPool(config, driver, now)
      case Ok(h) => Lookup(Ok(h), r.(pools := Put(r.pools, name, h)), true)
      case Err(e) => Lookup(Err(e), r, true)
  }

  /** A pool once obtained is the pool every later lookup of that name answers with. */
  lemma PoolCached(r: Registry, name: string, config: Config, driver: Driver, now: Timestamp,
                   config': Config, driver': Driver, now': Timestamp)
    requires GetPool(r, name, config, driver, now).result.Ok?
    ensures var l := GetPool(r, name, config, driver, now);
            var l' := GetPool(l.registry, name, config', driver', now');
            !l'.built && l'.registry == l.registry && l'.result == l.result
  {
    var l := GetPool(r, name, config, driver, now);
    GetFound(l.registry.pools, name);
  }

  /** The calls `get_pooled_connection` makes on the pool and the connection it hands out. */
  datatype PoolCall = Acquire | Rollback(conn: Handle) | Release(conn: Handle)

  /**
   The end of a `with get_pooled_connection(...)` block: the failure it lets
   escape (none if the block completed), the registry, and the pool calls.
   */
  datatype Pooled = Pooled(escaped: Option<Failure>, registry: Registry, calls: seq<PoolCall>)

  /**
   `get_pooled_connection(name, config)` around a block `body`. `acquire` is
   the pool's answer to `acquire()`. Failures of `rollback()` and `release()`
   are swallowed, so only whether they are called is visible.
   */
  function PooledConnection(r: Registry, name: string, config: Config, driver: Driver, now: Timestamp,
                            acquire: Handle -> Result<Handle, Failure>, body: Handle -> Option<Failure>)
    : (p: Pooled)
    ensures p.registry == GetPool(r, name, config, driver, now).registry
    ensures GetPool(r, name, config, driver, now).result.Err? ==>
              p.escaped == Some(GetPool(r, name, config, driver, now).result.error) && p.calls == []
    ensures GetPool(r, name, config, driver, now).result.Ok? ==> |p.calls| >= 1 && p.calls[0] == Acquire
  {
    var l := GetPool(r, name, config, driver, now);
    match l.result
    case Err(f) => Pooled(Some(f), l.registry, [])
    case Ok(pool) =>
      match acquire(pool)
      case Err(f) => Pooled(Some(f), l.registry, [Acquire])
      case Ok(c) =>
        match body(c)
        case None => Pooled(None, l.registry, [Acquire, Release(c)])
        case Some(f) => Pooled(Some(f), l.registry, [Acquire, Rollback(c), Release(c)])
  }

  /** How often a call occurs in a trace. */
  function Occurrences(calls: seq<PoolCall>, c: PoolCall): nat {
    multiset(calls)[c]
  }

  /**
   A connection that was acquired is released exactly once, as the last call,
   and rolled back exactly when the block failed; the block's own failure is
   what escapes, whatever rollback and release do.
   */
  lemma AcquiredIsReleasedOnce(r: Registry, name: string, config: Config, driver: Driver, now: Timestamp,
                               acquire: Handle -> Result<Handle, Failure>, body: Handle -> Option<Failure>)
    requires GetPool(r, name, config, driver, now).result.Ok?
    requires acquire(GetPool(r, name, config, driver, now).result.value).Ok?
    ensures var c := acquire(GetPool(r, name, config, driver, now).result.value).value;
            var p := PooledConnection(r, name, config, driver, now, acquire, body);
            && Occurrences(p.calls, Release(c)) == 1
            && p.calls[|p.calls| - 1] == Release(c)
            && (Occurrences(p.calls, Rollback(c)) == 1 <==> body(c).Some?)
            && Occurrences(p.calls, Rollback(c)) <= 1
            && p.escaped == body(c)
  {
  }

  /** A failed `acquire()` escapes as raised, and nothing is rolled back or released. */
  lemma AcquireFailureEscapes(r: Registry, name: string, config: Config, driver: Driver, now: Timestamp,
                              acquire: Handle -> Result<Handle, Failure>, body: Handle -> Option<Failure>)
    requires GetPool(r, name, config, driver, now).result.Ok?
    requires acquire(GetPool(r, name, config, driver, now).result.value).Err?
    ensures var p := PooledConnection(r, name, config, driver, now, acquire, body);
            p.calls == [Acquire]
            && p.escaped == Some(acquire(GetPool(r, name, config, driver, now).result.value).error)
  {
  }

  /**
   `test_connection(config, retry_count)`. `succeeds(i)` says whether attempt
   `i` (build a connection, run `SELECT 1 FROM DUAL`, close both) goes through.
   Returns the verdict, the number of attempts made, and the sleeps taken
   between them: `2 ** i` seconds after failed attempt `i`, except after the last.
   */
  method TestConnection(succeeds: nat -> bool, retryCount: int) returns (ok: bool, calls: nat, sleeps: seq<nat>)
    ensures ok <==> exists i: nat :: i < retryCount && succeeds(i)
    ensures ok ==> 1 <= calls && succeeds(calls - 1)
    ensures forall i: nat :: i + 1 < calls ==> !succeeds(i)
    ensures !ok ==> calls == Max(retryCount, 0)
    ensures calls == 0 <==> retryCount <= 0
    ensures calls >= 1 ==> sleeps == Backoff(2, calls - 1)
    ensures calls == 0 ==> sleeps == []
  {
    ok, calls, sleeps := false, 0, [];
    var attempt: nat := 0;
    while attempt < retryCount
      invariant attempt <= Max(retryCount, 0)
      invariant attempt == 0 || attempt < retryCount
      invariant calls == attempt
      invariant forall i: nat :: i < attempt ==> !succeeds(i)
      invariant sleeps == Backoff(2, attempt)
      decreases retryCount - attempt
    {
      calls := calls + 1;
      if succeeds(attempt) {
        ok := true;
        return;
      }
      if attempt < retryCount - 1 {
        sleeps := sleeps + [Pow(2, attempt)];
      } else {
        return;
      }
      attempt := attempt + 1;
    }
  }

  /** The calls `execute_ddl` makes on the connection and its cursor. */
  datatype DdlCall = OpenCursor | Execute | Commit | RollbackDdl | CloseCursor

  datatype DdlOutcome = DdlOutcome(result: Result<bool, Failure>, calls: seq<DdlCall>)

  /**
   The driver's answers to the calls of one `execute_ddl`: `cursor()`,
   `execute(ddl)`, `commit()`, `rollback()` and `cursor.close()`.
   */
  datatype DdlAnswers = DdlAnswers(
    cursor: Result<Handle, Failure>,
    execute: Option<Failure>,
    commit: Option<Failure>,
    rollback: Option<Failure>,
    close: Option<Failure>)

  /** The first failure among opening the cursor, executing and committing. */
  function DdlFailure(a: DdlAnswers): Option<Failure> {
    if a.cursor.Err? then Some(a.cursor.error)
    else if a.execute.Some? then a.execute
    else a.commit
  }

  /**
   `execute_ddl(connection, ddl)`. A failure rolls back and raises "DDL
   execution failed: ..."; an exception from `rollback()` replaces that, and an
   exception from closing the cursor in `finally` replaces whatever came before,
   a success included.
   */
  function ExecuteDdl(a: DdlAnswers, now: Timestamp): (o: DdlOutcome)
    ensures o.result.Ok? <==> DdlFailure(a).None? && (a.cursor.Err? || a.close.None?)
    ensures o.result.Ok? ==> o.result.value
    ensures (CloseCursor in o.calls) <==> a.cursor.Ok?
    ensures (RollbackDdl in o.calls) <==> DdlFailure(a).Some?
    ensures (Commit in o.calls) <==> a.cursor.Ok? && a.execute.None?
    ensures DdlFailure(a).Some? && a.rollback.None? && (a.cursor.Err? || a.close.None?) ==>
              o.result == Err(Etl(NewEtlError("DDL execution failed: " + Text(DdlFailure(a).value), None, None, None, now)))
    ensures a.cursor.Ok? && a.close.Some? ==> o.result == Err(a.close.value)
  {
    var steps := [OpenCursor] + (if a.cursor.Ok? then [Execute] + (if a.execute.None? then [Commit] else []) else []);
    var fail := DdlFailure(a);
    var recovery := if fail.Some? then [RollbackDdl] else [];
    var closing := if a.cursor.Ok? then [CloseCursor] else [];
    var body: Result<bool, Failure> :=
      match fail
      case None => Ok(true)
      case Some(f) =>
        if a.rollback.Some? then Err(a.rollback.value)
        else Err(Etl(NewEtlError("DDL execution failed: " + Text(f), None, None, None, now)));
    var result := if a.cursor.Ok? && a.close.Some? then Err(a.close.value) else body;
    DdlOutcome(result, steps + recovery + closing)
  }

  /** Calls happen in protocol order: the cursor first, commit only right after a clean execute, close last. */
  lemma DdlCallOrder(a: DdlAnswers, now: Timestamp)
    ensures var o := ExecuteDdl(a, now);
            && o.calls[0] == OpenCursor
            && (forall i :: 0 <= i < |o.calls| && o.calls[i] == Commit ==> i == 2 && o.calls[1] == Execute)
            && (CloseCursor in o.calls ==> o.calls[|o.calls| - 1] == CloseCursor)
  {
  }

  /** A query result, rows of column name to value. */
  type Frame = seq<Dict<Value>>

  /**
   `execute_query(connection, query, parameters)`. `read` stands for
   `pandas.read_sql_query`, called with the parameters only when they are
   truthy; any failure becomes "Query execution failed: ...".
   */
  function ExecuteQuery(query: string, parameters: Value,
                        read: (string, Option<Value>) -> Result<Frame, Failure>, now: Timestamp)
    : (r: Result<Frame, EtlError>)
    ensures Truthy(parameters) && read(query, Some(parameters)).Ok? ==> r == Ok(read(query, Some(parameters)).value)
    ensures !Truthy(parameters) && read(query, None).Ok? ==> r == Ok(read(query, None).value)
    ensures r.Err? ==> r.error.cls == EtlBase && r.error.category == UnknownCategory
    ensures var args := if Truthy(parameters) then Some(parameters) else None;
            read(query, args).Err? ==>
              r == Err(NewEtlError("Query execution failed: " + Text(read(query, args).error), None, None, None, now))
  {
    var args := if Truthy(parameters) then Some(parameters) else None;
    match read(query, args)
    case Ok(frame) => Ok(frame)
    case Err(f) => Err(NewEtlError("Query execution failed: " + Text(f), None, None, None, now))
  }

  /** Empty parameters, `None` and `{}` alike, run the query exactly as no parameters do. */
  lemma EmptyParametersIgnored(query: string, parameters: Value,
                               read: (string, Option<Value>) -> Result<Frame, Failure>, now: Timestamp)
    requires parameters == Null || parameters == Obj([]) || parameters == List([])
    ensures ExecuteQuery(query, parameters, read, now) == ExecuteQuery(query, Null, read, now)
  {
  }

  /**
   `close_connection(name)`: an unknown name changes nothing; a connection
   whose `close()` succeeds is forgotten, one whose `close()` fails stays
   registered.
   */
  function CloseConnection(r: Registry, name: string, close: Handle -> Option<Failure>): (r': Registry)
    ensures r'.pools == r.pools
    ensures forall k :: k != name ==> Get(r'.connections, k) == Get(r.connections, k)
    ensures Get(r.connections, name).Some? && close(Get(r.connections, name).value).None? ==>
              !HasKey(r'.connections, name)
    ensures !(Get(r.connections, name).Some? && close(Get(r.connections, name).value).None?) ==> r' == r
  {
    GetFound(r.connections, name);
    match Get(r.connections, name)
    case None => r
    case Some(h) => if close(h).None? then r.(connections := Remove(r.connections, name)) else r
  }

  /** `close_pool(name)`: the same rule for pools. */
  function ClosePool(r: Registry, name: string, close: Handle -> Option<Failure>): (r': Registry)
    ensures r'.connections == r.connections
    ensures forall k :: k != name ==> Get(r'.pools, k) == Get(r.pools, k)
    ensures Get(r.pools, name).Some? && close(Get(r.pools, name).value).None? ==> !HasKey(r'.pools, name)
    ensures !(Get(r.pools, name).Some? && close(Get(r.pools, name).value).None?) ==> r' == r
  {
    GetFound(r.pools, name);
    match Get(r.pools, name)
    case None => r
    case Some(h) => if close(h).None? then r.(pools := Remove(r.pools, name)) else r
  }

  /** After a successful close the name is free: the next lookup builds a new connection. */
  lemma CloseThenGetRebuilds(r: Registry, name: string, close: Handle -> Option<Failure>,
                             config: Config, driver: Driver, now: Timestamp)
    requires Get(r.connections, name).Some?
    requires close(Get(r.connections, name).value).None?
    ensures GetConnection(CloseConnection(r, name, close), name, config, driver, now).built
  {
  }

  /**
   `close_all()`: every connection and then every pool is closed in
   registration order, failures are swallowed, and both maps are cleared.
   */
  function CloseAll(r: Registry): (closed: (seq<Handle>, Registry))
    ensures closed.1 == Empty
    ensures |closed.0| == |r.connections| + |r.pools|
    ensures forall i :: 0 <= i < |r.connections| ==> closed.0[i] == r.connections[i].1
    ensures forall i :: 0 <= i < |r.pools| ==> closed.0[|r.connections| + i] == r.pools[i].1
  {
    (Dicts.Values(r.connections) + Dicts.Values(r.pools), Empty)
  }

  /** Every registered object is closed by `close_all`, whatever name it sits under. */
  lemma CloseAllClosesEverything(r: Registry, name: string)
    ensures Get(r.connections, name).Some? ==> Get(r.connections, name).value in CloseAll(r).0
    ensures Get(r.pools, name).Some? ==> Get(r.pools, name).value in CloseAll(r).0
  {
    GetInValues(r.connections, name);
    GetInValues(r.pools, name);
  }
}
