/**
 The configuration manager: where a configuration file is looked for, how a
 file becomes a configuration (environment overrides, then substitution, then
 the validator for its kind), the cache, and the lookups into the loaded
 configurations. The file system and the YAML/JSON parsers are the oracle
 `Files`; the process environment is a map.
 */
module ConfigFiles {
  import opened Base
  import opened Dicts
  import opened Values
  import opened Exceptions
  import opened Merging
  import opened Substitution

  /** A `ConfigurationError` from the configuration manager (not an ETL exception). */
  function ConfigError(message: string): (f: Failure)
    ensures f.Foreign? && f.kind == ConfigurationError && Text(f) == message
  {
    Foreign(ConfigurationError, message)
  }

  /** A Python-level fault raised as the failure it is. */
  function Raise<T>(r: Result<T, PyFault>): (r': Result<T, Failure>)
    ensures r.Ok? <==> r'.Ok?
    ensures r.Ok? ==> r'.value == r.value
    ensures r.Err? ==> r'.error == FromFault(r.error)
  {
    match r
    case Ok(v) => Ok(v)
    case Err(p) => Err(FromFault(p))
  }

  /**
   The oracle for everything on disk: which paths exist, and what a file
   parses to (`yaml.safe_load` or `json.load`, before `or {}`), with parse and
   read errors already raised as the `ConfigurationError` the reader makes of them.
   */
  datatype Files = Files(present: string -> bool, parse: string -> Result<Value, Failure>)

  /** Where and for which environment configurations are loaded, and the environment variables. */
  datatype Loader = Loader(dir: string, environment: string, files: Files, env: Env)

  /** `config_dir / file`. */
  function PathIn(dir: string, file: string): string {
    dir + "/" + file
  }

  /** The files `_find_config_file` tries, in order. */
  function Candidates(dir: string, name: string, environment: string): (c: seq<string>)
    ensures |c| == 3
  {
    [PathIn(dir, name + "." + environment + ".yml"), PathIn(dir, name + ".yml"), PathIn(dir, name + ".json")]
  }

  /** The first path of `paths` that exists. */
  function FirstExisting(paths: seq<string>, present: string -> bool): (r: Option<nat>)
    ensures r.Some? ==> r.value < |paths| && present(paths[r.value])
    ensures r.Some? ==> forall i :: 0 <= i < r.value ==> !present(paths[i])
    ensures r.None? ==> forall i :: 0 <= i < |paths| ==> !present(paths[i])
  {
    if paths == [] then None
    else if present(paths[0]) then Some(0)
    else
      match FirstExisting(paths[1..], present)
      case Some(i) => assert paths[1..][i] == paths[i + 1]; Some(i + 1)
      case None => assert forall i :: 1 <= i < |paths| ==> paths[i] == paths[1..][i - 1]; None
  }

  /**
   `_find_config_file(name)`: the environment's own YAML file, else the plain
   YAML file, else the JSON file, else nothing.
   */
  function FindConfigFile(loader: Loader, name: string): (f: Option<string>)
    ensures var c := Candidates(loader.dir, name, loader.environment);
            && (f.Some? <==> exists i :: 0 <= i < 3 && loader.files.present(c[i]))
            && (f.Some? ==> f.value in c && loader.files.present(f.value))
            && (loader.files.present(c[0]) ==> f == Some(c[0]))
            && (!loader.files.present(c[0]) && loader.files.present(c[1]) ==> f == Some(c[1]))
  {
    var c := Candidates(loader.dir, name, loader.environment);
    match FirstExisting(c, loader.files.present)
    case Some(i) => Some(c[i])
    case None => None
  }

  /** `_load_raw_config(file)`: the parsed document, with an empty document read as `{}`. */
  function LoadRaw(files: Files, file: string): (r: Result<Value, Failure>)
    ensures r.Ok? ==> Truthy(r.value) || r.value == Obj([])
    ensures files.parse(file).Err? ==> r == Err(files.parse(file).error)
    ensures files.parse(file).Ok? && Truthy(files.parse(file).value) ==> r == files.parse(file)
    ensures files.parse(file).Ok? && !Truthy(files.parse(file).value) ==> r == Ok(Obj([]))
  {
    var doc :- files.parse(file);
    if Truthy(doc) then Ok(doc) else Ok(Obj([]))
  }

  /** The five configurations the manager knows a validator for. */
  const ConfigNames: seq<string> := ["database_configs", "etl_jobs", "transformation_rules", "schedule_config", "logging_config"]

  /**
   The first of `fields` that `field in container` reports absent, or the
   error `in` raises on a container that does not support it.
   */
  function FirstMissing(container: Value, fields: seq<string>): (r: Result<Option<string>, PyFault>)
    ensures r.Err? <==> fields != [] && Contains(container, fields[0]).Err?
    ensures r == Ok(None) <==> HasAll(container, fields)
    ensures r.Ok? && r.value.Some? ==> r.value.value in fields && Contains(container, r.value.value) == Ok(false)
    ensures fields != [] && Contains(container, fields[0]) == Ok(false) ==> r == Ok(Some(fields[0]))
    ensures fields != [] && Contains(container, fields[0]) == Ok(true) ==> r == FirstMissing(container, fields[1..])
  {
    if fields == [] then Ok(None)
    else
      match Contains(container, fields[0])
      case Err(p) => Err(p)
      case Ok(false) => Ok(Some(fields[0]))
      case Ok(true) =>
        var rest := FirstMissing(container, fields[1..]);
        assert forall i :: 1 <= i < |fields| ==> fields[i] == fields[1..][i - 1];
        rest
  }

  /** Every one of `fields` is `in` the container. */
  predicate HasAll(container: Value, fields: seq<string>) {
    forall i :: 0 <= i < |fields| ==> Contains(container, fields[i]) == Ok(true)
  }

  /** What a database entry's `connection` section must hold, by lower-cased database type. */
  predicate ConnectionValid(kind: string, connection: Value) {
    if kind == "sqlserver" then HasAll(connection, ["server", "database"])
    else if kind == "mysql" || kind == "postgresql" then HasAll(connection, ["host", "database"])
    else if kind == "oracle" then HasAll(connection, ["host", "service_name"]) || HasAll(connection, ["tns_alias"])
    else true
  }

  /** A database entry the validator accepts: a dictionary with a string `type` and a `connection` that suits it. */
  predicate DatabaseEntryValid(db: Value) {
    && db.Obj?
    && HasKey(db.fields, "type") && HasKey(db.fields, "connection")
    && GetOr(db.fields, "type", Null).Str?
    && ConnectionValid(AsciiLower(GetOr(db.fields, "type", Null).s), GetOr(db.fields, "connection", Null))
  }

  /** The check of a connection section once the type is known. */
  function CheckConnection(name: string, kind: string, connection: Value): (r: Option<Failure>)
    ensures r.None? <==> ConnectionValid(kind, connection)
  {
    if kind == "sqlserver" then RequireConnection("SQL Server '" + name + "'", connection, ["server", "database"])
    else if kind == "mysql" then RequireConnection("MySQL '" + name + "'", connection, ["host", "database"])
    else if kind == "postgresql" then RequireConnection("PostgreSQL '" + name + "'", connection, ["host", "database"])
    else if kind == "oracle" then
      match FirstMissing(connection, ["host", "service_name"])
      case Err(p) =>
        assert !HasAll(connection, ["host", "service_name"]) by {
          assert Contains(connection, ["host", "service_name"][0]).Err?;
        }
        assert !HasAll(connection, ["tns_alias"]) by {
          assert Contains(connection, ["tns_alias"][0]).Err?;
        }
        Some(FromFault(p))
      case Ok(missing) =>
        match Contains(connection, "tns_alias")
        case Err(p) => Some(FromFault(p))
        case Ok(hasTns) =>
          if missing.None? || hasTns then None
          else
            assert !HasAll(connection, ["tns_alias"]) by {
              assert Contains(connection, ["tns_alias"][0]) == Ok(false);
            }
            Some(ConfigError("Oracle '" + name + "' must have either host/service_name or tns_alias"))
    else None
  }

  function RequireConnection(subject: string, connection: Value, fields: seq<string>): (r: Option<Failure>)
    ensures r.None? <==> HasAll(connection, fields)
  {
    match FirstMissing(connection, fields)
    case Err(p) => Some(FromFault(p))
    case Ok(Some(f)) => Some(ConfigError(subject + " missing required connection field: " + f))
    case Ok(None) => None
  }

  /** "Database 'name' missing required field: field". */
  function MissingDatabaseField(name: string, field: string): Failure {
    ConfigError("Database '" + name + "' missing required field: " + field)
  }

  /**
   `_validate_single_database_config(name, db)`: `type` and then `connection`
   are required, the type is compared lower-cased, and each known type needs
   its connection fields; an unknown type passes.
   */
  function ValidateDatabase(name: string, db: Value): (r: Option<Failure>)
    ensures r.None? <==> DatabaseEntryValid(db)
    ensures db.Obj? && !HasKey(db.fields, "type") ==>
              r == Some(MissingDatabaseField(name, "type"))
    ensures db.Obj? && HasKey(db.fields, "type") && !HasKey(db.fields, "connection") ==>
              r == Some(MissingDatabaseField(name, "connection"))
  {
    var required := ["type", "connection"];
    assert required[0] == "type" && required[1..] == ["connection"];
    match FirstMissing(db, required)
    case Err(p) => Some(FromFault(p))
    case Ok(Some(f)) =>
      Some(MissingDatabaseField(name, f))
    case Ok(None) =>
      match Index(db, "type")
      case Err(p) => Some(FromFault(p))
      case Ok(t) =>
        match Lower(t)
        case Err(p) => Some(FromFault(p))
        case Ok(kind) =>
          match Index(db, "connection")
          case Err(p) => Some(FromFault(p))
          case Ok(connection) =>
            GetFound(db.fields, "type");
            GetFound(db.fields, "connection");
            CheckConnection(name, kind, connection)
  }

  /** The first failing entry of a section of database entries. */
  function ValidateDatabases(entries: Dict<Value>): (r: Option<Failure>)
    ensures r.None? <==> forall i :: 0 <= i < |entries| ==> DatabaseEntryValid(entries[i].1)
  {
    if entries == [] then None
    else
      match ValidateDatabase(entries[0].0, entries[0].1)
      case Some(f) => Some(f)
      case None =>
        assert forall i :: 1 <= i < |entries| ==> entries[i] == entries[1..][i - 1];
        ValidateDatabases(entries[1..])
  }

  /** The entries of `config[key]`, raising as Python does on the way. */
  function Section(config: Value, key: string): (r: Result<Dict<Value>, Failure>)
    ensures r.Ok? <==> config.Obj? && HasKey(config.fields, key) && GetOr(config.fields, key, Null).Obj?
    ensures r.Ok? ==> r.value == GetOr(config.fields, key, Null).fields
  {
    var section :- Raise(Index(config, key));
    GetFound(config.fields, key);
    Raise(Items(section))
  }

  /**
   `_validate_database_config`: a `target` section is required, and every
   entry of it, then of `sources` when present, must be a valid database entry.
   */
  function ValidateDatabaseConfig(config: Value): (r: Option<Failure>)
    ensures config.Obj? && !HasKey(config.fields, "target") ==>
              r == Some(ConfigError("Database config must have 'target' section"))
    ensures r.None? ==>
              && config.Obj? && Section(config, "target").Ok?
              && (forall i :: 0 <= i < |Section(config, "target").value| ==>
                    DatabaseEntryValid(Section(config, "target").value[i].1))
  {
    match Contains(config, "target")
    case Err(p) => Some(FromFault(p))
    case Ok(false) => Some(ConfigError("Database config must have 'target' section"))
    case Ok(true) =>
      match Section(config, "target")
      case Err(f) => Some(f)
      case Ok(targets) =>
        match ValidateDatabases(targets)
        case Some(f) => Some(f)
        case None =>
          if !HasKey(config.fields, "sources") then None
          else
            match Section(config, "sources")
            case Err(f) => Some(f)
            case Ok(sources) => ValidateDatabases(sources)
  }

  /** With both sections dictionaries, the database configuration is valid exactly when every entry of each is. */
  lemma DatabaseConfigValid(config: Dict<Value>)
    requires Section(Obj(config), "target").Ok?
    requires HasKey(config, "sources") ==> Section(Obj(config), "sources").Ok?
    ensures ValidateDatabaseConfig(Obj(config)).None? <==>
            && (forall i :: 0 <= i < |Section(Obj(config), "target").value| ==>
                  DatabaseEntryValid(Section(Obj(config), "target").value[i].1))
            && (HasKey(config, "sources") ==>
                  forall i :: 0 <= i < |Section(Obj(config), "sources").value| ==>
                    DatabaseEntryValid(Section(Obj(config), "sources").value[i].1))
  {
  }

  /** The job fields every job entry needs. */
  const JobFields: seq<string> := ["source", "target", "extraction"]

  function ValidateJobs(jobs: Dict<Value>): (r: Option<Failure>)
    ensures r.None? <==> forall i :: 0 <= i < |jobs| ==> HasAll(jobs[i].1, JobFields)
  {
    if jobs == [] then None
    else
      match FirstMissing(jobs[0].1, JobFields)
      case Err(p) => Some(FromFault(p))
      case Ok(Some(f)) => Some(ConfigError("Job '" + jobs[0].0 + "' missing required field: " + f))
      case Ok(None) =>
        assert forall i :: 1 <= i < |jobs| ==> jobs[i] == jobs[1..][i - 1];
        ValidateJobs(jobs[1..])
  }

  /** `_validate_job_config`: a `jobs` section whose every entry has a source, a target and an extraction. */
  function ValidateJobConfig(config: Value): (r: Option<Failure>)
    ensures config.Obj? && !HasKey(config.fields, "jobs") ==>
              r == Some(ConfigError("Job config must have 'jobs' section"))
    ensures r.None? <==>
              Section(config, "jobs").Ok?
              && forall i :: 0 <= i < |Section(config, "jobs").value| ==> HasAll(Section(config, "jobs").value[i].1, JobFields)
  {
    match Contains(config, "jobs")
    case Err(p) => Some(FromFault(p))
    case Ok(false) => Some(ConfigError("Job config must have 'jobs' section"))
    case Ok(true) =>
      match Section(config, "jobs")
      case Err(f) => Some(f)
      case Ok(jobs) => ValidateJobs(jobs)
  }

  /** A schedule names a `cron` expression or an `interval`. */
  predicate ScheduleValid(schedule: Value) {
    Contains(schedule, "cron") == Ok(true) || Contains(schedule, "interval") == Ok(true)
  }

  function ValidateSchedules(jobs: Dict<Value>): (r: Option<Failure>)
    ensures r.None? <==> forall i :: 0 <= i < |jobs| ==> ScheduleValid(jobs[i].1)
  {
    if jobs == [] then None
    else
      match Contains(jobs[0].1, "cron")
      case Err(p) => Some(FromFault(p))
      case Ok(hasCron) =>
        if !hasCron && Contains(jobs[0].1, "interval") == Ok(false) then
          Some(ConfigError("Schedule for job '" + jobs[0].0 + "' must have either 'cron' or 'interval'"))
        else
          assert forall i :: 1 <= i < |jobs| ==> jobs[i] == jobs[1..][i - 1];
          ValidateSchedules(jobs[1..])
  }

  /** `_validate_schedule_config`: when there is a `jobs` section, every schedule in it has a cron or an interval. */
  function ValidateScheduleConfig(config: Value): (r: Option<Failure>)
    ensures Contains(config, "jobs") == Ok(false) ==> r.None?
    ensures Contains(config, "jobs") == Ok(true) ==>
              (r.None? <==> Section(config, "jobs").Ok?
                            && forall i :: 0 <= i < |Section(config, "jobs").value| ==> ScheduleValid(Section(config, "jobs").value[i].1))
  {
    match Contains(config, "jobs")
    case Err(p) => Some(FromFault(p))
    case Ok(false) => None
    case Ok(true) =>
      match Section(config, "jobs")
      case Err(f) => Some(f)
      case Ok(jobs) => ValidateSchedules(jobs)
  }

  /**
   `_validate_config(name, config)`: the validator registered for the name;
   transformation rules and logging only need to be dictionaries, and any
   other name is not validated.
   */
  function ValidateConfig(name: string, config: Value): (r: Option<Failure>)
    ensures name !in ConfigNames ==> r.None?
    ensures name == "transformation_rules" ==>
              (r.None? <==> config.Obj?)
              && (r.Some? ==> r.value == ConfigError("Transformation config must be a dictionary"))
    ensures name == "logging_config" ==> (r.None? <==> config.Obj?)
    ensures name == "database_configs" ==> r == ValidateDatabaseConfig(config)
    ensures name == "etl_jobs" ==> r == ValidateJobConfig(config)
    ensures name == "schedule_config" ==> r == ValidateScheduleConfig(config)
  {
    if name == "database_configs" then ValidateDatabaseConfig(config)
    else if name == "etl_jobs" then ValidateJobConfig(config)
    else if name == "transformation_rules" then
      if config.Obj? then None else Some(ConfigError("Transformation config must be a dictionary"))
    else if name == "schedule_config" then ValidateScheduleConfig(config)
    else if name == "logging_config" then
      if config.Obj? then None else Some(ConfigError("Logging config must be a dictionary"))
    else None
  }

  /**
   The steps of loading a found file, in this order: parse, environment
   overrides, substitution, validation. A result passed validation and is the
   substituted form of the overridden file; the first failing step's failure
   is the result otherwise.
   */
  function Process(loader: Loader, name: string, file: string): (r: Result<Value, Failure>)
    ensures LoadRaw(loader.files, file).Err? ==> r == Err(LoadRaw(loader.files, file).error)
    ensures r.Ok? ==> ValidateConfig(name, r.value).None?
    ensures r.Ok? ==>
              && LoadRaw(loader.files, file).Ok?
              && ApplyEnvironmentOverrides(LoadRaw(loader.files, file).value, loader.environment).Ok?
              && Substituted(ApplyEnvironmentOverrides(LoadRaw(loader.files, file).value, loader.environment).value,
                             r.value, loader.env)
    ensures var raw := LoadRaw(loader.files, file);
            raw.Ok? && ApplyEnvironmentOverrides(raw.value, loader.environment).Err? ==>
              r == Err(FromFault(ApplyEnvironmentOverrides(raw.value, loader.environment).error))
    ensures var raw := LoadRaw(loader.files, file);
            raw.Ok? ==>
              var over := ApplyEnvironmentOverrides(raw.value, loader.environment);
              over.Ok? && SubstituteValue(over.value, loader.env).Err? ==>
                r == Err(SubstituteValue(over.value, loader.env).error)
    ensures var raw := LoadRaw(loader.files, file);
            raw.Ok? ==>
              var over := ApplyEnvironmentOverrides(raw.value, loader.environment);
              over.Ok? && SubstituteValue(over.value, loader.env).Ok? ==>
              var final := SubstituteValue(over.value, loader.env).value;
              && (ValidateConfig(name, final).None? ==> r == Ok(final))
              && (ValidateConfig(name, final).Some? ==> r == Err(ValidateConfig(name, final).value))
  {
    var raw :- LoadRaw(loader.files, file);
    var overridden :- Raise(ApplyEnvironmentOverrides(raw, loader.environment));
    var final :- SubstituteValue(overridden, loader.env);
    match ValidateConfig(name, final)
    case Some(f) => Err(f)
    case None => Ok(final)
  }

  /**
   What `load_config(name, required)` returns or raises: nothing found is an
   error only when required; any failure after the file is found is raised as
   "Error loading configuration 'name': ...".
   */
  function LoadResult(loader: Loader, name: string, required: bool): (r: Result<Value, Failure>)
    ensures FindConfigFile(loader, name).None? && required ==>
              r == Err(ConfigError("Required configuration '" + name + "' not found"))
    ensures FindConfigFile(loader, name).None? && !required ==> r == Ok(Obj([]))
    ensures var found := FindConfigFile(loader, name);
            found.Some? ==>
              match Process(loader, name, found.value)
              case Ok(final) => r == Ok(final) && ValidateConfig(name, final).None?
              case Err(e) => r == Err(ConfigError("Error loading configuration '" + name + "': " + Text(e)))
    ensures r.Err? ==> r.error.Foreign? && r.error.kind == ConfigurationError
  {
    match FindConfigFile(loader, name)
    case None =>
      if required then Err(ConfigError("Required configuration '" + name + "' not found")) else Ok(Obj([]))
    case Some(file) =>
      match Process(loader, name, file)
      case Ok(final) => Ok(final)
      case Err(e) => Err(ConfigError("Error loading configuration '" + name + "': " + Text(e)))
  }

  /** The manager's cache of loaded configurations. */
  datatype Store = Store(configs: Dict<Value>)

  /** `load_config(name, required)`: the result, and the cache with a loaded file's configuration stored. */
  function LoadConfig(store: Store, loader: Loader, name: string, required: bool): (out: (Result<Value, Failure>, Store))
    ensures out.0 == LoadResult(loader, name, required)
    ensures out.0.Ok? && FindConfigFile(loader, name).Some? ==> Get(out.1.configs, name) == Some(out.0.value)
    ensures !(out.0.Ok? && FindConfigFile(loader, name).Some?) ==> out.1 == store
    ensures forall k :: k != name ==> Get(out.1.configs, k) == Get(store.configs, k)
  {
    var r := LoadResult(loader, name, required);
    if r.Ok? && FindConfigFile(loader, name).Some? then (r, Store(Put(store.configs, name, r.value)))
    else (r, store)
  }

  /**
   `get_config(name, reload)`: the cached configuration unless a reload is
   asked for, nothing is cached, or the file changed since (`modified`);
   otherwise a required load.
   */
  function GetConfig(store: Store, loader: Loader, name: string, reload: bool, modified: bool)
    : (out: (Result<Value, Failure>, Store))
    ensures !reload && !modified && Get(store.configs, name).Some? ==> out == (Ok(Get(store.configs, name).value), store)
    ensures reload || modified || Get(store.configs, name).None? ==> out == LoadConfig(store, loader, name, true)
  {
    GetFound(store.configs, name);
    if reload || !HasKey(store.configs, name) || modified then LoadConfig(store, loader, name, true)
    else (Ok(Get(store.configs, name).value), store)
  }

  /** A configuration loaded once is served from the cache until its file changes. */
  lemma LoadedIsCached(store: Store, loader: Loader, name: string, loader': Loader)
    requires LoadConfig(store, loader, name, true).0.Ok?
    ensures var (r, store') := LoadConfig(store, loader, name, true);
            GetConfig(store', loader', name, false, false) == (r, store')
  {
    var (r, store') := LoadConfig(store, loader, name, true);
    assert FindConfigFile(loader, name).Some?;
  }

  /** The messages `validate_all_configs` records for one load. */
  function Messages(r: Result<Value, Failure>): (m: seq<string>)
    ensures |m| <= 1 && (m == [] <==> r.Ok?)
  {
    match r
    case Ok(_) => []
    case Err(e) => [Text(e)]
  }

  /**
   The report of `validate_all_configs()`: each name loaded as optional, in
   order, mapped to no messages or to the one message its load raised with.
   Loading does not read the cache, so each entry depends on its name alone.
   */
  function Report(loader: Loader, names: seq<string>): (report: Dict<seq<string>>)
    ensures Keys(report) == names
    ensures forall i :: 0 <= i < |names| ==> report[i].1 == Messages(LoadResult(loader, names[i], false))
  {
    seq(|names|, i requires 0 <= i < |names| => (names[i], Messages(LoadResult(loader, names[i], false))))
  }

  /** The cache after loading each of `names` in turn. */
  function CacheAll(store: Store, loader: Loader, names: seq<string>): (store': Store)
    ensures forall k :: k !in names ==> Get(store'.configs, k) == Get(store.configs, k)
    decreases names
  {
    if names == [] then store
    else CacheAll(LoadConfig(store, loader, names[0], false).1, loader, names[1..])
  }

  /** No name occurs twice. */
  predicate Distinct(names: seq<string>) {
    forall i, j :: 0 <= i < j < |names| ==> names[i] != names[j]
  }

  /** The cache entry an optional load of `name` leaves: the loaded value when a file was found and loaded, else the old entry. */
  function Cached(store: Store, loader: Loader, name: string): Option<Value> {
    var r := LoadResult(loader, name, false);
    if r.Ok? && FindConfigFile(loader, name).Some? then Some(r.value) else Get(store.configs, name)
  }

  /** Loading distinct names in turn leaves each name's entry as its own load left it. */
  lemma {:induction false} CacheAllStores(store: Store, loader: Loader, names: seq<string>, k: string)
    requires Distinct(names) && k in names
    ensures Get(CacheAll(store, loader, names).configs, k) == Cached(store, loader, k)
    decreases names
  {
    var store1 := LoadConfig(store, loader, names[0], false).1;
    assert Distinct(names[1..]);
    if names[0] == k {
      assert k !in names[1..] by {
        forall j | 0 <= j < |names[1..]| ensures names[1..][j] != k {
          assert names[1..][j] == names[j + 1];
        }
      }
    } else {
      assert k in names[1..];
      CacheAllStores(store1, loader, names[1..], k);
    }
  }

  /** The five known names are distinct. */
  lemma ConfigNamesDistinct()
    ensures Distinct(ConfigNames)
  {
  }

  /**
   `validate_all_configs()` over any list of names: each loaded as optional,
   reported in order with the message its load raised, the cache left as the
   loads in turn leave it.
   */
  function ValidateAll(store: Store, loader: Loader, names: seq<string>): (out: (Dict<seq<string>>, Store))
    requires Distinct(names)
    ensures Keys(out.0) == names
    ensures forall i :: 0 <= i < |names| ==> |out.0[i].1| <= 1
    ensures forall i :: 0 <= i < |names| ==> (out.0[i].1 == [] <==> LoadResult(loader, names[i], false).Ok?)
    ensures forall i :: 0 <= i < |names| ==> out.0[i].1 == Messages(LoadResult(loader, names[i], false))
    ensures forall i :: 0 <= i < |names| ==> Get(out.1.configs, names[i]) == Cached(store, loader, names[i])
    ensures forall k :: k !in names ==> Get(out.1.configs, k) == Get(store.configs, k)
  {
    var cache := CacheAll(store, loader, names);
    forall i | 0 <= i < |names|
      ensures Get(cache.configs, names[i]) == Cached(store, loader, names[i])
    {
      CacheAllStores(store, loader, names, names[i]);
    }
    (Report(loader, names), cache)
  }

  /** `validate_all_configs()` over the five known configurations: the report and the cache it leaves. */
  function ValidateAllConfigs(store: Store, loader: Loader): (out: (Dict<seq<string>>, Store))
    ensures Keys(out.0) == ConfigNames
    ensures forall i :: 0 <= i < |out.0| ==> |out.0[i].1| <= 1
    ensures forall i :: 0 <= i < |out.0| ==> (out.0[i].1 == [] <==> LoadResult(loader, ConfigNames[i], false).Ok?)
    ensures forall i :: 0 <= i < |out.0| ==> out.0[i].1 == Messages(LoadResult(loader, ConfigNames[i], false))
    ensures forall i :: 0 <= i < |ConfigNames| ==> Get(out.1.configs, ConfigNames[i]) == Cached(store, loader, ConfigNames[i])
    ensures forall k :: k !in ConfigNames ==> Get(out.1.configs, k) == Get(store.configs, k)
  {
    ConfigNamesDistinct();
    ValidateAll(store, loader, ConfigNames)
  }

  /**
   `get_database_config(source)` on the loaded database configuration: the
   `target` section is searched first, then `sources`; a name in neither is
   an error.
   */
  function DatabaseConfig(config: Value, source: string): (r: Result<Value, Failure>)
    ensures config.Obj? && !HasKey(config.fields, "target") && !HasKey(config.fields, "sources") ==>
              r == Err(ConfigError("Database configuration for '" + source + "' not found"))
  {
    match config
    case Obj(fs) =>
      GetFound(fs, "target");
      GetFound(fs, "sources");
      var target := GetOr(fs, "target", Obj([]));
      var inTarget :- Raise(Contains(target, source));
      if inTarget then Raise(Index(target, source))
      else
        var sources := GetOr(fs, "sources", Obj([]));
        var inSources :- Raise(Contains(sources, source));
        if inSources then Raise(Index(sources, source))
        else Err(ConfigError("Database configuration for '" + source + "' not found"))
    case _ => Err(FromFault(AttributeError))
  }

  /** A name defined in both sections is served from `target`. */
  lemma TargetBeforeSources(config: Dict<Value>, source: string, entry: Value)
    requires Get(config, "target").Some? && Get(config, "target").value.Obj?
    requires Get(Get(config, "target").value.fields, source) == Some(entry)
    ensures DatabaseConfig(Obj(config), source) == Ok(entry)
  {
    GetFound(Get(config, "target").value.fields, source);
  }

  /** A name that `target` lacks, or with no `target` section at all, is served from `sources`. */
  lemma SourcesFallback(config: Dict<Value>, source: string, entry: Value)
    requires Get(config, "target").None? ||
             (Get(config, "target").value.Obj? && Get(Get(config, "target").value.fields, source).None?)
    requires Get(config, "sources").Some? && Get(config, "sources").value.Obj?
    requires Get(Get(config, "sources").value.fields, source) == Some(entry)
    ensures DatabaseConfig(Obj(config), source) == Ok(entry)
  {
    GetFound(config, "target");
    if Get(config, "target").Some? {
      GetFound(Get(config, "target").value.fields, source);
    }
    GetFound(Get(config, "sources").value.fields, source);
  }

  /**
   With each section absent or a dictionary, the lookup is: the `target`
   entry, else the `sources` entry, else "Database configuration for 'name'
   not found", whichever sections are present.
   */
  lemma DatabaseLookup(config: Dict<Value>, source: string)
    requires GetOr(config, "target", Obj([])).Obj? && GetOr(config, "sources", Obj([])).Obj?
    ensures var target := GetOr(config, "target", Obj([])).fields;
            var sources := GetOr(config, "sources", Obj([])).fields;
            DatabaseConfig(Obj(config), source) ==
              if Get(target, source).Some? then Ok(Get(target, source).value)
              else if Get(sources, source).Some? then Ok(Get(sources, source).value)
              else Err(ConfigError("Database configuration for '" + source + "' not found"))
  {
    GetFound(GetOr(config, "target", Obj([])).fields, source);
    GetFound(GetOr(config, "sources", Obj([])).fields, source);
  }

  /**
   `get_job_config(job)` on the loaded job configuration: the job's entry,
   merged over the global `defaults` when there are any.
   */
  function JobConfig(config: Value, job: string): (r: Result<Value, Failure>)
    ensures config.Obj? && !HasKey(config.fields, "jobs") ==>
              r == Err(ConfigError("Job configuration for '" + job + "' not found"))
  {
    match config
    case Obj(fs) =>
      GetFound(fs, "jobs");
      var jobs := GetOr(fs, "jobs", Obj([]));
      var known :- Raise(Contains(jobs, job));
      if !known then Err(ConfigError("Job configuration for '" + job + "' not found"))
      else
        var entry :- Raise(Index(jobs, job));
        if HasKey(fs, "defaults") then Raise(MergeValues(GetOr(fs, "defaults", Null), entry))
        else Ok(entry)
    case _ => Err(FromFault(AttributeError))
  }

  /**
   The whole job lookup in a job configuration whose `jobs` section is
   absent or a dictionary: a job the section lacks is the not-found error,
   a known job without global `defaults` is its own entry unmerged, and
   otherwise the defaults are deep-merged under the entry.
   */
  lemma JobLookup(config: Dict<Value>, job: string)
    requires GetOr(config, "jobs", Obj([])).Obj?
    ensures var jobs := GetOr(config, "jobs", Obj([])).fields;
            JobConfig(Obj(config), job) ==
              if Get(jobs, job).None? then Err(ConfigError("Job configuration for '" + job + "' not found"))
              else if !HasKey(config, "defaults") then Ok(Get(jobs, job).value)
              else Raise(MergeValues(GetOr(config, "defaults", Null), Get(jobs, job).value))
  {
    GetFound(GetOr(config, "jobs", Obj([])).fields, job);
  }

  /**
   A job's settings override the defaults key by key (deep-merged where both
   are dictionaries), and defaults the job does not mention are inherited.
   */
  lemma JobOverridesDefaults(config: Dict<Value>, job: string, k: string)
    requires Get(config, "jobs").Some? && Get(config, "jobs").value.Obj?
    requires Get(Get(config, "jobs").value.fields, job).Some?
    requires Get(config, "defaults").Some? && Get(config, "defaults").value.Obj?
    requires Get(Get(config, "jobs").value.fields, job).value.Obj?
    requires UniqueKeys(Get(Get(config, "jobs").value.fields, job).value.fields)
    ensures var entry := Get(Get(config, "jobs").value.fields, job).value.fields;
            var defaults := Get(config, "defaults").value.fields;
            var r := JobConfig(Obj(config), job);
            && r.Ok? && r.value.Obj?
            && Get(r.value.fields, k) ==
               if Get(entry, k).Some? then Some(MergedValue(Get(defaults, k), Get(entry, k).value)) else Get(defaults, k)
  {
    GetFound(Get(config, "jobs").value.fields, job);
    GetFound(config, "defaults");
    MergeGet(Get(config, "defaults").value.fields, Get(Get(config, "jobs").value.fields, job).value.fields, k);
  }

  /**
   `get_transformation_rules(table)`: the table's own rules, else the
   `global` rules, else `{}`.
   */
  function TransformationRules(config: Value, table: string): (r: Result<Value, Failure>)
    ensures config.Obj? && !HasKey(config.fields, "tables") ==>
              r == Ok(GetOr(config.fields, "global", Obj([])))
  {
    match config
    case Obj(fs) =>
      GetFound(fs, "tables");
      var tables := GetOr(fs, "tables", Obj([]));
      var known :- Raise(Contains(tables, table));
      if known then Raise(Index(tables, table)) else Ok(GetOr(fs, "global", Obj([])))
    case _ => Err(FromFault(AttributeError))
  }

  /** `get_schedule_config(job)`: the job's schedule, else the `default` schedule, else `{}`. */
  function ScheduleConfig(config: Value, job: string): (r: Result<Value, Failure>)
    ensures config.Obj? && !HasKey(config.fields, "jobs") ==>
              r == Ok(GetOr(config.fields, "default", Obj([])))
  {
    match config
    case Obj(fs) =>
      GetFound(fs, "jobs");
      var jobs := GetOr(fs, "jobs", Obj([]));
      var known :- Raise(Contains(jobs, job));
      if known then Raise(Index(jobs, job)) else Ok(GetOr(fs, "default", Obj([])))
    case _ => Err(FromFault(AttributeError))
  }

  /** The fallback chains: own entry, then the shared entry, then an empty dictionary. */
  lemma LookupFallbacks(config: Dict<Value>, key: string)
    ensures (Get(config, "tables").Some? && Get(config, "tables").value.Obj?
             && Get(Get(config, "tables").value.fields, key).Some?) ==>
              TransformationRules(Obj(config), key) == Ok(Get(Get(config, "tables").value.fields, key).value)
    ensures (Get(config, "tables").Some? && Get(config, "tables").value.Obj?
             && Get(Get(config, "tables").value.fields, key).None?) ==>
              TransformationRules(Obj(config), key) == Ok(GetOr(config, "global", Obj([])))
    ensures (Get(config, "jobs").Some? && Get(config, "jobs").value.Obj?
             && Get(Get(config, "jobs").value.fields, key).Some?) ==>
              ScheduleConfig(Obj(config), key) == Ok(Get(Get(config, "jobs").value.fields, key).value)
    ensures (Get(config, "jobs").Some? && Get(config, "jobs").value.Obj?
             && Get(Get(config, "jobs").value.fields, key).None?) ==>
              ScheduleConfig(Obj(config), key) == Ok(GetOr(config, "default", Obj([])))
  {
    GetFound(config, "tables");
    GetFound(config, "jobs");
    if Get(config, "tables").Some? && Get(config, "tables").value.Obj? {
      GetFound(Get(config, "tables").value.fields, key);
    }
    if Get(config, "jobs").Some? && Get(config, "jobs").value.Obj? {
      GetFound(Get(config, "jobs").value.fields, key);
    }
  }
}
