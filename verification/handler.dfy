/**
 The exception handler as a state machine. One call of `HandleException` is one
 atomic step: normalise the failure into an ETL exception, log it, count it,
 append it to the bounded history, possibly notify, and return the structured
 report. The clock, the MD5 digest and the notification outcome are inputs.
 */
module Handler {
  import opened Base
  import opened Dicts
  import opened Values
  import opened Exceptions

  /** How many history entries are kept. */
  const HistoryLimit: nat := 1000
  /** How many history entries the summary reports. */
  const RecentLimit: nat := 10

  /** The handler configuration keys; `None` is a key absent from the configuration map. */
  datatype Options = Options(
    maxRetryAttempts: Option<int>,
    sendNotifications: Option<bool>,
    logStackTrace: Option<bool>,
    errorThreshold: Option<int>)

  datatype Settings = Settings(
    maxRetryAttempts: int,
    sendNotifications: bool,
    logStackTrace: bool,
    errorThreshold: int)

  datatype Severity = Info | Warning | Error | Critical

  /** What a log line reports; its text formatting is not modelled. */
  datatype LogEvent =
    | ErrorReport(category: string, message: string, context: Context)
    | StackTrace
    | ThresholdExceeded(total: nat)
    | NotificationFailed
    | RetryAttemptFailed(attempt: nat, wait: nat)
    | TrackingReset

  datatype LogLine = LogLine(level: Severity, event: LogEvent)

  /** One entry of the error history. */
  datatype HistoryEntry = HistoryEntry(
    timestamp: Timestamp,
    category: string,
    code: string,
    message: string,
    context: Context)

  /**
   The handler's state: its settings, whether a notification service is
   attached (`__init__` sets none and nothing in the handler sets one), the
   `category:code` counters and the bounded history.
   */
  datatype HandlerState = HandlerState(
    settings: Settings,
    notifierAttached: bool,
    counts: Dict<nat>,
    history: seq<HistoryEntry>)

  /** The inputs a handled error needs besides the failure: the digest function and whether notifying fails. */
  datatype Env = Env(digest: string -> string, notificationFails: bool)

  /** The dictionary `handle_exception` returns. */
  datatype Report = Report(handled: bool, details: Value, errorId: string, timestamp: Timestamp)

  datatype HandleOutcome = HandleOutcome(
    state: HandlerState,
    report: Report,
    error: EtlError,        // the normalised exception, as the caller's object now reads
    logs: seq<LogLine>,
    notified: bool)

  /** Reads the configuration with `config.get(key, default)` and the documented defaults. */
  function SettingsOf(o: Options): (s: Settings)
    ensures s.maxRetryAttempts == o.maxRetryAttempts.GetOr(3)
    ensures s.sendNotifications == o.sendNotifications.GetOr(false)
    ensures s.logStackTrace == o.logStackTrace.GetOr(true)
    ensures s.errorThreshold == o.errorThreshold.GetOr(10)
  {
    Settings(o.maxRetryAttempts.GetOr(3), o.sendNotifications.GetOr(false),
             o.logStackTrace.GetOr(true), o.errorThreshold.GetOr(10))
  }

  /** A freshly constructed handler. */
  function NewHandler(o: Options): (s: HandlerState)
    ensures s.counts == [] && s.history == [] && !s.notifierAttached
    ensures s.settings.errorThreshold == o.errorThreshold.GetOr(10)
  {
    HandlerState(SettingsOf(o), false, [], [])
  }

  /** Sum of all counters. */
  function Total(counts: Dict<nat>): nat {
    if counts == [] then 0 else counts[0].1 + Total(counts[1..])
  }

  /**
   The normalisation step: a foreign failure is wrapped as an UNKNOWN ETL
   exception carrying the supplied context; an ETL exception keeps its fields
   and has a non-empty supplied context merged into its own. A non-empty
   operation name is then recorded under "operation".
   */
  function Normalize(f: Failure, context: Option<Context>, operation: Option<string>, now: Timestamp): (e: EtlError)
    ensures f.Foreign? ==> e.cls == EtlBase && e.message == f.text && e.code == GenericCode
                           && e.category == UnknownCategory && e.timestamp == now
    ensures f.Etl? ==> e.cls == f.err.cls && e.message == f.err.message && e.code == f.err.code
                       && e.category == f.err.category && e.timestamp == f.err.timestamp
    ensures operation.Some? && operation.value != "" ==> Get(e.context, "operation") == Some(Str(operation.value))
  {
    var base :=
      match f
      case Foreign(_, text) => NewEtlError(text, None, Some(UnknownCategory), context, now)
      case Etl(err) =>
        if context.Some? && context.value != [] then err.(context := Update(err.context, context.value)) else err;
    if operation.Some? && operation.value != "" then base.(context := Put(base.context, "operation", Str(operation.value)))
    else base
  }

  /**
   How the context of a handled ETL exception reads: "operation" when an
   operation is named, then the supplied keys, then the exception's own keys.
   */
  lemma NormalizeMergesContext(err: EtlError, context: Option<Context>, operation: Option<string>, now: Timestamp, k: string)
    requires context.Some? ==> UniqueKeys(context.value)
    ensures Get(Normalize(Etl(err), context, operation, now).context, k) ==
            if k == "operation" && operation.Some? && operation.value != "" then Some(Str(operation.value))
            else if context.Some? && HasKey(context.value, k) then Get(context.value, k)
            else Get(err.context, k)
  {
    if context.Some? && context.value != [] {
      UpdateGet(err.context, context.value, k);
    }
  }

  /** How the context of a wrapped foreign failure reads: "operation", then the supplied keys. */
  lemma NormalizeWrapsForeign(kind: ForeignKind, text: string, context: Option<Context>, operation: Option<string>,
                              now: Timestamp, k: string)
    ensures Get(Normalize(Foreign(kind, text), context, operation, now).context, k) ==
            if k == "operation" && operation.Some? && operation.value != "" then Some(Str(operation.value))
            else Get(context.GetOr([]), k)
  {
  }

  /** The severity of the report line: WARNING for VALIDATION and TRANSFORMATION, ERROR otherwise. */
  function SeverityFor(category: string): (s: Severity)
    ensures s == Warning <==> category == ValidationCategory || category == TransformationCategory
    ensures s == Warning || s == Error
  {
    if category == ConnectionCategory || category == ConfigurationCategory then Error
    else if category == ValidationCategory || category == TransformationCategory then Warning
    else Error
  }

  /** Every exception class is reported at ERROR, except validation and transformation at WARNING. */
  lemma SeverityByClass(cls: ErrorClass, message: string, context: Option<Context>, now: Timestamp)
    ensures SeverityFor(NewOfClass(cls, message, context, now).category) ==
            if cls == ValidationClass || cls == TransformationClass then Warning else Error
  {
  }

  /** The log lines of `_log_exception`: the report line, then the stack trace when enabled. */
  function LogException(s: HandlerState, e: EtlError): (logs: seq<LogLine>)
    ensures |logs| == if s.settings.logStackTrace then 2 else 1
    ensures logs[0] == LogLine(SeverityFor(e.category), ErrorReport(e.category, e.message, e.context))
    ensures |logs| == 2 ==> logs[1] == LogLine(Error, StackTrace)
    ensures forall i :: 0 <= i < |logs| ==> logs[i].level != Critical
  {
    [LogLine(SeverityFor(e.category), ErrorReport(e.category, e.message, e.context))]
      + (if s.settings.logStackTrace then [LogLine(Error, StackTrace)] else [])
  }

  /** The counter key of an exception. */
  function ErrorKey(e: EtlError): string {
    e.category + ":" + e.code
  }

  function EntryOf(e: EtlError): HistoryEntry {
    HistoryEntry(e.timestamp, e.category, e.code, e.message, e.context)
  }

  /** `counts.get(key, 0)`. */
  function Count(counts: Dict<nat>, key: string): nat {
    GetOr(counts, key, 0)
  }

  lemma TotalCons(x: (string, nat), rest: Dict<nat>)
    ensures Total([x] + rest) == x.1 + Total(rest)
  {
    assert ([x] + rest)[1..] == rest;
  }

  /** Setting one counter to `v` changes the total by `v` minus that counter's old value. */
  lemma {:induction false} TotalPut(d: Dict<nat>, k: string, v: nat)
    ensures Total(Put<nat>(d, k, v)) + Count(d, k) == Total(d) + v
  {
    if d == [] {
    } else if d[0].0 == k {
      TotalCons((k, v), d[1..]);
      assert d == [d[0]] + d[1..];
    } else {
      TotalPut(d[1..], k, v);
      TotalCons(d[0], Put<nat>(d[1..], k, v));
    }
  }

  /**
   `counts[key] = counts.get(key, 0) + n`: that counter grows by `n`, every
   other counter reads as before, and the total grows by `n`.
   */
  function Bump(counts: Dict<nat>, key: string, n: nat): (r: Dict<nat>)
    ensures Count(r, key) == Count(counts, key) + n
    ensures forall k :: k != key ==> Get(r, k) == Get(counts, k)
    ensures Total(r) == Total(counts) + n
  {
    var v: nat := Count(counts, key) + n;
    TotalPut(counts, key, v);
    Put<nat>(counts, key, v)
  }

  datatype Step = Step(state: HandlerState, logs: seq<LogLine>)

  /**
   `_track_error`: bump exactly the `category:code` counter, append to the
   history and keep its last 1000 entries, and log CRITICAL whenever the total
   is at or above the threshold.
   */
  function Track(s: HandlerState, e: EtlError): (r: Step)
    ensures r.state.settings == s.settings && r.state.notifierAttached == s.notifierAttached
    ensures Count(r.state.counts, ErrorKey(e)) == Count(s.counts, ErrorKey(e)) + 1
    ensures forall k :: k != ErrorKey(e) ==> Get(r.state.counts, k) == Get(s.counts, k)
    ensures Total(r.state.counts) == Total(s.counts) + 1
    ensures |r.state.history| == Min(|s.history| + 1, HistoryLimit)
    ensures r.state.history[|r.state.history| - 1] == EntryOf(e)
    ensures r.state.history == LastN(s.history + [EntryOf(e)], HistoryLimit)
    ensures r.logs == if Total(r.state.counts) >= s.settings.errorThreshold
                      then [LogLine(Critical, ThresholdExceeded(Total(r.state.counts)))] else []
  {
    var key := ErrorKey(e);
    var counts := Bump(s.counts, key, 1);
    var history' := LastN(s.history + [EntryOf(e)], HistoryLimit);
    var total := Total(counts);
    Step(s.(counts := counts, history := history'),
         if total >= s.settings.errorThreshold then [LogLine(Critical, ThresholdExceeded(total))] else [])
  }

  /** The first eight characters of the hex digest. */
  function ErrorId(e: EtlError, digest: string -> string): string {
    var h := digest(e.timestamp.text + e.code + e.message);
    if |h| <= 8 then h else h[..8]
  }

  /**
   `handle_exception(exception, context, operation, notify)`: normalise, log,
   track, notify when enabled and a service is attached, and report.
   */
  function HandleException(s: HandlerState, f: Failure, context: Option<Context>, operation: Option<string>,
                           notify: bool, now: Timestamp, env: Env): (r: HandleOutcome)
    ensures r.error == Normalize(f, context, operation, now)
    ensures r.report == Report(true, ToDict(r.error), ErrorId(r.error, env.digest), r.error.timestamp)
    ensures r.state.settings == s.settings && r.state.notifierAttached == s.notifierAttached
    ensures Total(r.state.counts) == Total(s.counts) + 1
    ensures Count(r.state.counts, ErrorKey(r.error)) == Count(s.counts, ErrorKey(r.error)) + 1
    ensures forall k :: k != ErrorKey(r.error) ==> Get(r.state.counts, k) == Get(s.counts, k)
    ensures r.state.history == LastN(s.history + [EntryOf(r.error)], HistoryLimit)
    ensures r.notified <==> notify && s.settings.sendNotifications && s.notifierAttached
  {
    var e := Normalize(f, context, operation, now);
    var logged := LogException(s, e);
    var tracked := Track(s, e);
    var notified := notify && s.settings.sendNotifications && s.notifierAttached;
    var warned := if notified && env.notificationFails then [LogLine(Warning, NotificationFailed)] else [];
    HandleOutcome(tracked.state, Report(true, ToDict(e), ErrorId(e, env.digest), e.timestamp), e,
                  logged + tracked.logs + warned, notified)
  }

  /**
   The first log line reports the error at its category's severity, and a
   CRITICAL threshold line is logged exactly when the new total reaches the threshold.
   */
  lemma HandleExceptionLogs(s: HandlerState, f: Failure, context: Option<Context>, operation: Option<string>,
                            notify: bool, now: Timestamp, env: Env)
    ensures var r := HandleException(s, f, context, operation, notify, now, env);
            |r.logs| >= 1 && r.logs[0].level == SeverityFor(r.error.category)
            && (LogLine(Critical, ThresholdExceeded(Total(r.state.counts))) in r.logs
                <==> Total(r.state.counts) >= s.settings.errorThreshold)
  {
    var r := HandleException(s, f, context, operation, notify, now, env);
    var e := Normalize(f, context, operation, now);
    var logged := LogException(s, e);
    var tracked := Track(s, e);
    var warned := if r.notified && env.notificationFails then [LogLine(Warning, NotificationFailed)] else [];
    assert r.logs == logged + tracked.logs + warned;
  }

  /** A failed notification only adds a WARNING line: state, report and error are the same. */
  lemma NotificationNeverMatters(s: HandlerState, f: Failure, context: Option<Context>, operation: Option<string>,
                                 notify: bool, now: Timestamp, digest: string -> string)
    ensures var a := HandleException(s, f, context, operation, notify, now, Env(digest, false));
            var b := HandleException(s, f, context, operation, notify, now, Env(digest, true));
            a.state == b.state && a.report == b.report && a.error == b.error
            && b.logs == a.logs + (if b.notified then [LogLine(Warning, NotificationFailed)] else [])
  {
  }

  /** The category part of a counter key: everything before the first ':'. */
  function CategoryOfKey(key: string): (c: string)
    ensures c <= key
    ensures ':' !in c
    ensures |c| < |key| ==> key[|c|] == ':'
  {
    if key == [] || key[0] == ':' then [] else [key[0]] + CategoryOfKey(key[1..])
  }

  /** The counters of the keys whose category part is `c`, summed. */
  function CountFor(counts: Dict<nat>, c: string): nat {
    if counts == [] then 0
    else (if CategoryOfKey(counts[0].0) == c then counts[0].1 else 0) + CountFor(counts[1..], c)
  }

  /** The per-category totals loop of `get_error_summary`, starting from `acc`. */
  function GroupByCategory(acc: Dict<nat>, counts: Dict<nat>): Dict<nat>
    decreases |counts|
  {
    if counts == [] then acc
    else
      var c := CategoryOfKey(counts[0].0);
      GroupByCategory(Bump(acc, c, counts[0].1), counts[1..])
  }

  /** Each category total is its starting value plus the counters of that category's keys. */
  lemma {:induction false} GroupByCategoryCount(acc: Dict<nat>, counts: Dict<nat>, c: string)
    ensures Count(GroupByCategory(acc, counts), c) == Count(acc, c) + CountFor(counts, c)
    decreases |counts|
  {
    if counts != [] {
      var c0 := CategoryOfKey(counts[0].0);
      var acc' := Bump(acc, c0, counts[0].1);
      assert Count(acc', c) == Count(acc, c) + (if c0 == c then counts[0].1 else 0);
      GroupByCategoryCount(acc', counts[1..], c);
    }
  }

  /** Grouping moves counts between keys but neither creates nor loses any. */
  lemma {:induction false} GroupByCategoryTotal(acc: Dict<nat>, counts: Dict<nat>)
    ensures Total(GroupByCategory(acc, counts)) == Total(acc) + Total(counts)
    decreases |counts|
  {
    if counts != [] {
      var c0 := CategoryOfKey(counts[0].0);
      var acc' := Bump(acc, c0, counts[0].1);
      GroupByCategoryTotal(acc', counts[1..]);
    }
  }

  /** The dictionary `get_error_summary` returns. */
  datatype Summary = Summary(
    totalErrors: nat,
    errorCategories: Dict<nat>,
    errorCounts: Dict<nat>,
    recentErrors: seq<HistoryEntry>,
    errorThreshold: int,
    thresholdExceeded: bool)

  /** `get_error_summary()`. */
  function GetErrorSummary(s: HandlerState): (r: Summary)
    ensures r.totalErrors == Total(s.counts)
    ensures Total(r.errorCategories) == r.totalErrors
    ensures forall c :: Count(r.errorCategories, c) == CountFor(s.counts, c)
    ensures r.errorCounts == s.counts
    ensures |r.recentErrors| == Min(|s.history|, RecentLimit)
    ensures r.recentErrors == s.history[|s.history| - |r.recentErrors|..]
    ensures r.errorThreshold == s.settings.errorThreshold
    ensures r.thresholdExceeded <==> r.totalErrors >= s.settings.errorThreshold
  {
    var total := Total(s.counts);
    var categories := GroupByCategory([], s.counts);
    GroupByCategoryTotal([], s.counts);
    assert forall c :: Count(categories, c) == CountFor(s.counts, c) by {
      forall c
        ensures Count(categories, c) == CountFor(s.counts, c)
      {
        GroupByCategoryCount([], s.counts, c);
      }
    }
    var recent := if s.history != [] then LastN(s.history, RecentLimit) else [];
    Summary(total, categories, s.counts, recent, s.settings.errorThreshold, total >= s.settings.errorThreshold)
  }

  /** `reset_error_tracking()`: clears the counters and the history, keeps the settings. */
  function ResetErrorTracking(s: HandlerState): (r: Step)
    ensures r.state.settings == s.settings && r.state.notifierAttached == s.notifierAttached
    ensures GetErrorSummary(r.state).totalErrors == 0
    ensures GetErrorSummary(r.state).recentErrors == []
    ensures r.state.counts == [] && r.state.history == []
    ensures GetErrorSummary(r.state).errorCounts == [] && GetErrorSummary(r.state).errorCategories == []
    ensures GetErrorSummary(r.state).thresholdExceeded <==> s.settings.errorThreshold <= 0
    ensures r.logs == [LogLine(Info, TrackingReset)]
  {
    Step(s.(counts := [], history := []), [LogLine(Info, TrackingReset)])
  }

  /** One call of `handle_exception`, as a value. */
  datatype Request = Request(failure: Failure, context: Option<Context>, operation: Option<string>,
                             notify: bool, now: Timestamp)

  /** The history entry a request produces; it does not depend on the handler's state. */
  function EntryFor(q: Request): HistoryEntry {
    EntryOf(Normalize(q.failure, q.context, q.operation, q.now))
  }

  function Entries(qs: seq<Request>): (r: seq<HistoryEntry>)
    ensures |r| == |qs|
  {
    if qs == [] then [] else [EntryFor(qs[0])] + Entries(qs[1..])
  }

  lemma EntriesCons(qs: seq<Request>)
    requires qs != []
    ensures Entries(qs) == [EntryFor(qs[0])] + Entries(qs[1..])
  {
  }

  /** Handles the requests one after the other. */
  function HandleAll(s: HandlerState, qs: seq<Request>, env: Env): HandlerState
    decreases |qs|
  {
    if qs == [] then s
    else
      var q := qs[0];
      HandleAll(HandleException(s, q.failure, q.context, q.operation, q.notify, q.now, env).state, qs[1..], env)
  }

  /** The counters sum to the number of errors handled, independent of history truncation. */
  lemma {:induction false} HandleAllCounts(s: HandlerState, qs: seq<Request>, env: Env)
    ensures Total(HandleAll(s, qs, env).counts) == Total(s.counts) + |qs|
    ensures HandleAll(s, qs, env).settings == s.settings
    decreases |qs|
  {
    if qs != [] {
      var q := qs[0];
      HandleAllCounts(HandleException(s, q.failure, q.context, q.operation, q.notify, q.now, env).state, qs[1..], env);
    }
  }

  /** Trimming to the last `n` before appending does not change the last `n` after. */
  lemma LastNConcat<T>(a: seq<T>, b: seq<T>, n: nat)
    ensures LastN(LastN(a, n) + b, n) == LastN(a + b, n)
  {
    if |a| > n {
      var x := a + b;
      var y := LastN(a, n) + b;
      assert y == x[|a| - n..];
      assert LastN(y, n) == y[|y| - Min(|y|, n)..];
    }
  }

  /** The history after appending `es` one at a time, trimming after each append. */
  function AppendEach(h: seq<HistoryEntry>, es: seq<HistoryEntry>): seq<HistoryEntry>
    decreases |es|
  {
    if es == [] then h else AppendEach(LastN(h + [es[0]], HistoryLimit), es[1..])
  }

  /** Trimming after every append is the same as trimming once at the end. */
  lemma {:induction false} AppendEachTrimsOnce(h: seq<HistoryEntry>, es: seq<HistoryEntry>)
    requires |h| <= HistoryLimit
    ensures AppendEach(h, es) == LastN(h + es, HistoryLimit)
    decreases |es|
  {
    if es == [] {
      assert h + es == h;
    } else {
      var a := h + [es[0]];
      AppendEachTrimsOnce(LastN(a, HistoryLimit), es[1..]);
      LastNConcat(a, es[1..], HistoryLimit);
      assert a + es[1..] == h + es;
    }
  }

  /** Handling the requests appends their entries to the history one at a time. */
  lemma {:induction false} HandleAllAppends(s: HandlerState, qs: seq<Request>, env: Env)
    ensures HandleAll(s, qs, env).history == AppendEach(s.history, Entries(qs))
    decreases |qs|
  {
    if qs != [] {
      var q := qs[0];
      var s' := HandleException(s, q.failure, q.context, q.operation, q.notify, q.now, env).state;
      HandleAllAppends(s', qs[1..], env);
      EntriesCons(qs);
    }
  }

  /** The history holds the last (at most) 1000 handled errors, in arrival order. */
  lemma HandleAllHistory(s: HandlerState, qs: seq<Request>, env: Env)
    requires |s.history| <= HistoryLimit
    ensures HandleAll(s, qs, env).history == LastN(s.history + Entries(qs), HistoryLimit)
  {
    HandleAllAppends(s, qs, env);
    AppendEachTrimsOnce(s.history, Entries(qs));
  }

  /** After at least 1000 more errors the history is exactly the last 1000 of them, in order. */
  lemma HistoryKeepsLastThousand(s: HandlerState, qs: seq<Request>, env: Env)
    requires |s.history| <= HistoryLimit
    requires |qs| >= HistoryLimit
    ensures |HandleAll(s, qs, env).history| == HistoryLimit
    ensures HandleAll(s, qs, env).history == Entries(qs)[|qs| - HistoryLimit..]
  {
    HandleAllHistory(s, qs, env);
    LastNOfSuffix(s.history, Entries(qs), HistoryLimit);
  }

  /** Counting from a fresh handler, the summary flags the threshold exactly when that many errors were handled. */
  lemma ThresholdAfterHandling(o: Options, qs: seq<Request>, env: Env)
    ensures var s := HandleAll(NewHandler(o), qs, env);
            GetErrorSummary(s).totalErrors == |qs|
            && (GetErrorSummary(s).thresholdExceeded <==> |qs| >= o.errorThreshold.GetOr(10))
  {
    HandleAllCounts(NewHandler(o), qs, env);
  }
}
