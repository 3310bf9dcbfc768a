/**
 The three ways the handler wraps a call: the retrying decorator, `safe_execute`
 and the observing scope. The wrapped callable is a script: `op(i)` is what its
 i-th invocation (counting from 0) returns or raises, so invocation counts,
 waits and the errors the handler tracks can be stated exactly.
 */
module Wrappers {
  import opened Base
  import opened Dicts
  import opened Values
  import opened Exceptions
  import opened Handler

  /** What one invocation of the wrapped callable does. */
  datatype Call<T> = Returns(value: T) | Raises(failure: Failure)

  /** A class named in an `except` clause. */
  datatype ExceptionType =
    | AnyException                   // `Exception`
    | EtlType(cls: ErrorClass)       // `ETLException` or one of its subclasses
    | ForeignType(kind: ForeignKind)

  /** `isinstance(f, t)`: `ETLException` covers every subclass, a subclass only itself. */
  predicate IsInstance(f: Failure, t: ExceptionType) {
    match t
    case AnyException => true
    case EtlType(cls) => f.Etl? && (cls == EtlBase || f.err.cls == cls)
    case ForeignType(kind) => f.Foreign? && f.kind == kind
  }

  /** `except types as e`: some class of the tuple covers the failure. */
  predicate Catches(types: seq<ExceptionType>, f: Failure) {
    exists i :: 0 <= i < |types| && IsInstance(f, types[i])
  }

  /** `max_attempts or self.max_retry_attempts`: `None` and `0` fall back to the handler setting. */
  function EffectiveAttempts(maxAttempts: Option<int>, fallback: int): (n: int)
    ensures maxAttempts.Some? && maxAttempts.value != 0 ==> n == maxAttempts.value
    ensures maxAttempts.None? || maxAttempts.value == 0 ==> n == fallback
  {
    if maxAttempts.Some? && maxAttempts.value != 0 then maxAttempts.value else fallback
  }

  /** The context the retry wrapper reports a final failure with. */
  function RetryContext(name: string, attempt: nat): Context {
    [("function", Str(name)), ("attempt", Int(attempt))]
  }

  /**
   The failure a `raise` inside an `except` re-raises after `handle_exception`
   ran on it: an ETL exception is the same object, so it carries the merged
   context; any other exception is untouched.
   */
  function Reraised(f: Failure, handled: HandleOutcome): Failure {
    if f.Etl? then Etl(handled.error) else f
  }

  /** The result of one wrapped call. */
  datatype Outcome<T> = Outcome(
    result: Call<T>,
    calls: nat,              // how many times the callable ran
    waits: seq<nat>,         // the sleeps, in order
    state: HandlerState,
    logs: seq<LogLine>)

  /** How the attempt loop of the retry wrapper ends. */
  datatype Ending<T> =
    | Finished(value: Option<T>)            // a return, or `None` when the loop never ran
    | Escaped(failure: Failure)             // a failure the clause does not catch
    | GaveUp(failure: Failure, attempt: nat) // a caught failure on the last attempt (1-based)

  /** The attempt loop's trace: how it ended, the calls, the sleeps and the warnings. */
  datatype Attempts<T> = Attempts(ending: Ending<T>, calls: nat, waits: seq<nat>, logs: seq<LogLine>)

  /**
   The loop of the retry wrapper from attempt `attempt` on, out of `attempts`.
   A return ends the loop; a failure the clause does not catch propagates; a
   caught failure sleeps `backoff^attempt` and retries, except on the last
   attempt, where the loop gives up. Running off the end returns `None`.
   */
  function RetryLoop<T>(op: nat -> Call<T>, types: seq<ExceptionType>, backoff: nat,
                        attempt: nat, attempts: int): (r: Attempts<T>)
    ensures attempt >= attempts ==> r == Attempts(Finished(None), 0, [], [])
    ensures attempt < attempts ==> 1 <= r.calls <= attempts - attempt
    ensures attempt < attempts && r.ending.Finished? ==> r.ending.value.Some?
    ensures r.ending.GaveUp? ==> r.ending.attempt == attempts
    ensures |r.waits| == |r.logs|
    decreases attempts - attempt
  {
    if attempt >= attempts then Attempts(Finished(None), 0, [], [])
    else
      match op(attempt)
      case Returns(v) => Attempts(Finished(Some(v)), 1, [], [])
      case Raises(f) =>
        if !Catches(types, f) then Attempts(Escaped(f), 1, [], [])
        else if attempt == attempts - 1 then Attempts(GaveUp(f, attempt + 1), 1, [], [])
        else
          var wait := Pow(backoff, attempt);
          var rest := RetryLoop(op, types, backoff, attempt + 1, attempts);
          Attempts(rest.ending, rest.calls + 1, [wait] + rest.waits,
                   [LogLine(Warning, RetryAttemptFailed(attempt + 1, wait))] + rest.logs)
  }

  /**
   A call through `retry_on_exception(types, max_attempts, backoff)`: the
   attempt loop, then, when it gave up, one `handle_exception` with the function
   name and attempt number and the operation "Retry <name>", and the re-raise.
   */
  function Retry<T>(s: HandlerState, op: nat -> Call<T>, types: seq<ExceptionType>, maxAttempts: Option<int>,
                    name: string, backoff: nat, now: Timestamp, env: Env): (r: Outcome<Option<T>>)
    ensures EffectiveAttempts(maxAttempts, s.settings.maxRetryAttempts) <= 0 ==> r == Outcome(Returns(None), 0, [], s, [])
    ensures r.calls <= Max(EffectiveAttempts(maxAttempts, s.settings.maxRetryAttempts), 0)
    ensures r.result.Returns? ==> r.state == s
    ensures r.state != s ==> Total(r.state.counts) == Total(s.counts) + 1
  {
    var run := RetryLoop(op, types, backoff, 0, EffectiveAttempts(maxAttempts, s.settings.maxRetryAttempts));
    match run.ending
    case Finished(v) => Outcome(Returns(v), run.calls, run.waits, s, run.logs)
    case Escaped(f) => Outcome(Raises(f), run.calls, run.waits, s, run.logs)
    case GaveUp(f, n) =>
      var h := HandleException(s, f, Some(RetryContext(name, n)), Some("Retry " + name), true, now, env);
      Outcome(Raises(Reraised(f, h)), run.calls, run.waits, h.state, run.logs + h.logs)
  }

  /** Attempts `from` up to (not including) `to` all raise a failure the clause catches. */
  predicate FailsCaught<T>(op: nat -> Call<T>, types: seq<ExceptionType>, from: nat, to: nat) {
    forall i: nat :: from <= i < to ==> op(i).Raises? && Catches(types, op(i).failure)
  }

  /** The `count` waits `backoff^from, backoff^(from+1), ...`. */
  function Waits(backoff: nat, from: nat, count: nat): (w: seq<nat>)
    ensures |w| == count
    ensures forall i :: 0 <= i < count ==> w[i] == Pow(backoff, from + i)
    decreases count
  {
    if count == 0 then [] else [Pow(backoff, from)] + Waits(backoff, from + 1, count - 1)
  }

  /**
   Failing `k` times and then returning, within the attempt budget: the
   callable runs once per attempt up to and including the `k`-th, with one
   wait `backoff^i` after each failed attempt `i`, and the value is returned.
   */
  lemma {:induction false} LoopRecovers<T>(op: nat -> Call<T>, types: seq<ExceptionType>, backoff: nat,
                                           attempt: nat, k: nat, attempts: int)
    requires attempt <= k < attempts
    requires FailsCaught(op, types, attempt, k)
    requires op(k).Returns?
    ensures var r := RetryLoop(op, types, backoff, attempt, attempts);
            r.ending == Finished(Some(op(k).value)) && r.calls == k - attempt + 1
            && r.waits == Waits(backoff, attempt, k - attempt)
    decreases k - attempt
  {
    if attempt < k {
      assert op(attempt).Raises? && Catches(types, op(attempt).failure);
      LoopRecovers(op, types, backoff, attempt + 1, k, attempts);
    }
  }

  /** Failing on every attempt: every attempt runs, every one but the last waits, and the loop gives up on the last failure. */
  lemma {:induction false} LoopExhausts<T>(op: nat -> Call<T>, types: seq<ExceptionType>, backoff: nat,
                                           attempt: nat, attempts: nat)
    requires attempt < attempts
    requires FailsCaught(op, types, attempt, attempts)
    ensures var r := RetryLoop(op, types, backoff, attempt, attempts);
            r.ending == GaveUp(op(attempts - 1).failure, attempts)
            && r.calls == attempts - attempt
            && r.waits == Waits(backoff, attempt, attempts - 1 - attempt)
    decreases attempts - attempt
  {
    assert op(attempt).Raises? && Catches(types, op(attempt).failure);
    if attempt < attempts - 1 {
      LoopExhausts(op, types, backoff, attempt + 1, attempts);
    }
  }

  /** A failure the clause does not catch, after caught ones within the budget, escapes at once. */
  lemma {:induction false} LoopPropagates<T>(op: nat -> Call<T>, types: seq<ExceptionType>, backoff: nat,
                                             attempt: nat, k: nat, attempts: int)
    requires attempt <= k < attempts
    requires FailsCaught(op, types, attempt, k)
    requires op(k).Raises? && !Catches(types, op(k).failure)
    ensures var r := RetryLoop(op, types, backoff, attempt, attempts);
            r.ending == Escaped(op(k).failure) && r.calls == k - attempt + 1
    decreases k - attempt
  {
    if attempt < k {
      assert op(attempt).Raises? && Catches(types, op(attempt).failure);
      LoopPropagates(op, types, backoff, attempt + 1, k, attempts);
    }
  }

  /**
   With `n` attempts, failing `k < n` times and then returning: `k + 1` calls,
   waits `backoff^0 .. backoff^(k-1)`, the value returned and nothing tracked.
   */
  lemma RetryRecovers<T>(s: HandlerState, op: nat -> Call<T>, types: seq<ExceptionType>, name: string,
                         backoff: nat, n: int, k: nat, now: Timestamp, env: Env)
    requires k < n
    requires FailsCaught(op, types, 0, k)
    requires op(k).Returns?
    ensures var r := Retry(s, op, types, Some(n), name, backoff, now, env);
            r.result == Returns(Some(op(k).value)) && r.calls == k + 1
            && r.waits == Waits(backoff, 0, k) && r.state == s
  {
    LoopRecovers(op, types, backoff, 0, k, n);
  }

  /** The error a retry reports carries the function name and the attempt in its context. */
  lemma RetryContextKept(f: Failure, name: string, n: nat, now: Timestamp)
    ensures var e := Normalize(f, Some(RetryContext(name, n)), Some("Retry " + name), now);
            Get(e.context, "attempt") == Some(Int(n)) && Get(e.context, "function") == Some(Str(name))
  {
    var ctx := RetryContext(name, n);
    assert UniqueKeys(ctx);
    var operation := Some("Retry " + name);
    GetAtIndex(ctx, 0);
    GetAtIndex(ctx, 1);
    match f
    case Etl(err) =>
      NormalizeMergesContext(err, Some(ctx), operation, now, "attempt");
      NormalizeMergesContext(err, Some(ctx), operation, now, "function");
    case Foreign(kind, text) =>
      NormalizeWrapsForeign(kind, text, Some(ctx), operation, now, "attempt");
      NormalizeWrapsForeign(kind, text, Some(ctx), operation, now, "function");
  }

  /** The entry a retry adds last to the history names the function and the attempt. */
  lemma RetryEntryNamesAttempt(s: HandlerState, f: Failure, name: string, n: nat, now: Timestamp, env: Env)
    ensures var h := HandleException(s, f, Some(RetryContext(name, n)), Some("Retry " + name), true, now, env);
            h.state.history != []
            && Get(h.state.history[|h.state.history| - 1].context, "attempt") == Some(Int(n))
            && Get(h.state.history[|h.state.history| - 1].context, "function") == Some(Str(name))
  {
    var h := HandleException(s, f, Some(RetryContext(name, n)), Some("Retry " + name), true, now, env);
    assert h.state.history[|h.state.history| - 1] == EntryOf(h.error);
    RetryContextKept(f, name, n, now);
  }

  /**
   With `n` attempts all failing on a caught failure: `n` calls, `n - 1` waits,
   exactly one more tracked error, whose history entry names the function and
   attempt `n`; the last failure itself is re-raised, an ETL exception with
   the context the handler merged into it in place.
   */
  lemma RetryExhaustedIsTracked<T>(s: HandlerState, op: nat -> Call<T>, types: seq<ExceptionType>,
                                   name: string, backoff: nat, n: nat, now: Timestamp, env: Env)
    requires n > 0
    requires FailsCaught(op, types, 0, n)
    ensures var r := Retry(s, op, types, Some(n), name, backoff, now, env);
            r.result.Raises? && r.calls == n && r.waits == Waits(backoff, 0, n - 1)
            && Total(r.state.counts) == Total(s.counts) + 1
            && r.state.history != []
            && Get(r.state.history[|r.state.history| - 1].context, "attempt") == Some(Int(n))
            && Get(r.state.history[|r.state.history| - 1].context, "function") == Some(Str(name))
    ensures var r := Retry(s, op, types, Some(n), name, backoff, now, env);
            var h := HandleException(s, op(n - 1).failure, Some(RetryContext(name, n)), Some("Retry " + name), true, now, env);
            r.result == Raises(Reraised(op(n - 1).failure, h))
            && (!op(n - 1).failure.Etl? ==> r.result.failure == op(n - 1).failure)
  {
    LoopExhausts(op, types, backoff, 0, n);
    assert op(n - 1).Raises?;
    RetryEntryNamesAttempt(s, op(n - 1).failure, name, n, now, env);
  }

  /** A failure the clause does not catch propagates unchanged and is not tracked. */
  lemma RetryPropagates<T>(s: HandlerState, op: nat -> Call<T>, types: seq<ExceptionType>, name: string,
                           backoff: nat, n: int, k: nat, now: Timestamp, env: Env)
    requires k < n
    requires FailsCaught(op, types, 0, k)
    requires op(k).Raises? && !Catches(types, op(k).failure)
    ensures var r := Retry(s, op, types, Some(n), name, backoff, now, env);
            r.result == Raises(op(k).failure) && r.calls == k + 1 && r.state == s
  {
    LoopPropagates(op, types, backoff, 0, k, n);
  }

  /** `context or {'function': name}`. */
  function SafeContext(context: Option<Context>, name: string): Context {
    if context.Some? && context.value != [] then context.value else [("function", Str(name))]
  }

  /**
   `safe_execute(func, default_return=default, context=context)`: the value on
   success with nothing tracked; on any failure one tracked error and the default.
   */
  function SafeExecute<T>(s: HandlerState, call: Call<T>, default: T, context: Option<Context>, name: string,
                          now: Timestamp, env: Env): (r: Outcome<T>)
    ensures r.calls == 1 && r.waits == []
    ensures call.Returns? ==> r.result == Returns(call.value) && r.state == s && r.logs == []
    ensures call.Raises? ==> r.result == Returns(default)
    ensures call.Raises? ==> Total(r.state.counts) == Total(s.counts) + 1
    ensures call.Raises? ==>
              r.state.history != [] && r.state.history[|r.state.history| - 1]
              == EntryOf(Normalize(call.failure, Some(SafeContext(context, name)), Some("Safe execution of " + name), now))
  {
    match call
    case Returns(v) => Outcome(Returns(v), 1, [], s, [])
    case Raises(f) =>
      var h := HandleException(s, f, Some(SafeContext(context, name)), Some("Safe execution of " + name), true, now, env);
      Outcome(Returns(default), 1, [], h.state, h.logs)
  }

  /** A wrapped foreign failure with no caller context reports the function name. */
  lemma SafeExecuteNamesFunction<T>(s: HandlerState, kind: ForeignKind, text: string, default: T, name: string,
                                    now: Timestamp, env: Env)
    ensures var r := SafeExecute(s, Raises(Foreign(kind, text)), default, None, name, now, env);
            var ctx := r.state.history[|r.state.history| - 1].context;
            Get(ctx, "function") == Some(Str(name))
            && Get(ctx, "operation") == Some(Str("Safe execution of " + name))
  {
    NormalizeWrapsForeign(kind, text, Some(SafeContext(None, name)), Some("Safe execution of " + name), now, "function");
    NormalizeWrapsForeign(kind, text, Some(SafeContext(None, name)), Some("Safe execution of " + name), now, "operation");
  }

  /**
   A body run inside `create_context_manager(operation, context)`: a return
   passes through untouched; a failure is handled with `context or {}` and the
   operation, then propagates (`__exit__` returns False), as the same object.
   */
  function Scope<T>(s: HandlerState, operation: string, context: Option<Context>, body: Call<T>,
                    now: Timestamp, env: Env): (r: Outcome<T>)
    ensures r.calls == 1 && r.waits == []
    ensures body.Returns? ==> r.result == body && r.state == s && r.logs == []
    ensures body.Raises? ==> r.result.Raises? && Total(r.state.counts) == Total(s.counts) + 1
    ensures body.Raises? && body.failure.Foreign? ==> r.result == body
    ensures body.Raises? && body.failure.Etl? ==>
              r.result.failure.Etl?
              && r.result.failure.err.message == body.failure.err.message
              && r.result.failure.err.code == body.failure.err.code
              && r.result.failure.err.category == body.failure.err.category
  {
    match body
    case Returns(v) => Outcome(Returns(v), 1, [], s, [])
    case Raises(f) =>
      var h := HandleException(s, f, Some(context.GetOr([])), Some(operation), true, now, env);
      Outcome(Raises(Reraised(f, h)), 1, [], h.state, h.logs)
  }
}
