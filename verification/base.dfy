/** Small shared vocabulary: optional values, results and a few arithmetic helpers. */
module Base {

  /** A value that may be absent (Python's `None`). */
  datatype Option<+T> = None | Some(value: T) {
    function GetOr(default: T): T {
      match this
      case Some(v) => v
      case None => default
    }
  }

  /** The outcome of a step that can raise: a value or the raised error. */
  datatype Result<+T, +E> = Ok(value: T) | Err(error: E) {
    predicate IsFailure() {
      Err?
    }

    function PropagateFailure<U>(): Result<U, E>
      requires Err?
    {
      Err(error)
    }

    function Extract(): T
      requires Ok?
    {
      value
    }
  }

  function Min(a: int, b: int): int {
    if a <= b then a else b
  }

  function Max(a: int, b: int): int {
    if a <= b then b else a
  }

  /** `b` raised to the power `e`, used for backoff waits. */
  function Pow(b: nat, e: nat): nat {
    if e == 0 then 1 else b * Pow(b, e - 1)
  }

  /** The waits `b^0, b^1, ..., b^(n-1)` of an exponential backoff schedule. */
  function Backoff(b: nat, n: nat): (r: seq<nat>)
    ensures |r| == n
    ensures forall i :: 0 <= i < n ==> r[i] == Pow(b, i)
  {
    if n == 0 then [] else Backoff(b, n - 1) + [Pow(b, n - 1)]
  }

  /** The last (at most) `n` elements of `s`, as Python's `s[-n:]` for n > 0. */
  function LastN<T>(s: seq<T>, n: nat): (r: seq<T>)
    ensures |r| == Min(|s|, n)
    ensures r == s[|s| - |r|..]
  {
    if |s| <= n then s else s[|s| - n..]
  }

  /** `LastN` of an extended sequence is `LastN` of the `LastN`-trimmed prefix, extended. */
  lemma LastNAppend<T>(s: seq<T>, x: T, n: nat)
    requires n > 0
    ensures LastN(LastN(s, n) + [x], n) == LastN(s + [x], n)
  {
    var t := LastN(s, n);
    if |s| <= n {
      assert t == s;
    } else {
      assert t == s[|s| - n..];
      assert LastN(t + [x], n) == (t + [x])[1..];
      assert (t + [x])[1..] == (s + [x])[|s| + 1 - n..];
    }
  }

  /** When the appended part alone is long enough, the last `n` come from it only. */
  lemma LastNOfSuffix<T>(a: seq<T>, b: seq<T>, n: nat)
    requires |b| >= n
    ensures LastN(a + b, n) == b[|b| - n..]
  {
    assert (a + b)[|a + b| - n..] == b[|b| - n..];
  }
}
