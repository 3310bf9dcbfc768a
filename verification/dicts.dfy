/**
 Python dictionaries as ordered association lists. Python keeps keys in
 insertion order: assigning to an existing key keeps its position, a new key is
 appended, `del` removes the entry. Every function below follows that rule, so
 the order in which the modelled code iterates a dictionary is exact.
 */
module Dicts {
  import opened Base

  type Dict<V> = seq<(string, V)>

  /** The keys in iteration order. */
  function Keys<V>(d: Dict<V>): (r: seq<string>)
    ensures |r| == |d|
    ensures forall i :: 0 <= i < |d| ==> r[i] == d[i].0
  {
    if d == [] then [] else [d[0].0] + Keys(d[1..])
  }

  /** The values in iteration order. */
  function Values<V>(d: Dict<V>): (r: seq<V>)
    ensures |r| == |d|
    ensures forall i :: 0 <= i < |d| ==> r[i] == d[i].1
  {
    if d == [] then [] else [d[0].1] + Values(d[1..])
  }

  /** Python's `k in d`. */
  predicate HasKey<V>(d: Dict<V>, k: string) {
    k in Keys(d)
  }

  /** No key occurs twice: every Python dictionary has this shape. */
  ghost predicate UniqueKeys<V>(d: Dict<V>) {
    forall i, j :: 0 <= i < j < |d| ==> d[i].0 != d[j].0
  }

  /** Python's `d.get(k)`: the value of the first entry with key `k`. */
  function Get<V>(d: Dict<V>, k: string): (r: Option<V>)
  {
    if d == [] then None
    else if d[0].0 == k then Some(d[0].1)
    else Get(d[1..], k)
  }

  /** `Get` finds a value exactly for the keys `k in d` reports. */
  lemma {:induction false} GetFound<V>(d: Dict<V>, k: string)
    ensures Get(d, k).Some? <==> HasKey(d, k)
  {
    if d != [] {
      GetFound(d[1..], k);
      assert Keys(d) == [d[0].0] + Keys(d[1..]);
    }
  }

  /** What `Get` finds is one of `d.values()`. */
  lemma {:induction false} GetInValues<V>(d: Dict<V>, k: string)
    ensures Get(d, k).Some? ==> Get(d, k).value in Values(d)
  {
    if d != [] && d[0].0 != k {
      GetInValues(d[1..], k);
      assert Values(d) == [d[0].1] + Values(d[1..]);
    }
  }

  /** Python's `d.get(k, default)`. */
  function GetOr<V>(d: Dict<V>, k: string, default: V): V {
    Get(d, k).GetOr(default)
  }

  /**
   Python's `d[k] = v`: an existing key keeps its position and takes the new
   value, a new key is appended at the end.
   */
  function Put<V>(d: Dict<V>, k: string, v: V): (r: Dict<V>)
    ensures Get(r, k) == Some(v)
    ensures forall k' :: k' != k ==> Get(r, k') == Get(d, k')
  {
    if d == [] then [(k, v)]
    else if d[0].0 == k then [(k, v)] + d[1..]
    else
      var rest := Put(d[1..], k, v);
      var r := [d[0]] + rest;
      assert r[0] == d[0] && r[1..] == rest;
      r
  }

  /** `Put` keeps the key order: an existing key stays in place, a new one is appended. */
  lemma {:induction false} PutKeys<V>(d: Dict<V>, k: string, v: V)
    ensures HasKey(d, k) ==> Keys(Put(d, k, v)) == Keys(d)
    ensures !HasKey(d, k) ==> Keys(Put(d, k, v)) == Keys(d) + [k]
  {
    if d != [] && d[0].0 != k {
      PutKeys(d[1..], k, v);
      var r := Put(d, k, v);
      assert r[1..] == Put(d[1..], k, v);
      assert Keys(d) == [d[0].0] + Keys(d[1..]);
    }
  }

  /** Python's `del d[k]` (and a no-op when `k` is absent). */
  function Remove<V>(d: Dict<V>, k: string): (r: Dict<V>)
    ensures !HasKey(r, k)
    ensures forall k' :: k' != k ==> Get(r, k') == Get(d, k')
    ensures |r| <= |d|
  {
    if d == [] then []
    else if d[0].0 == k then Remove(d[1..], k)
    else [d[0]] + Remove(d[1..], k)
  }

  /** Python's `d.update(e)`: the entries of `e` are assigned in `e`'s order. */
  function Update<V>(d: Dict<V>, e: Dict<V>): Dict<V>
    decreases |e|
  {
    if e == [] then d else Update(Put(d, e[0].0, e[0].1), e[1..])
  }

  /** The entry for a key of a dictionary whose keys are unique is found by `Get`. */
  lemma {:induction false} GetAtIndex<V>(d: Dict<V>, i: int)
    requires UniqueKeys(d)
    requires 0 <= i < |d|
    ensures Get(d, d[i].0) == Some(d[i].1)
  {
    if i > 0 {
      assert d[0].0 != d[i].0;
      assert d[1..][i - 1] == d[i];
      GetAtIndex(d[1..], i - 1);
    }
  }

  /** `Put` keeps keys unique. */
  lemma {:induction false} PutUnique<V>(d: Dict<V>, k: string, v: V)
    requires UniqueKeys(d)
    ensures UniqueKeys(Put(d, k, v))
  {
    var r := Put(d, k, v);
    PutKeys(d, k, v);
    if HasKey(d, k) {
      assert Keys(r) == Keys(d);
    } else {
      assert Keys(r) == Keys(d) + [k];
      forall i, j | 0 <= i < j < |r|
        ensures r[i].0 != r[j].0
      {
        assert Keys(r)[i] == r[i].0 && Keys(r)[j] == r[j].0;
        if j == |d| {
          assert Keys(d)[i] == r[i].0;
        } else {
          assert Keys(d)[i] == r[i].0 && Keys(d)[j] == r[j].0;
        }
      }
    }
  }

  /**
   After `d.update(e)` a key of `e` reads its value in `e`, and every other key
   reads as before.
   */
  lemma {:induction false} UpdateGet<V>(d: Dict<V>, e: Dict<V>, k: string)
    requires UniqueKeys(e)
    ensures Get(Update(d, e), k) == if HasKey(e, k) then Get(e, k) else Get(d, k)
    decreases |e|
  {
    if e != [] {
      var d' := Put(d, e[0].0, e[0].1);
      assert UniqueKeys(e[1..]);
      UpdateGet(d', e[1..], k);
      assert Keys(e) == [e[0].0] + Keys(e[1..]);
      if k == e[0].0 {
        forall j | 0 <= j < |e[1..]|
          ensures Keys(e[1..])[j] != k
        {
          assert e[1..][j] == e[j + 1];
        }
      }
    }
  }

  /** Assigning a key the value it already reads is no change at all. */
  lemma {:induction false} PutSame<V>(d: Dict<V>, k: string, v: V)
    requires Get(d, k) == Some(v)
    ensures Put(d, k, v) == d
  {
    if d[0].0 != k {
      PutSame(d[1..], k, v);
    }
  }

  /** Every key of the result of `Put` was a key before or is the assigned one. */
  lemma KeysOfPut<V>(d: Dict<V>, k: string, v: V, k': string)
    ensures HasKey(Put(d, k, v), k') <==> k' == k || HasKey(d, k')
  {
    var r := Put(d, k, v);
    if k' == k {
      assert Get(r, k).Some?;
    } else {
      assert Get(r, k') == Get(d, k');
    }
  }
}
