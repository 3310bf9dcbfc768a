/**
 The deep merge of configuration dictionaries and the per-environment
 overrides built on it.
 */
module Merging {
  import opened Base
  import opened Dicts
  import opened Values

  /**
   `_merge_configs` on two dictionaries: the override's entries are assigned
   in order, and an entry whose old and new values are both dictionaries is
   merged recursively instead of replaced. The base's keys keep their
   places and new keys follow them. Values are copied, never shared, which
   immutable values give for free.
   */
  function MergeFields(base: Dict<Value>, override: Dict<Value>): (r: Dict<Value>)
    ensures |r| >= |base| && Keys(r)[..|base|] == Keys(base)
    decreases override
  {
    if override == [] then base
    else
      assert override[0] in override;
      assert override[0].1 < override[0];
      var k := override[0].0;
      var v := MergedValue(Get(base, k), override[0].1);
      PutKeys(base, k, v);
      MergeFields(Put(base, k, v), override[1..])
  }

  /** The value a key takes when the override's `v` meets the base's current value. */
  function MergedValue(current: Option<Value>, v: Value): Value
    decreases v
  {
    if current.Some? && current.value.Obj? && v.Obj? then Obj(MergeFields(current.value.fields, v.fields))
    else v
  }

  /** The merged dictionary holds exactly the keys of either side. */
  lemma {:induction false} MergeHasKey(base: Dict<Value>, override: Dict<Value>, k: string)
    ensures HasKey(MergeFields(base, override), k) <==> HasKey(base, k) || HasKey(override, k)
    decreases override
  {
    if override != [] {
      var k0 := override[0].0;
      var base' := Put(base, k0, MergedValue(Get(base, k0), override[0].1));
      MergeHasKey(base', override[1..], k);
      KeysOfPut(base, k0, MergedValue(Get(base, k0), override[0].1), k);
      assert Keys(override) == [k0] + Keys(override[1..]);
    }
  }

  /**
   Key by key: a key the override lacks keeps the base's value, and a key it
   has takes the override's value, merged with the base's when both are
   dictionaries.
   */
  lemma {:induction false} MergeGet(base: Dict<Value>, override: Dict<Value>, k: string)
    requires UniqueKeys(override)
    ensures Get(MergeFields(base, override), k) ==
            if Get(override, k).Some? then Some(MergedValue(Get(base, k), Get(override, k).value))
            else Get(base, k)
    decreases override
  {
    if override != [] {
      var k0 := override[0].0;
      var base' := Put(base, k0, MergedValue(Get(base, k0), override[0].1));
      assert UniqueKeys(override[1..]);
      MergeGet(base', override[1..], k);
      if k == k0 {
        forall j | 0 <= j < |override[1..]|
          ensures Keys(override[1..])[j] != k
        {
          assert override[1..][j] == override[j + 1];
        }
        GetFound(override[1..], k);
      }
    }
  }

  /** An override that repeats what the base already holds leaves the base as it is. */
  lemma {:induction false} MergeIdentity(base: Dict<Value>, override: Dict<Value>)
    requires forall i :: 0 <= i < |override| ==>
               Get(base, override[i].0) == Some(override[i].1) && WellFormed(override[i].1)
    ensures MergeFields(base, override) == base
    decreases override
  {
    if override != [] {
      var (k0, v0) := override[0];
      assert override[0] in override;
      assert v0 < override[0];
      if v0.Obj? {
        forall i | 0 <= i < |v0.fields|
          ensures Get(v0.fields, v0.fields[i].0) == Some(v0.fields[i].1) && WellFormed(v0.fields[i].1)
        {
          GetAtIndex(v0.fields, i);
          WellFormedFieldAt(v0.fields, i);
        }
        MergeIdentity(v0.fields, v0.fields);
      }
      assert MergedValue(Get(base, k0), v0) == v0;
      PutSame(base, k0, v0);
      forall i | 0 <= i < |override[1..]|
        ensures Get(base, override[1..][i].0) == Some(override[1..][i].1) && WellFormed(override[1..][i].1)
      {
        assert override[1..][i] == override[i + 1];
      }
      MergeIdentity(base, override[1..]);
    }
  }

  /** Every value stored in a well-formed dictionary is itself well-formed. */
  lemma {:induction false} WellFormedFieldAt(fs: Dict<Value>, i: int)
    requires WellFormedFields(fs)
    requires 0 <= i < |fs|
    ensures WellFormed(fs[i].1)
    decreases i
  {
    if i > 0 {
      assert fs[1..][i - 1] == fs[i];
      WellFormedFieldAt(fs[1..], i - 1);
    }
  }

  /**
   `_merge_configs(base, override)` on arbitrary values. Only a dictionary has
   `.items()`; with an empty override the base comes back as it is, and with a
   non-empty one a base that is not a dictionary fails on `in` or on item
   access or assignment.
   */
  function MergeValues(base: Value, override: Value): (r: Result<Value, PyFault>)
    ensures !override.Obj? ==> r == Err(AttributeError)
    ensures override == Obj([]) ==> r == Ok(base)
    ensures base.Obj? && override.Obj? ==> r.Ok? && r.value.Obj?
    ensures override.Obj? && override.fields != [] && !base.Obj? ==> r == Err(TypeError)
  {
    match override
    case Obj(o) =>
      if base.Obj? then Ok(Obj(MergeFields(base.fields, o)))
      else if o == [] then Ok(base)
      else Err(TypeError)
    case _ => Err(AttributeError)
  }

  /** Merging a well-formed dictionary into itself gives it back unchanged. */
  lemma MergeSelf(x: Value)
    requires x.Obj? && WellFormed(x)
    ensures MergeValues(x, x) == Ok(x)
  {
    forall i | 0 <= i < |x.fields|
      ensures Get(x.fields, x.fields[i].0) == Some(x.fields[i].1) && WellFormed(x.fields[i].1)
    {
      GetAtIndex(x.fields, i);
      WellFormedFieldAt(x.fields, i);
    }
    MergeIdentity(x.fields, x.fields);
  }

  /**
   `_apply_environment_overrides(config)` for environment `env`. Without an
   `environments` key, or when that section holds nothing truthy for `env`,
   the configuration comes back unchanged; otherwise the section for `env` is
   merged over the configuration and `environments` is dropped.
   */
  function ApplyEnvironmentOverrides(config: Value, env: string): (r: Result<Value, PyFault>)
    ensures config.Obj? && !HasKey(config.fields, "environments") ==> r == Ok(config)
    ensures (config.Obj? && GetOr(config.fields, "environments", Obj([])).Obj?
             && !Truthy(OverridesFor(config.fields, env))) ==> r == Ok(config)
    ensures r.Ok? && r.value != config ==> r.value.Obj? && !HasKey(r.value.fields, "environments")
    ensures r.Ok? && config.Obj? && HasKey(config.fields, "environments") && Truthy(OverridesFor(config.fields, env)) ==>
              r.value.Obj? && !HasKey(r.value.fields, "environments")
  {
    var present :- Contains(config, "environments");
    if !present then Ok(config)
    else
      var section :- GetKey(config, "environments", Obj([]));
      var overrides :- GetKey(section, env, Obj([]));
      if !Truthy(overrides) then Ok(config)
      else
        var merged :- MergeValues(config, overrides);
        Ok(Obj(Remove(merged.fields, "environments")))
  }

  /** The dictionary of overrides `ApplyEnvironmentOverrides` uses, when it reads. */
  function OverridesFor(config: Dict<Value>, env: string): Value {
    var section := GetOr(config, "environments", Obj([]));
    if section.Obj? then GetOr(section.fields, env, Obj([])) else Null
  }

  /**
   After an override is applied every other key reads as the deep merge says:
   the override's value, merged with the base's when both are dictionaries,
   and the base's value for keys the override does not mention.
   */
  lemma OverrideReads(config: Dict<Value>, env: string, k: string)
    requires HasKey(config, "environments")
    requires OverridesFor(config, env).Obj? && OverridesFor(config, env).fields != []
    requires UniqueKeys(OverridesFor(config, env).fields)
    requires k != "environments"
    ensures var o := OverridesFor(config, env).fields;
            var r := ApplyEnvironmentOverrides(Obj(config), env);
            && r.Ok? && r.value.Obj?
            && Get(r.value.fields, k) ==
               if Get(o, k).Some? then Some(MergedValue(Get(config, k), Get(o, k).value)) else Get(config, k)
  {
    var o := OverridesFor(config, env).fields;
    MergeGet(config, o, k);
  }
}
