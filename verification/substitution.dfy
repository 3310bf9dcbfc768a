/**
 Environment-variable placeholders in configuration strings: the `${NAME}` and
 `${NAME:default}` substitution applied to every string of a configuration,
 and the separate scan that lists the variables a configuration needs.
 The process environment is the map `env`.
 */
module Substitution {
  import opened Base
  import opened Dicts
  import opened Values
  import opened Exceptions

  type Env = map<string, string>

  /** The index of the first `c` in `t`, if any. */
  function Find(t: string, c: char): (r: Option<nat>)
    ensures r.Some? ==> r.value < |t| && t[r.value] == c && c !in t[..r.value]
    ensures r.None? ==> c !in t
  {
    if t == [] then None
    else if t[0] == c then Some(0)
    else
      match Find(t[1..], c)
      case Some(j) => assert t[..j + 1] == [t[0]] + t[1..][..j]; Some(j + 1)
      case None => assert t == [t[0]] + t[1..]; None
  }

  /** The first `c` after a prefix free of `c` is found right after the prefix. */
  lemma {:induction false} FindAfter(prefix: string, c: char, rest: string)
    requires c !in prefix
    ensures Find(prefix + [c] + rest, c) == Some(|prefix|)
    decreases |prefix|
  {
    if prefix != [] {
      assert (prefix + [c] + rest)[1..] == prefix[1..] + [c] + rest;
      FindAfter(prefix[1..], c, rest);
    }
  }

  /**
   A match of `\$\{([^}]+)\}` at the start of `s`: the name between the
   braces (at least one character, no `}`) and the text after the match.
   */
  function Placeholder(s: string): (m: Option<(string, string)>)
    ensures m.Some? ==> m.value.0 != [] && '}' !in m.value.0 && s == "${" + m.value.0 + "}" + m.value.1
  {
    if |s| >= 2 && s[0] == '$' && s[1] == '{' then
      match Find(s[2..], '}')
      case Some(j) =>
        if j >= 1 then
          assert s == "${" + s[2..2 + j] + "}" + s[3 + j..];
          Some((s[2..2 + j], s[3 + j..]))
        else None
      case None => None
    else None
  }

  /** Every placeholder shape is recognised as exactly that placeholder. */
  lemma PlaceholderOf(name: string, rest: string)
    requires name != [] && '}' !in name
    ensures Placeholder("${" + name + "}" + rest) == Some((name, rest))
  {
    var s := "${" + name + "}" + rest;
    assert s[2..] == name + ['}'] + rest;
    FindAfter(name, '}', rest);
    assert s[2..2 + |name|] == name && s[3 + |name|..] == rest;
  }

  /** The `ConfigurationError` a placeholder without default raises when its variable is unset. */
  function MissingVariable(name: string): Failure {
    Foreign(ConfigurationError, "Environment variable '" + name + "' not found")
  }

  /**
   The text a placeholder's inside `${...}` is replaced by: split at the first
   `:` into a variable and a default, `os.getenv(variable, default)`; without a
   `:`, the variable's value, and an error when it is unset.
   */
  function Resolve(inner: string, env: Env): (r: Result<string, Failure>)
    ensures ':' !in inner ==> (r.Ok? <==> inner in env)
    ensures ':' !in inner && inner in env ==> r == Ok(env[inner])
    ensures ':' !in inner && inner !in env ==> r == Err(MissingVariable(inner))
    ensures ':' in inner ==> r.Ok?
  {
    match Find(inner, ':')
    case Some(i) =>
      var variable := inner[..i];
      if variable in env then Ok(env[variable]) else Ok(inner[i + 1..])
    case None =>
      if inner in env then Ok(env[inner]) else Err(MissingVariable(inner))
  }

  /** A variable with a default reads as its value when set and as the default otherwise. */
  lemma ResolveDefault(variable: string, default: string, env: Env)
    requires ':' !in variable
    ensures Resolve(variable + ":" + default, env) ==
            Ok(if variable in env then env[variable] else default)
  {
    var inner := variable + ":" + default;
    assert inner == variable + [':'] + default;
    FindAfter(variable, ':', default);
    assert inner[..|variable|] == variable && inner[|variable| + 1..] == default;
  }

  /**
   `_substitute_env_vars_in_string`: `re.sub` of every placeholder, left to
   right; the text a placeholder is replaced by is not scanned again, and the
   first unset variable stops the substitution.
   */
  function SubstituteString(s: string, env: Env): (r: Result<string, Failure>)
    ensures r.Err? ==> UnsetVariableError(r.error, env)
    decreases |s|
  {
    if s == [] then Ok([])
    else
      match Placeholder(s)
      case Some((inner, rest)) =>
        var text :- Resolve(inner, env);
        var tail :- SubstituteString(rest, env);
        Ok(text + tail)
      case None =>
        var tail :- SubstituteString(s[1..], env);
        Ok([s[0]] + tail)
  }

  /** The error of a placeholder without default whose variable is unset. */
  ghost predicate UnsetVariableError(f: Failure, env: Env) {
    exists name :: name != [] && name !in env && f == MissingVariable(name)
  }

  /** A string in which `${` never occurs. */
  predicate NoPlaceholderStart(s: string) {
    forall i :: 0 <= i < |s| - 1 ==> !(s[i] == '$' && s[i + 1] == '{')
  }

  /** Text without placeholders comes through unchanged. */
  lemma {:induction false} PlainTextUnchanged(s: string, env: Env)
    requires NoPlaceholderStart(s)
    ensures SubstituteString(s, env) == Ok(s)
    decreases |s|
  {
    if s != [] {
      assert Placeholder(s).None? by {
        if |s| >= 2 { assert !(s[0] == '$' && s[1] == '{'); }
      }
      assert NoPlaceholderStart(s[1..]) by {
        forall i | 0 <= i < |s[1..]| - 1
          ensures !(s[1..][i] == '$' && s[1..][i + 1] == '{')
        {
          assert s[1..][i] == s[i + 1] && s[1..][i + 1] == s[i + 2];
        }
      }
      PlainTextUnchanged(s[1..], env);
      assert [s[0]] + s[1..] == s;
    }
  }

  /** `p` is plain text in front of `s`: `${` starts nowhere in `p`, nor across the seam. */
  predicate PlainBefore(p: string, s: string) {
    NoPlaceholderStart(p) && (p != [] && s != [] ==> !(p[|p| - 1] == '$' && s[0] == '{'))
  }

  /** Plain text in front of a string comes through unchanged, whatever the string substitutes to. */
  lemma {:induction false} PlainPrefixKept(p: string, s: string, env: Env)
    requires PlainBefore(p, s)
    ensures SubstituteString(p + s, env) == Prefixed(p, SubstituteString(s, env))
    decreases |p|
  {
    if p != [] {
      PlainStep(p, s, env);
      PlainPrefixKept(p[1..], s, env);
      PrefixedTwice([p[0]], p[1..], SubstituteString(s, env));
      assert [p[0]] + p[1..] == p;
    } else {
      assert p + s == s;
      PrefixedTwice([], [], SubstituteString(s, env));
    }
  }

  /** The first character of plain text is copied, and the rest is still plain text. */
  lemma PlainStep(p: string, s: string, env: Env)
    requires PlainBefore(p, s) && p != []
    ensures PlainBefore(p[1..], s)
    ensures SubstituteString(p + s, env) == Prefixed([p[0]], SubstituteString(p[1..] + s, env))
  {
    PlainBeforeTail(p, s);
    CharKept(p + s, env);
    assert (p + s)[1..] == p[1..] + s;
    assert (p + s)[0] == p[0];
  }

  lemma PrefixedTwice(a: string, b: string, r: Result<string, Failure>)
    ensures Prefixed(a, Prefixed(b, r)) == Prefixed(a + b, r)
    ensures Prefixed([], r) == r
  {
    if r.Ok? {
      assert a + (b + r.value) == (a + b) + r.value;
      assert [] + r.value == r.value;
    }
  }

  /** A substitution result with `p` put in front of the text. */
  function Prefixed(p: string, r: Result<string, Failure>): Result<string, Failure> {
    match r
    case Ok(t) => Ok(p + t)
    case Err(f) => Err(f)
  }

  /** A character that starts no placeholder is copied, and the rest substituted. */
  lemma CharKept(s: string, env: Env)
    requires s != [] && Placeholder(s).None?
    ensures SubstituteString(s, env) == Prefixed([s[0]], SubstituteString(s[1..], env))
  {
  }

  /** Plain text stays plain after its first character, and starts no placeholder. */
  lemma PlainBeforeTail(p: string, s: string)
    requires PlainBefore(p, s) && p != []
    ensures PlainBefore(p[1..], s)
    ensures Placeholder(p + s).None?
  {
    var ps := p + s;
    if |p| >= 2 {
      assert !(p[0] == '$' && p[1] == '{');
    } else if s != [] {
      assert ps[1] == s[0];
    }
    forall i | 0 <= i < |p[1..]| - 1
      ensures !(p[1..][i] == '$' && p[1..][i + 1] == '{')
    {
      assert p[1..][i] == p[i + 1] && p[1..][i + 1] == p[i + 2];
    }
  }

  /**
   A placeholder at the front is replaced by its resolution, and whatever
   follows is substituted on its own, so the replacement text is never
   re-read as a placeholder.
   */
  lemma PlaceholderReplaced(inner: string, rest: string, env: Env)
    requires inner != [] && '}' !in inner
    ensures SubstituteString("${" + inner + "}" + rest, env) ==
            match Resolve(inner, env)
            case Err(f) => Err(f)
            case Ok(text) =>
              match SubstituteString(rest, env)
              case Err(f) => Err(f)
              case Ok(tail) => Ok(text + tail)
  {
    PlaceholderOf(inner, rest);
  }

  /** `${NAME}` with `NAME` unset fails with "Environment variable 'NAME' not found". */
  lemma UnsetVariableFails(name: string, rest: string, env: Env)
    requires name != [] && '}' !in name && ':' !in name
    requires name !in env
    ensures SubstituteString("${" + name + "}" + rest, env) == Err(MissingVariable(name))
  {
    PlaceholderOf(name, rest);
  }

  /**
   `b` is `a` with every string, at any depth, substituted: same constructors,
   same keys in the same order, same lengths, same non-string leaves.
   */
  predicate Substituted(a: Value, b: Value, env: Env)
    decreases a
  {
    match a
    case Str(s) => b.Str? && SubstituteString(s, env) == Ok(b.s)
    case List(xs) => b.List? && SubstitutedItems(xs, b.items, env)
    case Obj(fs) => b.Obj? && SubstitutedFields(fs, b.fields, env)
    case _ => a == b
  }

  predicate SubstitutedItems(xs: seq<Value>, ys: seq<Value>, env: Env)
    decreases xs
  {
    |xs| == |ys| && (xs == [] || (assert xs[0] in xs; Substituted(xs[0], ys[0], env) && SubstitutedItems(xs[1..], ys[1..], env)))
  }

  predicate SubstitutedFields(fs: Dict<Value>, gs: Dict<Value>, env: Env)
    decreases fs
  {
    |fs| == |gs|
    && (fs == [] || (assert fs[0] in fs; assert fs[0].1 < fs[0];
                    fs[0].0 == gs[0].0 && Substituted(fs[0].1, gs[0].1, env) && SubstitutedFields(fs[1..], gs[1..], env)))
  }

  /**
   `_substitute_environment_variables`: every string at any depth is
   substituted, dictionary keys and everything that is not a string are kept,
   and the first failure, in document order, is what is raised.
   */
  function SubstituteValue(v: Value, env: Env): (r: Result<Value, Failure>)
    ensures r.Ok? ==> Substituted(v, r.value, env)
    ensures r.Err? ==> UnsetVariableError(r.error, env)
    ensures v.Str? ==> r == (match SubstituteString(v.s, env) case Ok(t) => Ok(Str(t)) case Err(f) => Err(f))
    decreases v
  {
    match v
    case Str(s) =>
      var t :- SubstituteString(s, env);
      Ok(Str(t))
    case List(xs) =>
      var ys :- SubstituteItems(xs, env);
      Ok(List(ys))
    case Obj(fs) =>
      var gs :- SubstituteFields(fs, env);
      Ok(Obj(gs))
    case _ => Ok(v)
  }

  function SubstituteItems(xs: seq<Value>, env: Env): (r: Result<seq<Value>, Failure>)
    ensures r.Ok? ==> SubstitutedItems(xs, r.value, env)
    ensures r.Err? ==> UnsetVariableError(r.error, env)
    decreases xs
  {
    if xs == [] then Ok([])
    else
      assert xs[0] in xs;
      var y :- SubstituteValue(xs[0], env);
      var ys :- SubstituteItems(xs[1..], env);
      var r := [y] + ys;
      assert r[0] == y && r[1..] == ys;
      Ok(r)
  }

  function SubstituteFields(fs: Dict<Value>, env: Env): (r: Result<Dict<Value>, Failure>)
    ensures r.Ok? ==> SubstitutedFields(fs, r.value, env)
    ensures r.Err? ==> UnsetVariableError(r.error, env)
    decreases fs
  {
    if fs == [] then Ok([])
    else
      assert fs[0] in fs;
      assert fs[0].1 < fs[0];
      var y :- SubstituteValue(fs[0].1, env);
      var gs :- SubstituteFields(fs[1..], env);
      var r := [(fs[0].0, y)] + gs;
      assert r[0] == (fs[0].0, y) && r[1..] == gs;
      Ok(r)
  }

  /** A substituted dictionary has the same keys, in the same order. */
  lemma {:induction false} SubstitutedKeys(fs: Dict<Value>, gs: Dict<Value>, env: Env)
    requires SubstitutedFields(fs, gs, env)
    ensures Keys(fs) == Keys(gs)
    decreases fs
  {
    if fs != [] {
      SubstitutedKeys(fs[1..], gs[1..], env);
      assert Keys(fs) == [fs[0].0] + Keys(fs[1..]);
      assert Keys(gs) == [gs[0].0] + Keys(gs[1..]);
    }
  }

  /**
   The longest run of characters other than `}` and `:` at the front of
   `t`: the group `([^}:]+)` captures when the run is not empty.
   */
  function NameRun(t: string): (r: string)
    ensures r <= t
    ensures '}' !in r && ':' !in r
    ensures |r| < |t| ==> t[|r|] == '}' || t[|r|] == ':'
  {
    if t == [] || t[0] == '}' || t[0] == ':' then []
    else [t[0]] + NameRun(t[1..])
  }

  /** Whether `os.getenv(name)` is falsy: unset or empty. */
  predicate Unset(name: string, env: Env) {
    name !in env || env[name] == ""
  }

  /**
   The names `re.finditer(r'\$\{([^}:]+)', s)` captures whose variable is
   unset or empty, in order of appearance; matches do not overlap.
   */
  function MissingInString(s: string, env: Env): (r: seq<string>)
    ensures forall i :: 0 <= i < |r| ==> r[i] != [] && Unset(r[i], env)
    decreases |s|
  {
    if |s| < 2 then []
    else if s[0] == '$' && s[1] == '{' && NameRun(s[2..]) != [] then
      var name := NameRun(s[2..]);
      (if Unset(name, env) then [name] else []) + MissingInString(s[2 + |name|..], env)
    else MissingInString(s[1..], env)
  }

  /**
   `ConfigValidator.validate_environment_variables`: the unset names of every
   string at any depth, dictionaries in key order and lists in order.
   */
  function MissingVariables(v: Value, env: Env): (r: seq<string>)
    ensures forall i :: 0 <= i < |r| ==> r[i] != [] && Unset(r[i], env)
    decreases v
  {
    match v
    case Str(s) => MissingInString(s, env)
    case List(xs) => MissingInItems(xs, env)
    case Obj(fs) => MissingInFields(fs, env)
    case _ => []
  }

  function MissingInItems(xs: seq<Value>, env: Env): (r: seq<string>)
    ensures forall i :: 0 <= i < |r| ==> r[i] != [] && Unset(r[i], env)
    decreases xs
  {
    if xs == [] then []
    else
      assert xs[0] in xs;
      MissingVariables(xs[0], env) + MissingInItems(xs[1..], env)
  }

  function MissingInFields(fs: Dict<Value>, env: Env): (r: seq<string>)
    ensures forall i :: 0 <= i < |r| ==> r[i] != [] && Unset(r[i], env)
    decreases fs
  {
    if fs == [] then []
    else
      assert fs[0] in fs;
      assert fs[0].1 < fs[0];
      MissingVariables(fs[0].1, env) + MissingInFields(fs[1..], env)
  }

  /** `${NAME:default}` with `NAME` unset substitutes to the default. */
  lemma DefaultSubstituted(name: string, default: string, env: Env)
    requires name != [] && ':' !in name && '}' !in name && '}' !in default
    requires name !in env
    ensures SubstituteString("${" + name + ":" + default + "}", env) == Ok(default)
  {
    var inner := name + ":" + default;
    assert '}' !in inner by {
      assert inner == name + [':'] + default;
    }
    var s := "${" + name + ":" + default + "}";
    assert s == "${" + inner + "}" + [];
    PlaceholderOf(inner, []);
    ResolveDefault(name, default, env);
    assert SubstituteString([], env) == Ok([]);
    assert default + [] == default;
  }

  /** The check reports the variable of `${NAME:default}` when `NAME` is unset. */
  lemma DefaultedNameReported(name: string, default: string, env: Env)
    requires name != [] && ':' !in name && '}' !in name && NoPlaceholderStart(default)
    requires name !in env
    ensures MissingInString("${" + name + ":" + default + "}", env) == [name]
  {
    var s := "${" + name + ":" + default + "}";
    assert s[2..] == name + (":" + default + "}");
    NameRunStops(name, ":" + default + "}");
    assert s[2 + |name|..] == ":" + default + "}";
    NoNamesAfterColon(default, env);
  }

  /**
   The check and the substitution disagree on defaults: `${NAME:default}`
   with `NAME` unset substitutes to the default, yet the check reports `NAME`
   as missing.
   */
  lemma DefaultedNameStillReported(name: string, default: string, env: Env)
    requires name != [] && ':' !in name && '}' !in name && '}' !in default && NoPlaceholderStart(default)
    requires name !in env
    ensures SubstituteString("${" + name + ":" + default + "}", env) == Ok(default)
    ensures MissingInString("${" + name + ":" + default + "}", env) == [name]
  {
    DefaultSubstituted(name, default, env);
    DefaultedNameReported(name, default, env);
  }

  /** The run stops at the first `:` or `}` after a name without either. */
  lemma {:induction false} NameRunStops(name: string, rest: string)
    requires ':' !in name && '}' !in name
    requires rest != [] && (rest[0] == ':' || rest[0] == '}')
    ensures NameRun(name + rest) == name
    decreases |name|
  {
    if name != [] {
      assert (name + rest)[1..] == name[1..] + rest;
      NameRunStops(name[1..], rest);
    }
  }

  /** The remainder `:default}` of a defaulted placeholder names no variable when the default holds no `${`. */
  lemma NoNamesAfterColon(default: string, env: Env)
    requires NoPlaceholderStart(default)
    ensures MissingInString(":" + default + "}", env) == []
  {
    var t := ":" + default + "}";
    assert NoPlaceholderStart(t) by {
      forall i | 0 <= i < |t| - 1
        ensures !(t[i] == '$' && t[i + 1] == '{')
      {
        if 1 <= i < |t| - 2 {
          assert t[i] == default[i - 1] && t[i + 1] == default[i];
        }
      }
    }
    NoStartNoNames(t, env);
  }

  /** A string in which `${` never occurs names no variable. */
  lemma {:induction false} NoStartNoNames(t: string, env: Env)
    requires NoPlaceholderStart(t)
    ensures MissingInString(t, env) == []
    decreases |t|
  {
    if |t| >= 2 {
      assert !(t[0] == '$' && t[1] == '{');
      assert NoPlaceholderStart(t[1..]) by {
        forall i | 0 <= i < |t[1..]| - 1
          ensures !(t[1..][i] == '$' && t[1..][i + 1] == '{')
        {
          assert t[1..][i] == t[i + 1] && t[1..][i + 1] == t[i + 2];
        }
      }
      NoStartNoNames(t[1..], env);
    }
  }

  /**
   Completeness of the scan at a placeholder: `${NAME` followed by `:`, `}` or
   the end reports `NAME` exactly when its variable is unset or empty, then
   whatever the rest reports.
   */
  lemma MissingAtPlaceholder(name: string, rest: string, env: Env)
    requires name != [] && ':' !in name && '}' !in name
    requires rest == [] || rest[0] == ':' || rest[0] == '}'
    ensures MissingInString("${" + name + rest, env) ==
            (if Unset(name, env) then [name] else []) + MissingInString(rest, env)
  {
    var s := "${" + name + rest;
    assert s[2..] == name + rest;
    NameRunOf(name, rest);
    assert s[2 + |name|..] == rest;
  }

  /**
   Completeness of the scan at an empty name: `${` followed by ':', '}' or
   the end captures nothing, and the scan goes on after the `${`.
   */
  lemma MissingAtEmptyName(rest: string, env: Env)
    requires rest == [] || rest[0] == ':' || rest[0] == '}'
    ensures MissingInString("${" + rest, env) == MissingInString(rest, env)
  {
    var s := "${" + rest;
    assert s[2..] == rest;
    assert s[1..] == "{" + rest;
    if rest != [] {
      assert ("{" + rest)[1..] == rest;
    }
  }

  /** The name run of a name followed by `:`, `}` or nothing is that name. */
  lemma NameRunOf(name: string, rest: string)
    requires ':' !in name && '}' !in name
    requires rest == [] || rest[0] == ':' || rest[0] == '}'
    ensures NameRun(name + rest) == name
  {
    if rest != [] {
      NameRunStops(name, rest);
    } else {
      assert name + rest == name;
    }
  }

  /** Completeness of the scan over plain text: text in which no `${` starts reports nothing of its own. */
  lemma {:induction false} MissingAfterPlain(p: string, s: string, env: Env)
    requires PlainBefore(p, s)
    ensures MissingInString(p + s, env) == MissingInString(s, env)
    decreases |p|
  {
    if p != [] {
      PlainBeforeTail(p, s);
      MissingAfterPlain(p[1..], s, env);
      var ps := p + s;
      assert ps[1..] == p[1..] + s;
      if |ps| >= 2 {
        assert !(ps[0] == '$' && ps[1] == '{') by {
          if |p| >= 2 { assert !(p[0] == '$' && p[1] == '{'); }
          else { assert ps[1] == s[0]; }
        }
      } else {
        assert |s| <= 1;
      }
    } else {
      assert p + s == s;
    }
  }

  /** Every string of a value, at any depth, in document order: dictionaries in key order, lists in order. */
  function StringLeaves(v: Value): seq<string>
    decreases v
  {
    match v
    case Str(s) => [s]
    case List(xs) => ItemLeaves(xs)
    case Obj(fs) => FieldLeaves(fs)
    case _ => []
  }

  function ItemLeaves(xs: seq<Value>): seq<string>
    decreases xs
  {
    if xs == [] then [] else assert xs[0] in xs; StringLeaves(xs[0]) + ItemLeaves(xs[1..])
  }

  function FieldLeaves(fs: Dict<Value>): seq<string>
    decreases fs
  {
    if fs == [] then []
    else assert fs[0] in fs; assert fs[0].1 < fs[0]; StringLeaves(fs[0].1) + FieldLeaves(fs[1..])
  }

  /** The strings substituted one after another; the first failure is the result. */
  function SubstituteAll(ss: seq<string>, env: Env): Result<seq<string>, Failure>
    decreases |ss|
  {
    if ss == [] then Ok([])
    else
      match SubstituteString(ss[0], env)
      case Err(f) => Err(f)
      case Ok(t) => Prefixed2([t], SubstituteAll(ss[1..], env))
  }

  /**
   Running substitution over strings succeeds exactly when every string
   substitutes, and then gives each string's substitution in place.
   */
  lemma {:induction false} SubstituteAllPointwise(ss: seq<string>, env: Env)
    ensures SubstituteAll(ss, env).Ok? <==> forall i :: 0 <= i < |ss| ==> SubstituteString(ss[i], env).Ok?
    ensures SubstituteAll(ss, env).Ok? ==>
              |SubstituteAll(ss, env).value| == |ss|
              && forall i :: 0 <= i < |ss| ==> SubstituteString(ss[i], env) == Ok(SubstituteAll(ss, env).value[i])
    decreases |ss|
  {
    if ss != [] {
      SubstituteAllPointwise(ss[1..], env);
      assert forall i :: 1 <= i < |ss| ==> ss[i] == ss[1..][i - 1];
    }
  }

  /** A failing run of substitutions fails with the failure of the first string that fails. */
  lemma {:induction false} SubstituteAllFirstFailure(ss: seq<string>, env: Env)
    requires SubstituteAll(ss, env).Err?
    ensures exists i :: FailsFirst(ss, i, env) && SubstituteString(ss[i], env) == Err(SubstituteAll(ss, env).error)
    decreases |ss|
  {
    if SubstituteString(ss[0], env).Err? {
      assert FailsFirst(ss, 0, env);
    } else {
      SubstituteAllFirstFailure(ss[1..], env);
      var j :| FailsFirst(ss[1..], j, env) && SubstituteString(ss[1..][j], env) == Err(SubstituteAll(ss[1..], env).error);
      assert forall i :: 1 <= i < |ss| ==> ss[i] == ss[1..][i - 1];
      assert FailsFirst(ss, j + 1, env);
    }
  }

  /** `ss[i]` is the first of `ss` whose substitution fails. */
  predicate FailsFirst(ss: seq<string>, i: int, env: Env) {
    0 <= i < |ss| && SubstituteString(ss[i], env).Err?
    && forall j :: 0 <= j < i ==> SubstituteString(ss[j], env).Ok?
  }

  /** Substituting two runs of strings is substituting the first, then the second. */
  lemma {:induction false} SubstituteAllAppend(a: seq<string>, b: seq<string>, env: Env)
    ensures SubstituteAll(a + b, env) ==
            match SubstituteAll(a, env)
            case Err(f) => Err(f)
            case Ok(ta) => Prefixed2(ta, SubstituteAll(b, env))
    decreases |a|
  {
    if a == [] {
      assert a + b == b;
      match SubstituteAll(b, env)
      case Ok(tb) => assert [] + tb == tb;
      case Err(_) =>
    } else {
      assert (a + b)[0] == a[0] && (a + b)[1..] == a[1..] + b;
      SubstituteAllAppend(a[1..], b, env);
      match SubstituteAll(a, env)
      case Err(_) =>
      case Ok(ta) =>
        match SubstituteAll(b, env)
        case Err(_) =>
        case Ok(tb) => assert [ta[0]] + (ta[1..] + tb) == ta + tb;
    }
  }

  /** A run of substituted strings with `front` put before it. */
  function Prefixed2(front: seq<string>, r: Result<seq<string>, Failure>): Result<seq<string>, Failure> {
    match r
    case Ok(t) => Ok(front + t)
    case Err(f) => Err(f)
  }

  /**
   Substituting a value is substituting its strings in document order: it
   succeeds exactly when every string does, the strings of the result are
   the substituted strings, and a failure is the first string's failure.
   */
  lemma {:induction false} SubstituteLeaves(v: Value, env: Env)
    ensures match SubstituteValue(v, env)
            case Ok(w) => SubstituteAll(StringLeaves(v), env) == Ok(StringLeaves(w))
            case Err(f) => SubstituteAll(StringLeaves(v), env) == Err(f)
    decreases v
  {
    match v
    case Str(s) =>
      assert [s][0] == s && [s][1..] == [];
      match SubstituteString(s, env) {
        case Ok(t) => assert [t] + [] == [t];
        case Err(_) =>
      }
    case List(xs) => SubstituteItemLeaves(xs, env);
    case Obj(fs) => SubstituteFieldLeaves(fs, env);
    case _ =>
  }

  lemma {:induction false} SubstituteItemLeaves(xs: seq<Value>, env: Env)
    ensures match SubstituteItems(xs, env)
            case Ok(ys) => SubstituteAll(ItemLeaves(xs), env) == Ok(ItemLeaves(ys))
            case Err(f) => SubstituteAll(ItemLeaves(xs), env) == Err(f)
    decreases xs
  {
    if xs != [] {
      assert xs[0] in xs;
      SubstituteLeaves(xs[0], env);
      SubstituteItemLeaves(xs[1..], env);
      SubstituteAllAppend(StringLeaves(xs[0]), ItemLeaves(xs[1..]), env);
      match SubstituteItems(xs, env)
      case Err(_) =>
      case Ok(ys) =>
        assert ItemLeaves(ys) == StringLeaves(ys[0]) + ItemLeaves(ys[1..]);
    }
  }

  lemma {:induction false} SubstituteFieldLeaves(fs: Dict<Value>, env: Env)
    ensures match SubstituteFields(fs, env)
            case Ok(gs) => SubstituteAll(FieldLeaves(fs), env) == Ok(FieldLeaves(gs))
            case Err(f) => SubstituteAll(FieldLeaves(fs), env) == Err(f)
    decreases fs
  {
    if fs != [] {
      assert fs[0] in fs;
      assert fs[0].1 < fs[0];
      SubstituteLeaves(fs[0].1, env);
      SubstituteFieldLeaves(fs[1..], env);
      SubstituteAllAppend(StringLeaves(fs[0].1), FieldLeaves(fs[1..]), env);
      match SubstituteFields(fs, env)
      case Err(_) =>
      case Ok(gs) =>
        assert FieldLeaves(gs) == StringLeaves(gs[0].1) + FieldLeaves(gs[1..]);
    }
  }

  /** The reports of a run of strings, concatenated in order. */
  function MissingInAll(ss: seq<string>, env: Env): seq<string>
    decreases |ss|
  {
    if ss == [] then [] else MissingInString(ss[0], env) + MissingInAll(ss[1..], env)
  }

  lemma {:induction false} MissingInAllAppend(a: seq<string>, b: seq<string>, env: Env)
    ensures MissingInAll(a + b, env) == MissingInAll(a, env) + MissingInAll(b, env)
    decreases |a|
  {
    if a == [] {
      assert a + b == b;
    } else {
      assert (a + b)[0] == a[0] && (a + b)[1..] == a[1..] + b;
      MissingInAllAppend(a[1..], b, env);
    }
  }

  /** The check of a value reports, in document order, what each of its strings reports. */
  lemma {:induction false} MissingVariablesOfLeaves(v: Value, env: Env)
    ensures MissingVariables(v, env) == MissingInAll(StringLeaves(v), env)
    decreases v
  {
    match v
    case Str(s) => assert MissingInAll([s], env) == MissingInString(s, env) + [];
    case List(xs) => MissingItemLeaves(xs, env);
    case Obj(fs) => MissingFieldLeaves(fs, env);
    case _ =>
  }

  lemma {:induction false} MissingItemLeaves(xs: seq<Value>, env: Env)
    ensures MissingInItems(xs, env) == MissingInAll(ItemLeaves(xs), env)
    decreases xs
  {
    if xs != [] {
      assert xs[0] in xs;
      MissingVariablesOfLeaves(xs[0], env);
      MissingItemLeaves(xs[1..], env);
      MissingInAllAppend(StringLeaves(xs[0]), ItemLeaves(xs[1..]), env);
    }
  }

  lemma {:induction false} MissingFieldLeaves(fs: Dict<Value>, env: Env)
    ensures MissingInFields(fs, env) == MissingInAll(FieldLeaves(fs), env)
    decreases fs
  {
    if fs != [] {
      assert fs[0] in fs;
      assert fs[0].1 < fs[0];
      MissingVariablesOfLeaves(fs[0].1, env);
      MissingFieldLeaves(fs[1..], env);
      MissingInAllAppend(StringLeaves(fs[0].1), FieldLeaves(fs[1..]), env);
    }
  }
}
