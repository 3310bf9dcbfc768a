/**
 JSON-like values as the configuration files and the error contexts hold them,
 and the handful of Python operations the modelled code applies to them
 (`in`, `[]`, `.get`, `.items()`, `.lower()`, truthiness, `str()`), each with
 the error Python raises when the value has the wrong shape.
 */
module Values {
  import opened Base
  import opened Dicts

  datatype Value =
    | Null
    | Bool(b: bool)
    | Int(i: int)
    | Str(s: string)
    | List(items: seq<Value>)
    | Obj(fields: Dict<Value>)

  /** The built-in Python errors that these operations raise. */
  datatype PyFault = TypeError | AttributeError | KeyError(key: string)

  /** Python truthiness: `None`, `False`, `0`, `""`, `[]` and `{}` are false. */
  predicate Truthy(v: Value) {
    match v
    case Null => false
    case Bool(b) => b
    case Int(i) => i != 0
    case Str(s) => s != ""
    case List(xs) => xs != []
    case Obj(fs) => fs != []
  }

  /** Every dictionary inside `v`, at any depth, has unique keys. */
  ghost predicate WellFormed(v: Value)
    decreases v
  {
    match v
    case List(xs) => WellFormedItems(xs)
    case Obj(fs) => UniqueKeys(fs) && WellFormedFields(fs)
    case _ => true
  }

  ghost predicate WellFormedItems(xs: seq<Value>)
    decreases xs
  {
    xs == [] || (assert xs[0] in xs; WellFormed(xs[0]) && WellFormedItems(xs[1..]))
  }

  ghost predicate WellFormedFields(fs: Dict<Value>)
    decreases fs
  {
    fs == [] || (assert fs[0] in fs; assert fs[0].1 < fs[0]; WellFormed(fs[0].1) && WellFormedFields(fs[1..]))
  }

  /** Python's `needle in hay` for two strings. */
  predicate IsSubstring(needle: string, hay: string) {
    needle <= hay || (hay != [] && IsSubstring(needle, hay[1..]))
  }

  /** Python's `key in container` for a string key. */
  function Contains(container: Value, key: string): (r: Result<bool, PyFault>)
    ensures container.Obj? ==> r == Ok(HasKey(container.fields, key))
    ensures container.List? ==> r == Ok(Str(key) in container.items)
    ensures container.Str? ==> r == Ok(IsSubstring(key, container.s))
    ensures r.Err? <==> container.Null? || container.Bool? || container.Int?
  {
    match container
    case Obj(fs) => Ok(HasKey(fs, key))
    case List(xs) => Ok(Str(key) in xs)
    case Str(s) => Ok(IsSubstring(key, s))
    case _ => Err(TypeError)
  }

  /** Python's `container[key]` for a string key. */
  function Index(container: Value, key: string): (r: Result<Value, PyFault>)
    ensures r.Ok? <==> container.Obj? && HasKey(container.fields, key)
    ensures r.Ok? ==> Get(container.fields, key) == Some(r.value)
    ensures container.Obj? && !HasKey(container.fields, key) ==> r == Err(KeyError(key))
  {
    match container
    case Obj(fs) =>
      GetFound(fs, key);
      (match Get(fs, key)
       case Some(v) => Ok(v)
       case None => Err(KeyError(key)))
    case _ => Err(TypeError)
  }

  /** Python's `container.get(key, default)`; only dictionaries have `.get`. */
  function GetKey(container: Value, key: string, default: Value): (r: Result<Value, PyFault>)
    ensures r.Ok? <==> container.Obj?
    ensures r.Ok? && HasKey(container.fields, key) ==> Get(container.fields, key) == Some(r.value)
    ensures r.Ok? && !HasKey(container.fields, key) ==> r.value == default
  {
    match container
    case Obj(fs) => GetFound(fs, key); Ok(GetOr(fs, key, default))
    case _ => Err(AttributeError)
  }

  /** Python's `container.items()`; only dictionaries have `.items`. */
  function Items(container: Value): (r: Result<Dict<Value>, PyFault>)
    ensures r.Ok? <==> container.Obj?
    ensures r.Ok? ==> r.value == container.fields
  {
    match container
    case Obj(fs) => Ok(fs)
    case _ => Err(AttributeError)
  }

  /** Lower-case of one character, for the ASCII letters. */
  function LowerChar(c: char): char {
    if 'A' <= c <= 'Z' then (c as int + 32) as char else c
  }

  /**
   Python's `str.lower()` restricted to ASCII letters. The strings the modelled
   code compares against ('sqlserver', 'mysql', 'postgresql', 'oracle',
   'server=', 'database=') contain no letter that a non-ASCII character
   lower-cases to, so comparisons against them come out as in Python.
   */
  function AsciiLower(s: string): (r: string)
    ensures |r| == |s|
    ensures forall i :: 0 <= i < |s| ==> r[i] == LowerChar(s[i])
  {
    seq(|s|, i requires 0 <= i < |s| => LowerChar(s[i]))
  }

  /** Lower-casing twice is lower-casing once, and leaves no upper-case ASCII letter. */
  lemma AsciiLowerIdempotent(s: string)
    ensures AsciiLower(AsciiLower(s)) == AsciiLower(s)
    ensures forall i :: 0 <= i < |s| ==> !('A' <= AsciiLower(s)[i] <= 'Z')
  {
  }

  /** Python's `v.lower()`; only strings have `.lower`. */
  function Lower(v: Value): (r: Result<string, PyFault>)
    ensures r.Ok? <==> v.Str?
    ensures r.Ok? ==> r.value == AsciiLower(v.s)
  {
    match v
    case Str(s) => Ok(AsciiLower(s))
    case _ => Err(AttributeError)
  }

  function DigitChar(d: nat): char
    requires d < 10
  {
    "0123456789"[d]
  }

  /** Python's `str(n)` for a natural number. */
  function NatToDecimal(n: nat): (r: string)
    ensures |r| >= 1
    ensures forall i :: 0 <= i < |r| ==> '0' <= r[i] <= '9'
    ensures |r| > 1 ==> r[0] != '0'
  {
    if n < 10 then [DigitChar(n)] else NatToDecimal(n / 10) + [DigitChar(n % 10)]
  }

  /** Reads a string of decimal digits back into its number. */
  function DecimalValue(s: string): nat
    requires forall i :: 0 <= i < |s| ==> '0' <= s[i] <= '9'
  {
    if s == [] then 0 else 10 * DecimalValue(s[..|s| - 1]) + (s[|s| - 1] as int - '0' as int)
  }

  /** The decimal text of a number reads back as that number. */
  lemma {:induction false} DecimalRoundTrip(n: nat)
    ensures DecimalValue(NatToDecimal(n)) == n
  {
    var r := NatToDecimal(n);
    if n >= 10 {
      DecimalRoundTrip(n / 10);
      assert r[..|r| - 1] == NatToDecimal(n / 10);
    }
  }

  /** Python's `str(i)` for an integer. */
  function IntToDecimal(i: int): string {
    if i < 0 then "-" + NatToDecimal(-i) else NatToDecimal(i)
  }

  /**
   Python's `repr()` of a value. Strings are quoted with single quotes; the
   escaping of quotes and control characters inside them is not modelled.
   */
  function Repr(v: Value): string {
    match v
    case Str(s) => "'" + s + "'"
    case List(xs) => "[" + ReprItems(xs) + "]"
    case Obj(fs) => "{" + ReprFields(fs) + "}"
    case _ => ScalarStr(v)
  }

  function ReprItems(xs: seq<Value>): string
    decreases xs
  {
    if xs == [] then ""
    else
      assert xs[0] in xs;
      Repr(xs[0]) + (if |xs| == 1 then "" else ", " + ReprItems(xs[1..]))
  }

  function ReprFields(fs: Dict<Value>): string
    decreases fs
  {
    if fs == [] then ""
    else
      assert fs[0] in fs;
      assert fs[0].1 < fs[0];
      "'" + fs[0].0 + "': " + Repr(fs[0].1) + (if |fs| == 1 then "" else ", " + ReprFields(fs[1..]))
  }

  /** Python's `str()` of a value that is neither a list nor a dictionary. */
  function ScalarStr(v: Value): string {
    match v
    case Null => "None"
    case Bool(b) => if b then "True" else "False"
    case Int(i) => IntToDecimal(i)
    case Str(s) => s
    case _ => ""
  }

  /** Python's `str()` of a value, as an f-string interpolates it. */
  function PyStr(v: Value): (r: string)
    ensures v.Str? ==> r == v.s
  {
    if v.List? || v.Obj? then Repr(v) else ScalarStr(v)
  }
}
