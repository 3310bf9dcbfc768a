/**
 The static helpers of `ConfigValidator`: the connection-string check, the
 cron-expression check without `croniter`, and the whitespace splitting the
 latter relies on. The environment-variable scan is `Substitution.MissingVariables`.
 */
module Checks {
  import opened Base
  import opened Values

  /** `needle` occurs in `hay` starting at offset `i`. */
  predicate Occurs(needle: string, hay: string, i: int) {
    0 <= i && i + |needle| <= |hay| && hay[i..i + |needle|] == needle
  }

  /** `needle in hay` holds exactly when `needle` occurs at some offset of `hay`. */
  lemma {:induction false} IsSubstringOccurs(needle: string, hay: string)
    ensures IsSubstring(needle, hay) <==> exists i :: Occurs(needle, hay, i)
  {
    if needle <= hay {
      assert Occurs(needle, hay, 0);
    } else if hay == [] {
    } else {
      IsSubstringOccurs(needle, hay[1..]);
      if exists i :: Occurs(needle, hay, i) {
        var i :| Occurs(needle, hay, i);
        assert i != 0;
        assert hay[1..][i - 1..i - 1 + |needle|] == hay[i..i + |needle|];
        assert Occurs(needle, hay[1..], i - 1);
      }
      if IsSubstring(needle, hay[1..]) {
        var j :| Occurs(needle, hay[1..], j);
        assert hay[1..][j..j + |needle|] == hay[j + 1..j + 1 + |needle|];
        assert Occurs(needle, hay, j + 1);
      }
    }
  }

  /**
   `validate_connection_string(connection_string, db_type)`: a SQL Server
   string must mention `Server=` and `Database=`, in any letter case; every
   other database type is accepted.
   */
  function ValidateConnectionString(connectionString: string, dbType: string): (ok: bool)
    ensures AsciiLower(dbType) != "sqlserver" ==> ok
  {
    if AsciiLower(dbType) == "sqlserver" then
      var cs := AsciiLower(connectionString);
      IsSubstring("server=", cs) && IsSubstring("database=", cs)
    else true
  }

  /**
   A SQL Server connection string is accepted exactly when both keywords occur
   somewhere in its lower-cased text; the verdict ignores the case of the string.
   */
  lemma ConnectionStringAccepted(connectionString: string, dbType: string)
    requires AsciiLower(dbType) == "sqlserver"
    ensures ValidateConnectionString(connectionString, dbType) <==>
      (exists i :: Occurs("server=", AsciiLower(connectionString), i)) &&
      (exists j :: Occurs("database=", AsciiLower(connectionString), j))
    ensures ValidateConnectionString(AsciiLower(connectionString), dbType) ==
            ValidateConnectionString(connectionString, dbType)
  {
    var cs := AsciiLower(connectionString);
    IsSubstringOccurs("server=", cs);
    IsSubstringOccurs("database=", cs);
    AsciiLowerIdempotent(connectionString);
  }

  /** Python's `str.isspace()` for one character: the characters `str.split()` splits on. */
  predicate IsSpace(c: char) {
    || ('\U{9}' <= c <= '\U{D}')
    || ('\U{1C}' <= c <= '\U{20}')
    || c == '\U{85}' || c == '\U{A0}' || c == '\U{1680}'
    || ('\U{2000}' <= c <= '\U{200A}')
    || c == '\U{2028}' || c == '\U{2029}' || c == '\U{202F}' || c == '\U{205F}' || c == '\U{3000}'
  }

  /** A word as `split()` returns it: non-empty and free of whitespace. */
  predicate IsWord(w: string) {
    w != [] && forall i :: 0 <= i < |w| ==> !IsSpace(w[i])
  }

  /** The longest prefix of `s` without whitespace. */
  function Token(s: string): (t: string)
    ensures t <= s
    ensures forall i :: 0 <= i < |t| ==> !IsSpace(t[i])
    ensures |t| < |s| ==> IsSpace(s[|t|])
  {
    if s == [] || IsSpace(s[0]) then [] else [s[0]] + Token(s[1..])
  }

  /** Python's `s.split()` with no separator: the maximal runs of non-whitespace, in order. */
  function Words(s: string): (ws: seq<string>)
    ensures forall k :: 0 <= k < |ws| ==> IsWord(ws[k])
    decreases |s|
  {
    if s == [] then []
    else if IsSpace(s[0]) then Words(s[1..])
    else
      var w := Token(s);
      [w] + Words(s[|w|..])
  }

  /** The words joined by single spaces. */
  function Join(ws: seq<string>): string {
    if ws == [] then []
    else if |ws| == 1 then ws[0]
    else ws[0] + " " + Join(ws[1..])
  }

  /** A word followed by a space (or nothing) is read back as that word. */
  lemma {:induction false} TokenOfWord(w: string, rest: string)
    requires forall i :: 0 <= i < |w| ==> !IsSpace(w[i])
    requires rest == [] || IsSpace(rest[0])
    ensures Token(w + rest) == w
  {
    if w != [] {
      TokenOfWord(w[1..], rest);
      assert (w + rest)[1..] == w[1..] + rest;
    }
  }

  /** Splitting words joined by single spaces gives the words back. */
  lemma {:induction false} WordsOfJoin(ws: seq<string>)
    requires forall k :: 0 <= k < |ws| ==> IsWord(ws[k])
    ensures Words(Join(ws)) == ws
  {
    if ws == [] {
    } else if |ws| == 1 {
      TokenOfWord(ws[0], []);
      assert ws[0] + [] == ws[0];
      assert Join(ws)[|ws[0]|..] == [];
    } else {
      var w := ws[0];
      var s := Join(ws);
      var tail := Join(ws[1..]);
      assert s == w + (" " + tail);
      TokenOfWord(w, " " + tail);
      assert s[|w|..] == " " + tail;
      assert (" " + tail)[1..] == tail;
      WordsOfJoin(ws[1..]);
    }
  }

  /**
   `validate_cron_expression(cron_expr)`. With `croniter` importable its verdict
   is taken as given; without it, the expression must split into five fields.
   */
  function ValidateCronExpression(cronExpr: string, croniter: Option<string -> bool>): (ok: bool)
    ensures croniter.Some? ==> ok == croniter.value(cronExpr)
  {
    match croniter
    case Some(isValid) => isValid(cronExpr)
    case None => |Words(cronExpr)| == 5
  }

  /** Without `croniter`, any fields joined by spaces pass exactly when there are five of them. */
  lemma CronFieldCount(fields: seq<string>)
    requires forall k :: 0 <= k < |fields| ==> IsWord(fields[k])
    ensures ValidateCronExpression(Join(fields), None) <==> |fields| == 5
  {
    WordsOfJoin(fields);
  }
}
