/**
 The concrete part of the abstract extractor: its statistics record and the
 operations that update it, the required-field check of its configuration,
 and the WHERE clause of an incremental extraction.
 */
module Extractor {
  import opened Base
  import opened Values
  import ConfigFiles

  /** A `datetime`: calendar date, time of day and microseconds. */
  datatype DateTime = DateTime(year: nat, month: nat, day: nat,
                               hour: nat, minute: nat, second: nat, microsecond: nat)

  /** The ranges `datetime` enforces on its fields (month lengths aside). */
  predicate ValidDateTime(t: DateTime) {
    && 1 <= t.year <= 9999 && 1 <= t.month <= 12 && 1 <= t.day <= 31
    && t.hour < 24 && t.minute < 60 && t.second < 60 && t.microsecond < 1000000
  }

  /** One entry of the error list: when it was added and its message. */
  datatype ErrorRecord = ErrorRecord(timestamp: DateTime, error: string)

  /** The `extraction_stats` dictionary. */
  datatype Stats = Stats(startTime: Option<DateTime>, endTime: Option<DateTime>,
                         rowsExtracted: int, tablesProcessed: int, errors: seq<ErrorRecord>)

  /** The statistics a new extractor starts with. */
  const InitialStats := Stats(None, None, 0, 0, [])

  /** `start_extraction()` at instant `now`: counts and errors reset, the end time kept. */
  function StartExtraction(s: Stats, now: DateTime): (r: Stats)
    ensures r.startTime == Some(now) && r.endTime == s.endTime
    ensures r.rowsExtracted == 0 && r.tablesProcessed == 0 && r.errors == []
  {
    Stats(Some(now), s.endTime, 0, 0, [])
  }

  /**
   `end_extraction()` at instant `now`. The end time is stored before the
   duration `end - start` is computed, so when extraction was never started
   the stats keep the new end time and the subtraction raises `TypeError`.
   */
  function EndExtraction(s: Stats, now: DateTime): (r: (Stats, Option<PyFault>))
    ensures r.0.endTime == Some(now)
    ensures r.0 == s.(endTime := r.0.endTime)
    ensures r.1.Some? <==> s.startTime.None?
    ensures r.1.Some? ==> r.1.value == TypeError
  {
    (s.(endTime := Some(now)), if s.startTime.None? then Some(TypeError) else None)
  }

  /** `add_extraction_stats(rows, tables=1)`: both counters grow, nothing else changes. */
  function AddExtractionStats(s: Stats, rows: int, tables: int := 1): (r: Stats)
    ensures r.rowsExtracted - s.rowsExtracted == rows
    ensures r.tablesProcessed - s.tablesProcessed == tables
    ensures r.errors == s.errors && r.startTime == s.startTime && r.endTime == s.endTime
  {
    s.(rowsExtracted := s.rowsExtracted + rows, tablesProcessed := s.tablesProcessed + tables)
  }

  /** `add_error(error)` at instant `now`: one entry appended, the counters untouched. */
  function AddError(s: Stats, error: string, now: DateTime): (r: Stats)
    ensures |r.errors| == |s.errors| + 1
    ensures r.errors[..|s.errors|] == s.errors && r.errors[|s.errors|] == ErrorRecord(now, error)
    ensures r.rowsExtracted == s.rowsExtracted && r.tablesProcessed == s.tablesProcessed
    ensures r.startTime == s.startTime && r.endTime == s.endTime
  {
    s.(errors := s.errors + [ErrorRecord(now, error)])
  }

  /** One update of the statistics between the start and the end of an extraction. */
  datatype Event =
    | Extracted(rows: int, tables: int)
    | Errored(error: string, at: DateTime)

  function Apply(s: Stats, e: Event): Stats {
    match e
    case Extracted(rows, tables) => AddExtractionStats(s, rows, tables)
    case Errored(error, at) => AddError(s, error, at)
  }

  /** The statistics after a run of updates, applied in order. */
  function Replay(s: Stats, events: seq<Event>): Stats
    decreases |events|
  {
    if events == [] then s else Replay(Apply(s, events[0]), events[1..])
  }

  /** The rows reported by a run of updates. */
  function RowsOf(events: seq<Event>): int {
    if events == [] then 0
    else (if events[0].Extracted? then events[0].rows else 0) + RowsOf(events[1..])
  }

  /** The tables reported by a run of updates. */
  function TablesOf(events: seq<Event>): int {
    if events == [] then 0
    else (if events[0].Extracted? then events[0].tables else 0) + TablesOf(events[1..])
  }

  /** The error entries a run of updates records, in order. */
  function ErrorsOf(events: seq<Event>): seq<ErrorRecord> {
    if events == [] then []
    else (if events[0].Errored? then [ErrorRecord(events[0].at, events[0].error)] else []) + ErrorsOf(events[1..])
  }

  /**
   After a run of updates the counters have grown by the reported sums, the
   error list has grown by the reported errors in order, and the start and end
   times are those before the run.
   */
  lemma {:induction false} ReplayTotals(s: Stats, events: seq<Event>)
    ensures Replay(s, events).rowsExtracted == s.rowsExtracted + RowsOf(events)
    ensures Replay(s, events).tablesProcessed == s.tablesProcessed + TablesOf(events)
    ensures Replay(s, events).errors == s.errors + ErrorsOf(events)
    ensures Replay(s, events).startTime == s.startTime && Replay(s, events).endTime == s.endTime
    decreases |events|
  {
    if events != [] {
      ReplayTotals(Apply(s, events[0]), events[1..]);
      if events[0].Errored? {
        assert s.errors + [ErrorRecord(events[0].at, events[0].error)] + ErrorsOf(events[1..])
            == s.errors + ErrorsOf(events);
      } else {
        assert s.errors + ErrorsOf(events[1..]) == s.errors + ErrorsOf(events);
      }
    }
  }

  /** A started extraction counts exactly what was reported since the start, whatever came before. */
  lemma StartedRunCounts(s: Stats, now: DateTime, events: seq<Event>)
    ensures Replay(StartExtraction(s, now), events).rowsExtracted == RowsOf(events)
    ensures Replay(StartExtraction(s, now), events).tablesProcessed == TablesOf(events)
    ensures Replay(StartExtraction(s, now), events).errors == ErrorsOf(events)
    ensures Replay(StartExtraction(s, now), events).startTime == Some(now)
  {
    ReplayTotals(StartExtraction(s, now), events);
  }

  /** A new extractor, before any start, counts what was reported and has no start or end time. */
  lemma FreshExtractorCounts(events: seq<Event>)
    ensures Replay(InitialStats, events).rowsExtracted == RowsOf(events)
    ensures Replay(InitialStats, events).tablesProcessed == TablesOf(events)
    ensures Replay(InitialStats, events).errors == ErrorsOf(events)
    ensures Replay(InitialStats, events).startTime.None? && Replay(InitialStats, events).endTime.None?
  {
    ReplayTotals(InitialStats, events);
  }

  /** The fields `validate_config` requires. */
  const RequiredFields: seq<string> := ["host", "username", "password"]

  /**
   `validate_config()`: a falsy configuration is invalid, and so is one that
   lacks a required field. `field not in config` is Python's `in`, so a
   configuration that is a number or a boolean raises `TypeError`.
   */
  function ValidateConfig(config: Value): (r: Result<bool, PyFault>)
    ensures !Truthy(config) ==> r == Ok(false)
    ensures r == Ok(true) <==> Truthy(config) && ConfigFiles.HasAll(config, RequiredFields)
    ensures r.Err? <==> Truthy(config) && (config.Bool? || config.Int?)
  {
    if !Truthy(config) then Ok(false)
    else
      match ConfigFiles.FirstMissing(config, RequiredFields)
      case Err(p) => Err(p)
      case Ok(None) => Ok(true)
      case Ok(Some(_)) => Ok(false)
  }

  /** `n` in exactly `width` decimal digits, zero-padded on the left (the high digits are dropped). */
  function Digits(n: nat, width: nat): (r: string)
    ensures |r| == width
    ensures forall i :: 0 <= i < |r| ==> '0' <= r[i] <= '9'
  {
    if width == 0 then [] else Digits(n / 10, width - 1) + [DigitChar(n % 10)]
  }

  /** Padded digits read back as the number, when it fits the width. */
  lemma {:induction false} DigitsRoundTrip(n: nat, width: nat)
    requires n < Pow(10, width)
    ensures DecimalValue(Digits(n, width)) == n
  {
    if width > 0 {
      DigitsRoundTrip(n / 10, width - 1);
      var r := Digits(n, width);
      assert r[..|r| - 1] == Digits(n / 10, width - 1);
    }
  }

  /** `t.strftime('%Y-%m-%d %H:%M:%S')`: microseconds are not printed. */
  function Strftime(t: DateTime): (r: string)
    ensures |r| == 19
  {
    Digits(t.year, 4) + "-" + Digits(t.month, 2) + "-" + Digits(t.day, 2) + " "
      + Digits(t.hour, 2) + ":" + Digits(t.minute, 2) + ":" + Digits(t.second, 2)
  }

  /** Digits only, in `s[lo..hi]`. */
  predicate DigitsAt(s: string, lo: nat, hi: nat) {
    lo <= hi <= |s| && forall i :: lo <= i < hi ==> '0' <= s[i] <= '9'
  }

  /** Reads a `'%Y-%m-%d %H:%M:%S'` timestamp back; anything else of that length is rejected. */
  function ParseTimestamp(s: string): Option<DateTime> {
    if |s| == 19 && s[4] == '-' && s[7] == '-' && s[10] == ' ' && s[13] == ':' && s[16] == ':'
       && DigitsAt(s, 0, 4) && DigitsAt(s, 5, 7) && DigitsAt(s, 8, 10)
       && DigitsAt(s, 11, 13) && DigitsAt(s, 14, 16) && DigitsAt(s, 17, 19)
    then Some(DateTime(DecimalValue(s[0..4]), DecimalValue(s[5..7]), DecimalValue(s[8..10]),
                       DecimalValue(s[11..13]), DecimalValue(s[14..16]), DecimalValue(s[17..19]), 0))
    else None
  }

  /** The formatted time determines the instant up to its microseconds. */
  lemma StrftimeRoundTrip(t: DateTime)
    requires ValidDateTime(t)
    ensures ParseTimestamp(Strftime(t)) == Some(t.(microsecond := 0))
  {
    var s := Strftime(t);
    assert s[0..4] == Digits(t.year, 4);
    assert s[5..7] == Digits(t.month, 2);
    assert s[8..10] == Digits(t.day, 2);
    assert s[11..13] == Digits(t.hour, 2);
    assert s[14..16] == Digits(t.minute, 2);
    assert s[17..19] == Digits(t.second, 2);
    DigitsRoundTrip(t.year, 4);
    DigitsRoundTrip(t.month, 2);
    DigitsRoundTrip(t.day, 2);
    DigitsRoundTrip(t.hour, 2);
    DigitsRoundTrip(t.minute, 2);
    DigitsRoundTrip(t.second, 2);
  }

  /** The WHERE clause of `extract_incremental`: rows strictly after the last extraction time. */
  function IncrementalFilter(timestampColumn: string, lastExtractTime: DateTime): (clause: string)
    ensures |clause| == |timestampColumn| + 24
    ensures clause[..|timestampColumn|] == timestampColumn
    ensures clause[|timestampColumn|..|timestampColumn| + 4] == " > '" && clause[|clause| - 1] == '\''
  {
    timestampColumn + " > '" + Strftime(lastExtractTime) + "'"
  }

  /** The quoted part of the clause reads back as the last extraction time, to the second. */
  lemma IncrementalFilterTime(timestampColumn: string, lastExtractTime: DateTime)
    requires ValidDateTime(lastExtractTime)
    ensures var clause := IncrementalFilter(timestampColumn, lastExtractTime);
      ParseTimestamp(clause[|timestampColumn| + 4..|clause| - 1]) == Some(lastExtractTime.(microsecond := 0))
  {
    var clause := IncrementalFilter(timestampColumn, lastExtractTime);
    assert clause[|timestampColumn| + 4..|clause| - 1] == Strftime(lastExtractTime);
    StrftimeRoundTrip(lastExtractTime);
  }
}
