/** The guarded import of scripts/import_ctrader_bars.py: row filter, staging, pre-flight, transactional upsert.

    `bars` is kept slice by slice: for each (symbol, timeframe) the rows by timestamp, which the unique index on
    (symbol, timeframe, timestamp_utc) makes a map. */
module BarImport {
  import opened Wrappers

  const ALLOWED_SYMBOLS := {"XAUUSD"}
  const ALLOWED_TIMEFRAMES := {"M3", "M5", "M15", "M30", "H1"}
  const EPOCH_MS_THRESHOLD: int := 100000000000
  const EARLIEST_VALID: int := 1577836800  // 2020-01-01T00:00:00Z
  const LAST_SECOND: int := 253402300799  // 9999-12-31T23:59:59Z, the last one a Python datetime can hold

  datatype Row = Row(open: real, high: real, low: real, close: real, volume: int, spread: real, holdout: bool)

  type Slice = map<int, Row>

  datatype Staged = Staged(ts: int, open: real, high: real, low: real, close: real, volume: int)

  /** A Date cell: an epoch number, a calendar date already turned into epoch seconds, or neither. */
  datatype DateCell = Number(n: int) | Calendar(seconds: int) | Unreadable

  /** The prices and the volume of a line, or why there are none; an infinite volume is a number, and none that
      becomes an integer. */
  datatype Values =
    | Unparsable
    | InfiniteVolume
    | Ohlcv(open: real, high: real, low: real, close: real, volume: int)

  datatype CsvLine = CsvLine(date: DateCell, values: Values)

  /** What reading a line does: drop it, stage a row, or raise out of the import. */
  datatype Reading = Dropped | Read(row: Staged) | Crash

  // ----- reading ----------------------------------------------------------------------------

  function ToEpochSeconds(ts: int, allowMs: bool): Option<int> {
    if ts < 0 then None
    else if ts > EPOCH_MS_THRESHOLD then (if allowMs then Some(ts / 1000) else None)
    else Some(ts)
  }

  function Timestamp(cell: DateCell, allowMs: bool): Option<int> {
    match cell
    case Number(n) => ToEpochSeconds(n, allowMs)
    case Calendar(seconds) => Some(seconds)
    case Unreadable => None
  }

  /** `latest` is the first second after the last valid day. */
  function Parse(line: CsvLine, allowMs: bool, latest: int): Reading {
    match Timestamp(line.date, allowMs)
    case None => Dropped
    case Some(ts) =>
      match line.values
      case Unparsable => Dropped
      case InfiniteVolume => Crash
      case Ohlcv(o, h, l, c, v) =>
        if ts > LAST_SECOND then Crash
        else if ts < EARLIEST_VALID || ts >= latest then Dropped
        else Read(Staged(ts, o, h, l, c, v))
  }

  /** All rows of a file, or None when some line raises. */
  function ReadAll(lines: seq<CsvLine>, allowMs: bool, latest: int): Option<seq<Staged>> {
    if lines == [] then Some([])
    else
      var before := ReadAll(lines[..|lines| - 1], allowMs, latest);
      if before.None? then None
      else
        match Parse(lines[|lines| - 1], allowMs, latest)
        case Dropped => before
        case Read(row) => Some(before.value + [row])
        case Crash => None
  }

  lemma ReadMore(lines: seq<CsvLine>, line: CsvLine, allowMs: bool, latest: int)
    ensures ReadAll(lines + [line], allowMs, latest)
         == match ReadAll(lines, allowMs, latest)
            case None => None
            case Some(rows) =>
              match Parse(line, allowMs, latest)
              case Dropped => Some(rows)
              case Read(row) => Some(rows + [row])
              case Crash => None
  {
    hide Parse;
    assert (lines + [line])[..|lines|] == lines;
  }

  lemma {:induction false} CrashIsFinal(lines: seq<CsvLine>, k: nat, allowMs: bool, latest: int)
    requires k <= |lines| && ReadAll(lines[..k], allowMs, latest).None?
    ensures ReadAll(lines, allowMs, latest).None?
    decreases |lines|
  {
    hide *;
    if k < |lines| {
      var init, last := lines[..|lines| - 1], lines[|lines| - 1];
      assert lines == init + [last] && init[..k] == lines[..k];
      CrashIsFinal(init, k, allowMs, latest);
      ReadMore(init, last, allowMs, latest);
    } else {
      assert lines[..k] == lines;
    }
  }

  lemma ParseTurn(line: CsvLine, allowMs: bool, latest: int)
    ensures var ts, v := Timestamp(line.date, allowMs), line.values;
            Parse(line, allowMs, latest)
            == if ts.None? || v.Unparsable? then Dropped
               else if v.InfiniteVolume? || ts.value > LAST_SECOND then Crash
               else if ts.value < EARLIEST_VALID || ts.value >= latest then Dropped
               else Read(Staged(ts.value, v.open, v.high, v.low, v.close, v.volume))
  {
    hide Timestamp;
  }

  lemma NothingRead(allowMs: bool, latest: int)
    ensures ReadAll([], allowMs, latest) == Some([])
  {
  }

  /** None when a line raises. */
  method ReadCsvRows(lines: seq<CsvLine>, allowMs: bool, latest: int) returns (read: Option<seq<Staged>>)
    ensures read == ReadAll(lines, allowMs, latest)
  {
    hide *;
    var rows: seq<Staged> := [];
    NothingRead(allowMs, latest);
    for i := 0 to |lines|
      invariant Some(rows) == ReadAll(lines[..i], allowMs, latest)
    {
      var line := lines[i];
      assert lines[..i + 1] == lines[..i] + [line];
      ReadMore(lines[..i], line, allowMs, latest);
      ParseTurn(line, allowMs, latest);
      var ts := Timestamp(line.date, allowMs);
      if ts.None? || line.values.Unparsable? {
        continue;
      }
      var v := line.values;
      if v.InfiniteVolume? || ts.value > LAST_SECOND {
        CrashIsFinal(lines, i + 1, allowMs, latest);
        return None;
      }
      if ts.value < EARLIEST_VALID || ts.value >= latest {
        continue;
      }
      rows := rows + [Staged(ts.value, v.open, v.high, v.low, v.close, v.volume)];
    }
    assert lines[..|lines|] == lines;
    return Some(rows);
  }

  // ----- pre-flight ----------------------------------------------------------------------------

  function CandleSeconds(tf: string): int {
    if tf == "M3" then 180
    else if tf == "M5" then 300
    else if tf == "M15" then 900
    else if tf == "M30" then 1800
    else if tf == "H1" then 3600
    else if tf == "H4" then 14400
    else if tf == "D1" then 86400
    else 3600
  }

  /** The earliest staged row is not more than one candle before the earliest existing one. */
  predicate PreflightOk(slice: Slice, staged: seq<Staged>, tf: string) {
    if slice == map[] then staged != []
    else staged != [] && !exists s :: s in staged && forall t :: t in slice ==> t - s.ts > CandleSeconds(tf)
  }

  // ----- the upsert ------------------------------------------------------------------------------

  /** ON CONFLICT DO UPDATE keeps only `is_holdout` of the old row; a new row is not holdout. */
  function UpsertRow(slice: Slice, s: Staged): Row {
    Row(s.open, s.high, s.low, s.close, s.volume, 0.0, if s.ts in slice then slice[s.ts].holdout else false)
  }

  function Upsert(slice: Slice, staged: seq<Staged>): Slice {
    if staged == [] then slice
    else
      var before := Upsert(slice, staged[..|staged| - 1]);
      var s := staged[|staged| - 1];
      before[s.ts := UpsertRow(slice, s)]
  }

  /** The statement raises when two staged rows conflict on the same target row. */
  predicate DistinctKeys(staged: seq<Staged>) {
    forall i, j :: 0 <= i < j < |staged| ==> staged[i].ts != staged[j].ts
  }

  /** How many staged rows have no row in the slice yet. */
  function NewKeys(slice: Slice, staged: seq<Staged>): (n: nat)
    ensures n <= |staged|
  {
    if staged == [] then 0
    else NewKeys(slice, staged[..|staged| - 1]) + (if staged[|staged| - 1].ts in slice then 0 else 1)
  }

  datatype Outcome =
    | Rejected
    | Skipped
    | PreflightFailed(staged: nat)
    | DryRun(staged: nat)
    | Applied(staged: nat, inserted: nat, updated: nat)
    | RolledBack(staged: nat)
    | Raised

  datatype LogEntry = LogEntry(dryRun: bool, staged: nat, inserted: nat, updated: nat, ok: bool)

  /** What the database does with INSERT ... ON CONFLICT DO UPDATE on a slice: the new slice, or an error. */
  type Statement = (Slice, seq<Staged>) -> Option<Slice>

  const TRUE_UPSERT: Statement :=
    (slice: Slice, staged: seq<Staged>) => if DistinctKeys(staged) then Some(Upsert(slice, staged)) else None

  function Positive(x: int): nat { if x < 0 then 0 else x }

  /** What the transaction reports for a statement that turned `before` rows into `after` rows. */
  function Report(before: nat, after: nat, staged: nat): Outcome {
    var inserted := Positive(after - before);
    var updated := Positive(staged - inserted);
    if inserted + updated != staged then RolledBack(staged) else Applied(staged, inserted, updated)
  }

  /** The whole decision of `import_csv`; `read` is what reading the file gave. */
  function Decide(symbol: string, tf: string, file: Option<seq<CsvLine>>, dryRun: bool, slice: Slice,
          read: Option<seq<Staged>>, statement: Statement): Outcome {
    if symbol !in ALLOWED_SYMBOLS || tf !in ALLOWED_TIMEFRAMES || file.None? then Rejected
    else if read.None? then Raised
    else if read.value == [] then Skipped
    else if !PreflightOk(slice, read.value, tf) then PreflightFailed(|read.value|)
    else if dryRun then DryRun(|read.value|)
    else ApplyOutcome(slice, read.value, statement)
  }

  function ApplyOutcome(slice: Slice, staged: seq<Staged>, statement: Statement): Outcome {
    match statement(slice, staged)
    case None => Raised
    case Some(after) => Report(|slice|, |after|, |staged|)
  }

  function Logged(result: Outcome): seq<LogEntry> {
    match result
    case DryRun(n) => [LogEntry(true, n, 0, 0, true)]
    case Applied(n, inserted, updated) => [LogEntry(false, n, inserted, updated, true)]
    case RolledBack(n) => [LogEntry(false, n, 0, 0, false)]
    case _ => []
  }

  /** What an outcome leaves in the log: nothing unless rows were staged and passed the pre-flight, and then one entry
      with their number, which is marked as failed for a rollback alone and counts rows for an applied import alone. */
  lemma LogTells(result: Outcome)
    ensures |Logged(result)| == if result.DryRun? || result.Applied? || result.RolledBack? then 1 else 0
    ensures |Logged(result)| == 1 ==>
              var entry := Logged(result)[0];
              && entry.staged == result.staged
              && (entry.dryRun <==> result.DryRun?) && (entry.ok <==> !result.RolledBack?)
              && (if result.Applied? then entry.inserted == result.inserted && entry.updated == result.updated
                  else entry.inserted == entry.updated == 0)
  {
  }

  class MarketDb {
    var bars: map<(string, string), Slice>
    var staging: seq<Staged>
    var log: seq<LogEntry>

    constructor (bars: map<(string, string), Slice>)
      ensures this.bars == bars && staging == [] && log == []
    {
      this.bars, staging, log := bars, [], [];
    }

    function SliceOf(symbol: string, tf: string): Slice
      reads this`bars
    {
      if (symbol, tf) in bars then bars[(symbol, tf)] else map[]
    }

    /** `file` is None when the CSV is missing or its header is not accepted.  Only an import that is applied
        changes `bars`: a dry run, a failed guard, a rollback and an error of a line or of the database leave it as it
        was.  The staging table is replaced once some row is read. */
    method ImportCsv(symbol: string, tf: string, file: Option<seq<CsvLine>>, dryRun: bool, allowMs: bool, latest: int,
            statement: Statement)
      returns (result: Outcome)
      modifies this
      ensures var read := if file.Some? then ReadAll(file.value, allowMs, latest) else None;
              var slice := old(SliceOf(symbol, tf));
              && result == Decide(symbol, tf, file, dryRun, slice, read, statement)
              && (result.Applied? ==> read.Some? && Some(SliceOf(symbol, tf)) == statement(slice, read.value))
              && (!result.Applied? ==> SliceOf(symbol, tf) == slice)
              && staging == (if result.Rejected? || read.None? || read.value == [] then old(staging) else read.value)
              && log == old(log) + Logged(result)
      ensures forall s, t :: (s, t) != (symbol, tf) ==> SliceOf(s, t) == old(SliceOf(s, t))
    {
      hide PreflightOk, ReadAll, ApplyOutcome;
      if symbol !in ALLOWED_SYMBOLS || tf !in ALLOWED_TIMEFRAMES || file.None? {
        return Rejected;
      }
      var read := ReadCsvRows(file.value, allowMs, latest);
      if read.None? {
        return Raised;
      }
      var rows, n := read.value, |read.value|;
      if n == 0 {
        return Skipped;
      }
      staging := rows;
      if !PreflightOk(SliceOf(symbol, tf), staging, tf) {
        return PreflightFailed(n);
      }
      if dryRun {
        log := log + [LogEntry(true, n, 0, 0, true)];
        return DryRun(n);
      }
      result := Apply(symbol, tf, n, statement);
    }

    /** The transaction: the statement on the staged rows, the row counts, and the rollback when they do not add up. */
    method Apply(symbol: string, tf: string, n: nat, statement: Statement) returns (result: Outcome)
      requires n == |staging|
      modifies this`bars, this`log
      ensures var slice := old(SliceOf(symbol, tf));
              && result == ApplyOutcome(slice, staging, statement) && !result.Rejected?
              && (result.Applied? ==> Some(SliceOf(symbol, tf)) == statement(slice, staging))
              && (!result.Applied? ==> SliceOf(symbol, tf) == slice)
              && log == old(log) + Logged(result)
      ensures forall s, t :: (s, t) != (symbol, tf) ==> SliceOf(s, t) == old(SliceOf(s, t))
    {
      var snapshot, before := bars, |SliceOf(symbol, tf)|;
      var answer := statement(SliceOf(symbol, tf), staging);
      if answer.None? {
        return Raised;
      }
      bars := bars[(symbol, tf) := answer.value];
      var after := |SliceOf(symbol, tf)|;
      var inserted := Positive(after - before);
      var updated := Positive(n - inserted);
      ReportOf(before, after, n);
      hide Report, Positive;
      if inserted + updated != n {
        bars := snapshot;
        log := log + [LogEntry(false, n, 0, 0, false)];
        return RolledBack(n);
      }
      log := log + [LogEntry(false, n, inserted, updated, true)];
      return Applied(n, inserted, updated);
    }
  }

  lemma ReportOf(before: nat, after: nat, staged: nat)
    ensures var inserted := Positive(after - before);
            var updated := Positive(staged - inserted);
            Report(before, after, staged)
            == if inserted + updated != staged then RolledBack(staged) else Applied(staged, inserted, updated)
  {
  }

  /** Exactly when the row-count assertion fires: the slice grew by more rows than were staged.  Lost rows it
      cannot see. */
  lemma AssertionFiresExactlyOnOvergrowth(before: nat, after: nat, staged: nat)
    ensures Report(before, after, staged).RolledBack? <==> after > before + staged
  {
  }

  lemma {:induction false} UpsertKeys(slice: Slice, staged: seq<Staged>)
    ensures Upsert(slice, staged).Keys == slice.Keys + (set s | s in staged :: s.ts)
  {
    if staged != [] {
      var init, last := staged[..|staged| - 1], staged[|staged| - 1];
      UpsertKeys(slice, init);
      assert staged == init + [last];
      assert (set s | s in staged :: s.ts) == (set s | s in init :: s.ts) + {last.ts};
    }
  }

  /** The last of distinct staged keys is not there yet unless the slice had it. */
  lemma LastKeyIsFresh(slice: Slice, staged: seq<Staged>)
    requires DistinctKeys(staged) && staged != []
    ensures var last := staged[|staged| - 1];
            last.ts in Upsert(slice, staged[..|staged| - 1]) <==> last.ts in slice
  {
    var init, last := staged[..|staged| - 1], staged[|staged| - 1];
    UpsertKeys(slice, init);
    hide Upsert;
    assert last.ts !in (set s | s in init :: s.ts) by {
      forall s | s in init ensures s.ts != last.ts {
        var i :| 0 <= i < |init| && init[i] == s;
      }
    }
  }

  /** For distinct keys the slice grows by exactly the new ones; so the row-count assertion can never fire. */
  lemma {:induction false} UpsertCounts(slice: Slice, staged: seq<Staged>)
    requires DistinctKeys(staged)
    ensures |Upsert(slice, staged)| == |slice| + NewKeys(slice, staged)
  {
    if staged != [] {
      UpsertCounts(slice, staged[..|staged| - 1]);
      LastKeyIsFresh(slice, staged);
      hide UpsertRow;
    }
  }

  /** Row `t` after an upsert: the last staged row with that key, or the old row. */
  lemma {:induction false} UpsertAt(slice: Slice, staged: seq<Staged>, i: nat)
    requires DistinctKeys(staged) && i < |staged|
    ensures staged[i].ts in Upsert(slice, staged) && Upsert(slice, staged)[staged[i].ts] == UpsertRow(slice, staged[i])
  {
    if i < |staged| - 1 {
      UpsertAt(slice, staged[..|staged| - 1], i);
      hide UpsertRow;
    }
  }

  lemma {:induction false} UpsertElsewhere(slice: Slice, staged: seq<Staged>, t: int)
    requires forall i :: 0 <= i < |staged| ==> staged[i].ts != t
    ensures t in Upsert(slice, staged) <==> t in slice
    ensures t in slice ==> Upsert(slice, staged)[t] == slice[t]
  {
    if staged != [] {
      UpsertElsewhere(slice, staged[..|staged| - 1], t);
      hide UpsertRow;
    }
  }

  /** The row has the prices and the volume staged for it, no spread, and the holdout flag of the row it replaces. */
  predicate Overrides(row: Row, s: Staged, slice: Slice) {
    && row.open == s.open && row.high == s.high && row.low == s.low && row.close == s.close
    && row.volume == s.volume && row.spread == 0.0
    && (row.holdout <==> s.ts in slice && slice[s.ts].holdout)
  }

  /** An upsert of distinct keys is the old slice overridden by the staged rows: each staged row is there with its
      own prices, spread reset and the old holdout flag; every other row is untouched; nothing else is there. */
  ghost predicate Overridden(slice: Slice, staged: seq<Staged>, after: Slice) {
    && (forall i :: 0 <= i < |staged| ==> staged[i].ts in after && Overrides(after[staged[i].ts], staged[i], slice))
    && (forall t :: t in slice ==> t in after && after[t].holdout == slice[t].holdout)
    && (forall t :: (forall i :: 0 <= i < |staged| ==> staged[i].ts != t) ==>
          (t in after <==> t in slice) && (t in slice ==> after[t] == slice[t]))
  }

  lemma UpsertOverrides(slice: Slice, staged: seq<Staged>)
    requires DistinctKeys(staged)
    ensures Overridden(slice, staged, Upsert(slice, staged))
  {
    var after := Upsert(slice, staged);
    forall i | 0 <= i < |staged| ensures staged[i].ts in after && Overrides(after[staged[i].ts], staged[i], slice) {
      UpsertAt(slice, staged, i);
    }
    forall t | forall i :: 0 <= i < |staged| ==> staged[i].ts != t
      ensures (t in after <==> t in slice) && (t in slice ==> after[t] == slice[t])
    {
      UpsertElsewhere(slice, staged, t);
    }
    hide Upsert;
    forall t | t in slice ensures t in after && after[t].holdout == slice[t].holdout {
      if i :| 0 <= i < |staged| && staged[i].ts == t {
        UpsertAt(slice, staged, i);
      }
    }
  }

  /** A true upsert is never rolled back: it reports the new keys as inserted and the others as updated. */
  lemma TrueUpsertIsApplied(slice: Slice, staged: seq<Staged>)
    requires DistinctKeys(staged)
    ensures Report(|slice|, |Upsert(slice, staged)|, |staged|)
         == Applied(|staged|, NewKeys(slice, staged), |staged| - NewKeys(slice, staged))
  {
    UpsertCounts(slice, staged);
  }

  /** Importing the same rows again passes the pre-flight, inserts nothing and changes nothing. */
  lemma SecondImportChangesNothing(slice: Slice, staged: seq<Staged>, tf: string)
    requires DistinctKeys(staged) && staged != []
    ensures var after := Upsert(slice, staged);
            PreflightOk(after, staged, tf) && NewKeys(after, staged) == 0 && Upsert(after, staged) == after
  {
    var after := Upsert(slice, staged);
    forall i | 0 <= i < |staged| ensures staged[i].ts in after && after[staged[i].ts] == UpsertRow(after, staged[i]) {
      UpsertAt(slice, staged, i);
    }
    hide Upsert, UpsertRow, NewKeys;
    NoNewKeys(after, staged);
    UpsertIsFixed(after, staged);
    StagedPassPreflight(after, staged, tf);
  }

  lemma StagedPassPreflight(slice: Slice, staged: seq<Staged>, tf: string)
    requires staged != [] && forall i :: 0 <= i < |staged| ==> staged[i].ts in slice
    ensures PreflightOk(slice, staged, tf)
  {
    assert staged[0].ts in slice;
    forall s | s in staged ensures exists t :: t in slice && t - s.ts <= CandleSeconds(tf) {
      var i :| 0 <= i < |staged| && staged[i] == s;
      assert s.ts in slice && s.ts - s.ts <= CandleSeconds(tf);
    }
  }

  lemma {:induction false} NoNewKeys(slice: Slice, staged: seq<Staged>)
    requires forall i :: 0 <= i < |staged| ==> staged[i].ts in slice
    ensures NewKeys(slice, staged) == 0
  {
    if staged != [] {
      NoNewKeys(slice, staged[..|staged| - 1]);
    }
  }

  lemma {:induction false} UpsertIsFixed(slice: Slice, staged: seq<Staged>)
    requires forall i :: 0 <= i < |staged| ==>
               staged[i].ts in slice && slice[staged[i].ts] == UpsertRow(slice, staged[i])
    ensures Upsert(slice, staged) == slice
  {
    if staged != [] {
      UpsertIsFixed(slice, staged[..|staged| - 1]);
    }
  }

  /** The one second a date cell may stand for: a number up to the threshold is seconds, one above it milliseconds
      and only when they are allowed. */
  predicate StandsFor(cell: DateCell, ts: int, allowMs: bool) {
    match cell
    case Number(n) => if n > 100_000_000_000 then allowMs && ts == n / 1000 else 0 <= n == ts
    case Calendar(seconds) => seconds == ts
    case Unreadable => false
  }

  predicate GivesRow(line: CsvLine, s: Staged, allowMs: bool) {
    line.values == Ohlcv(s.open, s.high, s.low, s.close, s.volume) && StandsFor(line.date, s.ts, allowMs)
  }

  /** Some line says `s`. */
  predicate FromLine(lines: seq<CsvLine>, s: Staged, allowMs: bool) {
    exists i :: 0 <= i < |lines| && GivesRow(lines[i], s, allowMs)
  }

  /** The line has a readable date, and either an infinite volume or prices on a day beyond the year 9999. */
  ghost predicate Poisonous(line: CsvLine, allowMs: bool) {
    exists ts :: StandsFor(line.date, ts, allowMs)
              && (line.values.InfiniteVolume? || (line.values.Ohlcv? && ts > 253_402_300_799))
  }

  /** From the first second of 2020 up to the last valid day. */
  predicate InRange(ts: int, latest: int) {
    1_577_836_800 <= ts < latest
  }

  lemma TimestampStandsFor(cell: DateCell, allowMs: bool)
    ensures forall ts :: StandsFor(cell, ts, allowMs) <==> Timestamp(cell, allowMs) == Some(ts)
  {
  }

  lemma ParseGives(line: CsvLine, allowMs: bool, latest: int)
    ensures var r := Parse(line, allowMs, latest);
            && (r.Crash? <==> Poisonous(line, allowMs))
            && (r.Read? ==> InRange(r.row.ts, latest) && GivesRow(line, r.row, allowMs))
            && (forall s: Staged :: !r.Crash? && InRange(s.ts, latest) && GivesRow(line, s, allowMs) ==> r == Read(s))
  {
    TimestampStandsFor(line.date, allowMs);
    hide Timestamp, StandsFor;
    var ts := Timestamp(line.date, allowMs);
    if ts.Some? {
      assert StandsFor(line.date, ts.value, allowMs);
    }
  }

  /** Reading raises exactly when some line is poisonous, whichever line that is. */
  lemma {:induction false} ReadingRaisesExactlyWhen(lines: seq<CsvLine>, allowMs: bool, latest: int)
    ensures ReadAll(lines, allowMs, latest).None? <==> exists i :: 0 <= i < |lines| && Poisonous(lines[i], allowMs)
  {
    if lines != [] {
      var init, last := lines[..|lines| - 1], lines[|lines| - 1];
      assert lines == init + [last];
      hide *;
      ReadingRaisesExactlyWhen(init, allowMs, latest);
      ReadMore(init, last, allowMs, latest);
      ParseGives(last, allowMs, latest);
      if i :| 0 <= i < |init| && Poisonous(init[i], allowMs) {
        assert Poisonous(lines[i], allowMs);
      }
      assert lines[|lines| - 1] == last;
      assert forall i :: 0 <= i < |lines| - 1 ==> lines[i] == init[i];
    }
  }

  /** The rows are those of the lines that stand for a second in range, no other and none left out.  So without
      `allowMs` no number above the threshold gets in, and with it such a number is read as milliseconds. */
  lemma {:induction false} OnlySecondsAreStaged(lines: seq<CsvLine>, allowMs: bool, latest: int)
    requires ReadAll(lines, allowMs, latest).Some?
    ensures forall s :: s in ReadAll(lines, allowMs, latest).value <==>
              InRange(s.ts, latest) && FromLine(lines, s, allowMs)
  {
    if lines != [] {
      var init, last := lines[..|lines| - 1], lines[|lines| - 1];
      assert lines == init + [last];
      hide *;
      ReadMore(init, last, allowMs, latest);
      OnlySecondsAreStaged(init, allowMs, latest);
      ParseGives(last, allowMs, latest);
      forall s ensures FromLine(lines, s, allowMs) <==> FromLine(init, s, allowMs) || GivesRow(last, s, allowMs) {
        GivesMore(init, last, s, allowMs);
      }
    }
  }

  lemma GivesMore(lines: seq<CsvLine>, line: CsvLine, s: Staged, allowMs: bool)
    ensures FromLine(lines + [line], s, allowMs) <==> FromLine(lines, s, allowMs) || GivesRow(line, s, allowMs)
  {
    hide GivesRow;
    var all := lines + [line];
    if i :| 0 <= i < |lines| && GivesRow(lines[i], s, allowMs) {
      assert GivesRow(all[i], s, allowMs);
    }
    if i :| 0 <= i < |all| && GivesRow(all[i], s, allowMs) {
      assert i < |lines| ==> GivesRow(lines[i], s, allowMs);
    }
    assert all[|lines|] == line;
  }

  // ----- an import with the true upsert --------------------------------------------------------------

  /** The length of a candle in minutes, for the timeframes that may be imported. */
  function Minutes(tf: string): nat
    requires tf in {"M3", "M5", "M15", "M30", "H1"}
  {
    if tf == "M3" then 3 else if tf == "M5" then 5 else if tf == "M15" then 15 else if tf == "M30" then 30 else 60
  }

  ghost predicate IsEarliest(t: int, times: set<int>) {
    t in times && forall u :: u in times ==> t <= u
  }

  /** The earliest staged row lies at most one candle before the earliest row there is. */
  ghost predicate InPlace(slice: Slice, staged: seq<Staged>, tf: string)
    requires tf in {"M3", "M5", "M15", "M30", "H1"}
  {
    var times := set s | s in staged :: s.ts;
    forall e, f :: IsEarliest(e, slice.Keys) && IsEarliest(f, times) ==> e - f <= 60 * Minutes(tf)
  }

  lemma SomeTime(times: set<int>)
    requires times != {}
    ensures exists t :: t in times
  {
    if forall t :: t !in times { assert false; }
  }

  lemma SomeRow(slice: Slice)
    requires slice != map[]
    ensures exists t :: t in slice
  {
    if forall t :: t !in slice { assert false; }
  }

  /** Every finite set of times has an earliest one. */
  lemma EarliestExists(times: set<int>) returns (e: int)
    requires times != {}
    ensures IsEarliest(e, times)
    decreases times
  {
    SomeTime(times);
    var t :| t in times;
    e := t;
    if times != {t} {
      var rest := times - {t};
      assert times == rest + {t};
      var f := EarliestExists(rest);
      e := if t <= f then t else f;
    }
  }

  /** The pre-flight asks exactly that, and some row. */
  lemma PreflightExactlyWhen(slice: Slice, staged: seq<Staged>, tf: string)
    requires tf in {"M3", "M5", "M15", "M30", "H1"}
    ensures PreflightOk(slice, staged, tf) <==> staged != [] && InPlace(slice, staged, tf)
  {
    CandleIs(tf);
    hide CandleSeconds, Minutes;
    if slice != map[] && staged != [] {
      SomeRow(slice);
      assert exists t :: t in slice.Keys;
      var times := set s | s in staged :: s.ts;
      assert staged[0] in staged && staged[0].ts in times;
      var e := EarliestExists(slice.Keys);
      var f := EarliestExists(times);
      PreflightByEarliest(slice, staged, tf, e, f);
      assert forall e', f' :: IsEarliest(e', slice.Keys) && IsEarliest(f', times) ==> e' == e && f' == f;
    }
  }

  lemma CandleIs(tf: string)
    requires tf in {"M3", "M5", "M15", "M30", "H1"}
    ensures CandleSeconds(tf) == 60 * Minutes(tf)
  {
  }

  lemma PreflightByEarliest(slice: Slice, staged: seq<Staged>, tf: string, e: int, f: int)
    requires IsEarliest(e, slice.Keys) && IsEarliest(f, set s | s in staged :: s.ts)
    ensures PreflightOk(slice, staged, tf) <==> e - f <= CandleSeconds(tf)
  {
    hide CandleSeconds;
    var times := set s | s in staged :: s.ts;
    var first :| first in staged && first.ts == f;
    if e - f > CandleSeconds(tf) {
      assert forall t :: t in slice ==> t - first.ts > CandleSeconds(tf);
    } else {
      forall s | s in staged ensures exists t :: t in slice && t - s.ts <= CandleSeconds(tf) {
        assert s.ts in times;
        assert e in slice && e - s.ts <= CandleSeconds(tf);
      }
    }
  }

  /** What every guard asks of an import. */
  ghost predicate Importable(symbol: string, tf: string, file: Option<seq<CsvLine>>, dryRun: bool, slice: Slice,
          read: Option<seq<Staged>>) {
    && symbol == "XAUUSD" && tf in {"M3", "M5", "M15", "M30", "H1"} && file.Some? && read.Some?
    && read.value != [] && InPlace(slice, read.value, tf) && !dryRun && DistinctKeys(read.value)
  }

  /** With the true upsert an import is applied exactly when the whitelists, the file, its lines, the pre-flight, the
      mode and the keys allow it, whatever the row-count assertion then sees; and it reports the new keys as inserted
      and the others as updated. */
  lemma ImportAppliesExactlyWhen(symbol: string, tf: string, file: Option<seq<CsvLine>>, dryRun: bool, slice: Slice,
          read: Option<seq<Staged>>)
    ensures var result := Decide(symbol, tf, file, dryRun, slice, read, TRUE_UPSERT);
            && (result.Applied? <==> Importable(symbol, tf, file, dryRun, slice, read))
            && (result.Applied? ==>
                  && result.staged == |read.value| && result.inserted == NewKeys(slice, read.value)
                  && result.updated == result.staged - result.inserted)
            && !result.RolledBack?
            && (result.Raised? ==> read.None? || !DistinctKeys(read.value))
  {
    hide Report, Upsert, NewKeys, PreflightOk, InPlace;
    if read.Some? && tf in ALLOWED_TIMEFRAMES {
      PreflightExactlyWhen(slice, read.value, tf);
    }
    if read.Some? && DistinctKeys(read.value) {
      TrueUpsertIsApplied(slice, read.value);
    }
  }

  /** What an applied import leaves, from the lines of the file: every line that stands for a second in range has its
      own prices in the slice, and every other row of the slice is an old one, unchanged. */
  lemma ImportLeaves(symbol: string, tf: string, lines: seq<CsvLine>, dryRun: bool, allowMs: bool, latest: int,
          slice: Slice)
    requires var read := ReadAll(lines, allowMs, latest);
             Decide(symbol, tf, Some(lines), dryRun, slice, read, TRUE_UPSERT).Applied?
    ensures ReadAll(lines, allowMs, latest).Some? && TRUE_UPSERT(slice, ReadAll(lines, allowMs, latest).value).Some?
    ensures var after := TRUE_UPSERT(slice, ReadAll(lines, allowMs, latest).value).value;
            && (forall s: Staged :: InRange(s.ts, latest) && FromLine(lines, s, allowMs) ==>
                  s.ts in after && Overrides(after[s.ts], s, slice))
            && (forall t :: t in after && !TimeFromLine(lines, t, allowMs, latest) ==>
                  t in slice && after[t] == slice[t])
            && (forall t :: t in slice ==> t in after)
  {
    var staged := ReadAll(lines, allowMs, latest);
    ImportAppliesExactlyWhen(symbol, tf, Some(lines), dryRun, slice, staged);
    OnlySecondsAreStaged(lines, allowMs, latest);
    UpsertOverrides(slice, staged.value);
    var after := Upsert(slice, staged.value);
    hide Decide, ReadAll, Upsert, FromLine, Overrides, InRange, DistinctKeys;
    forall s: Staged | InRange(s.ts, latest) && FromLine(lines, s, allowMs)
      ensures s.ts in after && Overrides(after[s.ts], s, slice)
    {
      var i :| 0 <= i < |staged.value| && staged.value[i] == s;
    }
    forall t | t in after && !TimeFromLine(lines, t, allowMs, latest) ensures t in slice && after[t] == slice[t] {
      forall i | 0 <= i < |staged.value| ensures staged.value[i].ts != t {
        assert staged.value[i] in staged.value;
      }
    }
  }

  /** Some line stands for `t`, which is in range, and has prices. */
  ghost predicate TimeFromLine(lines: seq<CsvLine>, t: int, allowMs: bool, latest: int) {
    exists s: Staged :: s.ts == t && InRange(s.ts, latest) && FromLine(lines, s, allowMs)
  }

  /** The same import again, on the slice the first one left, is applied again, inserts nothing and leaves the slice
      as it is. */
  lemma SecondImportIsIdle(symbol: string, tf: string, file: Option<seq<CsvLine>>, slice: Slice, staged: seq<Staged>)
    requires Decide(symbol, tf, file, false, slice, Some(staged), TRUE_UPSERT).Applied?
    ensures TRUE_UPSERT(slice, staged).Some?
    ensures var after := TRUE_UPSERT(slice, staged).value;
            && Decide(symbol, tf, file, false, after, Some(staged), TRUE_UPSERT) == Applied(|staged|, 0, |staged|)
            && TRUE_UPSERT(after, staged) == Some(after)
  {
    ImportAppliesExactlyWhen(symbol, tf, file, false, slice, Some(staged));
    var after := Upsert(slice, staged);
    assert staged != [];
    hide Report, Upsert, NewKeys, PreflightOk, Decide;
    SecondImportChangesNothing(slice, staged, tf);
    ImportAppliesExactlyWhen(symbol, tf, file, false, after, Some(staged));
  }
}
