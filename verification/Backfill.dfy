/** The backward cursor of scripts/backfill_bars_to_timescaledb.py for one symbol and period.

    The table is the (symbol, timeframe, broker) slice of market_bars, keyed by open time in
    milliseconds.  The API is a function from (request number, from, to) to a reply. */
module Backfill {
  import opened Wrappers
  import opened Sorting

  const MAX_RETRIES: nat := 5

  datatype ApiBar = ApiBar(timestamp: int, open: real, high: real, low: real, close: real, volume: int)

  datatype Row = Row(closeTime: int, open: real, high: real, low: real, close: real, volume: int)

  type Table = map<int, Row>

  datatype Reply = Bars(bars: seq<ApiBar>) | RateLimited | ApiError

  /** A bar length in milliseconds. */
  type Period = p: nat | 0 < p witness 1

  type Api = (nat, int, int) -> Reply

  datatype Exit = CursorPassed | NoBars | ReachedStart | NotMoved | Failed

  // ----- specification ---------------------------------------------------------------

  /** One request with its retries: only rate limiting is retried. */
  function Request(api: Api, n: nat, from: int, to: int, retry: nat): (Option<seq<ApiBar>>, nat)
    decreases MAX_RETRIES - retry
  {
    if retry >= MAX_RETRIES then (None, n)
    else
      match api(n, from, to)
      case Bars(bars) => (Some(bars), n + 1)
      case ApiError => (None, n + 1)
      case RateLimited => Request(api, n + 1, from, to, retry + 1)
  }

  function RowOf(b: ApiBar, period: Period): Row {
    Row(b.timestamp + period, b.open, b.high, b.low, b.close, b.volume)
  }

  /** INSERT ... ON CONFLICT DO NOTHING, row by row. */
  function Upsert(rows: Table, bars: seq<ApiBar>, period: Period): Table {
    if bars == [] then rows
    else
      var before := Upsert(rows, bars[..|bars| - 1], period);
      var b := bars[|bars| - 1];
      if b.timestamp in before then before else before[b.timestamp := RowOf(b, period)]
  }

  const BY_TIME: ApiBar -> int := (b: ApiBar) => b.timestamp

  /** One turn of the loop: table, cursor and request count after it, and why the loop stops there. */
  datatype Turn = Turn(rows: Table, cursor: int, requests: nat, attempted: nat, stop: Option<Exit>)

  function ChunkTurn(api: Api, rows: Table, from: int, cursor: int, n: nat, period: Period): Turn {
    var (reply, n') := Request(api, n, from, cursor, 0);
    if reply.None? then Turn(rows, cursor, n', 0, Some(Failed))
    else if reply.value == [] then Turn(rows, cursor, n', 0, Some(NoBars))
    else
      var sorted := SortBy(reply.value, BY_TIME);
      assert |sorted| > 0 by { SortByCorrect(reply.value, BY_TIME); }
      var rows' := Upsert(rows, sorted, period);
      var cursor' := sorted[0].timestamp - period;
      if cursor' <= from then Turn(rows', cursor, n', |sorted|, Some(ReachedStart))
      else if cursor' >= cursor then Turn(rows', cursor, n', |sorted|, Some(NotMoved))
      else Turn(rows', cursor', n', |sorted|, None)
  }

  datatype Outcome = Outcome(rows: Table, requests: nat, attempted: nat, exit: Exit)

  /** The paging loop.  It terminates for every API: a turn that goes on has lowered the cursor. */
  function Run(api: Api, rows: Table, from: int, cursor: int, n: nat, attempted: nat, period: Period): Outcome
    decreases cursor - from
  {
    if cursor <= from then Outcome(rows, n, attempted, CursorPassed)
    else
      var t := ChunkTurn(api, rows, from, cursor, n, period);
      match t.stop
      case Some(exit) => Outcome(t.rows, t.requests, attempted + t.attempted, exit)
      case None => Run(api, t.rows, from, t.cursor, t.requests, attempted + t.attempted, period)
  }

  /** A turn after which the loop goes on has lowered the cursor. */
  lemma TurnMoves(api: Api, rows: Table, from: int, cursor: int, n: nat, period: Period)
    ensures var t := ChunkTurn(api, rows, from, cursor, n, period);
            t.stop.None? ==> from < t.cursor < cursor
  {
    hide Upsert, Request;
  }

  lemma RunTurn(api: Api, rows: Table, from: int, cursor: int, n: nat, attempted: nat, period: Period)
    requires cursor > from
    ensures var t := ChunkTurn(api, rows, from, cursor, n, period);
            && (t.stop.None? ==> from < t.cursor < cursor)
            && Run(api, rows, from, cursor, n, attempted, period)
            == match t.stop
               case Some(exit) => Outcome(t.rows, t.requests, attempted + t.attempted, exit)
               case None => Run(api, t.rows, from, t.cursor, t.requests, attempted + t.attempted, period)
  {
    hide ChunkTurn, Upsert, Request;
    TurnMoves(api, rows, from, cursor, n, period);
  }

  lemma RunPassed(api: Api, rows: Table, from: int, cursor: int, n: nat, attempted: nat, period: Period)
    requires cursor <= from
    ensures Run(api, rows, from, cursor, n, attempted, period) == Outcome(rows, n, attempted, CursorPassed)
  {
  }

  ghost predicate IsLatest(m: int, rows: Table) {
    m in rows && forall t :: t in rows ==> t <= m
  }

  ghost predicate IsMaximum(m: int, keys: set<int>) {
    m in keys && forall t :: t in keys ==> t <= m
  }

  lemma {:induction false} LatestExists(keys: set<int>, k: int) returns (m: int)
    requires k in keys
    ensures IsMaximum(m, keys)
    decreases keys
  {
    m := k;
    if k' :| k' in keys && k' > k {
      m := LatestExists(keys - {k}, k');
      MaximumWithout(m, keys, k, k');
    }
  }

  lemma MaximumWithout(m: int, keys: set<int>, k: int, k': int)
    requires IsMaximum(m, keys - {k}) && k' in keys && k' > k
    ensures IsMaximum(m, keys)
  {
    assert k' in keys - {k};
    forall t | t in keys ensures t <= m {
      if t != k {
        assert t in keys - {k};
      }
    }
  }

  /** SELECT MAX(open_time). */
  ghost function Latest(rows: Table): (m: Option<int>)
    ensures m.None? ==> rows == map[]
    ensures m.Some? ==> IsLatest(m.value, rows)
  {
    if exists k :: k in rows.Keys then
      var k :| k in rows.Keys;
      assert exists m :: IsMaximum(m, rows.Keys) by { var m := LatestExists(rows.Keys, k); }
      var m :| IsMaximum(m, rows.Keys);
      Some(m)
    else None
  }

  /** Where a run starts from: the latest stored bar, or the lookback when nothing is stored. */
  ghost function StartFrom(rows: Table, now: int, lookback: nat): int {
    match Latest(rows)
    case Some(m) => m
    case None => now - lookback
  }

  ghost function Session(api: Api, rows: Table, now: int, lookback: nat, n: nat, period: Period): Outcome {
    Run(api, rows, StartFrom(rows, now, lookback), now, n, 0, period)
  }

  // ----- the table and the loop as the script runs them ---------------------------------

  class BarTable {
    var rows: Table
    /** API requests sent so far. */
    var requests: nat

    constructor ()
      ensures rows == map[] && requests == 0
    {
      rows, requests := map[], 0;
    }

    method UpsertBars(bars: seq<ApiBar>, period: Period) returns (count: nat)
      modifies this`rows
      ensures rows == Upsert(old(rows), bars, period)
      ensures count == |bars|
    {
      for i := 0 to |bars|
        invariant rows == Upsert(old(rows), bars[..i], period)
      {
        assert bars[..i + 1][..i] == bars[..i];
        if bars[i].timestamp !in rows {
          rows := rows[bars[i].timestamp := RowOf(bars[i], period)];
        }
      }
      assert bars[..|bars|] == bars;
      count := |bars|;
    }

    method GetTrendbars(api: Api, from: int, to: int) returns (reply: Option<seq<ApiBar>>)
      modifies this`requests
      ensures (reply, requests) == Request(api, old(requests), from, to, 0)
    {
      var retry := 0;
      while retry < MAX_RETRIES
        invariant retry <= MAX_RETRIES
        invariant Request(api, old(requests), from, to, 0) == Request(api, requests, from, to, retry)
      {
        var r := api(requests, from, to);
        requests, retry := requests + 1, retry + 1;
        match r {
          case Bars(bars) => return Some(bars);
          case ApiError => return None;
          case RateLimited =>
        }
      }
      return None;
    }

    method GetLatestBarTs() returns (latest: Option<int>)
      ensures latest == Latest(rows)
    {
      latest := None;
      var left := rows.Keys;
      while exists t :: t in left
        invariant left <= rows.Keys
        invariant latest.None? ==> left == rows.Keys
        invariant latest.Some? ==> latest.value in rows
        invariant latest.Some? ==> forall t :: t in rows && t !in left ==> t <= latest.value
        decreases left
      {
        var t :| t in left;
        latest := Some(if latest.Some? && latest.value >= t then latest.value else t);
        left := left - {t};
      }
    }

    /** Requests, stores and steps over one chunk. */
    method FetchChunk(api: Api, from: int, cursorEnd: int, period: Period)
      returns (cursor: int, count: nat, stop: Option<Exit>)
      modifies this
      ensures Turn(rows, cursor, requests, count, stop)
           == ChunkTurn(api, old(rows), from, cursorEnd, old(requests), period)
    {
      hide Upsert, SortBy, Request;
      cursor, count := cursorEnd, 0;
      var reply := GetTrendbars(api, from, cursorEnd);
      if reply.None? {
        return cursor, count, Some(Failed);
      }
      if reply.value == [] {
        return cursor, count, Some(NoBars);
      }
      var bars := SortBy(reply.value, BY_TIME);
      assert |bars| > 0 by { SortByCorrect(reply.value, BY_TIME); }
      count := UpsertBars(bars, period);
      var newCursorEnd := bars[0].timestamp - period;
      if newCursorEnd <= from {
        return cursor, count, Some(ReachedStart);
      }
      if newCursorEnd >= cursorEnd {
        return cursor, count, Some(NotMoved);
      }
      cursor, stop := newCursorEnd, None;
    }

    /** The paging loop, backwards from `now`. */
    method PageBackwards(api: Api, from: int, now: int, period: Period) returns (attempted: nat, exit: Exit)
      modifies this
      ensures Outcome(rows, requests, attempted, exit)
           == Run(api, old(rows), from, now, old(requests), 0, period)
    {
      hide ChunkTurn;
      var cursorEnd := now;
      attempted, exit := 0, CursorPassed;
      ghost var whole := Run(api, rows, from, now, requests, 0, period);
      while cursorEnd > from
        invariant exit == CursorPassed
        invariant whole == Run(api, rows, from, cursorEnd, requests, attempted, period)
        decreases cursorEnd - from
      {
        RunTurn(api, rows, from, cursorEnd, requests, attempted, period);
        var cursor, count, stop := FetchChunk(api, from, cursorEnd, period);
        attempted := attempted + count;
        if stop.Some? {
          return attempted, stop.value;
        }
        cursorEnd := cursor;
      }
    }

    /** Returns the number of rows attempted, as the script does. */
    method BackfillSymbolPeriod(api: Api, now: int, lookback: nat, period: Period)
      returns (attempted: nat, exit: Exit)
      modifies this
      ensures Outcome(rows, requests, attempted, exit)
           == Session(api, old(rows), now, lookback, old(requests), period)
    {
      var latest := GetLatestBarTs();
      var from := if latest.Some? then latest.value else now - lookback;
      attempted, exit := PageBackwards(api, from, now, period);
    }
  }

  // ----- what any API, and an honest one, leaves in the table ------------------------------

  /** The row has the bar's own prices and volume, and closes one period after the bar opens. */
  predicate Carries(row: Row, b: ApiBar, period: Period) {
    && row.closeTime == b.timestamp + period
    && row.open == b.open && row.high == b.high && row.low == b.low && row.close == b.close
    && row.volume == b.volume
  }

  /** `row` carries the first of the bars that open at `t`. */
  ghost predicate CarriesFirst(row: Row, bars: seq<ApiBar>, t: int, period: Period) {
    exists i :: IsFirst(bars, t, i) && Carries(row, bars[i], period)
  }

  predicate IsFirst(bars: seq<ApiBar>, t: int, i: int) {
    0 <= i < |bars| && bars[i].timestamp == t && forall j :: 0 <= j < i ==> bars[j].timestamp != t
  }

  lemma CarriesFirstStill(row: Row, bars: seq<ApiBar>, b: ApiBar, t: int, period: Period)
    requires CarriesFirst(row, bars, t, period)
    ensures CarriesFirst(row, bars + [b], t, period)
  {
    hide Carries;
    var i :| IsFirst(bars, t, i) && Carries(row, bars[i], period);
    assert (bars + [b])[i] == bars[i] && IsFirst(bars + [b], t, i);
  }

  lemma CarriesLast(bars: seq<ApiBar>, b: ApiBar, period: Period)
    requires forall b' :: b' in bars ==> b'.timestamp != b.timestamp
    ensures CarriesFirst(RowOf(b, period), bars + [b], b.timestamp, period)
  {
    var i := |bars|;
    assert (bars + [b])[i] == b && IsFirst(bars + [b], b.timestamp, i);
  }

  /** An insert of a page: the rows that were there stay as they are, every time of the page is there afterwards, and
      a row that was not there before carries the first bar of the page that opens at its time. */
  lemma {:induction false} UpsertKeeps(rows: Table, bars: seq<ApiBar>, period: Period)
    ensures var rows' := Upsert(rows, bars, period);
            && (forall t :: t in rows ==> t in rows' && rows'[t] == rows[t])
            && (forall b :: b in bars ==> b.timestamp in rows')
            && (forall t :: t in rows' && t !in rows ==>
                  CarriesFirst(rows'[t], bars, t, period))
            && |rows| <= |rows'| <= |rows| + |bars|
  {
    if bars != [] {
      var init, last := bars[..|bars| - 1], bars[|bars| - 1];
      assert bars == init + [last];
      UpsertKeeps(rows, init, period);
      var before := Upsert(rows, init, period);
      var rows' := Upsert(rows, bars, period);
      hide Upsert, RowOf, CarriesFirst;
      forall t | t in rows' && t !in rows ensures CarriesFirst(rows'[t], bars, t, period) {
        if t in before {
          CarriesFirstStill(before[t], init, last, t, period);
        } else {
          CarriesLast(init, last, period);
        }
      }
    }
  }

  /** The venue's whole list of bars and an API that tells the truth about it: every bar returned is the venue's
      and lies in the window asked for; with a bar it returns all newer ones in the window; and it returns
      something when the window is not empty. */
  ghost predicate Honest(api: Api, venue: seq<ApiBar>) {
    && (forall b, b' :: b in venue && b' in venue && b.timestamp == b'.timestamp ==> b == b')
    && forall n, from, to :: api(n, from, to).Bars? ==> NewestOf(venue, from, to, api(n, from, to).bars)
  }

  ghost predicate NewestOf(venue: seq<ApiBar>, from: int, to: int, bars: seq<ApiBar>) {
    && (forall b :: b in bars ==> b in venue && from <= b.timestamp <= to)
    && (forall b, b' :: b in bars && b' in venue && b.timestamp <= b'.timestamp <= to ==> b' in bars)
    && (forall b :: b in venue && from <= b.timestamp <= to ==> bars != [])
  }

  /** One more request: only rate limiting is retried. */
  lemma RequestTurn(api: Api, n: nat, from: int, to: int, retry: nat)
    ensures Request(api, n, from, to, retry)
         == if retry >= 5 then (None, n)
            else
              match api(n, from, to)
              case Bars(bars) => (Some(bars), n + 1)
              case ApiError => (None, n + 1)
              case RateLimited => Request(api, n + 1, from, to, retry + 1)
  {
  }

  lemma {:induction false} RequestFrom(api: Api, n: nat, from: int, to: int, retry: nat) returns (m: nat)
    requires retry <= 5
    ensures n <= m <= n + (5 - retry) && (forall k :: n <= k < m ==> api(k, from, to) == RateLimited)
    ensures var r := Request(api, n, from, to, retry);
            if m == n + (5 - retry) then r == (None, m)
            else
              match api(m, from, to)
              case Bars(bars) => r == (Some(bars), m + 1)
              case ApiError => r == (None, m + 1)
              case RateLimited => false
    decreases 5 - retry
  {
    m := n;
    RequestTurn(api, n, from, to, retry);
    hide Request;
    if retry < 5 && api(n, from, to) == RateLimited {
      m := RequestFrom(api, n + 1, from, to, retry + 1);
    }
  }

  /** What becomes of one chunk on any API: of five requests at most, the first that is not rate limited, number `m`,
      decides; five rate limits give the chunk up. */
  lemma RequestIsFirstAnswer(api: Api, n: nat, from: int, to: int) returns (m: nat)
    ensures n <= m <= n + 5 && (forall k :: n <= k < m ==> api(k, from, to) == RateLimited)
    ensures var r := Request(api, n, from, to, 0);
            if m == n + 5 then r == (None, m)
            else
              match api(m, from, to)
              case Bars(bars) => r == (Some(bars), m + 1)
              case ApiError => r == (None, m + 1)
              case RateLimited => false
  {
    hide Request;
    m := RequestFrom(api, n, from, to, 0);
  }

  lemma {:induction false} HonestRequest(api: Api, venue: seq<ApiBar>, n: nat, from: int, to: int, retry: nat)
    requires Honest(api, venue)
    ensures var reply := Request(api, n, from, to, retry).0;
            reply.Some? ==> NewestOf(venue, from, to, reply.value)
    decreases MAX_RETRIES - retry
  {
    if retry < MAX_RETRIES && api(n, from, to).RateLimited? {
      HonestRequest(api, venue, n + 1, from, to, retry + 1);
    }
  }

  /** Rows of the old table survive unchanged; new rows are venue bars of the window. */
  ghost predicate Extends(rows: Table, rows': Table, venue: seq<ApiBar>, from: int, to: int, period: Period) {
    && (forall t :: t in rows ==> t in rows' && rows'[t] == rows[t])
    && (forall t :: t in rows' && t !in rows ==>
          exists b :: b in venue && b.timestamp == t && from <= t <= to && Carries(rows'[t], b, period))
  }

  /** A page of venue bars makes rows of venue bars. */
  lemma FirstIsOfVenue(row: Row, venue: seq<ApiBar>, bars: seq<ApiBar>, from: int, to: int, t: int, period: Period)
    requires CarriesFirst(row, bars, t, period)
    requires forall b :: b in bars ==> b in venue && from <= b.timestamp <= to
    ensures exists b :: b in venue && b.timestamp == t && from <= t <= to && Carries(row, b, period)
  {
    hide Carries;
    var i :| IsFirst(bars, t, i) && Carries(row, bars[i], period);
    assert bars[i] in bars;
  }

  /** Every venue bar with from < t <= to is in the table. */
  ghost predicate Covers(rows: Table, venue: seq<ApiBar>, from: int, to: int) {
    forall b :: b in venue && from < b.timestamp <= to ==> b.timestamp in rows
  }

  /** Open times at least one period apart; times on the period grid are. */
  ghost predicate Spaced(venue: seq<ApiBar>, period: Period) {
    forall b, b' :: b in venue && b' in venue && b.timestamp < b'.timestamp ==>
      b'.timestamp - b.timestamp >= period
  }

  /** Two bars of the window, one before the other by less than a period. */
  predicate TooClose(older: ApiBar, newer: ApiBar, from: int, to: int, period: Period) {
    && from < older.timestamp < newer.timestamp <= to
    && newer.timestamp - older.timestamp < period
  }

  /** Of two venue bars of the window that are closer than one period, the older is in the table already. */
  ghost predicate CloseOnesStored(rows: Table, venue: seq<ApiBar>, from: int, to: int, period: Period) {
    forall b, b' :: b in venue && b' in venue && TooClose(b, b', from, to, period) ==> b.timestamp in rows
  }

  /** The table has grown and the window shrunk. */
  lemma CloseOnesStillStored(rows: Table, rows': Table, venue: seq<ApiBar>, from: int, mid: int, to: int,
          period: Period)
    requires CloseOnesStored(rows, venue, from, to, period) && mid <= to && Keeps(rows, rows')
    ensures CloseOnesStored(rows', venue, from, mid, period)
  {
    assert forall b, b' :: TooClose(b, b', from, mid, period) ==> TooClose(b, b', from, to, period);
  }

  /** On the period grid no two bars are too close, so nothing need be stored before. */
  lemma OnGridIsSpaced(venue: seq<ApiBar>, period: Period)
    requires forall b :: b in venue ==> b.timestamp % period == 0
    ensures Spaced(venue, period)
    ensures forall rows, from, to :: CloseOnesStored(rows, venue, from, to, period)
  {
    forall b, b' | b in venue && b' in venue && b.timestamp < b'.timestamp
      ensures b'.timestamp - b.timestamp >= period
    {
      MultiplesApart(b.timestamp, b'.timestamp, period);
    }
  }

  lemma MultiplesApart(x: int, y: int, p: nat)
    requires p > 0 && x % p == 0 && y % p == 0 && x < y
    ensures y - x >= p
  {
    var k := y / p - x / p;
    assert y - x == k * p;
    if k <= 0 {
      NonPositiveTimes(k, p);
    } else {
      assert k * p == p + (k - 1) * p;
    }
  }

  lemma NonPositiveTimes(k: int, p: nat)
    requires k <= 0
    ensures k * p <= 0
  {
  }

  // ----- coverage ----------------------------------------------------------------------------

  /** No row altered, no row dropped. */
  ghost predicate Keeps(rows: Table, rows': Table) {
    forall t :: t in rows ==> t in rows' && rows'[t] == rows[t]
  }

  lemma KeepsAgain(rows: Table, rows1: Table, rows2: Table)
    requires Keeps(rows, rows1) && Keeps(rows1, rows2)
    ensures Keeps(rows, rows2)
  {
  }

  /** No row altered or dropped, and no more rows added than attempted. */
  ghost predicate KeepsWithin(rows: Table, rows': Table, attempted: int) {
    Keeps(rows, rows') && |rows'| <= |rows| + attempted
  }

  lemma KeepsWithinAgain(rows: Table, rows1: Table, rows2: Table, a: int, b: int)
    requires KeepsWithin(rows, rows1, a) && KeepsWithin(rows1, rows2, b)
    ensures KeepsWithin(rows, rows2, a + b)
  {
    hide Keeps;
    KeepsAgain(rows, rows1, rows2);
  }

  /** For any API: a run never alters or drops a row, and it attempts at least as many rows as it adds. */
  lemma {:induction false} RunKeepsRows(api: Api, rows: Table, from: int, cursor: int, n: nat, attempted: nat,
          period: Period)
    ensures var r := Run(api, rows, from, cursor, n, attempted, period);
            KeepsWithin(rows, r.rows, r.attempted - attempted)
    decreases cursor - from
  {
    hide *;
    if cursor <= from {
      RunPassed(api, rows, from, cursor, n, attempted, period);
      KeepsItself(rows);
    } else {
      RunTurn(api, rows, from, cursor, n, attempted, period);
      TurnKeepsRows(api, rows, from, cursor, n, period);
      var t := ChunkTurn(api, rows, from, cursor, n, period);
      if t.stop.None? {
        var r := Run(api, t.rows, from, t.cursor, t.requests, attempted + t.attempted, period);
        RunKeepsRows(api, t.rows, from, t.cursor, t.requests, attempted + t.attempted, period);
        KeepsWithinAgain(rows, t.rows, r.rows, t.attempted, r.attempted - (attempted + t.attempted));
      }
    }
  }

  lemma KeepsItself(rows: Table)
    ensures KeepsWithin(rows, rows, 0)
  {
  }

  lemma TurnKeepsRows(api: Api, rows: Table, from: int, cursor: int, n: nat, period: Period)
    ensures var t := ChunkTurn(api, rows, from, cursor, n, period);
            KeepsWithin(rows, t.rows, t.attempted)
  {
    hide Request, Upsert, SortBy;
    var reply := Request(api, n, from, cursor, 0).0;
    if reply.Some? {
      UpsertKeeps(rows, SortBy(reply.value, BY_TIME), period);
    }
  }

  lemma SortedHead(page: seq<ApiBar>)
    requires page != []
    ensures var sorted := SortBy(page, BY_TIME);
            && |sorted| == |page| && sorted[0] in page
            && (forall b :: b in sorted <==> b in page)
            && (forall b :: b in page ==> sorted[0].timestamp <= b.timestamp)
  {
    var sorted := SortBy(page, BY_TIME);
    SortByCorrect(page, BY_TIME);
    hide SortBy;
    assert sorted[0] in sorted;
    forall b | b in page ensures sorted[0].timestamp <= b.timestamp {
      var i :| 0 <= i < |sorted| && sorted[i] == b;
      assert i == 0 || BY_TIME(sorted[0]) <= BY_TIME(sorted[i]);
    }
  }

  lemma StoredExtends(venue: seq<ApiBar>, rows: Table, from: int, to: int, bars: seq<ApiBar>, period: Period)
    requires forall b :: b in bars ==> b in venue && from <= b.timestamp <= to
    ensures Extends(rows, Upsert(rows, bars, period), venue, from, to, period)
    ensures forall b :: b in bars ==> b.timestamp in Upsert(rows, bars, period)
  {
    UpsertKeeps(rows, bars, period);
    hide Upsert, Carries, CarriesFirst;
    var rows' := Upsert(rows, bars, period);
    forall t | t in rows' && t !in rows
      ensures exists b :: b in venue && b.timestamp == t && from <= t <= to && Carries(rows'[t], b, period)
    {
      FirstIsOfVenue(rows'[t], venue, bars, from, to, t, period);
    }
  }

  /** A page that an honest API answers to the window [from, to], once stored. */
  lemma PageStored(venue: seq<ApiBar>, rows: Table, from: int, to: int, page: seq<ApiBar>, period: Period)
    requires NewestOf(venue, from, to, page) && page != []
    ensures var sorted := SortBy(page, BY_TIME);
            var rows' := Upsert(rows, sorted, period);
            && |sorted| > 0 && from <= sorted[0].timestamp <= to
            && Extends(rows, rows', venue, from, to, period)
            && (CloseOnesStored(rows, venue, from, to, period) ==>
                  Covers(rows', venue, Later(from, sorted[0].timestamp - period), to))
  {
    hide Upsert, SortBy;
    var sorted := SortBy(page, BY_TIME);
    SortedHead(page);
    StoredExtends(venue, rows, from, to, sorted, period);
    if CloseOnesStored(rows, venue, from, to, period) {
      forall b | b in venue && Later(from, sorted[0].timestamp - period) < b.timestamp <= to
        ensures b.timestamp in Upsert(rows, sorted, period)
      {
        assert sorted[0] in venue;
        if b.timestamp >= sorted[0].timestamp {
          assert b in sorted;
        } else {
          assert TooClose(b, sorted[0], from, to, period);
        }
      }
    }
  }

  function Later(x: int, y: int): int {
    if x >= y then x else y
  }

  /** What one turn on an honest API does: it stores only venue bars of the window, and unless it failed it leaves
      every venue bar above the next cursor in the table, or of the whole window when the loop stops, if of close
      bars the older ones were there. */
  lemma HonestTurn(api: Api, venue: seq<ApiBar>, rows: Table, from: int, cursor: int, n: nat, period: Period)
    requires Honest(api, venue)
    ensures var t := ChunkTurn(api, rows, from, cursor, n, period);
            && Extends(rows, t.rows, venue, from, cursor, period)
            && (CloseOnesStored(rows, venue, from, cursor, period) && t.stop != Some(Failed) ==>
                  Covers(t.rows, venue, if t.stop.None? then t.cursor else from, cursor))
            && t.stop != Some(NotMoved)
  {
    hide Request, Upsert, SortBy, CloseOnesStored;
    HonestRequest(api, venue, n, from, cursor, 0);
    var reply := Request(api, n, from, cursor, 0).0;
    if reply.Some? && reply.value != [] {
      hide NewestOf, Extends;
      PageStored(venue, rows, from, cursor, reply.value, period);
    } else if reply.Some? {
      assert Covers(rows, venue, from, cursor);
    }
  }

  lemma RunStopped(api: Api, venue: seq<ApiBar>, rows: Table, from: int, cursor: int, n: nat, attempted: nat,
          period: Period)
    requires cursor <= from
    ensures var r := Run(api, rows, from, cursor, n, attempted, period);
            r.rows == rows && Extends(rows, rows, venue, from, cursor, period) && Covers(rows, venue, from, cursor)
  {
    RunPassed(api, rows, from, cursor, n, attempted, period);
    hide Run;
  }

  /** Coverage.  Against an honest API, a run that did not fail leaves every venue bar with from < t <= now in the
      table, if of any two of them closer than one period the older one was there before; and any run stores only
      venue bars of that window. */
  lemma {:induction false} RunCovers(api: Api, venue: seq<ApiBar>, rows: Table, from: int, cursor: int, n: nat,
          attempted: nat, period: Period)
    requires Honest(api, venue)
    ensures var r := Run(api, rows, from, cursor, n, attempted, period);
            && Extends(rows, r.rows, venue, from, cursor, period)
            && (CloseOnesStored(rows, venue, from, cursor, period) && r.exit != Failed ==>
                  Covers(r.rows, venue, from, cursor))
            && NewRowsAreOwn(rows, r.rows, venue, period)
    decreases cursor - from
  {
    hide *;
    if cursor <= from {
      RowsStay(rows, venue, period);
      RunStopped(api, venue, rows, from, cursor, n, attempted, period);
    } else {
      RunTurn(api, rows, from, cursor, n, attempted, period);
      HonestTurn(api, venue, rows, from, cursor, n, period);
      var t := ChunkTurn(api, rows, from, cursor, n, period);
      if t.stop.None? {
        RunCovers(api, venue, t.rows, from, t.cursor, t.requests, attempted + t.attempted, period);
        var rows2 := Run(api, rows, from, cursor, n, attempted, period).rows;
        ExtendsAgain(rows, t.rows, rows2, venue, from, t.cursor, cursor, period);
        if CloseOnesStored(rows, venue, from, cursor, period)
          && Run(api, rows, from, cursor, n, attempted, period).exit != Failed {
          ExtendsKeeps(rows, t.rows, venue, from, cursor, period);
          CloseOnesStillStored(rows, t.rows, venue, from, t.cursor, cursor, period);
          CoversAgain(t.rows, rows2, venue, from, t.cursor, cursor, period);
        }
      }
      HonestIsUnique(api, venue);
      ExtendsByOwn(rows, Run(api, rows, from, cursor, n, attempted, period).rows, venue, from, cursor, period);
    }
  }

  /** Every row added has the prices of the venue's bar of that time. */
  ghost predicate NewRowsAreOwn(rows: Table, rows': Table, venue: seq<ApiBar>, period: Period) {
    forall b :: b in venue && b.timestamp in rows' && b.timestamp !in rows ==> Carries(rows'[b.timestamp], b, period)
  }

  lemma RowsStay(rows: Table, venue: seq<ApiBar>, period: Period)
    ensures NewRowsAreOwn(rows, rows, venue, period)
  {
  }

  lemma HonestIsUnique(api: Api, venue: seq<ApiBar>)
    requires Honest(api, venue)
    ensures forall b, b' :: b in venue && b' in venue && b.timestamp == b'.timestamp ==> b == b'
  {
  }

  lemma ExtendsByOwn(rows: Table, rows': Table, venue: seq<ApiBar>, from: int, to: int, period: Period)
    requires Extends(rows, rows', venue, from, to, period)
    requires forall b, b' :: b in venue && b' in venue && b.timestamp == b'.timestamp ==> b == b'
    ensures NewRowsAreOwn(rows, rows', venue, period)
  {
    hide Carries;
  }

  lemma ExtendsKeeps(rows: Table, rows': Table, venue: seq<ApiBar>, from: int, to: int, period: Period)
    requires Extends(rows, rows', venue, from, to, period)
    ensures Keeps(rows, rows')
  {
  }

  lemma ExtendsAgain(rows: Table, rows1: Table, rows2: Table, venue: seq<ApiBar>, from: int, mid: int, to: int,
          period: Period)
    requires Extends(rows, rows1, venue, from, to, period)
    requires Extends(rows1, rows2, venue, from, mid, period) && mid <= to
    ensures Extends(rows, rows2, venue, from, to, period)
  {
    forall t | t in rows2 && t !in rows
      ensures exists b :: b in venue && b.timestamp == t && from <= t <= to && Carries(rows2[t], b, period)
    {
      if t in rows1 {
        var b :| b in venue && b.timestamp == t && Carries(rows1[t], b, period);
      } else {
        var b :| b in venue && b.timestamp == t && from <= t <= mid && Carries(rows2[t], b, period);
      }
    }
  }

  lemma CoversAgain(rows1: Table, rows2: Table, venue: seq<ApiBar>, from: int, mid: int, to: int, period: Period)
    requires Extends(rows1, rows2, venue, from, mid, period)
    requires Covers(rows1, venue, mid, to) && Covers(rows2, venue, from, mid)
    ensures Covers(rows2, venue, from, to)
  {
  }

  /** The venue bars of a window, in the venue's order. */
  function Window(venue: seq<ApiBar>, lo: int, hi: int): (bars: seq<ApiBar>)
    ensures forall b :: b in bars <==> b in venue && lo <= b.timestamp <= hi
  {
    if venue == [] then []
    else
      var last := venue[|venue| - 1];
      Window(venue[..|venue| - 1], lo, hi) + (if lo <= last.timestamp <= hi then [last] else [])
  }

  /** An API that answers a window in two pages: first everything from `split` on, then the rest. */
  function SplitAt(venue: seq<ApiBar>, split: int): Api {
    (n: nat, from: int, to: int) => Bars(SplitPage(venue, split, from, to))
  }

  function SplitPage(venue: seq<ApiBar>, split: int, from: int, to: int): seq<ApiBar> {
    Window(venue, if from < split <= to then split else from, to)
  }

  lemma SplitAtIsHonest(venue: seq<ApiBar>, split: ApiBar)
    requires forall b, b' :: b in venue && b' in venue && b.timestamp == b'.timestamp ==> b == b'
    requires split in venue
    ensures Honest(SplitAt(venue, split.timestamp), venue)
  {
    hide Window;
    forall from, to ensures NewestOf(venue, from, to, SplitPage(venue, split.timestamp, from, to)) {
      var page := SplitPage(venue, split.timestamp, from, to);
      if from < split.timestamp <= to {
        assert split in page;
      }
    }
  }

  /** The spacing is needed: if two venue bars are closer than one period, some honest API that never fails makes
      a run leave the older one out. */
  lemma SpacingIsNeeded(venue: seq<ApiBar>, older: ApiBar, newer: ApiBar, rows: Table, from: int, now: int, n: nat,
          period: Period)
    requires forall b, b' :: b in venue && b' in venue && b.timestamp == b'.timestamp ==> b == b'
    requires older in venue && newer in venue
    requires TooClose(older, newer, from, now, period)
    requires older.timestamp !in rows
    ensures var api := SplitAt(venue, newer.timestamp);
            var r := Run(api, rows, from, now, n, 0, period);
            Honest(api, venue) && r.exit != Failed && older.timestamp !in r.rows
  {
    var api := SplitAt(venue, newer.timestamp);
    SplitAtIsHonest(venue, newer);
    NeverFails(api, rows, from, now, n, 0, period);
    var t := ChunkTurn(api, rows, from, now, n, period);
    FirstSplitTurn(api, venue, newer, rows, from, now, n, period);
    hide *;
    RunTurn(api, rows, from, now, n, 0, period);
    if t.stop.None? {
      RunCovers(api, venue, t.rows, from, t.cursor, t.requests, t.attempted, period);
      var r := Run(api, t.rows, from, t.cursor, t.requests, t.attempted, period);
      NotAbove(t.rows, r.rows, venue, from, t.cursor, period, older.timestamp);
    }
  }

  /** Every run on an honest API that does not fail covers the window. */
  ghost predicate AlwaysCovers(venue: seq<ApiBar>, rows: Table, from: int, now: int, period: Period) {
    forall api: Api, n: nat :: Honest(api, venue) && Run(api, rows, from, now, n, 0, period).exit != Failed ==>
      Covers(Run(api, rows, from, now, n, 0, period).rows, venue, from, now)
  }

  /** Exactly when coverage can be relied on, for a venue with unique times: of any two of its bars in the window
      that are closer than one period, the older one is in the table before the run. */
  lemma CoversExactlyWhenCloseOnesAreStored(venue: seq<ApiBar>, rows: Table, from: int, now: int, period: Period)
    requires forall b, b' :: b in venue && b' in venue && b.timestamp == b'.timestamp ==> b == b'
    ensures AlwaysCovers(venue, rows, from, now, period) <==> CloseOnesStored(rows, venue, from, now, period)
  {
    hide Run, Honest;
    if CloseOnesStored(rows, venue, from, now, period) {
      forall api: Api, n: nat | Honest(api, venue) && Run(api, rows, from, now, n, 0, period).exit != Failed
        ensures Covers(Run(api, rows, from, now, n, 0, period).rows, venue, from, now)
      {
        hide Extends, CloseOnesStored;
        RunCovers(api, venue, rows, from, now, n, 0, period);
      }
    } else {
      var older, newer :| older in venue && newer in venue && TooClose(older, newer, from, now, period)
        && older.timestamp !in rows;
      SpacingIsNeeded(venue, older, newer, rows, from, now, 0, period);
      var api := SplitAt(venue, newer.timestamp);
      assert Honest(api, venue) && Run(api, rows, from, now, 0, 0, period).exit != Failed;
      assert !Covers(Run(api, rows, from, now, 0, 0, period).rows, venue, from, now);
    }
  }

  lemma NotAbove(rows: Table, rows': Table, venue: seq<ApiBar>, from: int, to: int, period: Period, t: int)
    requires Extends(rows, rows', venue, from, to, period) && t > to && t !in rows
    ensures t !in rows'
  {
  }

  /** A turn that is answered everything from `newer` on, and nothing else, stores `newer`, nothing before it, and
      steps the cursor to a whole period before it. */
  lemma FirstSplitTurn(api: Api, venue: seq<ApiBar>, newer: ApiBar, rows: Table, from: int, now: int, n: nat,
          period: Period)
    requires newer in venue && from < newer.timestamp <= now
    requires api(n, from, now) == Bars(SplitPage(venue, newer.timestamp, from, now))
    ensures var t := ChunkTurn(api, rows, from, now, n, period);
            && t.requests == n + 1 && newer.timestamp in t.rows
            && (forall k :: k in t.rows ==> k in rows || k >= newer.timestamp)
            && (if newer.timestamp - period <= from then t.stop.Some? && t.stop != Some(Failed)
                else t.stop.None? && t.cursor == newer.timestamp - period)
  {
    var page := SplitPage(venue, newer.timestamp, from, now);
    assert newer in page && forall b :: b in page ==> b.timestamp >= newer.timestamp;
    assert Request(api, n, from, now, 0) == (Some(page), n + 1);
    hide Window, SplitPage, Request, SortBy, Upsert, RowOf;
    SortedHead(page);
    var sorted := SortBy(page, BY_TIME);
    UpsertKeeps(rows, sorted, period);
    assert sorted[0].timestamp == newer.timestamp && newer in sorted;
    PageTurned(api, rows, from, now, n, period, page);
  }

  /** A turn that was answered a page. */
  lemma PageTurned(api: Api, rows: Table, from: int, cursor: int, n: nat, period: Period, page: seq<ApiBar>)
    requires Request(api, n, from, cursor, 0) == (Some(page), n + 1) && page != []
    ensures var sorted, t := SortBy(page, BY_TIME), ChunkTurn(api, rows, from, cursor, n, period);
            && |sorted| > 0 && t.rows == Upsert(rows, sorted, period) && t.requests == n + 1
            && var next := sorted[0].timestamp - period;
               if next <= from then t.stop == Some(ReachedStart)
               else if next >= cursor then t.stop == Some(NotMoved)
               else t.stop.None? && t.cursor == next
  {
    SortByCorrect(page, BY_TIME);
    hide Request, SortBy, Upsert;
  }

  lemma TurnNeverFails(api: Api, rows: Table, from: int, cursor: int, n: nat, period: Period)
    requires forall k, lo, hi :: api(k, lo, hi).Bars?
    ensures ChunkTurn(api, rows, from, cursor, n, period).stop != Some(Failed)
  {
    assert Request(api, n, from, cursor, 0).0.Some?;
    hide Upsert, SortBy, Request;
  }

  lemma {:induction false} NeverFails(api: Api, rows: Table, from: int, cursor: int, n: nat, attempted: nat,
          period: Period)
    requires forall k, lo, hi :: api(k, lo, hi).Bars?
    ensures Run(api, rows, from, cursor, n, attempted, period).exit != Failed
    decreases cursor - from
  {
    hide *;
    if cursor <= from {
      RunPassed(api, rows, from, cursor, n, attempted, period);
    } else {
      TurnNeverFails(api, rows, from, cursor, n, period);
      RunTurn(api, rows, from, cursor, n, attempted, period);
      var t := ChunkTurn(api, rows, from, cursor, n, period);
      if t.stop.None? {
        NeverFails(api, t.rows, from, t.cursor, t.requests, attempted + t.attempted, period);
      }
    }
  }

  // ----- runs that fail --------------------------------------------------------------------------

  /** Nothing at or below `cut` was added. */
  ghost predicate NothingUpTo(rows: Table, rows': Table, cut: int) {
    forall t :: t <= cut ==> (t in rows' <==> t in rows)
  }

  /** A turn that goes on added nothing at or below its next cursor; a turn that failed added nothing. */
  lemma TurnAddsAbove(api: Api, rows: Table, from: int, cursor: int, n: nat, period: Period)
    ensures var t := ChunkTurn(api, rows, from, cursor, n, period);
            && (t.stop.None? ==> NothingUpTo(rows, t.rows, t.cursor))
            && (t.stop == Some(Failed) ==> t.rows == rows)
  {
    hide Request, Upsert, SortBy;
    var reply := Request(api, n, from, cursor, 0).0;
    if reply.Some? && reply.value != [] {
      SortedHead(reply.value);
      UpsertKeeps(rows, SortBy(reply.value, BY_TIME), period);
    }
  }

  /** A run that failed has a cut: every venue bar above it, up to where the run began, is in the table, and nothing
      at or below it was added. */
  lemma {:induction false} FailedRunHasCut(api: Api, venue: seq<ApiBar>, rows: Table, from: int, cursor: int, n: nat,
          attempted: nat, period: Period)
    returns (cut: int)
    requires Honest(api, venue) && CloseOnesStored(rows, venue, from, cursor, period)
    requires Run(api, rows, from, cursor, n, attempted, period).exit == Failed
    ensures var r := Run(api, rows, from, cursor, n, attempted, period);
            from < cut <= cursor && Covers(r.rows, venue, cut, cursor) && NothingUpTo(rows, r.rows, cut)
    decreases cursor - from
  {
    hide *;
    FailedRunBegan(api, rows, from, cursor, n, attempted, period);
    RunTurn(api, rows, from, cursor, n, attempted, period);
    HonestTurn(api, venue, rows, from, cursor, n, period);
    TurnAddsAbove(api, rows, from, cursor, n, period);
    var t := ChunkTurn(api, rows, from, cursor, n, period);
    if t.stop.Some? {
      cut := cursor;
      NothingDone(rows, venue, cursor);
    } else {
      ExtendsKeeps(rows, t.rows, venue, from, cursor, period);
      CloseOnesStillStored(rows, t.rows, venue, from, t.cursor, cursor, period);
      cut := FailedRunHasCut(api, venue, t.rows, from, t.cursor, t.requests, attempted + t.attempted, period);
      RunCovers(api, venue, t.rows, from, t.cursor, t.requests, attempted + t.attempted, period);
      var r := Run(api, t.rows, from, t.cursor, t.requests, attempted + t.attempted, period);
      CoversAbove(t.rows, r.rows, venue, from, cut, t.cursor, cursor, period);
      NothingUpToAgain(rows, t.rows, r.rows, t.cursor, cut);
    }
  }

  lemma FailedRunBegan(api: Api, rows: Table, from: int, cursor: int, n: nat, attempted: nat, period: Period)
    requires Run(api, rows, from, cursor, n, attempted, period).exit == Failed
    ensures cursor > from
  {
    if cursor <= from {
      RunPassed(api, rows, from, cursor, n, attempted, period);
    }
    hide Run;
  }

  lemma NothingDone(rows: Table, venue: seq<ApiBar>, cut: int)
    ensures Covers(rows, venue, cut, cut) && NothingUpTo(rows, rows, cut)
  {
  }

  lemma CoversAbove(rows1: Table, rows2: Table, venue: seq<ApiBar>, from: int, cut: int, mid: int, to: int,
          period: Period)
    requires Extends(rows1, rows2, venue, from, mid, period)
    requires Covers(rows1, venue, mid, to) && Covers(rows2, venue, cut, mid)
    ensures Covers(rows2, venue, cut, to)
  {
  }

  lemma NothingUpToAgain(rows: Table, rows1: Table, rows2: Table, mid: int, cut: int)
    requires NothingUpTo(rows, rows1, mid) && NothingUpTo(rows1, rows2, cut) && cut <= mid
    ensures NothingUpTo(rows, rows2, cut)
  {
  }

  /** An API that answers request `first` with everything from `split` on and fails every other one. */
  function FailsAfter(venue: seq<ApiBar>, split: int, first: nat): Api {
    (n: nat, from: int, to: int) => if n == first then Bars(SplitPage(venue, split, from, to)) else ApiError
  }

  /** And it happens: on any venue a session that starts from an empty table can store one page, fail on the next
      and so leave an older bar out. */
  lemma FailedSessionLeavesAHole(venue: seq<ApiBar>, older: ApiBar, newer: ApiBar, now: int, lookback: nat, n: nat,
          period: Period)
    requires forall b, b' :: b in venue && b' in venue && b.timestamp == b'.timestamp ==> b == b'
    requires older in venue && newer in venue && now - lookback < older.timestamp && newer.timestamp <= now
    requires newer.timestamp - older.timestamp >= period
    ensures var api := FailsAfter(venue, newer.timestamp, n);
            var r := Session(api, map[], now, lookback, n, period);
            Honest(api, venue) && r.exit == Failed && newer.timestamp in r.rows && older.timestamp !in r.rows
  {
    var api, from, split := FailsAfter(venue, newer.timestamp, n), now - lookback, newer.timestamp;
    SplitAtIsHonest(venue, newer);
    assert forall lo, hi :: SplitAt(venue, split)(n, lo, hi) == Bars(SplitPage(venue, split, lo, hi));
    hide SplitPage;
    assert Honest(api, venue);
    FirstSplitTurn(api, venue, newer, map[], from, now, n, period);
    assert Request(api, n + 1, from, split - period, 0) == (None, n + 2);
    assert StartFrom(map[], now, lookback) == from by { EmptyStart(now, lookback); }
    var t := ChunkTurn(api, map[], from, now, n, period);
    assert ChunkTurn(api, t.rows, from, split - period, n + 1, period)
        == Turn(t.rows, split - period, n + 2, 0, Some(Failed));
    hide *;
    RunTurn(api, map[], from, now, n, 0, period);
    RunTurn(api, t.rows, from, t.cursor, n + 1, t.attempted, period);
    SessionIs(api, map[], now, lookback, n, period);
  }

  lemma EmptyStart(now: int, lookback: nat)
    ensures StartFrom(map[], now, lookback) == now - lookback
  {
  }

  lemma SessionIs(api: Api, rows: Table, now: int, lookback: nat, n: nat, period: Period)
    ensures Session(api, rows, now, lookback, n, period)
         == Run(api, rows, StartFrom(rows, now, lookback), now, n, 0, period)
  {
  }

  // ----- the resume rule -----------------------------------------------------------------------

  datatype Attempt = Attempt(api: Api, now: int, n: nat)

  /** Sessions one after another, each starting from the table the last one left. */
  ghost function Sessions(rows: Table, attempts: seq<Attempt>, lookback: nat, period: Period): Table {
    if attempts == [] then rows
    else
      var a := attempts[|attempts| - 1];
      Session(a.api, Sessions(rows, attempts[..|attempts| - 1], lookback, period), a.now, lookback, a.n, period).rows
  }

  /** A hole is permanent: once the table holds a bar, no number of later sessions on honest APIs, failing or not,
      stores anything older than the latest bar it held, so a bar missing there stays missing. */
  lemma {:induction false} HolesArePermanent(venue: seq<ApiBar>, rows: Table, attempts: seq<Attempt>, lookback: nat,
          period: Period, m: int)
    requires IsLatest(m, rows)
    requires forall a :: a in attempts ==> Honest(a.api, venue)
    ensures var rows' := Sessions(rows, attempts, lookback, period);
            && (forall t :: t < m ==> (t in rows' <==> t in rows))
            && exists m' :: m' >= m && IsLatest(m', rows')
  {
    if attempts == [] {
      assert m >= m && IsLatest(m, rows);
    } else {
      var init, a := attempts[..|attempts| - 1], attempts[|attempts| - 1];
      HolesArePermanent(venue, rows, init, lookback, period, m);
      var before := Sessions(rows, init, lookback, period);
      var after := Sessions(rows, attempts, lookback, period);
      var from := StartFrom(before, a.now, lookback);
      assert a in attempts;
      hide Run, Honest;
      RunCovers(a.api, venue, before, from, a.now, a.n, 0, period);
      assert from in after;
      var top := Latest(after).value;
      assert top >= from >= m && IsLatest(top, after);
    }
  }

  /** The hole of a failed first session is one of them: no later session on an honest API ever fills it. */
  lemma FirstHoleIsPermanent(venue: seq<ApiBar>, older: ApiBar, newer: ApiBar, now: int, lookback: nat, n: nat,
          period: Period, attempts: seq<Attempt>)
    requires forall b, b' :: b in venue && b' in venue && b.timestamp == b'.timestamp ==> b == b'
    requires older in venue && newer in venue && now - lookback < older.timestamp && newer.timestamp <= now
    requires newer.timestamp - older.timestamp >= period
    requires forall a :: a in attempts ==> Honest(a.api, venue)
    ensures var first := Session(FailsAfter(venue, newer.timestamp, n), map[], now, lookback, n, period);
            first.exit == Failed && older.timestamp !in Sessions(first.rows, attempts, lookback, period)
  {
    FailedSessionLeavesAHole(venue, older, newer, now, lookback, n, period);
    var rows := Session(FailsAfter(venue, newer.timestamp, n), map[], now, lookback, n, period).rows;
    hide Session, Honest, Sessions;
    var m := LatestExists(rows.Keys, newer.timestamp);
    HolesArePermanent(venue, rows, attempts, lookback, period, m);
  }

  lemma LatestIsStart(rows: Table, now: int, lookback: nat, m: int)
    requires IsLatest(m, rows)
    ensures StartFrom(rows, now, lookback) == m
  {
  }

  lemma OldOrNewer(rows: Table, rows': Table, venue: seq<ApiBar>, m: int, to: int, period: Period, b: ApiBar)
    requires IsLatest(m, rows) && Extends(rows, rows', venue, m, to, period) && Covers(rows', venue, m, to)
    requires b in venue && b.timestamp <= to
    ensures b.timestamp in rows' <==> b.timestamp in rows || b.timestamp > m
  {
  }

  /** Exactly what a resumed session covers: with any bar stored, a session that does not fail leaves a venue bar
      up to `now` in the table if and only if it was there already or is newer than the latest stored one. */
  lemma ResumeFillsOnlyTheFuture(api: Api, venue: seq<ApiBar>, rows: Table, now: int, lookback: nat, n: nat,
          period: Period, m: int, b: ApiBar)
    requires IsLatest(m, rows) && Honest(api, venue) && CloseOnesStored(rows, venue, m, now, period)
    requires Session(api, rows, now, lookback, n, period).exit != Failed
    requires b in venue && b.timestamp <= now
    ensures b.timestamp in Session(api, rows, now, lookback, n, period).rows
       <==> b.timestamp in rows || b.timestamp > m
    ensures var after := Session(api, rows, now, lookback, n, period).rows;
            Keeps(rows, after)
            && (b.timestamp in after && b.timestamp !in rows ==> Carries(after[b.timestamp], b, period))
  {
    LatestIsStart(rows, now, lookback, m);
    hide Run, Honest, CloseOnesStored, Latest, IsLatest, StartFrom, Extends, Covers, Keeps, Carries;
    RunCovers(api, venue, rows, m, now, n, 0, period);
    ExtendsKeeps(rows, Run(api, rows, m, now, n, 0, period).rows, venue, m, now, period);
    OldOrNewer(rows, Run(api, rows, m, now, n, 0, period).rows, venue, m, now, period, b);
  }

  /** Everything a first session stores: with nothing stored before, a session that does not fail leaves exactly one
      row for each venue bar of the lookback, with the bar's own prices, if no two of them are closer than one
      period; and at most one more, for a bar that opens right where the lookback starts. */
  lemma FirstSessionStores(api: Api, venue: seq<ApiBar>, now: int, lookback: nat, n: nat, period: Period)
    requires Honest(api, venue) && CloseOnesStored(map[], venue, now - lookback, now, period)
    requires Session(api, map[], now, lookback, n, period).exit != Failed
    ensures var after := Session(api, map[], now, lookback, n, period).rows;
            && (forall b :: b in venue && now - lookback < b.timestamp <= now ==>
                  b.timestamp in after && Carries(after[b.timestamp], b, period))
            && (forall t :: t in after ==> now - lookback <= t <= now && IsVenueTime(venue, t))
  {
    EmptyStart(now, lookback);
    hide Run, Honest, CloseOnesStored, Latest, StartFrom, Carries;
    RunCovers(api, venue, map[], now - lookback, now, n, 0, period);
  }

  ghost predicate IsVenueTime(venue: seq<ApiBar>, t: int) {
    exists b :: b in venue && b.timestamp == t
  }
}
