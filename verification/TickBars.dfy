/** Ticks to bars: the group-by of scripts/import_ticks.py and scripts/aggregate_ticks_to_bars.py, and the
    one-pass dictionary of scripts/compare_tick_quality.py. */
module TickBars {
  import opened Wrappers
  import opened Reals

  /** One tick of a symbol; `time` is in milliseconds. */
  datatype Tick = Tick(time: int, bid: real, ask: real)

  function Mid(t: Tick): real { (t.bid + t.ask) / 2.0 }

  /** Which price of a tick feeds open and close, high, and low. */
  datatype Quote = Quote(oc: Tick -> real, hi: Tick -> real, lo: Tick -> real)

  /** `generate_bars` uses the bid throughout. */
  const BID := Quote((t: Tick) => t.bid, (t: Tick) => t.bid, (t: Tick) => t.bid)

  /** `aggregate_symbol_timeframe` opens and closes at the mid, between the highest ask and the lowest bid. */
  const MID_ASK_BID := Quote((t: Tick) => Mid(t), (t: Tick) => t.ask, (t: Tick) => t.bid)

  const MID := Quote((t: Tick) => Mid(t), (t: Tick) => Mid(t), (t: Tick) => Mid(t))

  /** A bar row; `ts` is in seconds, and AVG(ask - bid) is `spreadTotal / volume`. */
  datatype Row = Row(ts: int, open: real, high: real, low: real, close: real, volume: nat, spreadTotal: real)

  /** A timeframe in seconds. */
  type Seconds = s: nat | 0 < s witness 60

  /** CAST(FLOOR(timestamp_ms / (secs * 1000)) AS BIGINT) * secs. */
  function BucketStart(time: int, secs: Seconds): int {
    time / (secs * 1000) * secs
  }

  // ----- the group-by --------------------------------------------------------------------

  function Single(q: Quote, t: Tick, ts: int): Row {
    Row(ts, q.oc(t), q.hi(t), q.lo(t), q.oc(t), 1, t.ask - t.bid)
  }

  function Extend(q: Quote, r: Row, t: Tick): Row {
    Row(r.ts, r.open, Max(r.high, q.hi(t)), Min(r.low, q.lo(t)), q.oc(t), r.volume + 1, r.spreadTotal + (t.ask - t.bid))
  }

  function AddTick(q: Quote, rows: seq<Row>, t: Tick, key: Tick -> int): seq<Row> {
    var n := |rows|;
    if n > 0 && rows[n - 1].ts == key(t) then rows[..n - 1] + [Extend(q, rows[n - 1], t)]
    else rows + [Single(q, t, key(t))]
  }

  /** The rows of the SELECT, in order of time, for ticks in order of time. */
  function Rows(q: Quote, ticks: seq<Tick>, key: Tick -> int): seq<Row> {
    if ticks == [] then [] else AddTick(q, Rows(q, ticks[..|ticks| - 1], key), ticks[|ticks| - 1], key)
  }

  function ByBucket(secs: Seconds): Tick -> int {
    (t: Tick) => BucketStart(t.time, secs)
  }

  ghost predicate Ascending(ticks: seq<Tick>) {
    forall i, j :: 0 <= i < j < |ticks| ==> ticks[i].time < ticks[j].time
  }

  ghost predicate Ordered(ticks: seq<Tick>, key: Tick -> int) {
    forall i, j :: 0 <= i < j < |ticks| ==> key(ticks[i]) <= key(ticks[j])
  }

  /** The ticks whose key is `k`, in order. */
  function Group(ticks: seq<Tick>, key: Tick -> int, k: int): seq<Tick> {
    if ticks == [] then []
    else
      var last := ticks[|ticks| - 1];
      Group(ticks[..|ticks| - 1], key, k) + (if key(last) == k then [last] else [])
  }

  function SpreadSum(ticks: seq<Tick>): real {
    if ticks == [] then 0.0 else SpreadSum(ticks[..|ticks| - 1]) + (ticks[|ticks| - 1].ask - ticks[|ticks| - 1].bid)
  }

  /** FIRST, MAX, MIN, LAST of a group. */
  ghost predicate IsOhlc(q: Quote, group: seq<Tick>, open: real, high: real, low: real, close: real) {
    && group != [] && open == q.oc(group[0]) && close == q.oc(group[|group| - 1])
    && (forall t :: t in group ==> q.hi(t) <= high) && (exists t :: t in group && q.hi(t) == high)
    && (forall t :: t in group ==> q.lo(t) >= low) && (exists t :: t in group && q.lo(t) == low)
  }

  ghost predicate IsBarOf(q: Quote, group: seq<Tick>, r: Row) {
    && IsOhlc(q, group, r.open, r.high, r.low, r.close)
    && r.volume == |group| && r.spreadTotal == SpreadSum(group)
  }

  /** What GROUP BY key ORDER BY key means: keys in strict order, one row for each key that some tick has, and in
      it the aggregates of exactly that key's ticks. */
  ghost predicate IsGroupBy(q: Quote, ticks: seq<Tick>, key: Tick -> int, rows: seq<Row>) {
    AscendingRows(rows) && RowsMatch(q, ticks, key, rows) && Covered(ticks, key, rows)
  }

  ghost predicate AscendingRows(rows: seq<Row>) {
    forall i, j :: 0 <= i < j < |rows| ==> rows[i].ts < rows[j].ts
  }

  ghost predicate RowsMatch(q: Quote, ticks: seq<Tick>, key: Tick -> int, rows: seq<Row>) {
    forall i :: 0 <= i < |rows| ==> IsBarOf(q, Group(ticks, key, rows[i].ts), rows[i])
  }

  ghost predicate Covered(ticks: seq<Tick>, key: Tick -> int, rows: seq<Row>) {
    forall t :: t in ticks ==> exists i :: 0 <= i < |rows| && rows[i].ts == key(t)
  }

  lemma ExtendOhlc(q: Quote, group: seq<Tick>, t: Tick, open: real, high: real, low: real, close: real)
    requires IsOhlc(q, group, open, high, low, close)
    ensures IsOhlc(q, group + [t], open, Max(high, q.hi(t)), Min(low, q.lo(t)), q.oc(t))
  {
    var more := group + [t];
    var a :| a in group && q.hi(a) == high;
    var b :| b in group && q.lo(b) == low;
    assert a in more && b in more && t in more;
  }

  lemma SingleOhlc(q: Quote, t: Tick)
    ensures IsOhlc(q, [t], q.oc(t), q.hi(t), q.lo(t), q.oc(t))
  {
    assert t in [t];
  }

  lemma AppendSpread(group: seq<Tick>, t: Tick)
    ensures SpreadSum(group + [t]) == SpreadSum(group) + (t.ask - t.bid)
  {
    assert (group + [t])[..|group|] == group;
  }

  lemma MulMonotone(x: int, y: int, m: int)
    requires x <= y && m > 0
    ensures x * m <= y * m
  {
  }

  lemma DivMonotone(x: int, y: int, m: int)
    requires x <= y && m > 0
    ensures x / m <= y / m
  {
    var a, b := x / m, y / m;
    assert a * m <= x && y < b * m + m;
    if a >= b + 1 {
      MulMonotone(b + 1, a, m);
    }
  }

  /** Buckets follow time. */
  lemma AscendingIsOrdered(ticks: seq<Tick>, secs: Seconds)
    requires Ascending(ticks)
    ensures Ordered(ticks, ByBucket(secs))
  {
    forall i, j | 0 <= i < j < |ticks|
      ensures BucketStart(ticks[i].time, secs) <= BucketStart(ticks[j].time, secs)
    {
      DivMonotone(ticks[i].time, ticks[j].time, secs * 1000);
      MulMonotone(ticks[i].time / (secs * 1000), ticks[j].time / (secs * 1000), secs);
    }
  }

  lemma {:induction false} EmptyGroup(ticks: seq<Tick>, key: Tick -> int, k: int)
    requires forall i :: 0 <= i < |ticks| ==> key(ticks[i]) != k
    ensures Group(ticks, key, k) == []
  {
    if ticks != [] {
      EmptyGroup(ticks[..|ticks| - 1], key, k);
    }
  }

  /** The invariant of adding ticks one by one: a group-by whose last row is the last tick's. */
  ghost predicate GroupedSoFar(q: Quote, ticks: seq<Tick>, key: Tick -> int, rows: seq<Row>) {
    && IsGroupBy(q, ticks, key, rows)
    && (if ticks == [] then rows == [] else rows != [] && rows[|rows| - 1].ts == key(ticks[|ticks| - 1]))
  }

  /** Merging each tick into the last row is the group-by, for ticks in the order of their keys. */
  lemma {:induction false} RowsAreGroupBy(q: Quote, ticks: seq<Tick>, key: Tick -> int)
    requires Ordered(ticks, key)
    ensures GroupedSoFar(q, ticks, key, Rows(q, ticks, key))
  {
    if ticks != [] {
      var init, t := ticks[..|ticks| - 1], ticks[|ticks| - 1];
      var rows := Rows(q, init, key);
      RowsAreGroupBy(q, init, key);
      hide Rows, IsGroupBy;
      if rows != [] && rows[|rows| - 1].ts == key(t) {
        AddToLastRow(q, ticks, key, rows);
      } else {
        AddNewRow(q, ticks, key, rows);
      }
    }
  }

  lemma OtherGroup(ticks: seq<Tick>, key: Tick -> int, k: int)
    requires ticks != [] && key(ticks[|ticks| - 1]) != k
    ensures Group(ticks, key, k) == Group(ticks[..|ticks| - 1], key, k)
  {
    assert Group(ticks[..|ticks| - 1], key, k) + [] == Group(ticks[..|ticks| - 1], key, k);
  }

  lemma ExtendedBar(q: Quote, ticks: seq<Tick>, key: Tick -> int, r: Row)
    requires ticks != [] && key(ticks[|ticks| - 1]) == r.ts
    requires IsBarOf(q, Group(ticks[..|ticks| - 1], key, r.ts), r)
    ensures IsBarOf(q, Group(ticks, key, r.ts), Extend(q, r, ticks[|ticks| - 1]))
  {
    var group, t := Group(ticks[..|ticks| - 1], key, r.ts), ticks[|ticks| - 1];
    assert Group(ticks, key, r.ts) == group + [t];
    hide Group, IsOhlc, SpreadSum;
    ExtendOhlc(q, group, t, r.open, r.high, r.low, r.close);
    AppendSpread(group, t);
  }

  lemma NewBar(q: Quote, ticks: seq<Tick>, key: Tick -> int)
    requires ticks != []
    requires forall i :: 0 <= i < |ticks| - 1 ==> key(ticks[i]) != key(ticks[|ticks| - 1])
    ensures var t := ticks[|ticks| - 1]; IsBarOf(q, Group(ticks, key, key(t)), Single(q, t, key(t)))
  {
    var init, t := ticks[..|ticks| - 1], ticks[|ticks| - 1];
    EmptyGroup(init, key, key(t));
    assert Group(ticks, key, key(t)) == [t];
    SingleOhlc(q, t);
    assert [t][..0] == [];
  }

  /** Every key of a tick has a row, when the old rows keep their keys and the new tick has one. */
  lemma StillCovered(ticks: seq<Tick>, key: Tick -> int, rows: seq<Row>, rows': seq<Row>)
    requires ticks != [] && |rows| <= |rows'| && forall i :: 0 <= i < |rows| ==> rows'[i].ts == rows[i].ts
    requires Covered(ticks[..|ticks| - 1], key, rows)
    requires |rows'| > 0 && rows'[|rows'| - 1].ts == key(ticks[|ticks| - 1])
    ensures Covered(ticks, key, rows')
  {
    forall u | u in ticks ensures exists i :: 0 <= i < |rows'| && rows'[i].ts == key(u) {
      if u in ticks[..|ticks| - 1] {
        var i :| 0 <= i < |rows| && rows[i].ts == key(u);
        assert rows'[i].ts == key(u);
      } else {
        assert rows'[|rows'| - 1].ts == key(u);
      }
    }
  }

  /** The new rows match when the last one does and the others are old rows of other keys. */
  lemma StillMatch(q: Quote, ticks: seq<Tick>, key: Tick -> int, rows: seq<Row>, rows': seq<Row>)
    requires ticks != [] && 0 < |rows'| <= |rows| + 1 && rows'[..|rows'| - 1] == rows[..|rows'| - 1]
    requires RowsMatch(q, ticks[..|ticks| - 1], key, rows)
    requires forall i :: 0 <= i < |rows'| - 1 ==> rows[i].ts != key(ticks[|ticks| - 1])
    requires var last := rows'[|rows'| - 1]; IsBarOf(q, Group(ticks, key, last.ts), last)
    ensures RowsMatch(q, ticks, key, rows')
  {
    hide IsBarOf, Group;
    forall i | 0 <= i < |rows'| ensures IsBarOf(q, Group(ticks, key, rows'[i].ts), rows'[i]) {
      if i < |rows'| - 1 {
        assert rows'[i] == rows'[..|rows'| - 1][i] == rows[..|rows'| - 1][i] == rows[i];
        OtherGroup(ticks, key, rows[i].ts);
      }
    }
  }

  lemma AddToLastRow(q: Quote, ticks: seq<Tick>, key: Tick -> int, rows: seq<Row>)
    requires ticks != [] && GroupedSoFar(q, ticks[..|ticks| - 1], key, rows)
    requires rows != [] && rows[|rows| - 1].ts == key(ticks[|ticks| - 1])
    ensures GroupedSoFar(q, ticks, key, AddTick(q, rows, ticks[|ticks| - 1], key))
  {
    var t, n := ticks[|ticks| - 1], |rows| - 1;
    var rows' := rows[..n] + [Extend(q, rows[n], t)];
    LastRowFacts(q, ticks, key, rows);
    assert AddTick(q, rows, t, key) == rows';
    hide *;
    ExtendedBar(q, ticks, key, rows[n]);
    StillCovered(ticks, key, rows, rows');
    StillMatch(q, ticks, key, rows, rows');
    GroupedSoFarFrom(q, ticks, key, rows');
  }

  lemma LastRowFacts(q: Quote, ticks: seq<Tick>, key: Tick -> int, rows: seq<Row>)
    requires ticks != [] && GroupedSoFar(q, ticks[..|ticks| - 1], key, rows)
    requires rows != [] && rows[|rows| - 1].ts == key(ticks[|ticks| - 1])
    ensures var t, n := ticks[|ticks| - 1], |rows| - 1;
            var rows' := rows[..n] + [Extend(q, rows[n], t)];
            && (forall i :: 0 <= i < |rows| ==> rows'[i].ts == rows[i].ts)
            && (forall i :: 0 <= i < n ==> rows[i].ts != key(t))
            && rows'[..|rows'| - 1] == rows[..|rows'| - 1]
            && RowsMatch(q, ticks[..|ticks| - 1], key, rows) && Covered(ticks[..|ticks| - 1], key, rows)
            && IsBarOf(q, Group(ticks[..|ticks| - 1], key, rows[n].ts), rows[n])
            && AscendingRows(rows')
  {
    hide Covered, IsBarOf, Group;
  }

  lemma GroupedSoFarFrom(q: Quote, ticks: seq<Tick>, key: Tick -> int, rows: seq<Row>)
    requires AscendingRows(rows) && RowsMatch(q, ticks, key, rows) && Covered(ticks, key, rows)
    requires ticks != [] && rows != [] && rows[|rows| - 1].ts == key(ticks[|ticks| - 1])
    ensures GroupedSoFar(q, ticks, key, rows)
  {
  }

  lemma AddNewRow(q: Quote, ticks: seq<Tick>, key: Tick -> int, rows: seq<Row>)
    requires ticks != [] && Ordered(ticks, key) && GroupedSoFar(q, ticks[..|ticks| - 1], key, rows)
    requires rows == [] || rows[|rows| - 1].ts != key(ticks[|ticks| - 1])
    ensures GroupedSoFar(q, ticks, key, AddTick(q, rows, ticks[|ticks| - 1], key))
  {
    hide *;
    var t := ticks[|ticks| - 1];
    var rows' := rows + [Single(q, t, key(t))];
    AllKeysBelow(q, ticks, key, rows);
    NewRowFacts(q, rows, t, key);
    NewBar(q, ticks, key);
    StillCovered(ticks, key, rows, rows');
    StillMatch(q, ticks, key, rows, rows');
    GroupedSoFarFrom(q, ticks, key, rows');
  }

  lemma NewRowFacts(q: Quote, rows: seq<Row>, t: Tick, key: Tick -> int)
    requires rows == [] || rows[|rows| - 1].ts != key(t)
    ensures var rows' := rows + [Single(q, t, key(t))];
            && AddTick(q, rows, t, key) == rows' && rows'[|rows|].ts == key(t)
            && (forall i :: 0 <= i < |rows| ==> rows'[i].ts == rows[i].ts)
            && rows'[..|rows|] == rows[..|rows|]
  {
  }

  lemma AllKeysBelow(q: Quote, ticks: seq<Tick>, key: Tick -> int, rows: seq<Row>)
    requires ticks != [] && Ordered(ticks, key) && GroupedSoFar(q, ticks[..|ticks| - 1], key, rows)
    requires rows == [] || rows[|rows| - 1].ts != key(ticks[|ticks| - 1])
    ensures var t := ticks[|ticks| - 1];
            && (forall i :: 0 <= i < |ticks| - 1 ==> key(ticks[i]) != key(t))
            && (forall i :: 0 <= i < |rows| ==> rows[i].ts < key(t))
            && AscendingRows(rows + [Single(q, t, key(t))])
            && RowsMatch(q, ticks[..|ticks| - 1], key, rows) && Covered(ticks[..|ticks| - 1], key, rows)
  {
    hide RowsMatch, Covered;
    if |ticks| > 1 {
      assert key(ticks[|ticks| - 2]) <= key(ticks[|ticks| - 1]);
    }
  }

  /** Nothing is lost: the volumes add up to the number of ticks. */
  function Volume(rows: seq<Row>): nat {
    if rows == [] then 0 else Volume(rows[..|rows| - 1]) + rows[|rows| - 1].volume
  }

  lemma {:induction false} VolumesSumToTicks(q: Quote, ticks: seq<Tick>, key: Tick -> int)
    ensures Volume(Rows(q, ticks, key)) == |ticks|
  {
    if ticks != [] {
      var rows := Rows(q, ticks[..|ticks| - 1], key);
      var rows' := Rows(q, ticks, key);
      VolumesSumToTicks(q, ticks[..|ticks| - 1], key);
      hide Rows;
      if |rows'| == |rows| {
        assert rows'[..|rows| - 1] == rows[..|rows| - 1];
      } else {
        assert rows'[..|rows|] == rows;
      }
    }
  }

  /** Open and close lie between low and high whenever each tick's own prices do. */
  lemma RowsAreValid(q: Quote, ticks: seq<Tick>, key: Tick -> int, i: nat)
    requires Ordered(ticks, key) && i < |Rows(q, ticks, key)|
    requires forall t: Tick :: t in ticks ==> q.lo(t) <= q.oc(t) <= q.hi(t)
    ensures var r := Rows(q, ticks, key)[i]; r.low <= r.open <= r.high && r.low <= r.close <= r.high
  {
    RowsAreGroupBy(q, ticks, key);
    var r := Rows(q, ticks, key)[i];
    var group := Group(ticks, key, r.ts);
    GroupWithin(ticks, key, r.ts);
    hide Rows, Group, Covered, AscendingRows;
    assert IsBarOf(q, group, r);
    hide RowsMatch;
    OhlcIsValid(q, group, r.open, r.high, r.low, r.close);
  }

  lemma OhlcIsValid(q: Quote, group: seq<Tick>, open: real, high: real, low: real, close: real)
    requires IsOhlc(q, group, open, high, low, close)
    requires forall t :: t in group ==> q.lo(t) <= q.oc(t) <= q.hi(t)
    ensures low <= open <= high && low <= close <= high
  {
    assert group[0] in group && group[|group| - 1] in group;
  }

  lemma {:induction false} GroupWithin(ticks: seq<Tick>, key: Tick -> int, k: int)
    ensures forall t :: t in Group(ticks, key, k) ==> t in ticks && key(t) == k
  {
    if ticks != [] {
      GroupWithin(ticks[..|ticks| - 1], key, k);
    }
  }

  // ----- rolling bars up ---------------------------------------------------------------------

  /** The start of the larger bar a row belongs to. */
  function RowBucket(ts: int, secs: Seconds): int {
    ts / secs * secs
  }

  /** First open, highest high, lowest low, last close, summed volume and spread. */
  function Merge(a: Row, b: Row): Row {
    var high, low := Max(a.high, b.high), Min(a.low, b.low);
    Row(a.ts, a.open, high, low, b.close, a.volume + b.volume, a.spreadTotal + b.spreadTotal)
  }

  function AddRow(acc: seq<Row>, r: Row, secs: Seconds): seq<Row> {
    var n := |acc|;
    var ts := RowBucket(r.ts, secs);
    if n > 0 && acc[n - 1].ts == ts then acc[..n - 1] + [Merge(acc[n - 1], r)] else acc + [r.(ts := ts)]
  }

  function RollUp(rows: seq<Row>, secs: Seconds): seq<Row> {
    if rows == [] then [] else AddRow(RollUp(rows[..|rows| - 1], secs), rows[|rows| - 1], secs)
  }

  /** A bucket of the smaller timeframe lies inside one bucket of the larger: floor twice is floor once. */
  lemma BucketsNest(time: int, small: Seconds, k: Seconds)
    ensures small * k > 0
    ensures RowBucket(BucketStart(time, small), small * k) == BucketStart(time, small * k)
  {
    var m, n := small * 1000, time / (small * 1000);
    MulMonotone(1, k, small);
    FloorOfFloor(time, m, k);
    assert m * k == small * k * 1000;
    FloorOfScaled(n, small, k);
  }

  lemma FloorOfFloor(x: int, m: Seconds, k: Seconds)
    ensures m * k > 0 && x / m / k == x / (m * k)
  {
    var n := x / m;
    var q, r := n / k, n % k;
    MulMonotone(1, k, m);
    assert x == n * m + x % m && n == q * k + r;
    assert x == q * (m * k) + (r * m + x % m) by { Regroup(q, k, r, m); }
    MulMonotone(0, r, m);
    MulMonotone(r + 1, k, m);
    QuotientIs(x, m * k, q, r * m + x % m);
  }

  lemma Regroup(q: int, k: int, r: int, m: int)
    ensures (q * k + r) * m == q * (m * k) + r * m
  {
  }

  lemma FloorOfScaled(n: int, s: Seconds, k: Seconds)
    ensures s * k > 0 && n * s / (s * k) * (s * k) == n / k * (s * k)
  {
    var q, r := n / k, n % k;
    MulMonotone(1, k, s);
    assert n * s == q * (s * k) + r * s by { Regroup(q, k, r, s); }
    MulMonotone(0, r, s);
    MulMonotone(r + 1, k, s);
    QuotientIs(n * s, s * k, q, r * s);
  }

  lemma QuotientIs(x: int, m: int, q: int, r: int)
    requires x == q * m + r && 0 <= r < m
    ensures x / m == q
  {
    var p := x / m;
    assert x == p * m + x % m;
    if p > q {
      MulMonotone(q + 1, p, m);
    } else if p < q {
      MulMonotone(p + 1, q, m);
    }
  }

  lemma ExtendThenRoll(q: Quote, acc: seq<Row>, r: Row, t: Tick, big: Seconds)
    requires RowBucket(r.ts, big) == BucketStart(t.time, big)
    ensures AddRow(acc, Extend(q, r, t), big) == AddTick(q, AddRow(acc, r, big), t, ByBucket(big))
  {
    hide RowBucket, BucketStart;
    var n := |acc|;
    if n > 0 && acc[n - 1].ts == RowBucket(r.ts, big) {
      assert (acc[..n - 1] + [Merge(acc[n - 1], r)])[..n - 1] == acc[..n - 1];
      assert Merge(acc[n - 1], Extend(q, r, t)) == Extend(q, Merge(acc[n - 1], r), t);
    } else {
      assert (acc + [r.(ts := RowBucket(r.ts, big))])[..n] == acc;
    }
  }

  lemma SingleThenRoll(q: Quote, acc: seq<Row>, t: Tick, ts: int, big: Seconds)
    requires RowBucket(ts, big) == BucketStart(t.time, big)
    ensures AddRow(acc, Single(q, t, ts), big) == AddTick(q, acc, t, ByBucket(big))
  {
    hide RowBucket, BucketStart;
    var n := |acc|;
    if n > 0 && acc[n - 1].ts == RowBucket(ts, big) {
      assert Merge(acc[n - 1], Single(q, t, ts)) == Extend(q, acc[n - 1], t);
    }
  }

  /** Roll-up agreement: for any ticks and any two timeframes of which one divides the other, aggregating to the
      small one and rolling those bars up gives exactly the bars aggregated directly. */
  lemma {:induction false} RollUpAgrees(q: Quote, ticks: seq<Tick>, small: Seconds, big: Seconds)
    requires big % small == 0
    ensures RollUp(Rows(q, ticks, ByBucket(small)), big) == Rows(q, ticks, ByBucket(big))
  {
    if ticks != [] {
      var init, t := ticks[..|ticks| - 1], ticks[|ticks| - 1];
      RollUpAgrees(q, init, small, big);
      RollUpOneTick(q, Rows(q, init, ByBucket(small)), t, small, big);
      hide AddTick, AddRow, RollUp;
    }
  }

  lemma RollUpOneTick(q: Quote, rows: seq<Row>, t: Tick, small: Seconds, big: Seconds)
    requires big % small == 0
    ensures RollUp(AddTick(q, rows, t, ByBucket(small)), big) == AddTick(q, RollUp(rows, big), t, ByBucket(big))
  {
    BucketsNest(t.time, small, Ratio(big, small));
    var n := |rows|;
    var ts := BucketStart(t.time, small);
    hide BucketStart, RowBucket;
    if n > 0 && rows[n - 1].ts == ts {
      assert (rows[..n - 1] + [Extend(q, rows[n - 1], t)])[..n - 1] == rows[..n - 1];
      ExtendThenRoll(q, RollUp(rows[..n - 1], big), rows[n - 1], t, big);
      hide AddRow;
    } else {
      assert (rows + [Single(q, t, ts)])[..n] == rows;
      SingleThenRoll(q, RollUp(rows, big), t, ts, big);
      hide AddRow;
    }
  }

  function Ratio(big: Seconds, small: Seconds): (k: Seconds)
    requires big % small == 0
    ensures small * k == big
  {
    var k := big / small;
    assert small * k == big;
    assert k > 0 by {
      if k <= 0 { MulMonotone(k, 0, small); }
    }
    k
  }

  // ----- the one-pass dictionary of compare_bars ------------------------------------------------

  datatype Live = Live(open: real, high: real, low: real, close: real)

  /** The tick's time with seconds dropped and minutes floored to the timeframe, hour kept. */
  function MinuteBucket(time: int, minutes: Seconds): int {
    time / 3600000 * 3600 + time / 60000 % 60 / minutes * minutes * 60
  }

  function ByMinutes(minutes: Seconds): Tick -> int {
    (t: Tick) => MinuteBucket(t.time, minutes)
  }

  /** Exactly one entry for each key some tick has, holding first, highest, lowest and last mid of its ticks. */
  ghost predicate IsLiveOf(ticks: seq<Tick>, key: Tick -> int, bars: map<int, Live>) {
    && (forall t :: t in ticks ==> key(t) in bars)
    && (forall k :: k in bars ==>
          IsOhlc(MID, Group(ticks, key, k), bars[k].open, bars[k].high, bars[k].low, bars[k].close))
  }

  /** Ticks in any order. */
  method LiveBars(ticks: seq<Tick>, minutes: Seconds) returns (bars: map<int, Live>)
    ensures IsLiveOf(ticks, ByMinutes(minutes), bars)
    ensures IsDictionary(ticks, minutes, bars)
  {
    bars := map[];
    for i := 0 to |ticks|
      invariant IsLiveOf(ticks[..i], ByMinutes(minutes), bars)
    {
      var t := ticks[i];
      var k := MinuteBucket(t.time, minutes);
      ghost var before := bars;
      if k !in bars {
        bars := bars[k := Live(Mid(t), Mid(t), Mid(t), Mid(t))];
      } else {
        var b := bars[k];
        bars := bars[k := Live(b.open, Max(b.high, Mid(t)), Min(b.low, Mid(t)), Mid(t))];
      }
      assert ticks[..i + 1][..i] == ticks[..i];
      LiveStep(ticks[..i + 1], ByMinutes(minutes), before, bars);
    }
    assert ticks[..|ticks|] == ticks;
    LiveIsDictionary(ticks, minutes, bars);
  }

  function Updated(b: Live, mid: real): Live {
    Live(b.open, Max(b.high, mid), Min(b.low, mid), mid)
  }

  lemma LiveStep(ticks: seq<Tick>, key: Tick -> int, before: map<int, Live>, after: map<int, Live>)
    requires ticks != [] && IsLiveOf(ticks[..|ticks| - 1], key, before)
    requires var t := ticks[|ticks| - 1]; var k := key(t);
             after == before[k := if k in before then Updated(before[k], Mid(t))
                                  else Live(Mid(t), Mid(t), Mid(t), Mid(t))]
    ensures IsLiveOf(ticks, key, after)
  {
    var init, t := ticks[..|ticks| - 1], ticks[|ticks| - 1];
    hide IsOhlc;
    forall u | u in ticks ensures key(u) in after {
      assert u in init || u == t;
    }
    forall k | k in after
      ensures IsOhlc(MID, Group(ticks, key, k), after[k].open, after[k].high, after[k].low, after[k].close)
    {
      if k != key(t) {
        OtherGroup(ticks, key, k);
      } else if k in before {
        assert Group(ticks, key, k) == Group(init, key, k) + [t];
        ExtendOhlc(MID, Group(init, key, k), t, before[k].open, before[k].high, before[k].low, before[k].close);
      } else {
        forall i | 0 <= i < |init| ensures key(init[i]) != k {
          assert init[i] in init;
        }
        EmptyGroup(init, key, k);
        assert Group(ticks, key, k) == [t];
        SingleOhlc(MID, t);
      }
    }
  }

  lemma OhlcIsUnique(q: Quote, group: seq<Tick>, a: Live, b: Live)
    requires IsOhlc(q, group, a.open, a.high, a.low, a.close) && IsOhlc(q, group, b.open, b.high, b.low, b.close)
    ensures a == b
  {
  }

  /** Exactly when the minute-based bucket is the epoch-floor bucket of the SQL aggregators. */
  lemma BucketsAgreeExactlyWhenSixtyDivides(minutes: Seconds)
    ensures (forall time: int :: MinuteBucket(time, minutes) == BucketStart(time, minutes * 60)) <==> 60 % minutes == 0
  {
    if 60 % minutes == 0 {
      forall time: int ensures MinuteBucket(time, minutes) == BucketStart(time, minutes * 60) {
        SixtyDivides(time, minutes);
      }
    } else {
      // one hour after the epoch
      assert MinuteBucket(3600000, minutes) == 3600;
      HourIsNoMultiple(minutes);
    }
  }

  lemma HourIsNoMultiple(minutes: Seconds)
    requires 60 % minutes != 0
    ensures BucketStart(3600000, minutes * 60) != 3600
  {
    var q := 3600000 / (minutes * 60 * 1000);
    if q * minutes == 60 {
      QuotientIs(60, minutes, q, 0);
    }
    assert q * (minutes * 60) == (q * minutes) * 60;
  }

  /** Flooring the minutes within the hour is flooring the minutes. */
  lemma FloorInHour(u: int, minutes: Seconds)
    requires 60 % minutes == 0
    ensures u / 60 * 60 + u % 60 / minutes * minutes == u / minutes * minutes
  {
    var h, r, c := u / 60, u % 60, Ratio(60, minutes);
    var k := c * h + r / minutes;
    assert u == h * 60 + r && r == r / minutes * minutes + r % minutes;
    HourScales(c, h, r / minutes, minutes);
    QuotientIs(u, minutes, k, r % minutes);
  }

  lemma HourScales(c: int, h: int, d: int, minutes: int)
    requires minutes * c == 60
    ensures (c * h + d) * minutes == h * 60 + d * minutes
  {
    assert (c * h + d) * minutes == (minutes * c) * h + d * minutes;
  }

  lemma SixtyDivides(time: int, minutes: Seconds)
    requires 60 % minutes == 0
    ensures MinuteBucket(time, minutes) == BucketStart(time, minutes * 60)
  {
    var u := time / 60000;
    FloorOfFloor(time, 60000, 60);
    FloorOfFloor(time, 60000, minutes);
    FloorInHour(u, minutes);
    SixtyTimes(u / 60, u % 60 / minutes * minutes, u / minutes, minutes);
  }

  lemma SixtyTimes(h: int, inHour: int, q: int, minutes: int)
    requires h * 60 + inHour == q * minutes
    ensures h * 3600 + inHour * 60 == q * (minutes * 60)
  {
    assert (h * 60 + inHour) * 60 == q * minutes * 60;
  }

  /** The dictionary has the row's bar, with the row's prices. */
  predicate Holds(bars: map<int, Live>, r: Row) {
    r.ts in bars && bars[r.ts] == Live(r.open, r.high, r.low, r.close)
  }

  /** The one-pass dictionary refines the group-by: for ticks in order of time and a timeframe that divides the
      hour, each bar of the group-by is in the dictionary with the same prices, and nothing else is. */
  lemma LiveBarsAreTheRows(ticks: seq<Tick>, minutes: Seconds, bars: map<int, Live>)
    requires Ascending(ticks) && 60 % minutes == 0
    requires IsLiveOf(ticks, ByMinutes(minutes), bars)
    ensures var rows := Rows(MID, ticks, ByBucket(minutes * 60));
            && (forall i :: 0 <= i < |rows| ==> Holds(bars, rows[i]))
            && (forall k :: k in bars ==> exists i :: 0 <= i < |rows| && rows[i].ts == k)
  {
    var key, key' := ByMinutes(minutes), ByBucket(minutes * 60);
    var rows := Rows(MID, ticks, key');
    AscendingIsOrdered(ticks, minutes * 60);
    RowsAreGroupBy(MID, ticks, key');
    BucketsAgreeExactlyWhenSixtyDivides(minutes);
    hide MinuteBucket, BucketStart, Rows, IsOhlc;
    forall t: Tick ensures key(t) == key'(t) {}
    forall k ensures Group(ticks, key, k) == Group(ticks, key', k) {
      SameGroup(ticks, key, key', k);
    }
    forall i | 0 <= i < |rows| ensures Holds(bars, rows[i]) {
      var r := rows[i];
      assert IsBarOf(MID, Group(ticks, key', r.ts), r);
      var t := GroupMember(MID, ticks, key', r);
      OhlcIsUnique(MID, Group(ticks, key', r.ts), bars[r.ts], Live(r.open, r.high, r.low, r.close));
    }
    forall k | k in bars ensures exists i :: 0 <= i < |rows| && rows[i].ts == k {
      var b := bars[k];
      var t := GroupMember(MID, ticks, key, Row(k, b.open, b.high, b.low, b.close, 0, 0.0));
    }
  }

  lemma GroupMember(q: Quote, ticks: seq<Tick>, key: Tick -> int, r: Row) returns (t: Tick)
    requires IsOhlc(q, Group(ticks, key, r.ts), r.open, r.high, r.low, r.close)
    ensures t in ticks && key(t) == r.ts
  {
    t := Group(ticks, key, r.ts)[0];
    GroupWithin(ticks, key, r.ts);
    assert t in Group(ticks, key, r.ts);
  }

  lemma {:induction false} SameGroup(ticks: seq<Tick>, key: Tick -> int, key': Tick -> int, k: int)
    requires forall t: Tick :: key(t) == key'(t)
    ensures Group(ticks, key, k) == Group(ticks, key', k)
  {
    if ticks != [] {
      SameGroup(ticks[..|ticks| - 1], key, key', k);
    }
  }

  // ----- the rows of an aggregation, in terms of ticks, seconds and prices alone -----------------------

  /** The tick falls into the bar that starts at second `ts`, a multiple of the timeframe. */
  predicate InBar(t: Tick, ts: int, secs: Seconds) {
    ts % secs == 0 && ts * 1000 <= t.time < (ts + secs) * 1000
  }

  /** The ticks of that bar are those from `a` up to `b`, and there are some. */
  ghost predicate IsStretch(ticks: seq<Tick>, a: nat, b: nat, ts: int, secs: Seconds) {
    a < b <= |ticks| && forall n :: 0 <= n < |ticks| ==> (a <= n < b <==> InBar(ticks[n], ts, secs))
  }

  /** The spreads add up to `total`. */
  ghost predicate SpreadsAddUp(ticks: seq<Tick>, total: real) {
    exists sums: seq<real> :: IsRunningSpread(ticks, sums) && sums[|ticks|] == total
  }

  predicate IsRunningSpread(ticks: seq<Tick>, sums: seq<real>) {
    && |sums| == |ticks| + 1 && sums[0] == 0.0
    && forall i :: 0 <= i < |ticks| ==> sums[i + 1] - sums[i] == ticks[i].ask - ticks[i].bid
  }

  ghost predicate IsRow(q: Quote, ticks: seq<Tick>, secs: Seconds, r: Row) {
    exists a: nat, b: nat :: IsStretch(ticks, a, b, r.ts, secs) && IsRowOf(q, ticks[a..b], r)
  }

  ghost predicate IsRowOf(q: Quote, mine: seq<Tick>, r: Row) {
    IsOhlc(q, mine, r.open, r.high, r.low, r.close) && r.volume == |mine| && SpreadsAddUp(mine, r.spreadTotal)
  }

  /** One row for each bar that has a tick, in order of time. */
  ghost predicate IsTable(q: Quote, ticks: seq<Tick>, secs: Seconds, rows: seq<Row>) {
    && AscendingRows(rows)
    && (forall i :: 0 <= i < |rows| ==> IsRow(q, ticks, secs, rows[i]))
    && (forall t :: t in ticks ==> exists i :: 0 <= i < |rows| && InBar(t, rows[i].ts, secs))
  }

  lemma BucketIs(t: Tick, secs: Seconds, ts: int)
    ensures BucketStart(t.time, secs) == ts <==> InBar(t, ts, secs)
  {
    var m := secs * 1000;
    var q := t.time / m;
    assert t.time == q * m + t.time % m;
    BucketBounds(q, secs);
    if InBar(t, ts, secs) {
      var k := ts / secs;
      assert ts == k * secs;
      BucketBounds(k, secs);
      QuotientIs(t.time, m, k, t.time - k * m);
    }
  }

  lemma BucketBounds(q: int, secs: Seconds)
    ensures q * (secs * 1000) == q * secs * 1000
    ensures (q * secs + secs) * 1000 == q * (secs * 1000) + secs * 1000
    ensures q * secs % secs == 0
  {
    Multiples(q, secs);
  }

  lemma Multiples(q: int, m: int)
    requires m > 0
    ensures q * m % m == 0
  {
    QuotientIs(q * m, m, q, 0);
    assert q * m == (q * m) / m * m + q * m % m;
  }

  lemma GroupAppend(ticks: seq<Tick>, t: Tick, key: Tick -> int, k: int)
    ensures Group(ticks + [t], key, k) == Group(ticks, key, k) + (if key(t) == k then [t] else [])
  {
    assert (ticks + [t])[..|ticks|] == ticks;
  }

  /** The ticks of key `k` are those from `a` up to `b`. */
  ghost predicate StandTogether(ticks: seq<Tick>, key: Tick -> int, k: int, a: nat, b: nat) {
    && a <= b <= |ticks| && Group(ticks, key, k) == ticks[a..b]
    && forall n :: 0 <= n < |ticks| ==> (a <= n < b <==> key(ticks[n]) == k)
  }

  /** For ticks in the order of their keys, those of one key stand together. */
  lemma {:induction false} GroupIsStretch(ticks: seq<Tick>, key: Tick -> int, k: int) returns (a: nat, b: nat)
    requires Ordered(ticks, key)
    ensures StandTogether(ticks, key, k, a, b)
  {
    if ticks == [] {
      a, b := 0, 0;
    } else {
      var init, last := ticks[..|ticks| - 1], ticks[|ticks| - 1];
      assert ticks == init + [last];
      a, b := GroupIsStretch(init, key, k);
      hide Group, StandTogether;
      GroupAppend(init, last, key, k);
      if key(last) == k {
        LastJoins(init, last, key, k, a, b);
        a, b := if a < b then a else |init|, |ticks|;
      } else {
        OtherStays(init, last, key, k, a, b);
      }
    }
  }

  lemma NoGap(init: seq<Tick>, last: Tick, key: Tick -> int, k: int, b: nat)
    requires Ordered(init + [last], key) && 0 < b < |init| && key(init[b - 1]) == k && key(last) == k
    ensures key(init[b]) == k
  {
    var all := init + [last];
    assert key(all[b - 1]) <= key(all[b]) <= key(all[|init|]);
  }

  lemma LastJoins(init: seq<Tick>, last: Tick, key: Tick -> int, k: int, a: nat, b: nat)
    requires Ordered(init + [last], key) && StandTogether(init, key, k, a, b) && key(last) == k
    requires Group(init + [last], key, k) == Group(init, key, k) + [last]
    ensures StandTogether(init + [last], key, k, if a < b then a else |init|, |init| + 1)
  {
    hide Group;
    var all := init + [last];
    if a < b < |init| {
      NoGap(init, last, key, k, b);
    }
    assert all[|init|..] == [last] && (a < b ==> all[a..] == init[a..b] + [last]);
  }

  lemma OtherStays(init: seq<Tick>, last: Tick, key: Tick -> int, k: int, a: nat, b: nat)
    requires StandTogether(init, key, k, a, b) && key(last) != k
    requires Group(init + [last], key, k) == Group(init, key, k) + []
    ensures StandTogether(init + [last], key, k, a, b)
  {
    hide Group;
    assert (init + [last])[a..b] == init[a..b];
  }

  lemma {:induction false} SpreadSumAddsUp(ticks: seq<Tick>) returns (sums: seq<real>)
    ensures IsRunningSpread(ticks, sums) && sums[|ticks|] == SpreadSum(ticks)
  {
    if ticks == [] {
      sums := [0.0];
    } else {
      var init := ticks[..|ticks| - 1];
      var before := SpreadSumAddsUp(init);
      sums := before + [SpreadSum(ticks)];
      hide SpreadSum;
      forall i | 0 <= i < |ticks| ensures sums[i + 1] - sums[i] == ticks[i].ask - ticks[i].bid {
        assert i < |init| ==> init[i] == ticks[i] && sums[i + 1] == before[i + 1];
      }
    }
  }

  /** The table of `generate_bars`: bid prices throughout. */
  ghost predicate IsBidTable(ticks: seq<Tick>, secs: Seconds, rows: seq<Row>) {
    IsTable(Quote((t: Tick) => t.bid, (t: Tick) => t.bid, (t: Tick) => t.bid), ticks, secs, rows)
  }

  /** The table of `aggregate_symbol_timeframe`: first and last price between bid and ask, highest ask, lowest bid. */
  ghost predicate IsMidTable(ticks: seq<Tick>, secs: Seconds, rows: seq<Row>) {
    IsTable(Quote((t: Tick) => (t.bid + t.ask) / 2.0, (t: Tick) => t.ask, (t: Tick) => t.bid), ticks, secs, rows)
  }

  /** Both as the result of the GROUP BY and bar by bar. */
  ghost predicate AreBidRows(ticks: seq<Tick>, secs: Seconds, rows: seq<Row>) {
    IsGroupBy(BID, ticks, ByBucket(secs), rows) && IsBidTable(ticks, secs, rows)
  }

  ghost predicate AreMidRows(ticks: seq<Tick>, secs: Seconds, rows: seq<Row>) {
    IsGroupBy(MID_ASK_BID, ticks, ByBucket(secs), rows) && IsMidTable(ticks, secs, rows)
  }

  lemma BuiltTables(ticks: seq<Tick>, secs: Seconds)
    requires Ascending(ticks)
    ensures AreBidRows(ticks, secs, Rows(BID, ticks, ByBucket(secs)))
    ensures AreMidRows(ticks, secs, Rows(MID_ASK_BID, ticks, ByBucket(secs)))
  {
    AscendingIsOrdered(ticks, secs);
    RowsAreGroupBy(BID, ticks, ByBucket(secs));
    RowsAreGroupBy(MID_ASK_BID, ticks, ByBucket(secs));
    hide Rows, IsTable, IsGroupBy, Ascending, Ordered;
    TableIs(BID, Quote((t: Tick) => t.bid, (t: Tick) => t.bid, (t: Tick) => t.bid), ticks, secs,
            Rows(BID, ticks, ByBucket(secs)));
    TableIs(MID_ASK_BID, Quote((t: Tick) => (t.bid + t.ask) / 2.0, (t: Tick) => t.ask, (t: Tick) => t.bid),
            ticks, secs, Rows(MID_ASK_BID, ticks, ByBucket(secs)));
  }

  ghost predicate SameQuotes(q: Quote, q': Quote) {
    forall t: Tick :: q.oc(t) == q'.oc(t) && q.hi(t) == q'.hi(t) && q.lo(t) == q'.lo(t)
  }

  lemma RowIs(q: Quote, q': Quote, ticks: seq<Tick>, secs: Seconds, r: Row)
    requires Ordered(ticks, ByBucket(secs)) && IsBarOf(q, Group(ticks, ByBucket(secs), r.ts), r) && SameQuotes(q, q')
    ensures IsRow(q', ticks, secs, r)
  {
    var a, b := GroupIsStretch(ticks, ByBucket(secs), r.ts);
    forall n | 0 <= n < |ticks| ensures a <= n < b <==> InBar(ticks[n], r.ts, secs) {
      BucketIs(ticks[n], secs, r.ts);
    }
    var sums := SpreadSumAddsUp(ticks[a..b]);
    hide Group, SpreadSum, BucketStart, InBar, IsRunningSpread;
    assert IsRowOf(q', ticks[a..b], r);
    assert IsStretch(ticks, a, b, r.ts, secs);
  }

  /** The group-by by bucket, for any way of writing down the prices. */
  lemma TableIs(q: Quote, q': Quote, ticks: seq<Tick>, secs: Seconds, rows: seq<Row>)
    requires Ascending(ticks) && IsGroupBy(q, ticks, ByBucket(secs), rows) && SameQuotes(q, q')
    ensures IsTable(q', ticks, secs, rows)
  {
    AscendingIsOrdered(ticks, secs);
    hide IsBarOf, Group, BucketStart, IsRow, InBar, SameQuotes, Ordered;
    forall i | 0 <= i < |rows| ensures IsRow(q', ticks, secs, rows[i]) {
      assert IsBarOf(q, Group(ticks, ByBucket(secs), rows[i].ts), rows[i]);
      RowIs(q, q', ticks, secs, rows[i]);
    }
    forall t | t in ticks ensures exists i :: 0 <= i < |rows| && InBar(t, rows[i].ts, secs) {
      var i :| 0 <= i < |rows| && rows[i].ts == ByBucket(secs)(t);
      BucketIs(t, secs, rows[i].ts);
    }
  }

  /** The tick falls into the part of its hour that starts at second `k`. */
  predicate InHourPart(t: Tick, k: int, minutes: Seconds) {
    && k / 3600 == t.time / 3_600_000 && k % 3600 % (minutes * 60) == 0
    && k * 1000 <= t.time < (k + minutes * 60) * 1000
  }

  /** First, highest, lowest and last midpoint of the ticks of that part, in the order of the list. */
  ghost predicate IsLiveBar(ticks: seq<Tick>, minutes: Seconds, k: int, b: Live) {
    && (exists f :: IsFirstIn(ticks, minutes, k, f) && b.open == (ticks[f].bid + ticks[f].ask) / 2.0)
    && (exists l :: IsLastIn(ticks, minutes, k, l) && b.close == (ticks[l].bid + ticks[l].ask) / 2.0)
    && (forall t :: t in ticks && InHourPart(t, k, minutes) ==> b.low <= (t.bid + t.ask) / 2.0 <= b.high)
    && (exists t :: t in ticks && InHourPart(t, k, minutes) && (t.bid + t.ask) / 2.0 == b.high)
    && (exists t :: t in ticks && InHourPart(t, k, minutes) && (t.bid + t.ask) / 2.0 == b.low)
  }

  predicate IsFirstIn(ticks: seq<Tick>, minutes: Seconds, k: int, f: int) {
    0 <= f < |ticks| && InHourPart(ticks[f], k, minutes) && forall n :: 0 <= n < f ==> !InHourPart(ticks[n], k, minutes)
  }

  predicate IsLastIn(ticks: seq<Tick>, minutes: Seconds, k: int, l: int) {
    && 0 <= l < |ticks| && InHourPart(ticks[l], k, minutes)
    && forall n :: l < n < |ticks| ==> !InHourPart(ticks[n], k, minutes)
  }

  /** One entry for each part of an hour that has a tick. */
  ghost predicate IsDictionary(ticks: seq<Tick>, minutes: Seconds, bars: map<int, Live>) {
    && (forall t :: t in ticks ==> exists k :: k in bars && InHourPart(t, k, minutes))
    && (forall k :: k in bars ==> IsLiveBar(ticks, minutes, k, bars[k]))
  }

  lemma MinuteBucketIs(t: Tick, minutes: Seconds, k: int)
    ensures MinuteBucket(t.time, minutes) == k <==> InHourPart(t, k, minutes)
  {
    hide *;
    BucketIsPart(t, minutes);
    if InHourPart(t, k, minutes) {
      PartIsBucket(t, minutes, k);
    }
  }

  lemma BucketIsPart(t: Tick, minutes: Seconds)
    ensures InHourPart(t, MinuteBucket(t.time, minutes), minutes)
  {
    var h, u := t.time / 3_600_000, t.time % 3_600_000 / 60000;
    MinuteOfHour(t.time);
    var g := u / minutes;
    var part := g * minutes;
    assert u == part + u % minutes;
    PartOfHour(g, minutes);
    assert 0 <= part by {
      if g < 0 { MulMonotone(g, -1, minutes); }
      MulMonotone(0, g, minutes);
    }
    assert MinuteBucket(t.time, minutes) == h * 3600 + part * 60;
    HourPart(t, h, u, part, minutes);
  }

  lemma HourPart(t: Tick, h: int, u: int, part: int, minutes: Seconds)
    requires h == t.time / 3_600_000 && u == t.time % 3_600_000 / 60000
    requires 0 <= part <= u < part + minutes && part * 60 % (minutes * 60) == 0
    ensures InHourPart(t, h * 3600 + part * 60, minutes)
  {
  }

  lemma PartIsBucket(t: Tick, minutes: Seconds, k: int)
    requires InHourPart(t, k, minutes)
    ensures MinuteBucket(t.time, minutes) == k
  {
    var u, j := t.time % 3_600_000 / 60000, k % 3600;
    MinuteOfHour(t.time);
    var i := j / (minutes * 60);
    assert j == i * (minutes * 60);
    PartOfHour(i, minutes);
    QuotientIs(u, minutes, i, u - i * minutes);
  }

  lemma MinuteOfHour(time: int)
    ensures time / 60000 % 60 == time % 3_600_000 / 60000
  {
    var h, r := time / 3_600_000, time % 3_600_000;
    QuotientIs(time, 60000, h * 60 + r / 60000, r % 60000);
  }

  lemma PartOfHour(g: int, minutes: Seconds)
    ensures g * (minutes * 60) == g * minutes * 60
    ensures g * minutes * 60 % (minutes * 60) == 0
  {
    Multiples(g, minutes * 60);
  }

  /** The ends of a group are its first and its last tick in the list. */
  lemma {:induction false} GroupEnds(ticks: seq<Tick>, key: Tick -> int, k: int) returns (f: nat, l: nat)
    requires Group(ticks, key, k) != []
    ensures f < |ticks| && l < |ticks| && key(ticks[f]) == k == key(ticks[l])
    ensures var g := Group(ticks, key, k); g[0] == ticks[f] && g[|g| - 1] == ticks[l]
    ensures forall n :: 0 <= n < f ==> key(ticks[n]) != k
    ensures forall n :: l < n < |ticks| ==> key(ticks[n]) != k
  {
    var n := |ticks| - 1;
    var init, last := ticks[..n], ticks[n];
    if key(last) == k {
      l := n;
      if Group(init, key, k) == [] {
        f := n;
        NoneInGroup(init, key, k);
      } else {
        var l' := 0;
        f, l' := GroupEnds(init, key, k);
      }
    } else {
      OtherGroup(ticks, key, k);
      f, l := GroupEnds(init, key, k);
    }
  }

  lemma {:induction false} NoneInGroup(ticks: seq<Tick>, key: Tick -> int, k: int)
    requires Group(ticks, key, k) == []
    ensures forall n :: 0 <= n < |ticks| ==> key(ticks[n]) != k
  {
    if ticks != [] {
      NoneInGroup(ticks[..|ticks| - 1], key, k);
    }
  }

  lemma {:induction false} GroupHas(ticks: seq<Tick>, key: Tick -> int, k: int, t: Tick)
    ensures t in Group(ticks, key, k) <==> t in ticks && key(t) == k
  {
    if ticks != [] {
      var init, last := ticks[..|ticks| - 1], ticks[|ticks| - 1];
      assert ticks == init + [last];
      GroupHas(init, key, k, t);
    }
  }

  /** Key `k` stands for that part of the hour. */
  ghost predicate KeyIsPart(key: Tick -> int, k: int, minutes: Seconds) {
    forall t: Tick :: key(t) == k <==> InHourPart(t, k, minutes)
  }

  lemma MinuteKeyIsPart(k: int, minutes: Seconds)
    ensures KeyIsPart(ByMinutes(minutes), k, minutes)
  {
    hide MinuteBucket, InHourPart;
    forall t: Tick ensures ByMinutes(minutes)(t) == k <==> InHourPart(t, k, minutes) {
      MinuteBucketIs(t, minutes, k);
    }
  }

  /** The dictionary, in terms of ticks, hours and prices alone. */
  lemma LiveIsDictionary(ticks: seq<Tick>, minutes: Seconds, bars: map<int, Live>)
    requires IsLiveOf(ticks, ByMinutes(minutes), bars)
    ensures IsDictionary(ticks, minutes, bars)
  {
    hide InHourPart, Group, IsOhlc, ByMinutes, IsLiveBar;
    forall t | t in ticks ensures exists k :: k in bars && InHourPart(t, k, minutes) {
      MinuteKeyIsPart(ByMinutes(minutes)(t), minutes);
    }
    forall k | k in bars ensures IsLiveBar(ticks, minutes, k, bars[k]) {
      MinuteKeyIsPart(k, minutes);
      LiveBarIs(ticks, ByMinutes(minutes), minutes, k, bars[k]);
    }
  }

  lemma LiveBarIs(ticks: seq<Tick>, key: Tick -> int, minutes: Seconds, k: int, b: Live)
    requires KeyIsPart(key, k, minutes)
    requires IsOhlc(MID, Group(ticks, key, k), b.open, b.high, b.low, b.close)
    ensures IsLiveBar(ticks, minutes, k, b)
  {
    assert Group(ticks, key, k) != [];
    hide *;
    var f, l := EndsOfPart(ticks, key, minutes, k);
    MembersOfPart(ticks, key, minutes, k);
    LiveBarFrom(Group(ticks, key, k), ticks, minutes, k, b, f, l);
  }

  lemma EndsOfPart(ticks: seq<Tick>, key: Tick -> int, minutes: Seconds, k: int) returns (f: nat, l: nat)
    requires KeyIsPart(key, k, minutes) && Group(ticks, key, k) != []
    ensures IsFirstIn(ticks, minutes, k, f) && IsLastIn(ticks, minutes, k, l) && f < |ticks| && l < |ticks|
    ensures var g := Group(ticks, key, k); g[0] == ticks[f] && g[|g| - 1] == ticks[l]
  {
    f, l := GroupEnds(ticks, key, k);
    hide InHourPart, Group;
  }

  lemma MembersOfPart(ticks: seq<Tick>, key: Tick -> int, minutes: Seconds, k: int)
    requires KeyIsPart(key, k, minutes)
    ensures forall t :: t in Group(ticks, key, k) <==> t in ticks && InHourPart(t, k, minutes)
  {
    hide InHourPart, Group;
    forall t ensures t in Group(ticks, key, k) <==> t in ticks && InHourPart(t, k, minutes) {
      GroupHas(ticks, key, k, t);
    }
  }

  lemma LiveBarFrom(g: seq<Tick>, ticks: seq<Tick>, minutes: Seconds, k: int, b: Live, f: nat, l: nat)
    requires IsOhlc(MID, g, b.open, b.high, b.low, b.close)
    requires forall t :: t in g <==> t in ticks && InHourPart(t, k, minutes)
    requires f < |ticks| && l < |ticks| && g != [] && g[0] == ticks[f] && g[|g| - 1] == ticks[l]
    requires IsFirstIn(ticks, minutes, k, f) && IsLastIn(ticks, minutes, k, l)
    ensures IsLiveBar(ticks, minutes, k, b)
  {
    hide InHourPart, IsFirstIn, IsLastIn;
  }

  // ----- the bars table ---------------------------------------------------------------------------

  predicate OccursAt(text: string, part: string, i: int) {
    0 <= i <= |text| - |part| && text[i..i + |part|] == part
  }

  predicate Contains(text: string, part: string) {
    exists i :: 0 <= i <= |text| - |part| && OccursAt(text, part, i)
  }

  function PipSize(symbol: string): (pip: real)
    ensures pip > 0.0
  {
    if Contains(symbol, "XAU") || Contains(symbol, "XAG") || Contains(symbol, "JPY") then 0.01 else 0.0001
  }

  /** A pip is a hundredth for the symbols that name gold, silver or the yen anywhere, a ten-thousandth for all
      others. */
  lemma PipSizeExactlyWhen(symbol: string)
    ensures PipSize(symbol) == 0.01 <==>
              exists a, b :: symbol == a + "XAU" + b || symbol == a + "XAG" + b || symbol == a + "JPY" + b
    ensures PipSize(symbol) == 0.01 || PipSize(symbol) == 0.0001
  {
    ContainsExactlyWhen(symbol, "XAU");
    ContainsExactlyWhen(symbol, "XAG");
    ContainsExactlyWhen(symbol, "JPY");
    hide Contains;
    assert forall part :: IsAround(symbol, part) ==> exists a, b :: symbol == a + part + b;
  }

  ghost predicate IsAround(symbol: string, part: string) {
    exists a, b :: symbol == a + part + b
  }

  lemma ContainsExactlyWhen(symbol: string, part: string)
    ensures Contains(symbol, part) <==> IsAround(symbol, part)
  {
    if i :| 0 <= i <= |symbol| - |part| && OccursAt(symbol, part, i) {
      assert symbol == symbol[..i] + part + symbol[i + |part|..];
    }
    if a, b :| symbol == a + part + b {
      assert OccursAt(symbol, part, |a|) by {
        assert symbol[|a|..|a| + |part|] == part;
      }
    }
  }

  function PipSum(ticks: seq<Tick>, pip: real): real
    requires pip > 0.0
  {
    if ticks == [] then 0.0
    else PipSum(ticks[..|ticks| - 1], pip) + (ticks[|ticks| - 1].ask - ticks[|ticks| - 1].bid) / pip
  }

  /** The column spread_pips of a row: from the summed spread in price units to the average in pips. */
  function SpreadPips(r: Row, pip: real): real
    requires pip > 0.0 && r.volume > 0
  {
    r.spreadTotal / (r.volume as real) / pip
  }

  lemma {:induction false} PipsAddUp(ticks: seq<Tick>, pip: real)
    requires pip > 0.0
    ensures PipSum(ticks, pip) == SpreadSum(ticks) / pip
  {
    if ticks != [] {
      var t := ticks[|ticks| - 1];
      PipsAddUp(ticks[..|ticks| - 1], pip);
      Quotients(SpreadSum(ticks[..|ticks| - 1]), t.ask - t.bid, pip);
    }
  }

  lemma Quotients(a: real, b: real, c: real)
    requires c > 0.0
    ensures (a + b) / c == a / c + b / c
  {
    assert (a / c + b / c) * c == a + b;
  }

  /** It is AVG((ask - bid) / pip) over the row's own ticks. */
  lemma SpreadPipsIsAverage(q: Quote, group: seq<Tick>, r: Row, pip: real)
    requires IsBarOf(q, group, r) && pip > 0.0
    ensures r.volume > 0 && SpreadPips(r, pip) == PipSum(group, pip) / (|group| as real)
  {
    PipsAddUp(group, pip);
    assert |group| > 0;
    hide *;
    SwapDivisions(SpreadSum(group), r.volume as real, pip);
    SpreadPipsIs(r, pip);
  }

  lemma SpreadPipsIs(r: Row, pip: real)
    requires pip > 0.0 && r.volume > 0
    ensures SpreadPips(r, pip) == r.spreadTotal / (r.volume as real) / pip
  {
  }

  lemma SwapDivisions(x: real, a: real, b: real)
    requires a > 0.0 && b > 0.0
    ensures x / a / b == x / b / a
  {
    SameProduct(x, a, b, x / a, x / b, x / a / b, x / b / a);
  }

  lemma SameProduct(x: real, a: real, b: real, xa: real, xb: real, xab: real, xba: real)
    requires a > 0.0 && b > 0.0
    requires xa * a == x && xb * b == x && xab * b == xa && xba * a == xb
    ensures xab == xba
  {
    assert xab * b * a == x && xba * a * b == x;
    assert (xab - xba) * (a * b) == 0.0;
  }

  /** The two scripts fill the same column with different units: the price average of `generate_bars` and the pips
      of `aggregate_symbol_timeframe` agree on a row only when its spread is zero. */
  lemma SpreadColumnsAgreeExactlyWhenZero(r: Row, symbol: string)
    requires r.volume > 0
    ensures r.spreadTotal / (r.volume as real) == SpreadPips(r, PipSize(symbol)) <==> r.spreadTotal == 0.0
  {
    var x, n, pip := r.spreadTotal / (r.volume as real), r.volume as real, PipSize(symbol);
    assert pip == 0.01 || pip == 0.0001;
    hide Contains;
    assert x * n == r.spreadTotal;
    assert x / pip * pip == x;
    if x == x / pip {
      assert x * (1.0 - pip) == 0.0;
    }
  }

  /** The ticks of each symbol in order of time (times are unique there), and the rows of each
      (symbol, timeframe) slice of `bars`; a slice that is absent is empty. */
  class BarStore {
    var ticks: map<string, seq<Tick>>
    var bars: map<(string, string), seq<Row>>

    constructor (ticks: map<string, seq<Tick>>)
      requires forall s :: s in ticks ==> Ascending(ticks[s])
      ensures Valid() && this.ticks == ticks && bars == map[]
    {
      this.ticks, bars := ticks, map[];
    }

    /** (timestamp_ms, symbol) is unique, and the queries read a symbol's ticks in order of time. */
    ghost predicate Valid()
      reads this`ticks
    {
      forall s :: s in ticks ==> Ascending(ticks[s])
    }

    function Ticks(symbol: string): seq<Tick>
      reads this`ticks
    {
      if symbol in ticks then ticks[symbol] else []
    }

    function Slice(symbol: string, tf: string): seq<Row>
      reads this`bars
    {
      if (symbol, tf) in bars then bars[(symbol, tf)] else []
    }

    /** What one aggregation over a valid tick table makes of a symbol: the rows of the group-by. */
    lemma BuiltIsGroupBy(q: Quote, symbol: string, secs: Seconds)
      requires Valid()
      ensures IsGroupBy(q, Ticks(symbol), ByBucket(secs), Rows(q, Ticks(symbol), ByBucket(secs)))
      ensures Ticks(symbol) == [] ==> Rows(q, Ticks(symbol), ByBucket(secs)) == []
      ensures AreBidRows(Ticks(symbol), secs, Rows(BID, Ticks(symbol), ByBucket(secs)))
      ensures AreMidRows(Ticks(symbol), secs, Rows(MID_ASK_BID, Ticks(symbol), ByBucket(secs)))
    {
      BuiltTables(Ticks(symbol), secs);
      hide AreBidRows, AreMidRows;
      AscendingIsOrdered(Ticks(symbol), secs);
      RowsAreGroupBy(q, Ticks(symbol), ByBucket(secs));
      hide IsGroupBy, Ordered;
    }

    /** The slice becomes `rows`, whether by a delete or by an insert. */
    method SetSlice(symbol: string, tf: string, rows: seq<Row>)
      modifies this`bars
      ensures Slice(symbol, tf) == rows
      ensures forall s, f :: (s, f) != (symbol, tf) ==> Slice(s, f) == old(Slice(s, f))
    {
      bars := bars[(symbol, tf) := rows];
    }

    /** One pass of `generate_bars`: skip without ticks, otherwise rebuild or append to the slice. */
    method GenerateBars(symbol: string, tf: string, secs: Seconds, replace: bool)
      requires Valid()
      modifies this`bars
      ensures Valid()
      ensures Ticks(symbol) == [] ==> Slice(symbol, tf) == old(Slice(symbol, tf))
      ensures Ticks(symbol) != [] ==>
                var kept, now := if replace then [] else old(Slice(symbol, tf)), Slice(symbol, tf);
                && |now| >= |kept| && now[..|kept|] == kept
                && AreBidRows(Ticks(symbol), secs, now[|kept|..])
      ensures forall s, f :: (s, f) != (symbol, tf) ==> Slice(s, f) == old(Slice(s, f))
    {
      var table := Ticks(symbol);
      BuiltIsGroupBy(BID, symbol, secs);
      hide *;
      if |table| == 0 {
        return;
      }
      if replace {
        SetSlice(symbol, tf, []);
      }
      var kept, built := Slice(symbol, tf), Rows(BID, table, ByBucket(secs));
      assert (kept + built)[..|kept|] == kept && (kept + built)[|kept|..] == built;
      SetSlice(symbol, tf, kept + built);
    }

    /** `aggregate_symbol_timeframe`: existing bars are permanent unless `force`, which deletes them first, even
        when there are no ticks to rebuild from. */
    method AggregateSymbolTimeframe(symbol: string, tf: string, secs: Seconds, force: bool) returns (count: nat)
      requires Valid()
      modifies this`bars
      ensures Valid()
      ensures if old(Slice(symbol, tf)) != [] && !force then Slice(symbol, tf) == old(Slice(symbol, tf))
              else AreMidRows(Ticks(symbol), secs, Slice(symbol, tf))
      ensures count == |Slice(symbol, tf)|
      ensures forall s, f :: (s, f) != (symbol, tf) ==> Slice(s, f) == old(Slice(s, f))
    {
      BuiltIsGroupBy(MID_ASK_BID, symbol, secs);
      hide *;
      var existing := |Slice(symbol, tf)|;
      if existing > 0 && !force {
        return existing;
      }
      if existing > 0 && force {
        SetSlice(symbol, tf, []);
      }
      var table := Ticks(symbol);
      if |table| == 0 {
        return 0;
      }
      var kept, built := Slice(symbol, tf), Rows(MID_ASK_BID, table, ByBucket(secs));
      assert kept == [] && kept + built == built;
      SetSlice(symbol, tf, kept + built);
      count := |built|;
    }
  }
}
