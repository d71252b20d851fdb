/** Day grouping, global bar indices and trade simulation of scripts/backtest_q2_lod_hod_stop_rate.py. */
module LevelStudy {
  import opened Wrappers
  import opened Sorting

  /** `day` is the calendar date, as a number that orders like the date string. */
  datatype Bar = Bar(day: int, high: real, low: real, close: real)

  datatype Level = Level(day: int, lod: real, lodIdx: nat, hod: real, hodIdx: nat, bars: seq<Bar>)

  const DAY_ORDER: int -> int := (d: int) => d

  // ----- days ------------------------------------------------------------------------------------

  function DayBars(bars: seq<Bar>, d: int): seq<Bar> {
    if bars == [] then []
    else
      var before, b := DayBars(bars[..|bars| - 1], d), bars[|bars| - 1];
      if b.day == d then before + [b] else before
  }

  /** The days in order of first appearance, as the dictionary keeps them. */
  function DayOrder(bars: seq<Bar>): seq<int> {
    if bars == [] then []
    else
      var before, b := DayOrder(bars[..|bars| - 1]), bars[|bars| - 1];
      if b.day in before then before else before + [b.day]
  }

  function Days(bars: seq<Bar>): seq<int> {
    SortBy(DayOrder(bars), DAY_ORDER)
  }

  ghost predicate LowestAt(bars: seq<Bar>, x: real, i: nat) {
    && i < |bars| && bars[i].low == x
    && (forall j :: 0 <= j < |bars| ==> x <= bars[j].low)
    && (forall j :: 0 <= j < i ==> bars[j].low != x)
  }

  ghost predicate HighestAt(bars: seq<Bar>, x: real, i: nat) {
    && i < |bars| && bars[i].high == x
    && (forall j :: 0 <= j < |bars| ==> bars[j].high <= x)
    && (forall j :: 0 <= j < i ==> bars[j].high != x)
  }

  ghost predicate LevelOf(bars: seq<Bar>, d: int, l: Level) {
    && l.day == d && l.bars == DayBars(bars, d) && l.bars != []
    && LowestAt(l.bars, l.lod, l.lodIdx) && HighestAt(l.bars, l.hod, l.hodIdx)
  }

  ghost predicate GroupedByDay(bars: seq<Bar>, levels: seq<Level>) {
    && |levels| == |Days(bars)|
    && (forall i :: 0 <= i < |levels| ==> LevelOf(bars, Days(bars)[i], levels[i]))
  }

  lemma {:induction false} DayOrderCorrect(bars: seq<Bar>)
    ensures Distinct(DayOrder(bars))
    ensures forall d :: d in DayOrder(bars) <==> DayBars(bars, d) != []
    ensures forall b :: b in bars ==> b.day in DayOrder(bars)
  {
    if bars != [] {
      var init, b := bars[..|bars| - 1], bars[|bars| - 1];
      DayOrderCorrect(init);
      assert bars == init + [b];
    }
  }

  /** The sorted days are strictly ascending and are the days that have bars. */
  lemma DaysCorrect(bars: seq<Bar>)
    ensures forall i, j :: 0 <= i < j < |Days(bars)| ==> Days(bars)[i] < Days(bars)[j]
    ensures forall d :: d in Days(bars) <==> DayBars(bars, d) != []
    ensures forall b :: b in bars ==> b.day in Days(bars)
  {
    hide *;
    DayOrderCorrect(bars);
    var order := DayOrder(bars);
    SortByCorrect(order, DAY_ORDER);
    SortByDistinct(order, DAY_ORDER);
    DaysAre(bars);
    SortedDistinctIsStrict(Days(bars));
  }

  lemma DaysAre(bars: seq<Bar>)
    ensures Days(bars) == SortBy(DayOrder(bars), DAY_ORDER)
  {
  }

  lemma SortedDistinctIsStrict(days: seq<int>)
    requires SortedBy(days, DAY_ORDER) && Distinct(days)
    ensures forall i, j :: 0 <= i < j < |days| ==> days[i] < days[j]
  {
    forall i, j | 0 <= i < j < |days| ensures days[i] < days[j] {
      assert DAY_ORDER(days[i]) <= DAY_ORDER(days[j]);
    }
  }

  method Extremes(bars: seq<Bar>) returns (lod: real, lodIdx: nat, hod: real, hodIdx: nat)
    requires bars != []
    ensures LowestAt(bars, lod, lodIdx) && HighestAt(bars, hod, hodIdx)
  {
    lod, lodIdx, hod, hodIdx := bars[0].low, 0, bars[0].high, 0;
    for i := 1 to |bars|
      invariant LowestAt(bars[..i], lod, lodIdx) && HighestAt(bars[..i], hod, hodIdx)
    {
      if bars[i].low < lod {
        lod, lodIdx := bars[i].low, i;
      }
      if bars[i].high > hod {
        hod, hodIdx := bars[i].high, i;
      }
    }
    assert bars[..|bars|] == bars;
  }

  method CollectDays(bars: seq<Bar>) returns (order: seq<int>, days: map<int, seq<Bar>>)
    ensures order == DayOrder(bars)
    ensures forall d :: d in order <==> d in days
    ensures forall d :: d in days ==> days[d] == DayBars(bars, d)
  {
    order, days := [], map[];
    for i := 0 to |bars|
      invariant order == DayOrder(bars[..i])
      invariant forall d :: d in order <==> d in days
      invariant forall d :: d in days ==> days[d] == DayBars(bars[..i], d)
    {
      assert bars[..i + 1][..i] == bars[..i];
      var d := bars[i].day;
      if d !in days {
        DayOrderCorrect(bars[..i]);
        order, days := order + [d], days[d := []];
      }
      days := days[d := days[d] + [bars[i]]];
    }
    assert bars[..|bars|] == bars;
  }

  method GroupByDay(bars: seq<Bar>) returns (levels: seq<Level>)
    ensures GroupedByDay(bars, levels)
  {
    var order, groups := CollectDays(bars);
    var days := SortBy(order, DAY_ORDER);
    hide *;
    DaysAre(bars);
    DaysCorrect(bars);
    SortByCorrect(order, DAY_ORDER);
    levels := [];
    for i := 0 to |days|
      invariant |levels| == i
      invariant forall k :: 0 <= k < i ==> LevelOf(bars, days[k], levels[k])
    {
      assert days[i] in order;
      var mine := groups[days[i]];
      var lod, lodIdx, hod, hodIdx := Extremes(mine);
      var level := Level(days[i], lod, lodIdx, hod, hodIdx, mine);
      LevelIs(bars, days[i], level);
      levels := levels + [level];
    }
    AreGrouped(bars, levels);
  }

  lemma LevelIs(bars: seq<Bar>, d: int, l: Level)
    requires l.day == d && l.bars == DayBars(bars, d) && l.bars != []
    requires LowestAt(l.bars, l.lod, l.lodIdx) && HighestAt(l.bars, l.hod, l.hodIdx)
    ensures LevelOf(bars, d, l)
  {
  }

  lemma AreGrouped(bars: seq<Bar>, levels: seq<Level>)
    requires |levels| == |Days(bars)| && forall i :: 0 <= i < |levels| ==> LevelOf(bars, Days(bars)[i], levels[i])
    ensures GroupedByDay(bars, levels)
  {
  }

  // ----- global indices --------------------------------------------------------------------------

  /** The bars of the first `n` days, one day after the other. */
  function Concat(bars: seq<Bar>, days: seq<int>): seq<Bar> {
    if days == [] then []
    else Concat(bars, days[..|days| - 1]) + DayBars(bars, days[|days| - 1])
  }

  /** How many bars the first `i` days have: the running offset of analyze. */
  function Offset(levels: seq<Level>, i: nat): nat
    requires i <= |levels|
  {
    if i == 0 then 0 else Offset(levels, i - 1) + |levels[i - 1].bars|
  }

  ghost predicate DatesAscend(bars: seq<Bar>) {
    forall i, j :: 0 <= i < j < |bars| ==> bars[i].day <= bars[j].day
  }

  /** `bars[entry_idx + k]` is the day's k-th bar, for every day and every k. */
  ghost predicate IndicesAgree(bars: seq<Bar>, levels: seq<Level>) {
    forall i, k :: 0 <= i < |levels| && 0 <= k < |levels[i].bars| ==> AgreesAt(bars, levels, i, k)
  }

  ghost predicate AgreesAt(bars: seq<Bar>, levels: seq<Level>, i: nat, k: nat)
    requires i < |levels| && k < |levels[i].bars|
  {
    var index := Offset(levels, i) + k;
    index < |bars| && bars[index] == levels[i].bars[k]
  }

  lemma {:induction false} DayBarsHave(bars: seq<Bar>, d: int)
    ensures forall b :: b in DayBars(bars, d) <==> b in bars && b.day == d
  {
    if bars != [] {
      DayBarsHave(bars[..|bars| - 1], d);
      assert bars == bars[..|bars| - 1] + [bars[|bars| - 1]];
    }
  }

  ghost predicate StrictDays(days: seq<int>) {
    forall i, j :: 0 <= i < j < |days| ==> days[i] < days[j]
  }

  /** Concatenated day groups are in date order, whatever the input. */
  lemma {:induction false} ConcatAscends(bars: seq<Bar>, days: seq<int>)
    requires StrictDays(days)
    ensures DatesAscend(Concat(bars, days))
    ensures forall b :: b in Concat(bars, days) ==> b.day in days
  {
    if days != [] {
      var init, d := days[..|days| - 1], days[|days| - 1];
      ConcatAscends(bars, init);
      DayBarsHave(bars, d);
      hide DayBars;
      assert days == init + [d];
      JoinAscends(Concat(bars, init), DayBars(bars, d), d);
    }
  }

  lemma JoinAscends(xs: seq<Bar>, ys: seq<Bar>, d: int)
    requires DatesAscend(xs) && (forall b :: b in xs ==> b.day <= d) && forall b :: b in ys ==> b.day == d
    ensures DatesAscend(xs + ys)
  {
  }

  lemma DayBarsMore(bars: seq<Bar>, b: Bar, d: int)
    ensures b.day == d ==> DayBars(bars + [b], d) == DayBars(bars, d) + [b]
    ensures b.day != d ==> DayBars(bars + [b], d) == DayBars(bars, d)
  {
    assert (bars + [b])[..|bars|] == bars;
  }

  lemma {:induction false} NoBarsOf(bars: seq<Bar>, d: int)
    requires forall b :: b in bars ==> b.day != d
    ensures DayBars(bars, d) == []
  {
    if bars != [] {
      NoBarsOf(bars[..|bars| - 1], d);
    }
  }

  /** A bar no earlier than the others goes to the end of the concatenation, if its day is one of the days. */
  lemma {:induction false} ConcatOneMore(bars: seq<Bar>, b: Bar, days: seq<int>)
    requires StrictDays(days) && forall x :: x in bars ==> x.day <= b.day
    ensures b.day in days ==> Concat(bars + [b], days) == Concat(bars, days) + [b]
    ensures b.day !in days ==> Concat(bars + [b], days) == Concat(bars, days)
  {
    if days != [] {
      var init, d := days[..|days| - 1], days[|days| - 1];
      assert days == init + [d];
      ConcatOneMore(bars, b, init);
      DayBarsMore(bars, b, d);
      assert b.day in init ==> b.day < d;
      if d > b.day {
        NoBarsOf(bars, d);
      }
      hide DayBars;
    }
  }

  lemma {:induction false} ConcatNothing(days: seq<int>)
    ensures Concat([], days) == []
  {
    if days != [] {
      ConcatNothing(days[..|days| - 1]);
    }
  }

  /** In date order, the concatenation over ascending days that cover all bars is the bar list. */
  lemma {:induction false} ConcatOfAscending(bars: seq<Bar>, days: seq<int>)
    requires DatesAscend(bars) && StrictDays(days) && forall b :: b in bars ==> b.day in days
    ensures Concat(bars, days) == bars
  {
    if bars == [] {
      ConcatNothing(days);
    } else {
      hide Concat;
      var init, b := bars[..|bars| - 1], bars[|bars| - 1];
      assert bars == init + [b];
      ConcatOfAscending(init, days);
      ConcatOneMore(init, b, days);
    }
  }

  /** One more bar makes the concatenation one longer, in any order. */
  lemma {:induction false} ConcatCountMore(bars: seq<Bar>, b: Bar, days: seq<int>)
    requires StrictDays(days)
    ensures |Concat(bars + [b], days)| == |Concat(bars, days)| + (if b.day in days then 1 else 0)
  {
    if days != [] {
      var init, d := days[..|days| - 1], days[|days| - 1];
      assert days == init + [d];
      ConcatCountMore(bars, b, init);
      DayBarsMore(bars, b, d);
      assert b.day in init ==> b.day < d;
      hide DayBars;
    }
  }

  lemma {:induction false} ConcatCounts(bars: seq<Bar>, days: seq<int>)
    requires StrictDays(days) && forall b :: b in bars ==> b.day in days
    ensures |Concat(bars, days)| == |bars|
  {
    if bars == [] {
      ConcatNothing(days);
    } else {
      var init, b := bars[..|bars| - 1], bars[|bars| - 1];
      assert bars == init + [b];
      ConcatCounts(init, days);
      ConcatCountMore(init, b, days);
      hide Concat;
    }
  }

  lemma ConcatMore(bars: seq<Bar>, days: seq<int>, d: int)
    ensures Concat(bars, days + [d]) == Concat(bars, days) + DayBars(bars, d)
  {
    assert (days + [d])[..|days|] == days;
  }

  /** The bars of the first `n` days are at their offsets in the concatenation. */
  ghost predicate AllAt(bars: seq<Bar>, levels: seq<Level>, n: nat)
    requires |levels| == |Days(bars)| && n <= |levels|
  {
    forall i, k :: 0 <= i < n && 0 <= k < |levels[i].bars| ==> ConcatAt(bars, levels, n, i, k)
  }

  /** The k-th bar of day i is at its offset in the concatenation. */
  lemma {:induction false} ConcatOffsets(bars: seq<Bar>, levels: seq<Level>, n: nat)
    requires GroupedByDay(bars, levels) && n <= |levels|
    ensures |levels| == |Days(bars)| && |Concat(bars, Days(bars)[..n])| == Offset(levels, n)
    ensures AllAt(bars, levels, n)
  {
    hide *;
    DayCount(bars, levels);
    if n > 0 {
      ConcatOffsets(bars, levels, n - 1);
      ConcatStep(bars, levels, n - 1);
      ConcatAtMore(bars, levels, n - 1);
    } else {
      NoDays(bars, levels);
    }
  }

  lemma DayCount(bars: seq<Bar>, levels: seq<Level>)
    requires GroupedByDay(bars, levels)
    ensures |levels| == |Days(bars)|
  {
  }

  lemma NoDays(bars: seq<Bar>, levels: seq<Level>)
    requires |levels| == |Days(bars)|
    ensures Concat(bars, Days(bars)[..0]) == [] && Offset(levels, 0) == 0 && AllAt(bars, levels, 0)
  {
    hide Days;
    assert Days(bars)[..0] == [];
    ConcatEmpty(bars);
    hide Concat;
  }

  /** One more day: its bars go to the end, and the offset grows by their number. */
  lemma ConcatStep(bars: seq<Bar>, levels: seq<Level>, n: nat)
    requires GroupedByDay(bars, levels) && n < |levels|
    ensures |levels| == |Days(bars)| && levels[n].bars != []
    ensures Concat(bars, Days(bars)[..n + 1]) == Concat(bars, Days(bars)[..n]) + levels[n].bars
    ensures Offset(levels, n + 1) == Offset(levels, n) + |levels[n].bars|
  {
    var days := Days(bars);
    hide Days, DayBars, Concat;
    assert days[..n + 1] == days[..n] + [days[n]];
    ConcatMore(bars, days[..n], days[n]);
    assert LevelOf(bars, days[n], levels[n]);
  }

  lemma ConcatAtMore(bars: seq<Bar>, levels: seq<Level>, n: nat)
    requires |levels| == |Days(bars)| && n < |levels|
    requires Concat(bars, Days(bars)[..n + 1]) == Concat(bars, Days(bars)[..n]) + levels[n].bars
    requires |Concat(bars, Days(bars)[..n])| == Offset(levels, n)
    requires AllAt(bars, levels, n)
    ensures AllAt(bars, levels, n + 1)
  {
    hide Days, Concat, Offset;
    var m := n + 1;
    forall i, k | 0 <= i < m && 0 <= k < |levels[i].bars| ensures ConcatAt(bars, levels, m, i, k) {
      if i < n {
        assert ConcatAt(bars, levels, n, i, k);
      }
    }
  }

  lemma ConcatEmpty(bars: seq<Bar>)
    ensures Concat(bars, []) == []
  {
  }

  ghost predicate ConcatAt(bars: seq<Bar>, levels: seq<Level>, n: nat, i: nat, k: nat)
    requires |levels| == |Days(bars)| && i < n <= |levels| && k < |levels[i].bars|
  {
    var all := Concat(bars, Days(bars)[..n]);
    Offset(levels, i) + k < |all| && all[Offset(levels, i) + k] == levels[i].bars[k]
  }

  lemma DayMatches(bars: seq<Bar>, levels: seq<Level>, i: nat)
    requires IndicesAgree(bars, levels) && i < |levels| && levels[i].bars != []
    ensures Offset(levels, i + 1) <= |bars|
    ensures bars[Offset(levels, i)..Offset(levels, i + 1)] == levels[i].bars
  {
    var mine, start := levels[i].bars, Offset(levels, i);
    assert AgreesAt(bars, levels, i, |mine| - 1);
    forall k | 0 <= k < |mine| ensures bars[start + k] == mine[k] {
      assert AgreesAt(bars, levels, i, k);
    }
  }

  lemma {:induction false} AgreementIsPrefix(bars: seq<Bar>, levels: seq<Level>, n: nat)
    requires GroupedByDay(bars, levels) && IndicesAgree(bars, levels) && n <= |levels|
    ensures Offset(levels, n) <= |bars| && Concat(bars, Days(bars)[..n]) == bars[..Offset(levels, n)]
  {
    hide *;
    DayCount(bars, levels);
    if n > 0 {
      AgreementIsPrefix(bars, levels, n - 1);
      ConcatStep(bars, levels, n - 1);
      DayMatches(bars, levels, n - 1);
      JoinSlices(bars, Offset(levels, n - 1), Offset(levels, n));
    } else {
      NoDays(bars, levels);
      assert bars[..0] == [];
    }
  }

  lemma JoinSlices(bars: seq<Bar>, i: nat, j: nat)
    requires i <= j <= |bars|
    ensures bars[..i] + bars[i..j] == bars[..j]
  {
  }

  /** The whole concatenation, with as many bars as the list. */
  lemma WholeConcat(bars: seq<Bar>, levels: seq<Level>)
    requires GroupedByDay(bars, levels)
    ensures StrictDays(Days(bars)) && Days(bars)[..|levels|] == Days(bars)
    ensures |Concat(bars, Days(bars))| == |bars| == Offset(levels, |levels|)
  {
    hide Days, Concat, LevelOf, DayBars;
    DaysCorrect(bars);
    assert StrictDays(Days(bars));
    ConcatCounts(bars, Days(bars));
    ConcatOffsets(bars, levels, |levels|);
    assert Days(bars)[..|levels|] == Days(bars);
  }

  /** Every entry index is a bar of the list, in any order of the bars. */
  lemma IndexInRange(bars: seq<Bar>, levels: seq<Level>, i: nat, k: nat)
    requires GroupedByDay(bars, levels) && i < |levels| && k < |levels[i].bars|
    ensures Offset(levels, i) + k < |bars|
  {
    hide Days, Concat, LevelOf;
    WholeConcat(bars, levels);
    ConcatOffsets(bars, levels, |levels|);
    assert ConcatAt(bars, levels, |levels|, i, k);
  }

  lemma AscendingAgree(bars: seq<Bar>, levels: seq<Level>)
    requires GroupedByDay(bars, levels) && DatesAscend(bars)
    ensures IndicesAgree(bars, levels)
  {
    hide Days, Concat, DatesAscend, LevelOf;
    WholeConcat(bars, levels);
    DaysCorrect(bars);
    ConcatOfAscending(bars, Days(bars));
    ConcatOffsets(bars, levels, |levels|);
    forall i, k | 0 <= i < |levels| && 0 <= k < |levels[i].bars| ensures AgreesAt(bars, levels, i, k) {
      assert ConcatAt(bars, levels, |levels|, i, k);
    }
  }

  lemma AgreeingAscend(bars: seq<Bar>, levels: seq<Level>)
    requires GroupedByDay(bars, levels) && IndicesAgree(bars, levels)
    ensures DatesAscend(bars)
  {
    hide *;
    WholeConcat(bars, levels);
    DayCount(bars, levels);
    AgreementIsPrefix(bars, levels, |levels|);
    ConcatAscends(bars, Days(bars));
    assert bars[..|bars|] == bars;
  }

  /** The global index finds the day's own bar, for every day and every bar of it, exactly when the dates of the bar
      list never go back. */
  lemma IndicesAgreeExactlyWhenDatesAscend(bars: seq<Bar>, levels: seq<Level>)
    requires GroupedByDay(bars, levels)
    ensures IndicesAgree(bars, levels) <==> DatesAscend(bars)
  {
    hide *;
    if DatesAscend(bars) {
      AscendingAgree(bars, levels);
    }
    if IndicesAgree(bars, levels) {
      AgreeingAscend(bars, levels);
    }
  }

  // ----- one trade -------------------------------------------------------------------------------

  const PIP := 0.0001
  const MAX_HOLD: nat := 48

  datatype Exit = StopLoss | TakeProfit | Open

  datatype Hit = Exact | Spike | NoHit

  datatype Result = Result(exit: Exit, price: real, index: int, slippage: real, hit: Hit)

  function Penetration(b: Bar, long: bool, stop: real): real {
    if long then stop - b.low else b.high - stop
  }

  predicate Stopped(b: Bar, long: bool, stop: real) {
    Penetration(b, long, stop) >= 0.0
  }

  predicate Filled(b: Bar, long: bool, tp: real) {
    if long then b.high >= tp else b.low <= tp
  }

  function Target(entry: real, long: bool, risk: real, rr: real): real {
    if long then entry + risk * PIP * rr else entry - risk * PIP * rr
  }

  function HoldEnd(bars: seq<Bar>, entry: nat): nat {
    if entry + MAX_HOLD < |bars| then entry + MAX_HOLD else |bars|
  }

  /** No bar after the entry and before `i` touches the stop or the target. */
  ghost predicate Quiet(bars: seq<Bar>, entry: nat, long: bool, stop: real, tp: real, i: int)
    requires i <= |bars|
  {
    forall j :: entry < j < i ==> !Stopped(bars[j], long, stop) && !Filled(bars[j], long, tp)
  }

  /** The trade ends on the first later bar of the holding window that touches a level, at the stop when that bar
      touches both; untouched, it is left open at its entry price. */
  ghost predicate TradeIs(bars: seq<Bar>, entry: nat, long: bool, stop: real, tp: real, r: Result)
    requires entry < |bars|
  {
    var end := HoldEnd(bars, entry);
    match r.exit
    case Open =>
      Quiet(bars, entry, long, stop, tp, end) && r.price == bars[entry].close && r.index == end - 1
      && r.slippage == 0.0 && r.hit == NoHit
    case StopLoss =>
      entry < r.index < end && Quiet(bars, entry, long, stop, tp, r.index)
      && Stopped(bars[r.index], long, stop) && r.price == stop
      && r.slippage == Penetration(bars[r.index], long, stop) / PIP
      && (r.hit == if Penetration(bars[r.index], long, stop) <= 2.0 * PIP then Exact else Spike)
    case TakeProfit =>
      entry < r.index < end && Quiet(bars, entry, long, stop, tp, r.index)
      && !Stopped(bars[r.index], long, stop) && Filled(bars[r.index], long, tp) && r.price == tp
      && r.slippage == 0.0 && r.hit == NoHit
  }

  function ClassifyStopHit(b: Bar, stop: real, long: bool): Hit {
    if (if long then stop - b.low else b.high - stop) <= 2.0 * PIP then Exact else Spike
  }

  method SimulateTrade(bars: seq<Bar>, entry: nat, long: bool, stop: real, risk: real, rr: real) returns (r: Result)
    requires entry < |bars|
    ensures TradeIs(bars, entry, long, stop, Target(bars[entry].close, long, risk, rr), r)
  {
    var entryPrice := bars[entry].close;
    var tp := if long then entryPrice + risk * PIP * rr else entryPrice - risk * PIP * rr;
    var end := if entry + MAX_HOLD < |bars| then entry + MAX_HOLD else |bars|;
    for i := entry + 1 to end
      invariant Quiet(bars, entry, long, stop, tp, i)
    {
      var bar := bars[i];
      if long {
        if bar.low <= stop {
          var past := if stop - bar.low > 0.0 then stop - bar.low else 0.0;
          return Result(StopLoss, stop, i, past / PIP, ClassifyStopHit(bar, stop, long));
        }
        if bar.high >= tp {
          return Result(TakeProfit, tp, i, 0.0, NoHit);
        }
      } else {
        if bar.high >= stop {
          var past := if bar.high - stop > 0.0 then bar.high - stop else 0.0;
          return Result(StopLoss, stop, i, past / PIP, ClassifyStopHit(bar, stop, long));
        }
        if bar.low <= tp {
          return Result(TakeProfit, tp, i, 0.0, NoHit);
        }
      }
    }
    return Result(Open, entryPrice, end - 1, 0.0, NoHit);
  }

  /** Below the stop of a long, above that of a short. */
  predicate AtStop(b: Bar, long: bool, stop: real) {
    if long then b.low <= stop else b.high >= stop
  }

  predicate AtTarget(b: Bar, long: bool, tp: real) {
    if long then b.high >= tp else b.low <= tp
  }

  /** What a trade comes to, in prices and pips: it ends within 48 bars on the first bar at its stop or its target,
      which is `rr` times its risk away; at the stop when the bar is at both, with the pips beyond it as slippage,
      exact up to two; and untouched it is marked at its entry. */
  ghost predicate EndsAs(bars: seq<Bar>, entry: nat, long: bool, stop: real, tp: real, r: Result) {
    && entry < |bars| && entry - 1 <= r.index < |bars| && r.index < entry + 48
    && (forall j :: entry < j < r.index ==> !AtStop(bars[j], long, stop) && !AtTarget(bars[j], long, tp))
    && match r.exit
       case StopLoss =>
         && entry < r.index && AtStop(bars[r.index], long, stop) && r.price == stop
         && r.slippage * 0.0001 == (if long then stop - bars[r.index].low else bars[r.index].high - stop)
         && (r.hit == if r.slippage <= 2.0 then Exact else Spike)
       case TakeProfit =>
         && entry < r.index && !AtStop(bars[r.index], long, stop) && AtTarget(bars[r.index], long, tp)
         && r.price == tp && r.slippage == 0.0 && r.hit == NoHit
       case Open =>
         && (r.index == |bars| - 1 || r.index == entry + 47)
         && (entry < r.index ==> !AtStop(bars[r.index], long, stop) && !AtTarget(bars[r.index], long, tp))
         && r.price == bars[entry].close && r.slippage == 0.0 && r.hit == NoHit
  }

  lemma TradeInPrices(bars: seq<Bar>, entry: nat, long: bool, stop: real, risk: real, rr: real, r: Result)
    requires entry < |bars|
    requires TradeIs(bars, entry, long, stop, Target(bars[entry].close, long, risk, rr), r)
    ensures var tp := bars[entry].close + (if long then rr * risk * 0.0001 else -(rr * risk * 0.0001));
            EndsAs(bars, entry, long, stop, tp, r)
  {
    var tp := Target(bars[entry].close, long, risk, rr);
    assert risk * PIP * rr == rr * risk * 0.0001;
    assert forall b :: AtStop(b, long, stop) <==> Stopped(b, long, stop);
    assert forall b :: AtTarget(b, long, tp) <==> Filled(b, long, tp);
    assert tp == bars[entry].close + (if long then rr * risk * 0.0001 else -(rr * risk * 0.0001));
    if r.exit.StopLoss? {
      assert r.slippage * PIP == Penetration(bars[r.index], long, stop);
    }
    hide AtStop, AtTarget, Stopped, Filled, Target;
  }

  lemma TradeIsUnique(bars: seq<Bar>, entry: nat, long: bool, stop: real, tp: real, r: Result, s: Result)
    requires entry < |bars| && TradeIs(bars, entry, long, stop, tp, r) && TradeIs(bars, entry, long, stop, tp, s)
    ensures r == s
  {
    hide Stopped, Filled, Penetration;
    assert r.exit.Open? || s.exit.Open? || r.index == s.index;
  }

  function Flip(b: Bar): Bar {
    Bar(b.day, -b.low, -b.high, -b.close)
  }

  function Mirror(bars: seq<Bar>): seq<Bar> {
    seq(|bars|, i requires 0 <= i < |bars| => Flip(bars[i]))
  }

  /** A short on the upside-down chart ends on the same bar, for the same reason, with the same slippage. */
  lemma MirrorKeepsTrade(bars: seq<Bar>, entry: nat, long: bool, stop: real, tp: real, r: Result)
    requires entry < |bars| && TradeIs(bars, entry, long, stop, tp, r)
    ensures TradeIs(Mirror(bars), entry, !long, -stop, -tp, r.(price := -r.price))
  {
    var m := Mirror(bars);
    forall i: nat | i < |bars|
      ensures Penetration(m[i], !long, -stop) == Penetration(bars[i], long, stop)
      ensures Stopped(m[i], !long, -stop) == Stopped(bars[i], long, stop)
      ensures Filled(m[i], !long, -tp) == Filled(bars[i], long, tp)
      ensures m[i].close == -bars[i].close
    {
    }
    hide Stopped, Filled, Penetration, Mirror;
  }

  // ----- the study -------------------------------------------------------------------------------

  /** Day `level` index, bar of the day, side, stop and risk of an entry. */
  datatype Entry = Entry(level: nat, k: nat, long: bool, stop: real, risk: real)

  datatype Trade = Trade(entry: Entry, index: nat, result: Result)

  function HighOf(bars: seq<Bar>): real
    requires bars != []
  {
    if |bars| == 1 then bars[0].high
    else var before, b := HighOf(bars[..|bars| - 1]), bars[|bars| - 1].high; if b > before then b else before
  }

  function LowOf(bars: seq<Bar>): real
    requires bars != []
  {
    if |bars| == 1 then bars[0].low
    else var before, b := LowOf(bars[..|bars| - 1]), bars[|bars| - 1].low; if b < before then b else before
  }

  /** The first bar from number `k` on that closes outside the set-up range, before bar 20. */
  function Breakout(day: seq<Bar>, hi: real, lo: real, k: nat): (b: Option<nat>)
    ensures b.Some? ==> k <= b.value < |day|
    decreases |day| - k
  {
    if k >= |day| || k >= 20 then None
    else if day[k].close > hi || day[k].close < lo then Some(k)
    else Breakout(day, hi, lo, k + 1)
  }

  /** The entry of one day, if its previous day and its first four bars allow one. */
  function EntryOf(prev: Level, curr: Level, i: nat): Option<Entry> {
    if (prev.hod - prev.lod) / PIP < 30.0 || |curr.bars| < 6 then None
    else
      var hi, lo := HighOf(curr.bars[..4]), LowOf(curr.bars[..4]);
      var risk := (hi - lo) / PIP;
      if risk < 5.0 || risk > 50.0 then None
      else
        match Breakout(curr.bars, hi, lo, 4)
        case None => None
        case Some(k) =>
          var long := curr.bars[k].close > hi;
          Some(Entry(i, k, long, if long then prev.lod else prev.hod, risk))
  }

  function Entries(levels: seq<Level>, n: nat): seq<Entry>
    requires n <= |levels|
  {
    if n <= 1 then []
    else
      var before, e := Entries(levels, n - 1), EntryOf(levels[n - 2], levels[n - 1], n - 1);
      if e.Some? then before + [e.value] else before
  }

  ghost predicate Simulated(bars: seq<Bar>, levels: seq<Level>, t: Trade, rr: real) {
    && t.entry.level < |levels| && t.index == Offset(levels, t.entry.level) + t.entry.k < |bars|
    && TradeIs(bars, t.index, t.entry.long, t.entry.stop,
               Target(bars[t.index].close, t.entry.long, t.entry.risk, rr), t.result)
  }

  /** One trade per entry, in order, each simulated from its global index. */
  ghost predicate Study(bars: seq<Bar>, levels: seq<Level>, rr: real, n: nat, trades: seq<Trade>)
    requires n <= |levels|
  {
    var entries := Entries(levels, n);
    && |trades| == |entries|
    && (forall i :: 0 <= i < |trades| ==> trades[i].entry == entries[i] && Simulated(bars, levels, trades[i], rr))
  }

  method MaxHigh(bars: seq<Bar>) returns (hi: real, lo: real)
    requires bars != []
    ensures hi == HighOf(bars) && lo == LowOf(bars)
  {
    hi, lo := bars[0].high, bars[0].low;
    for i := 1 to |bars|
      invariant hi == HighOf(bars[..i]) && lo == LowOf(bars[..i])
    {
      assert bars[..i + 1][..i] == bars[..i];
      if bars[i].high > hi {
        hi := bars[i].high;
      }
      if bars[i].low < lo {
        lo := bars[i].low;
      }
    }
    assert bars[..|bars|] == bars;
  }

  /** The scan of one day for its entry, with both breaks of the source. */
  method FindEntry(prev: Level, curr: Level, i: nat) returns (e: Option<Entry>)
    ensures e == EntryOf(prev, curr, i)
  {
    e := None;
    var prevRange := (prev.hod - prev.lod) / PIP;
    if prevRange < 30.0 || |curr.bars| < 6 {
      return;
    }
    var hi, lo := MaxHigh(curr.bars[..4]);
    var risk := (hi - lo) / PIP;
    hide HighOf, LowOf;
    var k := 4;
    while k < |curr.bars| && k < 20
      invariant 4 <= k
      invariant 5.0 <= risk <= 50.0 ==> Breakout(curr.bars, hi, lo, 4) == Breakout(curr.bars, hi, lo, k)
    {
      var bar := curr.bars[k];
      if bar.close > hi && risk >= 5.0 {
        if 5.0 <= risk <= 50.0 {
          e := Some(Entry(i, k, true, prev.lod, risk));
        }
        return;
      }
      if bar.close < lo && risk >= 5.0 {
        if 5.0 <= risk <= 50.0 {
          e := Some(Entry(i, k, false, prev.hod, risk));
        }
        return;
      }
      k := k + 1;
    }
  }

  lemma {:induction false} BreakoutIsFirst(day: seq<Bar>, hi: real, lo: real, k: nat)
    ensures match Breakout(day, hi, lo, k)
            case Some(b) =>
              && k <= b < |day| && b < 20 && !(lo <= day[b].close <= hi)
              && forall j :: k <= j < b ==> lo <= day[j].close <= hi
            case None => forall j :: k <= j < |day| && j < 20 ==> lo <= day[j].close <= hi
    decreases |day| - k
  {
    if k < |day| && k < 20 {
      BreakoutIsFirst(day, hi, lo, k + 1);
    }
  }

  lemma EntryIsBreakout(prev: Level, curr: Level, i: nat)
    ensures var e := EntryOf(prev, curr, i);
            e.Some? ==> e.value.level == i && 4 <= e.value.k < |curr.bars| && Breaks(curr, e.value)
  {
    if |curr.bars| >= 6 {
      BreakoutIsFirst(curr.bars, HighOf(curr.bars[..4]), LowOf(curr.bars[..4]), 4);
      hide HighOf, LowOf, Breakout;
    }
  }

  ghost predicate IsHighest(bars: seq<Bar>, hi: real) {
    (forall b :: b in bars ==> b.high <= hi) && exists b :: b in bars && b.high == hi
  }

  ghost predicate IsLowest(bars: seq<Bar>, lo: real) {
    (forall b :: b in bars ==> b.low >= lo) && exists b :: b in bars && b.low == lo
  }

  lemma {:induction false} HighOfIs(bars: seq<Bar>)
    requires bars != []
    ensures IsHighest(bars, HighOf(bars)) && IsLowest(bars, LowOf(bars))
  {
    if |bars| == 1 {
      assert bars[0] in bars;
    } else {
      var init, last := bars[..|bars| - 1], bars[|bars| - 1];
      assert bars == init + [last];
      HighOfIs(init);
      var a :| a in init && a.high == HighOf(init);
      var b :| b in init && b.low == LowOf(init);
      assert a in bars && b in bars && last in bars;
    }
  }

  /** Bar `k` is the first from the fifth to the twentieth of the day that closes outside the range. */
  ghost predicate BreaksFirst(day: seq<Bar>, hi: real, lo: real, k: int) {
    && 4 <= k < 20 && k < |day| && (day[k].close > hi || day[k].close < lo)
    && forall j :: 4 <= j < k ==> lo <= day[j].close <= hi
  }

  /** Which day has an entry, and which one, for the range of its first four bars: the previous day spans 30 pips,
      the day has six bars, the range is 5 to 50 pips, and some bar breaks out of it; the side is that of the break,
      the stop the previous day's other extreme, and the risk the range. */
  lemma EntryExactlyWhen(prev: Level, curr: Level, i: nat, hi: real, lo: real)
    requires |curr.bars| >= 6 ==> IsHighest(curr.bars[..4], hi) && IsLowest(curr.bars[..4], lo)
    ensures var e := EntryOf(prev, curr, i);
            && (e.Some? <==>
                  && prev.hod - prev.lod >= 0.0030 && |curr.bars| >= 6 && 0.0005 <= hi - lo <= 0.0050
                  && exists k :: BreaksFirst(curr.bars, hi, lo, k))
            && (e.Some? ==>
                  && e.value.level == i && BreaksFirst(curr.bars, hi, lo, e.value.k)
                  && e.value.long == (curr.bars[e.value.k].close > hi)
                  && e.value.stop == (if e.value.long then prev.lod else prev.hod)
                  && e.value.risk * 0.0001 == hi - lo)
  {
    assert (prev.hod - prev.lod) / PIP * PIP == prev.hod - prev.lod;
    if |curr.bars| >= 6 {
      HighOfIs(curr.bars[..4]);
      assert HighOf(curr.bars[..4]) == hi && LowOf(curr.bars[..4]) == lo;
      assert (hi - lo) / PIP * PIP == hi - lo;
      BreakoutIsFirst(curr.bars, hi, lo, 4);
      hide HighOf, LowOf, IsHighest, IsLowest;
      var b := Breakout(curr.bars, hi, lo, 4);
      hide Breakout;
      assert b.Some? ==> BreaksFirst(curr.bars, hi, lo, b.value);
    }
  }

  /** The entry bar closes beyond the first four bars, on the side traded. */
  ghost predicate Breaks(curr: Level, e: Entry) {
    && 4 <= e.k < |curr.bars|
    && (if e.long then curr.bars[e.k].close > HighOf(curr.bars[..4]) else curr.bars[e.k].close < LowOf(curr.bars[..4]))
  }

  /** The loop body of analyze for day `i`. */
  method TradeDay(bars: seq<Bar>, levels: seq<Level>, rr: real, i: nat, offset: nat, ghost trades: seq<Trade>)
    returns (more: seq<Trade>)
    requires GroupedByDay(bars, levels) && 1 <= i < |levels| && offset == Offset(levels, i)
    requires Study(bars, levels, rr, i, trades)
    ensures Study(bars, levels, rr, i + 1, trades + more)
  {
    hide GroupedByDay, TradeIs, Target, Breaks;
    EntryIsBreakout(levels[i - 1], levels[i], i);
    var e := FindEntry(levels[i - 1], levels[i], i);
    hide EntryOf;
    more := [];
    if e.Some? {
      IndexInRange(bars, levels, i, e.value.k);
      var index := offset + e.value.k;
      var r := SimulateTrade(bars, index, e.value.long, e.value.stop, e.value.risk, rr);
      more := [Trade(e.value, index, r)];
      assert Simulated(bars, levels, more[0], rr);
    }
  }

  method Analyze(bars: seq<Bar>, rr: real) returns (levels: seq<Level>, trades: seq<Trade>)
    ensures GroupedByDay(bars, levels)
    ensures Study(bars, levels, rr, |levels|, trades)
  {
    levels := GroupByDay(bars);
    trades := [];
    hide GroupedByDay, Simulated;
    if |levels| == 0 {
      return;
    }
    var offset := |levels[0].bars|;
    assert Study(bars, levels, rr, 1, trades);
    hide Study;
    for i := 1 to |levels|
      invariant offset == Offset(levels, i)
      invariant Study(bars, levels, rr, i, trades)
    {
      var more := TradeDay(bars, levels, rr, i, offset, trades);
      trades := trades + more;
      offset := offset + |levels[i].bars|;
    }
  }

  lemma {:induction false} EntriesAreBreakouts(levels: seq<Level>, n: nat)
    requires n <= |levels|
    ensures forall i :: 0 <= i < |Entries(levels, n)| ==> EntryFits(levels, n, Entries(levels, n)[i])
    ensures forall i, j :: 0 <= i < j < |Entries(levels, n)| ==>
              Entries(levels, n)[i].level < Entries(levels, n)[j].level
  {
    if n > 1 {
      EntriesAreBreakouts(levels, n - 1);
      EntryIsBreakout(levels[n - 2], levels[n - 1], n - 1);
      hide EntryOf, Breaks;
      assert forall e :: EntryFits(levels, n - 1, e) ==> EntryFits(levels, n, e);
    }
  }

  ghost predicate EntryFits(levels: seq<Level>, n: nat, e: Entry)
    requires n <= |levels|
  {
    1 <= e.level < n && Breaks(levels[e.level], e)
  }

  /** When dates never go back, every trade is simulated from the very bar that broke out of its day's first four
      bars, and no day is traded twice. */
  lemma TradesStartAtBreakouts(bars: seq<Bar>, levels: seq<Level>, rr: real, trades: seq<Trade>)
    requires GroupedByDay(bars, levels) && Study(bars, levels, rr, |levels|, trades) && DatesAscend(bars)
    ensures forall i :: 0 <= i < |trades| ==> StartsAtBreakout(bars, levels, trades[i])
    ensures forall i, j :: 0 <= i < j < |trades| ==> trades[i].entry.level < trades[j].entry.level
  {
    EntriesAreBreakouts(levels, |levels|);
    IndicesAgreeExactlyWhenDatesAscend(bars, levels);
    hide GroupedByDay, DatesAscend, TradeIs, Entries, Breaks;
    forall i | 0 <= i < |trades| ensures StartsAtBreakout(bars, levels, trades[i]) {
      TradeStarts(bars, levels, rr, trades[i]);
    }
  }

  lemma TradeStarts(bars: seq<Bar>, levels: seq<Level>, rr: real, t: Trade)
    requires IndicesAgree(bars, levels) && Simulated(bars, levels, t, rr) && EntryFits(levels, |levels|, t.entry)
    ensures StartsAtBreakout(bars, levels, t)
  {
    hide TradeIs, Breaks;
    BreaksInDay(levels[t.entry.level], t.entry);
    assert AgreesAt(bars, levels, t.entry.level, t.entry.k);
  }

  lemma BreaksInDay(curr: Level, e: Entry)
    requires Breaks(curr, e)
    ensures 4 <= e.k < |curr.bars|
  {
  }

  ghost predicate StartsAtBreakout(bars: seq<Bar>, levels: seq<Level>, t: Trade) {
    && t.entry.level < |levels| && Breaks(levels[t.entry.level], t.entry)
    && t.index < |bars| && t.entry.k < |levels[t.entry.level].bars|
    && bars[t.index] == levels[t.entry.level].bars[t.entry.k]
  }
}
