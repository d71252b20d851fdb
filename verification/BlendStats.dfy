/** The statistics of scripts/backtest_blend_harness.py (compute_stats), and its drawdown against the
    one of scripts/gate_loosening_study.py (metrics). */
module BlendStats {
  import opened Wrappers
  import opened Reals
  import opened Sorting

  /** A position of the book; `closedAt` is the rank of its closing time among the closed ones. */
  datatype Position = Position(
    id: int,
    volume: real,
    closed: bool,
    closedPnl: real,
    closedAt: int,
    unrealizedPnl: real)

  datatype Trade = Trade(strategy: string, pnl: real, closedAt: int)

  datatype Tally = Tally(trades: nat, pnl: real, wins: nat)

  datatype Stats = Stats(
    trades: nat,
    wins: nat,
    losses: nat,
    grossProfit: real,
    grossLoss: real,
    net: real,
    profitFactor: Option<real>,
    maxDrawdown: real,
    perStrategy: map<string, Tally>,
    realized: real,
    winRate: real,
    openPositions: nat,
    openUnrealized: real,
    finalBalance: real)

  // ----- trades ----------------------------------------------------------------------------------

  function TradeOf(p: Position, owners: map<int, string>, commission: real): Trade {
    Trade(if p.id in owners then owners[p.id] else "unknown", p.closedPnl - Abs(p.volume) * commission, p.closedAt)
  }

  /** The closed positions as trades, in the order of the book. */
  function Trades(positions: seq<Position>, owners: map<int, string>, commission: real): seq<Trade> {
    if positions == [] then []
    else
      var before, p := Trades(positions[..|positions| - 1], owners, commission), positions[|positions| - 1];
      if p.closed then before + [TradeOf(p, owners, commission)] else before
  }

  /** The trade that a closed position makes: its profit less the commission on its size, and the strategy its id is
      attributed to, or none that is known. */
  ghost predicate Makes(p: Position, owners: map<int, string>, commission: real, t: Trade) {
    && t.closedAt == p.closedAt
    && t.strategy == (if p.id in owners then owners[p.id] else "unknown")
    && p.closedPnl - t.pnl == (if p.volume >= 0.0 then p.volume else -p.volume) * commission
  }

  /** `at` are the closed positions, in order, and `trades` what they make. */
  ghost predicate AreTradesOf(positions: seq<Position>, owners: map<int, string>, commission: real, at: seq<nat>,
          trades: seq<Trade>) {
    && |at| == |trades| && (forall i, j :: 0 <= i < j < |at| ==> at[i] < at[j])
    && (forall k: nat :: k in at <==> k < |positions| && positions[k].closed)
    && (forall i :: 0 <= i < |trades| ==>
          at[i] < |positions| && Makes(positions[at[i]], owners, commission, trades[i]))
  }

  /** The trades are those of the closed positions, in their order. */
  lemma {:induction false} TradesAreTheClosed(positions: seq<Position>, owners: map<int, string>, commission: real)
    returns (at: seq<nat>)
    ensures AreTradesOf(positions, owners, commission, at, Trades(positions, owners, commission))
  {
    hide *;
    at := [];
    if positions == [] {
      NoTrades(owners, commission);
    } else {
      var init, last := positions[..|positions| - 1], positions[|positions| - 1];
      assert positions == init + [last];
      at := TradesAreTheClosed(init, owners, commission);
      TradesAppend(init, last, owners, commission);
      if last.closed {
        OneMoreClosed(init, last, owners, commission, at, Trades(init, owners, commission));
        at := at + [|init|];
      } else {
        OneMoreOpen(init, last, owners, commission, at, Trades(init, owners, commission));
      }
    }
  }

  lemma NoTrades(owners: map<int, string>, commission: real)
    ensures AreTradesOf([], owners, commission, [], Trades([], owners, commission))
  {
    hide Makes;
  }

  lemma TradesAppend(positions: seq<Position>, p: Position, owners: map<int, string>, commission: real)
    ensures Trades(positions + [p], owners, commission)
         == if p.closed then Trades(positions, owners, commission) + [TradeOf(p, owners, commission)]
            else Trades(positions, owners, commission)
  {
    assert (positions + [p])[..|positions|] == positions;
  }

  lemma OneMoreClosed(positions: seq<Position>, p: Position, owners: map<int, string>, commission: real, at: seq<nat>,
          trades: seq<Trade>)
    requires AreTradesOf(positions, owners, commission, at, trades) && p.closed
    ensures AreTradesOf(positions + [p], owners, commission, at + [|positions|],
                        trades + [TradeOf(p, owners, commission)])
  {
    var n, more, all := |positions|, at + [|positions|], positions + [p];
    assert Makes(all[n], owners, commission, TradeOf(p, owners, commission));
    hide Makes, TradeOf;
    assert more[|at|] == n;
    forall k: nat ensures k in more <==> k in at || k == n {}
    forall i | 0 <= i < |at| ensures at[i] < n && all[at[i]] == positions[at[i]] {
      assert at[i] in at;
    }
  }

  lemma OneMoreOpen(positions: seq<Position>, p: Position, owners: map<int, string>, commission: real, at: seq<nat>,
          trades: seq<Trade>)
    requires AreTradesOf(positions, owners, commission, at, trades) && !p.closed
    ensures AreTradesOf(positions + [p], owners, commission, at, trades)
  {
    hide Makes;
  }

  function OpenPositions(positions: seq<Position>): seq<Position> {
    if positions == [] then []
    else
      var before, p := OpenPositions(positions[..|positions| - 1]), positions[|positions| - 1];
      if p.closed then before else before + [p]
  }

  function Unrealized(positions: seq<Position>): real {
    if positions == [] then 0.0
    else Unrealized(positions[..|positions| - 1]) + positions[|positions| - 1].unrealizedPnl
  }

  /** What one position is worth to the account: realised after commission, or floating. */
  function Worth(p: Position, commission: real): real {
    if p.closed then p.closedPnl - Abs(p.volume) * commission else p.unrealizedPnl
  }

  function Book(positions: seq<Position>, commission: real): real {
    if positions == [] then 0.0
    else Book(positions[..|positions| - 1], commission) + Worth(positions[|positions| - 1], commission)
  }

  /** Realised and floating results of the two halves add up to the whole book. */
  lemma {:induction false} NothingOfTheBookIsLost(positions: seq<Position>, owners: map<int, string>, commission: real)
    ensures Sum(Trades(positions, owners, commission)) + Unrealized(OpenPositions(positions))
         == Book(positions, commission)
    ensures |Trades(positions, owners, commission)| + |OpenPositions(positions)| == |positions|
  {
    if positions != [] {
      var init, p := positions[..|positions| - 1], positions[|positions| - 1];
      NothingOfTheBookIsLost(init, owners, commission);
      if p.closed {
        SumAppends(Trades(init, owners, commission), TradeOf(p, owners, commission));
      } else {
        assert (OpenPositions(init) + [p])[..|OpenPositions(init)|] == OpenPositions(init);
      }
    }
  }

  const CLOSED_AT: Trade -> int := (t: Trade) => t.closedAt

  // ----- sums ------------------------------------------------------------------------------------

  function Sum(trades: seq<Trade>): real {
    if trades == [] then 0.0 else Sum(trades[..|trades| - 1]) + trades[|trades| - 1].pnl
  }

  function Winning(trades: seq<Trade>): seq<Trade> {
    if trades == [] then []
    else
      var before, t := Winning(trades[..|trades| - 1]), trades[|trades| - 1];
      if t.pnl > 0.0 then before + [t] else before
  }

  function Losing(trades: seq<Trade>): seq<Trade> {
    if trades == [] then []
    else
      var before, t := Losing(trades[..|trades| - 1]), trades[|trades| - 1];
      if t.pnl < 0.0 then before + [t] else before
  }

  lemma SumAppends(trades: seq<Trade>, t: Trade)
    ensures Sum(trades + [t]) == Sum(trades) + t.pnl
  {
    assert (trades + [t])[..|trades|] == trades;
  }

  lemma {:induction false} GrossSigns(trades: seq<Trade>)
    ensures Sum(Winning(trades)) >= 0.0 >= Sum(Losing(trades))
    ensures Sum(Winning(trades)) + Sum(Losing(trades)) == Sum(trades)
    ensures |Winning(trades)| + |Losing(trades)| <= |trades|
    ensures Losing(trades) != [] ==> Sum(Losing(trades)) < 0.0
  {
    if trades != [] {
      var init, last := trades[..|trades| - 1], trades[|trades| - 1];
      GrossSigns(init);
      SumAppends(Winning(init), last);
      SumAppends(Losing(init), last);
    }
  }

  // ----- drawdown --------------------------------------------------------------------------------

  /** The equity after `i` trades, starting from zero. */
  function Equity(trades: seq<Trade>, i: nat): real
    requires i <= |trades|
  {
    Sum(trades[..i])
  }

  /** The highest equity between trade `first` and trade `last`. */
  function Peak(trades: seq<Trade>, first: nat, last: nat): real
    requires first <= last <= |trades|
    decreases last
  {
    if first == last then Equity(trades, last) else Max(Peak(trades, first, last - 1), Equity(trades, last))
  }

  /** The running maximum less the curve, at its largest: from `first` == 0 as the harness starts, from 1 as numpy's
      maximum.accumulate over the cumulative sums does. */
  function Drawdown(trades: seq<Trade>, first: nat, last: nat): real
    requires first <= last <= |trades|
    decreases last
  {
    var drop := Peak(trades, first, last) - Equity(trades, last);
    if first == last then drop else Max(Drawdown(trades, first, last - 1), drop)
  }

  function StudyDrawdown(trades: seq<Trade>): real {
    if trades == [] then 0.0 else Drawdown(trades, 1, |trades|)
  }

  method MaxDrawdown(trades: seq<Trade>) returns (maxDd: real)
    ensures maxDd == Drawdown(trades, 0, |trades|)
  {
    var peak, cumulative := 0.0, 0.0;
    maxDd := 0.0;
    hide Sum;
    EquityFromZero(trades);
    for i := 0 to |trades|
      invariant cumulative == Equity(trades, i)
      invariant peak == Peak(trades, 0, i)
      invariant maxDd == Drawdown(trades, 0, i)
    {
      EquityMore(trades, i);
      cumulative := cumulative + trades[i].pnl;
      if cumulative > peak {
        peak := cumulative;
      }
      var dd := peak - cumulative;
      if dd > maxDd {
        maxDd := dd;
      }
    }
  }

  lemma EquityFromZero(trades: seq<Trade>)
    ensures Equity(trades, 0) == 0.0
  {
  }

  lemma EquityMore(trades: seq<Trade>, i: nat)
    requires i < |trades|
    ensures Equity(trades, i + 1) == Equity(trades, i) + trades[i].pnl
  {
    assert trades[..i + 1] == trades[..i] + [trades[i]];
    SumAppends(trades[..i], trades[i]);
  }

  /** `peak` is the largest equity between `first` and `last`. */
  ghost predicate Highest(trades: seq<Trade>, first: nat, last: nat, peak: real)
    requires first <= last <= |trades|
  {
    && (forall i :: first <= i <= last ==> Equity(trades, i) <= peak)
    && (exists i :: first <= i <= last && Equity(trades, i) == peak)
  }

  lemma {:induction false} PeakIsHighest(trades: seq<Trade>, first: nat, last: nat)
    requires first <= last <= |trades|
    ensures Highest(trades, first, last, Peak(trades, first, last))
    decreases last
  {
    if first < last {
      PeakIsHighest(trades, first, last - 1);
      HighestMore(trades, first, last, Peak(trades, first, last - 1));
    } else {
      assert Equity(trades, last) == Peak(trades, first, last);
    }
    hide *;
  }

  lemma HighestMore(trades: seq<Trade>, first: nat, last: nat, before: real)
    requires first < last <= |trades| && Highest(trades, first, last - 1, before)
    ensures Highest(trades, first, last, Max(before, Equity(trades, last)))
  {
    hide Equity;
    var peak := Max(before, Equity(trades, last));
    var i :| first <= i <= last - 1 && Equity(trades, i) == before;
    assert Equity(trades, if peak == before then i else last) == peak;
  }

  /** `d` is the largest fall from any equity to a later one. */
  ghost predicate LargestFall(trades: seq<Trade>, first: nat, last: nat, d: real)
    requires first <= last <= |trades|
  {
    && (forall i, j :: first <= i <= j <= last ==> Equity(trades, i) - Equity(trades, j) <= d)
    && (exists i, j :: first <= i <= j <= last && Equity(trades, i) - Equity(trades, j) == d)
  }

  /** The one-pass drawdown is the largest fall over all pairs of points of the curve. */
  lemma {:induction false} DrawdownIsLargestFall(trades: seq<Trade>, first: nat, last: nat)
    requires first <= last <= |trades|
    ensures LargestFall(trades, first, last, Drawdown(trades, first, last))
    decreases last
  {
    hide *;
    PeakIsHighest(trades, first, last);
    DrawdownTurn(trades, first, last);
    if first == last {
      NoFallYet(trades, last);
    } else {
      DrawdownIsLargestFall(trades, first, last - 1);
      FallsMore(trades, first, last, Drawdown(trades, first, last - 1), Peak(trades, first, last));
    }
  }

  lemma DrawdownTurn(trades: seq<Trade>, first: nat, last: nat)
    requires first <= last <= |trades|
    ensures Drawdown(trades, first, last)
         == if first == last then 0.0
            else Max(Drawdown(trades, first, last - 1), Peak(trades, first, last) - Equity(trades, last))
  {
    hide Equity, Max;
  }

  lemma NoFallYet(trades: seq<Trade>, at: nat)
    requires at <= |trades|
    ensures LargestFall(trades, at, at, 0.0)
  {
    hide Equity;
    var here := Equity(trades, at);
    assert here - Equity(trades, at) == 0.0;
  }

  lemma FallsMore(trades: seq<Trade>, first: nat, last: nat, before: real, peak: real)
    requires first < last <= |trades|
    requires LargestFall(trades, first, last - 1, before) && Highest(trades, first, last, peak)
    ensures LargestFall(trades, first, last, Max(before, peak - Equity(trades, last)))
  {
    hide Equity, Highest;
    FallToLast(trades, first, last, peak);
    if before >= peak - Equity(trades, last) {
      var i, j :| first <= i <= j <= last - 1 && Equity(trades, i) - Equity(trades, j) == before;
      assert Equity(trades, i) - Equity(trades, j) == before;
    }
  }

  lemma FallToLast(trades: seq<Trade>, first: nat, last: nat, peak: real)
    requires first <= last <= |trades| && Highest(trades, first, last, peak)
    ensures forall i :: first <= i <= last ==> Equity(trades, i) - Equity(trades, last) <= peak - Equity(trades, last)
    ensures exists i :: first <= i <= last && Equity(trades, i) - Equity(trades, last) == peak - Equity(trades, last)
  {
    hide Equity;
    var i :| first <= i <= last && Equity(trades, i) == peak;
    assert Equity(trades, i) - Equity(trades, last) == peak - Equity(trades, last);
  }

  /** How far the equity ever fell below its start. */
  function DeepestLoss(trades: seq<Trade>, last: nat): real
    requires last <= |trades|
  {
    if last == 0 then 0.0 else Max(DeepestLoss(trades, last - 1), -Equity(trades, last))
  }

  lemma {:induction false} PeaksCompare(trades: seq<Trade>, last: nat)
    requires 1 <= last <= |trades|
    ensures Peak(trades, 0, last) == Max(0.0, Peak(trades, 1, last))
  {
    if last == 1 {
      assert Equity(trades, 0) == 0.0;
      assert Peak(trades, 0, 0) == 0.0;
    } else {
      PeaksCompare(trades, last - 1);
      hide Equity;
    }
  }

  lemma {:induction false} DrawdownsCompare(trades: seq<Trade>, last: nat)
    requires 1 <= last <= |trades|
    ensures Drawdown(trades, 0, last) == Max(Drawdown(trades, 1, last), DeepestLoss(trades, last))
  {
    PeaksCompare(trades, last);
    if last == 1 {
      assert Drawdown(trades, 0, 0) == Peak(trades, 0, 0) - Equity(trades, 0) == 0.0;
      assert DeepestLoss(trades, 0) == 0.0;
      hide Equity;
    } else {
      hide Equity, Peak;
      DrawdownsCompare(trades, last - 1);
    }
  }

  /** The harness counts the fall from the starting balance, the study does not: the two drawdowns differ by
      exactly the deepest loss below zero. */
  lemma HarnessAndStudyDrawdowns(trades: seq<Trade>)
    ensures Drawdown(trades, 0, |trades|) == Max(StudyDrawdown(trades), DeepestLoss(trades, |trades|))
  {
    if trades != [] {
      DrawdownsCompare(trades, |trades|);
    }
  }

  // ----- order -----------------------------------------------------------------------------------

  lemma {:induction false} InsertSums(trades: seq<Trade>, t: Trade)
    ensures Sum(InsertBy(trades, t, CLOSED_AT)) == Sum(trades) + t.pnl
  {
    if trades == [] || CLOSED_AT(trades[|trades| - 1]) <= CLOSED_AT(t) {
      SumAppends(trades, t);
    } else {
      var init, last := trades[..|trades| - 1], trades[|trades| - 1];
      InsertSums(init, t);
      SumAppends(InsertBy(init, t, CLOSED_AT), last);
    }
  }

  /** The equity curve, taken in closing order, ends at the realised total. */
  lemma {:induction false} CurveEndsAtTotal(trades: seq<Trade>)
    ensures Sum(SortBy(trades, CLOSED_AT)) == Sum(trades)
  {
    if trades != [] {
      CurveEndsAtTotal(trades[..|trades| - 1]);
      InsertSums(SortBy(trades[..|trades| - 1], CLOSED_AT), trades[|trades| - 1]);
    }
  }

  // ----- per strategy ----------------------------------------------------------------------------

  function Plus(a: Tally, b: Tally): Tally {
    Tally(a.trades + b.trades, a.pnl + b.pnl, a.wins + b.wins)
  }

  const NO_TRADES := Tally(0, 0.0, 0)

  function One(t: Trade): Tally {
    Tally(1, t.pnl, if t.pnl > 0.0 then 1 else 0)
  }

  /** The trades of one strategy, counted, summed and their wins counted. */
  function TallyOf(trades: seq<Trade>, id: string): Tally {
    if trades == [] then NO_TRADES
    else
      var before, t := TallyOf(trades[..|trades| - 1], id), trades[|trades| - 1];
      if t.strategy == id then Plus(before, One(t)) else before
  }

  function TallyAll(trades: seq<Trade>): Tally {
    Tally(|trades|, Sum(trades), |Winning(trades)|)
  }

  function Total(tallies: map<string, Tally>, ids: seq<string>): Tally
    requires forall id :: id in ids ==> id in tallies
  {
    if ids == [] then NO_TRADES
    else Plus(Total(tallies, ids[..|ids| - 1]), tallies[ids[|ids| - 1]])
  }

  function TotalOf(trades: seq<Trade>, ids: seq<string>): Tally {
    if ids == [] then NO_TRADES
    else Plus(TotalOf(trades, ids[..|ids| - 1]), TallyOf(trades, ids[|ids| - 1]))
  }

  ghost predicate Breakdown(trades: seq<Trade>, tallies: map<string, Tally>) {
    && (forall t :: t in trades ==> t.strategy in tallies)
    && (forall id :: id in tallies ==> tallies[id] == TallyOf(trades, id) && tallies[id].trades > 0)
  }

  method PerStrategy(trades: seq<Trade>) returns (tallies: map<string, Tally>)
    ensures Breakdown(trades, tallies)
  {
    hide TallyOf;
    tallies := map[];
    for i := 0 to |trades|
      invariant Breakdown(trades[..i], tallies)
    {
      var t := trades[i];
      ghost var was := tallies;
      if t.strategy !in tallies {
        tallies := tallies[t.strategy := NO_TRADES];
      }
      var s := tallies[t.strategy];
      tallies := tallies[t.strategy := Tally(s.trades + 1, s.pnl + t.pnl, s.wins + (if t.pnl > 0.0 then 1 else 0))];
      OneMoreTally(trades[..i], t, was);
      assert tallies == was[t.strategy := Plus(s, One(t))];
      assert trades[..i + 1] == trades[..i] + [t];
    }
    assert trades[..|trades|] == trades;
  }

  lemma TallyAppends(trades: seq<Trade>, t: Trade, id: string)
    ensures TallyOf(trades + [t], id)
         == if t.strategy == id then Plus(TallyOf(trades, id), One(t)) else TallyOf(trades, id)
  {
    assert (trades + [t])[..|trades|] == trades;
  }

  lemma OneMoreTally(trades: seq<Trade>, t: Trade, tallies: map<string, Tally>)
    requires Breakdown(trades, tallies)
    ensures var s := if t.strategy in tallies then tallies[t.strategy] else NO_TRADES;
            Breakdown(trades + [t], tallies[t.strategy := Plus(s, One(t))])
  {
    if t.strategy !in tallies {
      NoneOf(trades, t.strategy);
    }
    hide TallyOf;
    var s := if t.strategy in tallies then tallies[t.strategy] else NO_TRADES;
    var more := tallies[t.strategy := Plus(s, One(t))];
    forall id | id in more ensures more[id] == TallyOf(trades + [t], id) && more[id].trades > 0 {
      TallyAppends(trades, t, id);
    }
  }

  lemma {:induction false} NoneOf(trades: seq<Trade>, id: string)
    requires forall t :: t in trades ==> t.strategy != id
    ensures TallyOf(trades, id) == NO_TRADES
  {
    if trades != [] {
      NoneOf(trades[..|trades| - 1], id);
    }
  }

  lemma {:induction false} OneMoreTrade(trades: seq<Trade>, t: Trade, ids: seq<string>)
    requires Distinct(ids)
    ensures TotalOf(trades + [t], ids)
         == if t.strategy in ids then Plus(TotalOf(trades, ids), One(t)) else TotalOf(trades, ids)
  {
    hide TallyOf;
    if ids != [] {
      var init, last := ids[..|ids| - 1], ids[|ids| - 1];
      OneMoreTrade(trades, t, init);
      TallyAppends(trades, t, last);
      LastIsNew(ids);
    }
  }

  lemma {:induction false} NoTradesNoTotal(ids: seq<string>)
    ensures TotalOf([], ids) == NO_TRADES
  {
    if ids != [] {
      assert TallyOf([], ids[|ids| - 1]) == NO_TRADES;
      hide TallyOf;
      NoTradesNoTotal(ids[..|ids| - 1]);
    }
  }

  lemma {:induction false} TotalsAgree(trades: seq<Trade>, ids: seq<string>)
    requires Distinct(ids) && forall t :: t in trades ==> t.strategy in ids
    ensures TotalOf(trades, ids) == TallyAll(trades)
  {
    if trades == [] {
      NoTradesNoTotal(ids);
    } else {
      var init, last := trades[..|trades| - 1], trades[|trades| - 1];
      TotalsAgree(init, ids);
      OneMoreTrade(init, last, ids);
      assert trades == init + [last];
      hide TotalOf, Distinct;
    }
  }

  lemma {:induction false} TotalIsTotalOf(trades: seq<Trade>, tallies: map<string, Tally>, ids: seq<string>)
    requires Breakdown(trades, tallies) && forall id :: id in ids ==> id in tallies
    ensures Total(tallies, ids) == TotalOf(trades, ids)
  {
    if ids != [] {
      TotalIsTotalOf(trades, tallies, ids[..|ids| - 1]);
    }
  }

  /** Listed without repetition, the strategies' tallies add up to all trades, the whole P&L and all wins. */
  lemma StrategiesAddUp(trades: seq<Trade>, tallies: map<string, Tally>, ids: seq<string>)
    requires Breakdown(trades, tallies)
    requires Distinct(ids) && forall id :: id in ids <==> id in tallies
    ensures Total(tallies, ids) == TallyAll(trades)
  {
    TotalIsTotalOf(trades, tallies, ids);
    hide Total, TotalOf, TallyAll;
    TotalsAgree(trades, ids);
  }

  // ----- the report ------------------------------------------------------------------------------

  ghost predicate SoundCounts(trades: seq<Trade>, s: Stats) {
    && s.trades == |trades| && s.wins == |Winning(trades)| && s.losses == |Losing(trades)|
    && s.wins + s.losses <= s.trades
    && s.winRate * (s.trades as real) == s.wins as real && 0.0 <= s.winRate <= 1.0
  }

  ghost predicate SoundMoney(trades: seq<Trade>, s: Stats) {
    && s.grossProfit == Sum(Winning(trades)) && s.grossLoss == -Sum(Losing(trades))
    && s.grossProfit >= 0.0 && s.grossLoss >= 0.0
    && s.net == s.realized == Sum(trades)
    && (s.profitFactor.None? <==> Losing(trades) == [])
    && (s.profitFactor.Some? ==>
          && (s.profitFactor.value > 1.0 <==> s.net > 0.0)
          && (s.profitFactor.value == 1.0 <==> s.net == 0.0))
  }

  /** The curve in closing order ends at the net, and the drawdown is its largest fall. */
  ghost predicate SoundCurve(trades: seq<Trade>, s: Stats) {
    var curve := SortBy(trades, CLOSED_AT);
    && s.net == Equity(curve, |curve|)
    && LargestFall(curve, 0, |curve|, s.maxDrawdown)
    && s.maxDrawdown >= 0.0 && s.maxDrawdown >= -s.net
  }

  /** What the figures of one report mean, and how they agree with each other. */
  ghost predicate Sound(trades: seq<Trade>, s: Stats) {
    SoundCounts(trades, s) && SoundMoney(trades, s) && SoundCurve(trades, s) && Breakdown(trades, s.perStrategy)
  }

  /** The account figures: what is open, and a final balance that misses no position of the book. */
  ghost predicate Balances(positions: seq<Position>, commission: real, starting: real, s: Stats) {
    && s.trades + s.openPositions == |positions|
    && s.openUnrealized == Unrealized(OpenPositions(positions))
    && s.finalBalance == starting + Book(positions, commission)
  }

  method ComputeStats(positions: seq<Position>, owners: map<int, string>, commission: real, starting: real)
    returns (s: Stats)
    ensures Sound(Trades(positions, owners, commission), s)
    ensures Balances(positions, commission, starting, s)
  {
    var trades, open, floating := Split(positions, owners, commission);
    hide Trades, OpenPositions, Unrealized, Book;
    var wins, losses, grossProfit, lossSum, realized := Sums(trades);
    var grossLoss := Abs(lossSum);
    var pf: Option<real> := None;
    if grossLoss > 0.0 {
      pf := Some(grossProfit / grossLoss);
    }
    var winRate := if |trades| > 0 then (wins as real) / (|trades| as real) else 0.0;
    var curve := SortBy(trades, CLOSED_AT);
    var maxDd := MaxDrawdown(curve);
    var tallies := PerStrategy(trades);
    s := Stats(|trades|, wins, losses, grossProfit, grossLoss, grossProfit - grossLoss, pf, maxDd, tallies, realized,
               winRate, open, floating, starting + realized + floating);
    hide *;
    CountsAreSound(trades, s);
    MoneyIsSound(trades, s);
    CurveIsSound(trades, s);
    IsSound(trades, s);
    IsBalanced(positions, owners, commission, starting, s);
  }

  lemma IsSound(trades: seq<Trade>, s: Stats)
    requires SoundCounts(trades, s) && SoundMoney(trades, s) && SoundCurve(trades, s)
    requires Breakdown(trades, s.perStrategy)
    ensures Sound(trades, s)
  {
  }

  lemma IsBalanced(positions: seq<Position>, owners: map<int, string>, commission: real, starting: real, s: Stats)
    requires s.trades == |Trades(positions, owners, commission)| && s.openPositions == |OpenPositions(positions)|
    requires s.openUnrealized == Unrealized(OpenPositions(positions))
    requires s.finalBalance == starting + Sum(Trades(positions, owners, commission)) + s.openUnrealized
    ensures Balances(positions, commission, starting, s)
  {
    NothingOfTheBookIsLost(positions, owners, commission);
    hide Trades, OpenPositions, Unrealized, Book, Sum;
  }

  /** The closed positions as trades, and how many others float at what. */
  method Split(positions: seq<Position>, owners: map<int, string>, commission: real)
    returns (trades: seq<Trade>, open: nat, floating: real)
    ensures trades == Trades(positions, owners, commission)
    ensures open == |OpenPositions(positions)| && floating == Unrealized(OpenPositions(positions))
  {
    trades, open, floating := [], 0, 0.0;
    for i := 0 to |positions|
      invariant trades == Trades(positions[..i], owners, commission)
      invariant open == |OpenPositions(positions[..i])| && floating == Unrealized(OpenPositions(positions[..i]))
    {
      var p, others := positions[i], OpenPositions(positions[..i]);
      assert positions[..i + 1][..i] == positions[..i];
      assert (others + [p])[..|others|] == others;
      if p.closed {
        trades := trades + [TradeOf(p, owners, commission)];
      } else {
        open, floating := open + 1, floating + p.unrealizedPnl;
      }
    }
    assert positions[..|positions|] == positions;
  }

  /** The five running figures of some trades. */
  ghost predicate SumsAre(trades: seq<Trade>, wins: nat, losses: nat, profit: real, loss: real, total: real) {
    && wins == |Winning(trades)| && losses == |Losing(trades)|
    && profit == Sum(Winning(trades)) && loss == Sum(Losing(trades)) && total == Sum(trades)
  }

  method Sums(trades: seq<Trade>) returns (wins: nat, losses: nat, profit: real, loss: real, total: real)
    ensures SumsAre(trades, wins, losses, profit, loss, total)
  {
    wins, losses, profit, loss, total := 0, 0, 0.0, 0.0, 0.0;
    NothingCounts();
    hide *;
    for i := 0 to |trades|
      invariant SumsAre(trades[..i], wins, losses, profit, loss, total)
    {
      var t := trades[i];
      assert trades[..i + 1] == trades[..i] + [t];
      OneMoreCounts(trades[..i], t, wins, losses, profit, loss, total);
      if t.pnl > 0.0 {
        wins, profit := wins + 1, profit + t.pnl;
      }
      if t.pnl < 0.0 {
        losses, loss := losses + 1, loss + t.pnl;
      }
      total := total + t.pnl;
    }
    assert trades[..|trades|] == trades;
  }

  lemma NothingCounts()
    ensures SumsAre([], 0, 0, 0.0, 0.0, 0.0)
  {
  }

  lemma OneMoreCounts(trades: seq<Trade>, t: Trade, wins: nat, losses: nat, profit: real, loss: real, total: real)
    requires SumsAre(trades, wins, losses, profit, loss, total)
    ensures t.pnl > 0.0 ==> SumsAre(trades + [t], wins + 1, losses, profit + t.pnl, loss, total + t.pnl)
    ensures t.pnl < 0.0 ==> SumsAre(trades + [t], wins, losses + 1, profit, loss + t.pnl, total + t.pnl)
    ensures t.pnl == 0.0 ==> SumsAre(trades + [t], wins, losses, profit, loss, total + t.pnl)
  {
    SumAppends(trades, t);
    SumAppends(Winning(trades), t);
    SumAppends(Losing(trades), t);
    assert (trades + [t])[..|trades|] == trades;
    hide Sum;
  }

  lemma Factor(profit: real, loss: real)
    requires loss > 0.0
    ensures profit / loss > 1.0 <==> profit > loss
    ensures profit / loss == 1.0 <==> profit == loss
  {
    assert profit / loss * loss == profit;
  }

  lemma CountsAreSound(trades: seq<Trade>, s: Stats)
    requires s.trades == |trades| && s.wins == |Winning(trades)| && s.losses == |Losing(trades)|
    requires s.winRate == if s.trades > 0 then (s.wins as real) / (s.trades as real) else 0.0
    ensures SoundCounts(trades, s)
  {
    GrossSigns(trades);
    hide Winning, Losing, Sum;
    Share(s.wins, s.trades);
  }

  lemma Share(part: nat, whole: nat)
    requires part <= whole
    ensures var r := if whole > 0 then (part as real) / (whole as real) else 0.0;
            r * (whole as real) == part as real && 0.0 <= r <= 1.0
  {
    if whole > 0 {
      var r := (part as real) / (whole as real);
      assert r * (whole as real) == part as real;
      SameSign(r, whole as real);
      assert (1.0 - r) * (whole as real) == (whole as real) - (part as real);
      SameSign(1.0 - r, whole as real);
    }
  }

  lemma SameSign(x: real, y: real)
    requires y > 0.0 && x * y >= 0.0
    ensures x >= 0.0
  {
  }

  lemma MoneyIsSound(trades: seq<Trade>, s: Stats)
    requires s.grossProfit == Sum(Winning(trades)) && s.grossLoss == Abs(Sum(Losing(trades)))
    requires s.net == s.grossProfit - s.grossLoss && s.realized == Sum(trades)
    requires s.profitFactor == if s.grossLoss > 0.0 then Some(s.grossProfit / s.grossLoss) else None
    ensures SoundMoney(trades, s)
  {
    GrossSigns(trades);
    NoLosersNoLoss(trades);
    hide Winning, Losing, Sum;
    if s.grossLoss > 0.0 {
      Factor(s.grossProfit, s.grossLoss);
    }
  }

  lemma CurveIsSound(trades: seq<Trade>, s: Stats)
    requires var curve := SortBy(trades, CLOSED_AT); s.maxDrawdown == Drawdown(curve, 0, |curve|)
    requires s.net == Sum(trades)
    ensures SoundCurve(trades, s)
  {
    hide Drawdown, Sum, SortBy;
    var curve := SortBy(trades, CLOSED_AT);
    CurveEndsAtTotal(trades);
    DrawdownIsLargestFall(curve, 0, |curve|);
    StartAndEnd(curve);
    hide Equity;
    assert Equity(curve, 0) - Equity(curve, |curve|) <= s.maxDrawdown;
    assert Equity(curve, 0) - Equity(curve, 0) <= s.maxDrawdown;
  }

  lemma StartAndEnd(curve: seq<Trade>)
    ensures Equity(curve, 0) == 0.0 && Equity(curve, |curve|) == Sum(curve)
  {
    assert curve[..|curve|] == curve;
  }

  lemma NoLosersNoLoss(trades: seq<Trade>)
    ensures Losing(trades) == [] ==> Sum(Losing(trades)) == 0.0
  {
  }
}
