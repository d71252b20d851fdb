/** The bar-by-bar evaluation loop of scripts/backtest_blend_harness.py.

    The engine's strategies, the paper trader, the guard and the kill switch are parties the loop only
    calls; they are functions over a world `W` about which nothing is assumed. */
module BlendHarness {
  import opened Wrappers
  import opened Sorting

  const MAX_BARS: nat := 500

  datatype Frame = M15 | H1

  /** A bar, stamped with the second it opens. */
  datatype Bar = Bar(time: int, close: real, spreadPips: real)

  datatype Event = Event(frame: Frame, bar: Bar)

  datatype Action = Normal | Freeze | Kill

  type Stores = map<Frame, seq<Bar>>

  /** What a strategy can read of the engine. */
  datatype View = View(stores: Stores, completed: map<Frame, bool>, spread: real)

  /** One call into the engine's evaluation asks `strategies` strategies in turn; each may route one signal. */
  datatype Parties<!W, !G> = Parties(
    prices: (W, real, real, real) -> W,
    gate: W -> (W, bool),
    strategies: nat,
    propose: (W, View, nat) -> (W, Option<(G, string)>),
    route: (W, G, string) -> W,
    positions: W -> set<int>,
    guard: W -> (W, Action),
    killed: W -> bool)

  datatype Config = Config(ids: map<string, string>, costs: bool, spread: real)

  // ----- the event stream ------------------------------------------------------------------------

  /** The sort key (time, 0 for H1 and 1 for M15), order-isomorphic to this integer. */
  const EVENT_KEY: Event -> int := (e: Event) => 2 * e.bar.time + (if e.frame.H1? then 0 else 1)

  const BAR_TIME: Bar -> int := (b: Bar) => b.time

  function Tagged(frame: Frame, bars: seq<Bar>): seq<Event> {
    seq(|bars|, i requires 0 <= i < |bars| => Event(frame, bars[i]))
  }

  function Merge(m15: seq<Bar>, h1: seq<Bar>): seq<Event> {
    SortBy(Tagged(M15, m15) + Tagged(H1, h1), EVENT_KEY)
  }

  /** The bars of one timeframe, in stream order. */
  function OfFrame(events: seq<Event>, frame: Frame): seq<Bar> {
    if events == [] then []
    else
      var before, last := OfFrame(events[..|events| - 1], frame), events[|events| - 1];
      if last.frame == frame then before + [last.bar] else before
  }

  function LastN<T>(xs: seq<T>, n: nat): seq<T> {
    if |xs| <= n then xs else xs[|xs| - n..]
  }

  // ----- one bar ---------------------------------------------------------------------------------

  function Lower(c: char): char {
    if 'A' <= c <= 'Z' then c - 'A' + 'a' else c
  }

  /** The default identifier: lower case, blanks to underscores. */
  function Slug(name: string): string {
    seq(|name|, i requires 0 <= i < |name| => if name[i] == ' ' then '_' else Lower(name[i]))
  }

  function StrategyId(ids: map<string, string>, name: string): string {
    if name in ids then ids[name] else Slug(name)
  }

  /** A routed signal: the name of its strategy and which position ids it created. */
  datatype Routed = Routed(name: string, created: set<int>)

  /** One call of strategy `strategy` while event number `event` was handled. */
  datatype Ask = Ask(event: nat, strategy: nat)

  /** One handled event and what the engine showed by its end. */
  datatype Step = Step(event: Event, seen: View)

  datatype State<!W> = State(
    view: View,
    world: W,
    owners: map<int, string>,
    running: bool,
    processed: nat,
    asked: seq<Ask>,
    routed: seq<Routed>,
    steps: seq<Step>)

  function Push(bars: seq<Bar>, bar: Bar): seq<Bar> {
    LastN(bars + [bar], MAX_BARS)
  }

  function StoreOf(stores: Stores, frame: Frame): seq<Bar> {
    if frame in stores then stores[frame] else []
  }

  /** Routing with the position book compared before and after. */
  function Route<W, G>(p: Parties<W, G>, cfg: Config, st: State<W>, signal: G, name: string): State<W> {
    var id := StrategyId(cfg.ids, name);
    var world := p.route(st.world, signal, name);
    var created := p.positions(world) - p.positions(st.world);
    st.(world := world,
        owners := st.owners + (map x | x in created :: id),
        routed := st.routed + [Routed(name, created)])
  }

  /** Strategy number `i` is asked; it may change the world even when it has nothing to route. */
  function AskOne<W, G>(p: Parties<W, G>, cfg: Config, st: State<W>, i: nat): State<W> {
    var (world, proposal) := p.propose(st.world, st.view, i);
    var told := st.(world := world, asked := st.asked + [Ask(|st.steps|, i)]);
    match proposal
    case None => told
    case Some((signal, name)) => Route(p, cfg, told, signal, name)
  }

  /** The strategies from number `i` on. */
  function Evaluate<W, G>(p: Parties<W, G>, cfg: Config, st: State<W>, i: nat): State<W>
    decreases p.strategies - i
  {
    if i >= p.strategies then st else Evaluate(p, cfg, AskOne(p, cfg, st, i), i + 1)
  }

  function SpreadFor(cfg: Config, bar: Bar): real {
    if cfg.costs then cfg.spread
    else if bar.spreadPips > 0.0 then bar.spreadPips * 0.01
    else 0.0
  }

  /** The bid and the ask around a close: apart by the spread when costs are on. */
  function Quotes(cfg: Config, close: real): (real, real) {
    var spreadPrice := if cfg.costs then cfg.spread else 0.0;
    if spreadPrice > 0.0 then (close - spreadPrice / 2.0, close + spreadPrice / 2.0) else (close, close)
  }

  /** The bar is stored, the trader repriced and the spread set. */
  function Arrive<W, G>(p: Parties<W, G>, cfg: Config, st: State<W>, e: Event): State<W> {
    var quotes := Quotes(cfg, e.bar.close);
    var stores := st.view.stores[e.frame := Push(StoreOf(st.view.stores, e.frame), e.bar)];
    st.(view := st.view.(stores := stores, spread := SpreadFor(cfg, e.bar)),
        world := p.prices(st.world, e.bar.close, quotes.0, quotes.1))
  }

  /** Evaluation of the bar, skipped when the pre-trade gate is closed. */
  function Trade<W, G>(p: Parties<W, G>, cfg: Config, st: State<W>, e: Event, open: bool): State<W> {
    if !open then st
    else
      var marked := st.(view := st.view.(completed := st.view.completed[e.frame := true]));
      var done := Evaluate(p, cfg, marked, 0);
      done.(view := done.view.(completed := done.view.completed[e.frame := false]))
  }

  /** The part of a turn before the guard. */
  function Traded<W, G>(p: Parties<W, G>, cfg: Config, st: State<W>, e: Event): State<W> {
    var arrived := Arrive(p, cfg, st, e);
    var (world, open) := p.gate(arrived.world);
    Trade(p, cfg, arrived.(world := world), e, open)
  }

  /** The guard after the bar freezes or kills, or the kill switch then reports a global kill. */
  predicate Fires<W, G>(p: Parties<W, G>, st: State<W>) {
    p.guard(st.world).1 in {Freeze, Kill} || p.killed(p.guard(st.world).0)
  }

  /** The end of a turn: the guard is updated, and the loop goes on unless something fired. */
  function Settle<W, G>(p: Parties<W, G>, st: State<W>, e: Event): State<W> {
    var settled := st.(world := p.guard(st.world).0, steps := st.steps + [Step(e, st.view)]);
    if Fires(p, st) then settled.(running := false) else settled.(processed := st.processed + 1)
  }

  function Turn<W, G>(p: Parties<W, G>, cfg: Config, st: State<W>, e: Event): State<W> {
    Settle(p, Traded(p, cfg, st, e), e)
  }

  function Run<W, G>(p: Parties<W, G>, cfg: Config, st: State<W>, events: seq<Event>): State<W>
    decreases |events|
  {
    if events == [] || !st.running then st
    else Run(p, cfg, Turn(p, cfg, st, events[0]), events[1..])
  }

  lemma {:induction false} EvaluationKeepsTheRest<W, G>(p: Parties<W, G>, cfg: Config, st: State<W>, i: nat)
    ensures var done := Evaluate(p, cfg, st, i);
            && done.view == st.view && done.running == st.running
            && done.processed == st.processed && done.steps == st.steps
    decreases p.strategies - i
  {
    if i < p.strategies {
      EvaluationKeepsTheRest(p, cfg, AskOne(p, cfg, st, i), i + 1);
    }
  }

  lemma RoutingKeepsRunning<W, G>(p: Parties<W, G>, cfg: Config, st: State<W>, e: Event, open: bool)
    ensures Trade(p, cfg, st, e, open).running == st.running
  {
    if open {
      EvaluationKeepsTheRest(p, cfg, st.(view := st.view.(completed := st.view.completed[e.frame := true])), 0);
      hide Evaluate;
    }
  }

  // ----- the loop --------------------------------------------------------------------------------

  class Harness<W, G> {
    const parties: Parties<W, G>
    const cfg: Config
    var bars: Stores
    var barCompleted: map<Frame, bool>
    var currentSpread: real
    var world: W
    var positionStrategy: map<int, string>
    var running: bool
    var barsProcessed: nat
    ghost var asked: seq<Ask>
    ghost var routed: seq<Routed>
    ghost var steps: seq<Step>

    constructor (parties: Parties<W, G>, cfg: Config, world: W)
      ensures this.parties == parties && this.cfg == cfg && Now() == Start(world)
    {
      this.parties, this.cfg, this.world := parties, cfg, world;
      bars, barCompleted, currentSpread := map[], map[], 0.0;
      positionStrategy, running, barsProcessed := map[], true, 0;
      asked, routed, steps := [], [], [];
    }

    ghost function Now(): State<W>
      reads this
    {
      var view := View(bars, barCompleted, currentSpread);
      State(view, world, positionStrategy, running, barsProcessed, asked, routed, steps)
    }

    method Attribute(created: set<int>, id: string)
      modifies this`positionStrategy
      ensures positionStrategy == old(positionStrategy) + (map x | x in created :: id)
    {
      var rest := created;
      while exists pid :: pid in rest
        invariant rest <= created
        invariant positionStrategy == old(positionStrategy) + (map x | x in created - rest :: id)
        decreases rest
      {
        var pid :| pid in rest;
        assert created - (rest - {pid}) == created - rest + {pid};
        positionStrategy := positionStrategy[pid := id];
        rest := rest - {pid};
      }
      assert created - rest == created;
    }

    method TrackedRoute(signal: G, name: string)
      modifies this
      ensures Now() == Route(parties, cfg, old(Now()), signal, name)
    {
      var id := StrategyId(cfg.ids, name);
      var before := parties.positions(world);
      world := parties.route(world, signal, name);
      var after := parties.positions(world);
      Attribute(after - before, id);
      routed := routed + [Routed(name, after - before)];
    }

    method AskStrategy(i: nat)
      modifies this
      ensures Now() == AskOne(parties, cfg, old(Now()), i)
    {
      var answer := parties.propose(world, View(bars, barCompleted, currentSpread), i);
      asked := asked + [Ask(|steps|, i)];
      world := answer.0;
      if answer.1.Some? {
        TrackedRoute(answer.1.value.0, answer.1.value.1);
      }
    }

    method EvaluateStrategies()
      modifies this
      ensures Now() == Evaluate(parties, cfg, old(Now()), 0)
    {
      hide AskOne;
      var i := 0;
      while i < parties.strategies
        invariant 0 <= i <= parties.strategies
        invariant Evaluate(parties, cfg, Now(), i) == Evaluate(parties, cfg, old(Now()), 0)
      {
        AskStrategy(i);
        i := i + 1;
      }
    }

    method StoreBar(e: Event)
      modifies this`bars
      ensures bars == old(bars)[e.frame := Push(StoreOf(old(bars), e.frame), e.bar)]
    {
      if e.frame !in bars {
        bars := bars[e.frame := []];
      }
      bars := bars[e.frame := bars[e.frame] + [e.bar]];
      if |bars[e.frame]| > MAX_BARS {
        bars := bars[e.frame := bars[e.frame][|bars[e.frame]| - MAX_BARS..]];
      }
      assert bars == old(bars)[e.frame := Push(StoreOf(old(bars), e.frame), e.bar)];
    }

    /** The part of the loop body before the pre-trade gate. */
    method StoreAndReprice(e: Event)
      modifies this
      ensures Now() == Arrive(parties, cfg, old(Now()), e)
    {
      hide Push, StoreOf, SpreadFor;
      StoreBar(e);
      var spreadPrice := if cfg.costs then cfg.spread else 0.0;
      var bid := if spreadPrice > 0.0 then e.bar.close - spreadPrice / 2.0 else e.bar.close;
      var ask := if spreadPrice > 0.0 then e.bar.close + spreadPrice / 2.0 else e.bar.close;
      world := parties.prices(world, e.bar.close, bid, ask);
      currentSpread := SpreadFor(cfg, e.bar);
    }

    /** The pre-trade gate and, where it is open, the evaluation. */
    method GatedEvaluation(e: Event) returns (open: bool)
      modifies this
      ensures open == parties.gate(old(world)).1
      ensures Now() == Trade(parties, cfg, old(Now()).(world := parties.gate(old(world)).0), e, open)
    {
      hide Evaluate;
      var gated := parties.gate(world);
      world, open := gated.0, gated.1;
      if open {
        barCompleted := barCompleted[e.frame := true];
        EvaluateStrategies();
        barCompleted := barCompleted[e.frame := false];
      }
    }

    /** The guard and kill-switch checks at the end of the loop body. */
    method GuardCheck(e: Event) returns (goOn: bool)
      requires running
      modifies this
      ensures Now() == Settle(parties, old(Now()), e) && goOn == running
    {
      var guarded := parties.guard(world);
      world, goOn := guarded.0, true;
      if guarded.1 == Freeze || guarded.1 == Kill {
        running, goOn := false, false;
      } else if parties.killed(world) {
        running, goOn := false, false;
      } else {
        barsProcessed := barsProcessed + 1;
      }
      steps := steps + [Step(e, old(Now()).view)];
    }

    /** One turn of the loop; `goOn` is false where the source breaks out of it. */
    method HandleEvent(e: Event) returns (goOn: bool)
      requires running
      modifies this
      ensures Now() == Turn(parties, cfg, old(Now()), e)
      ensures goOn == running
    {
      StoreAndReprice(e);
      ghost var arrived := Now();
      var open := GatedEvaluation(e);
      RoutingKeepsRunning(parties, cfg, arrived.(world := parties.gate(arrived.world).0), e, open);
      assert running;
      goOn := GuardCheck(e);
      hide Arrive, Trade, Settle;
    }

    /** Merges both series, sorts them and drives the loop until the events or the guards end it. */
    method Drive(m15: seq<Bar>, h1: seq<Bar>)
      requires running
      modifies this
      ensures Now() == Run(parties, cfg, old(Now()), Merge(m15, h1))
    {
      var events := [];
      for i := 0 to |m15|
        invariant events == Tagged(M15, m15[..i])
      {
        events := events + [Event(M15, m15[i])];
      }
      assert m15[..|m15|] == m15;
      for i := 0 to |h1|
        invariant events == Tagged(M15, m15) + Tagged(H1, h1[..i])
      {
        events := events + [Event(H1, h1[i])];
      }
      assert h1[..|h1|] == h1;
      events := SortBy(events, EVENT_KEY);
      hide SortBy, Turn;
      assert events == Merge(m15, h1);
      var i, goOn := 0, true;
      while i < |events| && goOn
        invariant 0 <= i <= |events| && goOn == running
        invariant Run(parties, cfg, Now(), events[i..]) == Run(parties, cfg, old(Now()), events)
        decreases |events| - i
      {
        assert events[i..][1..] == events[i + 1..];
        goOn := HandleEvent(events[i]);
        i := i + 1;
      }
    }
  }

  function Start<W>(world: W): State<W> {
    State(View(map[], map[], 0.0), world, map[], true, 0, [], [], [])
  }

  // ----- the merged stream -----------------------------------------------------------------------

  ghost predicate Chronological(events: seq<Event>) {
    forall i, j :: 0 <= i < j < |events| ==>
      && events[i].bar.time <= events[j].bar.time
      && (events[i].bar.time == events[j].bar.time && events[j].frame.H1? ==> events[i].frame.H1?)
  }

  /** The stream is a permutation of both bar lists in time order, H1 before M15 at equal times. */
  lemma StreamIsChronological(m15: seq<Bar>, h1: seq<Bar>)
    ensures multiset(Merge(m15, h1)) == multiset(Tagged(M15, m15)) + multiset(Tagged(H1, h1))
    ensures Chronological(Merge(m15, h1))
  {
    var all := Tagged(M15, m15) + Tagged(H1, h1);
    SortByCorrect(all, EVENT_KEY);
    hide SortBy;
    var events := Merge(m15, h1);
    forall i, j | 0 <= i < j < |events|
      ensures events[i].bar.time <= events[j].bar.time
      ensures events[i].bar.time == events[j].bar.time && events[j].frame.H1? ==> events[i].frame.H1?
    {
      assert EVENT_KEY(events[i]) <= EVENT_KEY(events[j]);
    }
  }

  lemma OfFrameAppends(events: seq<Event>, e: Event, frame: Frame)
    ensures e.frame == frame ==> OfFrame(events + [e], frame) == OfFrame(events, frame) + [e.bar]
    ensures e.frame != frame ==> OfFrame(events + [e], frame) == OfFrame(events, frame)
  {
    assert (events + [e])[..|events|] == events;
  }

  lemma {:induction false} OfFrameConcat(xs: seq<Event>, ys: seq<Event>, frame: Frame)
    ensures OfFrame(xs + ys, frame) == OfFrame(xs, frame) + OfFrame(ys, frame)
  {
    if ys == [] {
      assert xs + ys == xs;
    } else {
      var init, last := ys[..|ys| - 1], ys[|ys| - 1];
      OfFrameConcat(xs, init, frame);
      assert xs + ys == xs + init + [last];
      OfFrameAppends(xs + init, last, frame);
    }
  }

  lemma {:induction false} OfFrameMembers(events: seq<Event>, frame: Frame)
    ensures forall b :: b in OfFrame(events, frame) <==> Event(frame, b) in events
  {
    if events != [] {
      OfFrameMembers(events[..|events| - 1], frame);
      assert events == events[..|events| - 1] + [events[|events| - 1]];
    }
  }

  lemma InsertBelow<T>(xs: seq<T>, last: T, x: T, key: T -> int)
    requires key(last) > key(x)
    ensures InsertBy(xs + [last], x, key) == InsertBy(xs, x, key) + [last]
  {
    assert (xs + [last])[..|xs|] == xs;
  }

  lemma SortAppends<T>(xs: seq<T>, x: T, key: T -> int)
    ensures SortBy(xs + [x], key) == InsertBy(SortBy(xs, key), x, key)
  {
    assert (xs + [x])[..|xs|] == xs;
  }

  lemma InsertLastOfFrame(events: seq<Event>, e: Event, frame: Frame)
    requires SortedBy(events, EVENT_KEY) && (events == [] || EVENT_KEY(events[|events| - 1]) <= EVENT_KEY(e))
    requires e.frame == frame
    ensures InsertBy(OfFrame(events, frame), e.bar, BAR_TIME) == OfFrame(events, frame) + [e.bar]
  {
    OfFrameMembers(events, frame);
    var bars := OfFrame(events, frame);
    hide OfFrame;
    if bars != [] {
      var last := bars[|bars| - 1];
      assert last in bars;
      var i :| 0 <= i < |events| && events[i] == Event(frame, last);
      assert EVENT_KEY(events[i]) <= EVENT_KEY(events[|events| - 1]);
    }
  }

  /** Inserting an event inserts its bar in its own timeframe and leaves the other alone. */
  lemma {:induction false} InsertOfFrame(events: seq<Event>, e: Event, frame: Frame)
    requires SortedBy(events, EVENT_KEY)
    ensures OfFrame(InsertBy(events, e, EVENT_KEY), frame)
         == if e.frame == frame then InsertBy(OfFrame(events, frame), e.bar, BAR_TIME) else OfFrame(events, frame)
  {
    hide OfFrame;
    if events == [] || EVENT_KEY(events[|events| - 1]) <= EVENT_KEY(e) {
      OfFrameAppends(events, e, frame);
      if e.frame == frame {
        InsertLastOfFrame(events, e, frame);
      }
    } else {
      var init, last := events[..|events| - 1], events[|events| - 1];
      hide InsertBy;
      InsertOfFrame(init, e, frame);
      OfFrameAppends(InsertBy(init, e, EVENT_KEY), last, frame);
      OfFrameAppends(init, last, frame);
      assert events == init + [last];
      InsertBelow(init, last, e, EVENT_KEY);
      if e.frame == frame == last.frame {
        InsertBelow(OfFrame(init, frame), last.bar, e.bar, BAR_TIME);
      }
    }
  }

  lemma SortOneMore(events: seq<Event>, frame: Frame)
    requires events != []
    requires var init := events[..|events| - 1];
             OfFrame(SortBy(init, EVENT_KEY), frame) == SortBy(OfFrame(init, frame), BAR_TIME)
    ensures OfFrame(SortBy(events, EVENT_KEY), frame) == SortBy(OfFrame(events, frame), BAR_TIME)
  {
    var init, last := events[..|events| - 1], events[|events| - 1];
    assert events == init + [last];
    hide OfFrame, InsertBy, SortBy;
    SortByCorrect(init, EVENT_KEY);
    InsertOfFrame(SortBy(init, EVENT_KEY), last, frame);
    OfFrameAppends(init, last, frame);
    SortAppends(init, last, EVENT_KEY);
    if last.frame == frame {
      SortAppends(OfFrame(init, frame), last.bar, BAR_TIME);
    }
  }

  lemma SortsNothing(frame: Frame)
    ensures OfFrame(SortBy([], EVENT_KEY), frame) == SortBy(OfFrame([], frame), BAR_TIME)
  {
  }

  lemma {:induction false} SortOfFrame(events: seq<Event>, frame: Frame)
    ensures OfFrame(SortBy(events, EVENT_KEY), frame) == SortBy(OfFrame(events, frame), BAR_TIME)
  {
    if events == [] {
      SortsNothing(frame);
    } else {
      hide *;
      SortOfFrame(events[..|events| - 1], frame);
      SortOneMore(events, frame);
    }
  }

  lemma {:induction false} TaggedOfFrame(bars: seq<Bar>, tag: Frame, frame: Frame)
    ensures OfFrame(Tagged(tag, bars), frame) == if tag == frame then bars else []
  {
    if bars != [] {
      hide OfFrame;
      var init, last := bars[..|bars| - 1], bars[|bars| - 1];
      TaggedOfFrame(init, tag, frame);
      assert Tagged(tag, bars) == Tagged(tag, init) + [Event(tag, last)];
      OfFrameAppends(Tagged(tag, init), Event(tag, last), frame);
      assert bars == init + [last];
    }
  }

  lemma {:induction false} SortedStays<T>(xs: seq<T>, key: T -> int)
    requires SortedBy(xs, key)
    ensures SortBy(xs, key) == xs
  {
    if xs != [] {
      SortedStays(xs[..|xs| - 1], key);
      assert xs == xs[..|xs| - 1] + [xs[|xs| - 1]];
    }
  }

  /** Bars loaded in time order keep their order in the stream. */
  lemma StreamKeepsEachSeries(m15: seq<Bar>, h1: seq<Bar>)
    requires SortedBy(m15, BAR_TIME) && SortedBy(h1, BAR_TIME)
    ensures OfFrame(Merge(m15, h1), M15) == m15 && OfFrame(Merge(m15, h1), H1) == h1
  {
    SeriesIsKept(m15, h1, M15);
    SeriesIsKept(m15, h1, H1);
    hide *;
    SortedStays(m15, BAR_TIME);
    SortedStays(h1, BAR_TIME);
  }

  lemma SeriesIsKept(m15: seq<Bar>, h1: seq<Bar>, frame: Frame)
    ensures OfFrame(Merge(m15, h1), frame) == SortBy(if frame == M15 then m15 else h1, BAR_TIME)
  {
    hide OfFrame, SortBy, Tagged;
    OfFrameConcat(Tagged(M15, m15), Tagged(H1, h1), frame);
    TaggedOfFrame(m15, M15, frame);
    TaggedOfFrame(h1, H1, frame);
    SortOfFrame(Tagged(M15, m15) + Tagged(H1, h1), frame);
    assert m15 + [] == m15 && [] + h1 == h1;
  }

  // ----- every run -------------------------------------------------------------------------------

  lemma {:induction false} RunSplit<W, G>(p: Parties<W, G>, cfg: Config, st: State<W>, xs: seq<Event>, ys: seq<Event>)
    ensures Run(p, cfg, st, xs + ys) == Run(p, cfg, Run(p, cfg, st, xs), ys)
    decreases |xs|
  {
    hide Turn;
    if xs == [] {
      assert xs + ys == ys;
    } else if st.running {
      RunSplit(p, cfg, Turn(p, cfg, st, xs[0]), xs[1..], ys);
      assert (xs + ys)[1..] == xs[1..] + ys;
    }
  }

  lemma RunAppends<W, G>(p: Parties<W, G>, cfg: Config, st: State<W>, xs: seq<Event>, e: Event)
    ensures var done := Run(p, cfg, st, xs);
            Run(p, cfg, st, xs + [e]) == if done.running then Turn(p, cfg, done, e) else done
  {
    RunSplit(p, cfg, st, xs, [e]);
    hide Turn;
    var done := Run(p, cfg, st, xs);
    if done.running {
      assert Run(p, cfg, done, [e]) == Run(p, cfg, Turn(p, cfg, done, e), [e][1..]);
    }
  }

  /** Once the loop has halted, no later event has any effect. */
  lemma HaltIsFinal<W, G>(p: Parties<W, G>, cfg: Config, st: State<W>, xs: seq<Event>, ys: seq<Event>)
    requires !Run(p, cfg, st, xs).running
    ensures Run(p, cfg, st, xs + ys) == Run(p, cfg, st, xs)
  {
    RunSplit(p, cfg, st, xs, ys);
  }

  /** Each store is exactly the last 500 bars of its timeframe. */
  ghost predicate StoresHold(stores: Stores, seen: seq<Event>) {
    forall frame: Frame :: StoreOf(stores, frame) == LastN(OfFrame(seen, frame), 500)
  }

  /** What one turn does to the trace, whatever the parties do. */
  lemma TurnTrace<W, G>(p: Parties<W, G>, cfg: Config, st: State<W>, e: Event)
    requires st.running
    ensures var after := Turn(p, cfg, st, e);
            && after.view.stores == st.view.stores[e.frame := Push(StoreOf(st.view.stores, e.frame), e.bar)]
            && after.steps == st.steps + [Step(e, after.view)]
            && after.processed == st.processed + (if after.running then 1 else 0)
  {
    var arrived := Arrive(p, cfg, st, e);
    var (world, open) := p.gate(arrived.world);
    TradeTrace(p, cfg, arrived.(world := world), e, open);
    hide Trade, Push, Fires;
  }

  lemma TradeTrace<W, G>(p: Parties<W, G>, cfg: Config, st: State<W>, e: Event, open: bool)
    ensures var done := Trade(p, cfg, st, e, open);
            && done.view.stores == st.view.stores && done.running == st.running
            && done.processed == st.processed && done.steps == st.steps
  {
    if open {
      EvaluationKeepsTheRest(p, cfg, st.(view := st.view.(completed := st.view.completed[e.frame := true])), 0);
      hide Evaluate;
    }
  }

  lemma PushKeepsLast(bars: seq<Bar>, bar: Bar)
    ensures Push(LastN(bars, 500), bar) == LastN(bars + [bar], 500)
  {
  }

  lemma TurnStores<W, G>(p: Parties<W, G>, cfg: Config, st: State<W>, seen: seq<Event>, e: Event)
    requires st.running && StoresHold(st.view.stores, seen)
    ensures StoresHold(Turn(p, cfg, st, e).view.stores, seen + [e])
  {
    TurnTrace(p, cfg, st, e);
    var after := Turn(p, cfg, st, e).view.stores;
    forall frame: Frame ensures StoreOf(after, frame) == LastN(OfFrame(seen + [e], frame), 500) {
      OfFrameAppends(seen, e, frame);
      PushKeepsLast(OfFrame(seen, frame), e.bar);
      hide Turn, OfFrame, Push, LastN;
    }
  }

  /** A run's trace: it handled a prefix of the events, all of them unless it halted, and on each of them the stores
      held the last bars seen so far. */
  ghost predicate Orderly<W>(events: seq<Event>, done: State<W>) {
    var n := |done.steps|;
    && n <= |events|
    && (forall k :: 0 <= k < n ==> done.steps[k].event == events[k])
    && (forall k :: 0 <= k < n ==> StoresHold(done.steps[k].seen.stores, events[..k + 1]))
    && StoresHold(done.view.stores, events[..n])
    && (if done.running then n == |events| && done.processed == n else n > 0 && done.processed == n - 1)
  }

  lemma OrderlyTurn<W, G>(p: Parties<W, G>, cfg: Config, st: State<W>, xs: seq<Event>, e: Event)
    requires st.running && Orderly(xs, st)
    ensures Orderly(xs + [e], Turn(p, cfg, st, e))
  {
    hide StoresHold;
    var after, n, all := Turn(p, cfg, st, e), |xs|, xs + [e];
    assert xs[..n] == xs && all[..n + 1] == all;
    TurnTrace(p, cfg, st, e);
    TurnStores(p, cfg, st, xs, e);
    hide Turn, Push;
    forall k | 0 <= k < n
      ensures after.steps[k] == st.steps[k] && after.steps[k].event == all[k]
      ensures StoresHold(after.steps[k].seen.stores, all[..k + 1])
    {
      assert all[..k + 1] == xs[..k + 1];
    }
  }

  lemma OrderlyMore<W>(xs: seq<Event>, e: Event, done: State<W>)
    requires Orderly(xs, done) && !done.running
    ensures Orderly(xs + [e], done)
  {
    hide StoresHold;
    assert forall k :: 0 <= k <= |xs| ==> (xs + [e])[..k] == xs[..k];
  }

  /** Every run from a fresh harness is orderly. */
  lemma {:induction false} EveryRunIsOrderly<W, G>(p: Parties<W, G>, cfg: Config, world: W, events: seq<Event>)
    ensures Orderly(events, Run(p, cfg, Start(world), events))
  {
    hide Orderly, Turn, Run;
    if events != [] {
      var init, last := events[..|events| - 1], events[|events| - 1];
      EveryRunIsOrderly(p, cfg, world, init);
      RunAppends(p, cfg, Start(world), init, last);
      assert events == init + [last];
      var before := Run(p, cfg, Start(world), init);
      if before.running {
        OrderlyTurn(p, cfg, before, init, last);
      } else {
        OrderlyMore(init, last, before);
      }
    } else {
      FreshIsOrderly(p, cfg, world);
    }
  }

  lemma FreshIsOrderly<W, G>(p: Parties<W, G>, cfg: Config, world: W)
    ensures Run(p, cfg, Start(world), []) == Start(world) && Orderly([], Run(p, cfg, Start(world), []))
  {
    hide Turn;
  }

  // ----- the pre-trade gate ----------------------------------------------------------------------

  /** On a gated bar the strategies might as well not exist. */
  lemma GatedBarTradesNothing<W, G>(p: Parties<W, G>, cfg: Config, st: State<W>, e: Event)
    requires !p.gate(Arrive(p, cfg, st, e).world).1
    ensures Turn(p, cfg, st, e) == Turn(p.(strategies := 0), cfg, st, e)
    ensures Turn(p, cfg, st, e).owners == st.owners && Turn(p, cfg, st, e).routed == st.routed
  {
    hide Evaluate;
  }

  /** While the gate is closed on every bar, no run routes or attributes anything, and it is the run of a harness
      without strategies. */
  lemma {:induction false} ClosedGateRoutesNothing<W, G>(p: Parties<W, G>, cfg: Config, st: State<W>,
          events: seq<Event>)
    requires forall w: W :: !p.gate(w).1
    ensures var done := Run(p, cfg, st, events);
            && done == Run(p.(strategies := 0), cfg, st, events)
            && done.owners == st.owners && done.routed == st.routed
    decreases |events|
  {
    if events != [] && st.running {
      GatedBarTradesNothing(p, cfg, st, events[0]);
      hide Turn;
      ClosedGateRoutesNothing(p, cfg, Turn(p, cfg, st, events[0]), events[1..]);
    }
  }

  // ----- who is asked, and when the loop ends -----------------------------------------------------

  /** The state before event number `k`. */
  function Before<W, G>(p: Parties<W, G>, cfg: Config, world: W, events: seq<Event>, k: nat): State<W>
    requires k <= |events|
  {
    Run(p, cfg, Start(world), events[..k])
  }

  /** The gate's answer for event number `k`, once the bar is stored and the trader repriced. */
  predicate OpenAt<W, G>(p: Parties<W, G>, cfg: Config, world: W, events: seq<Event>, k: nat)
    requires k < |events|
  {
    p.gate(Arrive(p, cfg, Before(p, cfg, world, events, k), events[k]).world).1
  }

  /** Whether the guard or the kill switch fires after event number `k` has been traded. */
  predicate FiresAt<W, G>(p: Parties<W, G>, cfg: Config, world: W, events: seq<Event>, k: nat)
    requires k < |events|
  {
    Fires(p, Traded(p, cfg, Before(p, cfg, world, events, k), events[k]))
  }

  /** All strategies asked in turn, once. */
  function Everyone(event: nat, strategies: nat): seq<Ask> {
    seq(strategies, i requires 0 <= i < strategies => Ask(event, i))
  }

  /** On each of the first `n` events every strategy is asked when the gate is open, and none when it is closed. */
  function Asks<W, G>(p: Parties<W, G>, cfg: Config, world: W, events: seq<Event>, n: nat): seq<Ask>
    requires n <= |events|
  {
    if n == 0 then []
    else
      var before := Asks(p, cfg, world, events, n - 1);
      if OpenAt(p, cfg, world, events, n - 1) then before + Everyone(n - 1, p.strategies) else before
  }

  lemma {:induction false} EvaluationAsks<W, G>(p: Parties<W, G>, cfg: Config, st: State<W>, i: nat)
    requires i <= p.strategies
    ensures Evaluate(p, cfg, st, i).asked == st.asked + Everyone(|st.steps|, p.strategies)[i..]
    decreases p.strategies - i
  {
    if i < p.strategies {
      var all, next := Everyone(|st.steps|, p.strategies), AskOne(p, cfg, st, i);
      assert next.asked == st.asked + [Ask(|st.steps|, i)] && next.steps == st.steps;
      EvaluationAsks(p, cfg, next, i + 1);
      assert all[i..] == [Ask(|st.steps|, i)] + all[i + 1..];
    }
  }

  lemma TurnAsks<W, G>(p: Parties<W, G>, cfg: Config, st: State<W>, e: Event)
    ensures var open := p.gate(Arrive(p, cfg, st, e).world).1;
            Turn(p, cfg, st, e).asked == if open then st.asked + Everyone(|st.steps|, p.strategies) else st.asked
  {
    var arrived := Arrive(p, cfg, st, e);
    var (world, open) := p.gate(arrived.world);
    var gated := arrived.(world := world);
    var marked := gated.(view := gated.view.(completed := gated.view.completed[e.frame := true]));
    EvaluationAsks(p, cfg, marked, 0);
    hide Evaluate, Everyone, Fires;
    assert Everyone(|st.steps|, p.strategies)[0..] == Everyone(|st.steps|, p.strategies);
  }

  /** What a run did and why: every strategy was asked on exactly the handled events the gate let through, and the
      run ended at the first event after which the guard or the kill switch fired, or with the events. */
  ghost predicate Reasoned<W, G>(p: Parties<W, G>, cfg: Config, world: W, events: seq<Event>, done: State<W>) {
    var n := |done.steps|;
    && n <= |events| && done.asked == Asks(p, cfg, world, events, n)
    && (forall k :: 0 <= k < n ==> (FiresAt(p, cfg, world, events, k) <==> k == n - 1 && !done.running))
    && (if done.running then n == |events| else n > 0)
  }

  lemma {:induction false} AsksOfPrefix<W, G>(p: Parties<W, G>, cfg: Config, world: W, xs: seq<Event>, e: Event, n: nat)
    requires n <= |xs|
    ensures Asks(p, cfg, world, xs + [e], n) == Asks(p, cfg, world, xs, n)
  {
    hide OpenAt, FiresAt, Everyone;
    if n > 0 {
      AsksOfPrefix(p, cfg, world, xs, e, n - 1);
      PrefixDecides(p, cfg, world, xs, e, n - 1);
    }
  }

  lemma PrefixDecides<W, G>(p: Parties<W, G>, cfg: Config, world: W, xs: seq<Event>, e: Event, k: nat)
    requires k < |xs|
    ensures OpenAt(p, cfg, world, xs + [e], k) == OpenAt(p, cfg, world, xs, k)
    ensures FiresAt(p, cfg, world, xs + [e], k) == FiresAt(p, cfg, world, xs, k)
  {
    assert (xs + [e])[..k] == xs[..k];
    hide Run, Arrive, Traded, Fires;
  }

  lemma ReasonedMore<W, G>(p: Parties<W, G>, cfg: Config, world: W, xs: seq<Event>, e: Event, done: State<W>)
    requires Reasoned(p, cfg, world, xs, done) && !done.running
    ensures Reasoned(p, cfg, world, xs + [e], done)
  {
    AsksOfPrefix(p, cfg, world, xs, e, |done.steps|);
    hide FiresAt, Asks;
    forall k | 0 <= k < |done.steps|
      ensures FiresAt(p, cfg, world, xs + [e], k) == FiresAt(p, cfg, world, xs, k)
    {
      PrefixDecides(p, cfg, world, xs, e, k);
    }
  }

  lemma ReasonedTurn<W, G>(p: Parties<W, G>, cfg: Config, world: W, xs: seq<Event>, e: Event)
    requires var st := Run(p, cfg, Start(world), xs); Reasoned(p, cfg, world, xs, st) && st.running
    ensures Reasoned(p, cfg, world, xs + [e], Turn(p, cfg, Run(p, cfg, Start(world), xs), e))
  {
    hide Turn, Run, Fires, FiresAt, OpenAt, Traded, Everyone, Arrive, Push;
    var st, n, all := Run(p, cfg, Start(world), xs), |xs|, xs + [e];
    TurnAsks(p, cfg, st, e);
    TurnTrace(p, cfg, st, e);
    TurnFires(p, cfg, st, e);
    AsksOfPrefix(p, cfg, world, xs, e, n);
    LastDecides(p, cfg, world, xs, e);
    forall k | 0 <= k < n ensures FiresAt(p, cfg, world, all, k) == FiresAt(p, cfg, world, xs, k) {
      PrefixDecides(p, cfg, world, xs, e, k);
    }
  }

  lemma LastDecides<W, G>(p: Parties<W, G>, cfg: Config, world: W, xs: seq<Event>, e: Event)
    ensures var st, all := Run(p, cfg, Start(world), xs), xs + [e];
            && FiresAt(p, cfg, world, all, |xs|) == Fires(p, Traded(p, cfg, st, e))
            && OpenAt(p, cfg, world, all, |xs|) == p.gate(Arrive(p, cfg, st, e).world).1
  {
    hide Run, Fires, Traded, Arrive;
    var all := xs + [e];
    assert all[..|xs|] == xs && all[|xs|] == e;
  }

  lemma TurnFires<W, G>(p: Parties<W, G>, cfg: Config, st: State<W>, e: Event)
    requires st.running
    ensures Turn(p, cfg, st, e).running <==> !Fires(p, Traded(p, cfg, st, e))
  {
    var arrived := Arrive(p, cfg, st, e);
    var (world, open) := p.gate(arrived.world);
    TradeTrace(p, cfg, arrived.(world := world), e, open);
    hide Arrive, Trade, Fires;
  }

  /** Every run from a fresh harness: no strategy is asked on a gated bar and all are on every other, and the loop
      ends exactly at the first event after which the guard or the kill switch fires. */
  lemma {:induction false} EveryRunIsReasoned<W, G>(p: Parties<W, G>, cfg: Config, world: W, events: seq<Event>)
    ensures Reasoned(p, cfg, world, events, Run(p, cfg, Start(world), events))
  {
    hide Turn, Run;
    if events != [] {
      hide Reasoned;
      var init, last := events[..|events| - 1], events[|events| - 1];
      EveryRunIsReasoned(p, cfg, world, init);
      RunAppends(p, cfg, Start(world), init, last);
      assert events == init + [last];
      var before := Run(p, cfg, Start(world), init);
      if before.running {
        ReasonedTurn(p, cfg, world, init, last);
      } else {
        ReasonedMore(p, cfg, world, init, last, before);
      }
    } else {
      FreshIsOrderly(p, cfg, world);
    }
  }

  // ----- quotes ----------------------------------------------------------------------------------

  /** The quotes lie around the close; the spread the strategies see is the quoted one exactly when costs are on with
      no negative spread, or off with no spread on the bar: without costs, a bar's own spread is shown but not
      quoted. */
  lemma SpreadIsQuotedExactlyWhen<W, G>(p: Parties<W, G>, cfg: Config, st: State<W>, e: Event)
    ensures var (bid, ask) := Quotes(cfg, e.bar.close);
            && bid <= e.bar.close <= ask && bid + ask == 2.0 * e.bar.close
            && Arrive(p, cfg, st, e).world == p.prices(st.world, e.bar.close, bid, ask)
            && (Arrive(p, cfg, st, e).view.spread == ask - bid <==>
                 (if cfg.costs then cfg.spread >= 0.0 else e.bar.spreadPips <= 0.0))
  {
  }

  // ----- attribution -----------------------------------------------------------------------------

  /** The position book never forgets an id. */
  ghost predicate KeepsIds<W(!new), G(!new)>(p: Parties<W, G>) {
    && (forall w, a, b, c :: p.positions(w) <= p.positions(p.prices(w, a, b, c)))
    && (forall w :: p.positions(w) <= p.positions(p.gate(w).0))
    && (forall w, view, i :: p.positions(w) <= p.positions(p.propose(w, view, i).0))
    && (forall w, g, name :: p.positions(w) <= p.positions(p.route(w, g, name)))
    && (forall w :: p.positions(w) <= p.positions(p.guard(w).0))
  }

  /** The id of a strategy name: the configured one, or else the name in small letters with underscores for blanks. */
  predicate IsIdOf(ids: map<string, string>, name: string, id: string) {
    if name in ids then id == ids[name]
    else |id| == |name| && forall i :: 0 <= i < |name| ==> IsSmall(name[i], id[i])
  }

  predicate IsSmall(c: char, d: char) {
    if c == ' ' then d == '_'
    else if 65 <= c as int <= 90 then d as int == c as int + 32
    else d == c
  }

  lemma IdIsOfName(ids: map<string, string>, name: string)
    ensures IsIdOf(ids, name, StrategyId(ids, name))
  {
  }

  /** The attributed ids are exactly those that routing opened, each to the strategy of the one signal that opened
      it. */
  ghost predicate Attributed<W, G>(p: Parties<W, G>, cfg: Config, st: State<W>) {
    && (forall k, x :: 0 <= k < |st.routed| && x in st.routed[k].created ==>
          x in st.owners && IsIdOf(cfg.ids, st.routed[k].name, st.owners[x]))
    && (forall x :: x in st.owners ==> exists k :: 0 <= k < |st.routed| && x in st.routed[k].created)
    && (forall j, k, x :: 0 <= j < k < |st.routed| && x in st.routed[j].created ==> x !in st.routed[k].created)
    && st.owners.Keys <= p.positions(st.world)
  }

  lemma RouteAttributes<W(!new), G(!new)>(p: Parties<W, G>, cfg: Config, st: State<W>, signal: G, name: string)
    requires KeepsIds(p) && Attributed(p, cfg, st)
    ensures Attributed(p, cfg, Route(p, cfg, st, signal, name))
  {
    var after, n := Route(p, cfg, st, signal, name), |st.routed|;
    var news := p.positions(after.world) - p.positions(st.world);
    assert after.routed[n] == Routed(name, news);
    IdIsOfName(cfg.ids, name);
    hide StrategyId, IsIdOf;
    forall k, x | 0 <= k < n && x in st.routed[k].created ensures x !in news {
      assert x in st.owners.Keys;
    }
    forall x | x in after.owners ensures exists k :: 0 <= k < n + 1 && x in after.routed[k].created {
      if x in st.owners {
        var k :| 0 <= k < n && x in st.routed[k].created;
        assert x in after.routed[k].created;
      } else {
        assert x in after.routed[n].created;
      }
    }
  }

  lemma AskAttributes<W(!new), G(!new)>(p: Parties<W, G>, cfg: Config, st: State<W>, i: nat)
    requires KeepsIds(p) && Attributed(p, cfg, st)
    ensures Attributed(p, cfg, AskOne(p, cfg, st, i))
  {
    var (world, proposal) := p.propose(st.world, st.view, i);
    var told := st.(world := world, asked := st.asked + [Ask(|st.steps|, i)]);
    AttributedElsewhere(p, cfg, st, told);
    if proposal.Some? {
      RouteAttributes(p, cfg, told, proposal.value.0, proposal.value.1);
    }
    hide Attributed, Route, KeepsIds;
  }

  lemma {:induction false} EvaluateAttributes<W(!new), G(!new)>(p: Parties<W, G>, cfg: Config, st: State<W>, i: nat)
    requires KeepsIds(p) && Attributed(p, cfg, st)
    ensures Attributed(p, cfg, Evaluate(p, cfg, st, i))
    decreases p.strategies - i
  {
    if i < p.strategies {
      AskAttributes(p, cfg, st, i);
      hide Attributed, AskOne, KeepsIds;
      EvaluateAttributes(p, cfg, AskOne(p, cfg, st, i), i + 1);
    }
  }

  /** Attribution does not depend on the view, and survives a step of the world that keeps ids. */
  lemma AttributedElsewhere<W, G>(p: Parties<W, G>, cfg: Config, st: State<W>, after: State<W>)
    requires Attributed(p, cfg, st) && p.positions(st.world) <= p.positions(after.world)
    requires after.owners == st.owners && after.routed == st.routed
    ensures Attributed(p, cfg, after)
  {
  }

  lemma TurnAttributes<W(!new), G(!new)>(p: Parties<W, G>, cfg: Config, st: State<W>, e: Event)
    requires KeepsIds(p) && Attributed(p, cfg, st)
    ensures Attributed(p, cfg, Turn(p, cfg, st, e))
  {
    var arrived := Arrive(p, cfg, st, e);
    var (world, open) := p.gate(arrived.world);
    var gated := arrived.(world := world);
    assert Turn(p, cfg, st, e) == Settle(p, Trade(p, cfg, gated, e, open), e) by {
      hide Settle, Trade, Arrive;
    }
    hide *;
    ArriveAttributes(p, cfg, st, e);
    TradeAttributes(p, cfg, gated, e, open);
    SettleAttributes(p, cfg, Trade(p, cfg, gated, e, open), e);
  }

  lemma ArriveAttributes<W(!new), G(!new)>(p: Parties<W, G>, cfg: Config, st: State<W>, e: Event)
    requires KeepsIds(p) && Attributed(p, cfg, st)
    ensures var arrived := Arrive(p, cfg, st, e);
            Attributed(p, cfg, arrived) && Attributed(p, cfg, arrived.(world := p.gate(arrived.world).0))
  {
    var arrived := Arrive(p, cfg, st, e);
    AttributedElsewhere(p, cfg, st, arrived);
    AttributedElsewhere(p, cfg, arrived, arrived.(world := p.gate(arrived.world).0));
    hide Attributed;
  }

  lemma TradeAttributes<W(!new), G(!new)>(p: Parties<W, G>, cfg: Config, st: State<W>, e: Event, open: bool)
    requires KeepsIds(p) && Attributed(p, cfg, st)
    ensures Attributed(p, cfg, Trade(p, cfg, st, e, open))
  {
    hide Attributed, Evaluate, KeepsIds;
    if open {
      var marked := st.(view := st.view.(completed := st.view.completed[e.frame := true]));
      SameAttribution(p, cfg, st, marked);
      EvaluateAttributes(p, cfg, marked, 0);
      SameAttribution(p, cfg, Evaluate(p, cfg, marked, 0), Trade(p, cfg, st, e, open));
    }
  }

  lemma SettleAttributes<W(!new), G(!new)>(p: Parties<W, G>, cfg: Config, st: State<W>, e: Event)
    requires KeepsIds(p) && Attributed(p, cfg, st)
    ensures Attributed(p, cfg, Settle(p, st, e))
  {
    AttributedElsewhere(p, cfg, st, Settle(p, st, e));
    hide Attributed, Fires;
  }

  lemma SameAttribution<W, G>(p: Parties<W, G>, cfg: Config, st: State<W>, after: State<W>)
    requires Attributed(p, cfg, st)
    requires after.owners == st.owners && after.routed == st.routed && after.world == st.world
    ensures Attributed(p, cfg, after)
  {
    AttributedElsewhere(p, cfg, st, after);
  }

  /** Over a whole run, every position opened by routing, and no other, is attributed, and to its opener. */
  lemma {:induction false} EveryRunAttributes<W(!new), G(!new)>(p: Parties<W, G>, cfg: Config, st: State<W>,
          events: seq<Event>)
    requires KeepsIds(p) && Attributed(p, cfg, st)
    ensures Attributed(p, cfg, Run(p, cfg, st, events))
    decreases |events|
  {
    if events != [] && st.running {
      TurnAttributes(p, cfg, st, events[0]);
      hide Turn, Attributed, KeepsIds;
      EveryRunAttributes(p, cfg, Turn(p, cfg, st, events[0]), events[1..]);
    }
  }

  // ----- what an evaluation sees -----------------------------------------------------------------

  /** The bars stamped at or before `t`. */
  function Through(bars: seq<Bar>, t: int): seq<Bar> {
    if bars == [] then []
    else
      var before, last := Through(bars[..|bars| - 1], t), bars[|bars| - 1];
      if last.time <= t then before + [last] else before
  }

  lemma {:induction false} ThroughMembers(bars: seq<Bar>, t: int)
    ensures forall b :: b in Through(bars, t) <==> b in bars && b.time <= t
  {
    if bars != [] {
      ThroughMembers(bars[..|bars| - 1], t);
      assert bars == bars[..|bars| - 1] + [bars[|bars| - 1]];
    }
  }

  lemma ThroughAppends(bars: seq<Bar>, b: Bar, t: int)
    ensures b.time <= t ==> Through(bars + [b], t) == Through(bars, t) + [b]
    ensures b.time > t ==> Through(bars + [b], t) == Through(bars, t)
  {
    assert (bars + [b])[..|bars|] == bars;
  }

  lemma {:induction false} PrefixIsThrough(xs: seq<Event>, frame: Frame, t: int)
    requires forall e :: e in xs && e.frame == frame ==> e.bar.time <= t
    ensures Through(OfFrame(xs, frame), t) == OfFrame(xs, frame)
  {
    if xs != [] {
      var init, last := xs[..|xs| - 1], xs[|xs| - 1];
      assert xs == init + [last];
      PrefixIsThrough(init, frame, t);
      ThroughAppends(OfFrame(init, frame), last.bar, t);
      OfFrameAppends(init, last, frame);
      hide OfFrame, Through;
    }
  }

  lemma {:induction false} SplitIsThrough(xs: seq<Event>, ys: seq<Event>, frame: Frame, t: int)
    requires forall e :: e in xs && e.frame == frame ==> e.bar.time <= t
    requires forall e :: e in ys && e.frame == frame ==> e.bar.time > t
    ensures Through(OfFrame(xs + ys, frame), t) == OfFrame(xs, frame)
  {
    hide OfFrame, Through;
    if ys == [] {
      PrefixIsThrough(xs, frame, t);
      assert xs + ys == xs;
    } else {
      var init, last := ys[..|ys| - 1], ys[|ys| - 1];
      assert ys == init + [last];
      SplitIsThrough(xs, init, frame, t);
      assert xs + ys == xs + init + [last];
      OfFrameAppends(xs + init, last, frame);
      ThroughAppends(OfFrame(xs + init, frame), last.bar, t);
    }
  }

  /** The newest stamp of the other timeframe that event `e` can see: an M15 event sees the H1 bars up to its own
      second, an H1 event only the M15 bars before it. */
  function Horizon(e: Event): int {
    if e.frame.H1? then e.bar.time - 1 else e.bar.time
  }

  function Other(frame: Frame): Frame {
    if frame.H1? then M15 else H1
  }

  lemma HorizonSplits(events: seq<Event>, k: nat)
    requires Chronological(events) && k < |events|
    ensures var e := events[k];
            && (forall x :: x in events[..k + 1] && x.frame == Other(e.frame) ==> x.bar.time <= Horizon(e))
            && (forall y :: y in events[k + 1..] && y.frame == Other(e.frame) ==> y.bar.time > Horizon(e))
  {
    var e, ys := events[k], events[k + 1..];
    forall x | x in events[..k + 1] && x.frame == Other(e.frame) ensures x.bar.time <= Horizon(e) {
      var i :| 0 <= i < k + 1 && events[i] == x;
      assert i < k;
    }
    forall y | y in ys && y.frame == Other(e.frame) ensures y.bar.time > Horizon(e) {
      var j :| 0 <= j < |ys| && ys[j] == y;
      assert y == events[k + 1 + j];
    }
  }

  /** When an event is handled, the bars of the other timeframe so far are exactly those up to the horizon. */
  lemma EventSeesOtherFrame(m15: seq<Bar>, h1: seq<Bar>, k: nat)
    requires SortedBy(m15, BAR_TIME) && SortedBy(h1, BAR_TIME) && k < |Merge(m15, h1)|
    ensures var events, e := Merge(m15, h1), Merge(m15, h1)[k];
            OfFrame(events[..k + 1], Other(e.frame)) == Through(if e.frame.H1? then m15 else h1, Horizon(e))
  {
    hide *;
    StreamIsChronological(m15, h1);
    StreamKeepsEachSeries(m15, h1);
    var events, e := Merge(m15, h1), Merge(m15, h1)[k];
    HorizonSplits(events, k);
    assert events == events[..k + 1] + events[k + 1..];
    SplitIsThrough(events[..k + 1], events[k + 1..], Other(e.frame), Horizon(e));
    OtherFrameIs(e.frame);
  }

  lemma OtherFrameIs(frame: Frame)
    ensures Other(frame) == if frame.H1? then M15 else H1
  {
  }

  /** On the k-th bar of any run, the strategies see of the other timeframe the last 500 bars up to the horizon. */
  lemma RunSeesOtherFrame<W, G>(p: Parties<W, G>, cfg: Config, world: W, m15: seq<Bar>, h1: seq<Bar>, k: nat)
    requires SortedBy(m15, BAR_TIME) && SortedBy(h1, BAR_TIME)
    requires k < |Run(p, cfg, Start(world), Merge(m15, h1)).steps|
    ensures var step := Run(p, cfg, Start(world), Merge(m15, h1)).steps[k];
            StoreOf(step.seen.stores, Other(step.event.frame))
            == LastN(Through(if step.event.frame.H1? then m15 else h1, Horizon(step.event)), 500)
  {
    EveryRunIsOrderly(p, cfg, world, Merge(m15, h1));
    hide Run, Merge, OfFrame, Through, LastN;
    EventSeesOtherFrame(m15, h1, k);
  }

  lemma {:induction false} ThroughKeepsLast(bars: seq<Bar>, t: int, b: Bar)
    requires SortedBy(bars, BAR_TIME) && b in bars && b.time <= t
    ensures var seen := Through(bars, t); seen != [] && b.time <= seen[|seen| - 1].time
  {
    var init, last := bars[..|bars| - 1], bars[|bars| - 1];
    assert bars == init + [last];
    if last.time > t {
      assert b in init;
      ThroughKeepsLast(init, t, b);
    } else if b != last {
      var i :| 0 <= i < |init| && init[i] == b;
      assert BAR_TIME(bars[i]) <= BAR_TIME(bars[|bars| - 1]);
    }
  }

  /** A bar seen while an M15 bar opened at `t` is evaluated is finished when it closes no later than that bar. */
  predicate Finished(b: Bar, t: int) {
    b.time + 60 * 60 <= t + 15 * 60
  }

  /** Stamped by opening second, the H1 window of an M15 evaluation holds only finished bars exactly when no H1 bar
      opened within the 45 minutes up to and including `t`: only the last quarter of an hour is free of look-ahead
      on gapless data, whatever the H1-before-M15 order was meant to give. */
  lemma WindowIsFinishedExactlyWhen(h1: seq<Bar>, t: int)
    requires SortedBy(h1, BAR_TIME)
    ensures (forall b :: b in LastN(Through(h1, t), 500) ==> Finished(b, t))
       <==> (forall b :: b in h1 ==> !(t - 45 * 60 < b.time <= t))
  {
    ThroughMembers(h1, t);
    var seen := Through(h1, t);
    var window := LastN(seen, 500);
    forall b | b in h1 && t - 45 * 60 < b.time <= t
      ensures exists c :: c in window && !Finished(c, t)
    {
      ThroughKeepsLast(h1, t, b);
      assert window[|window| - 1] == seen[|seen| - 1];
      assert seen[|seen| - 1] in window && !Finished(seen[|seen| - 1], t);
    }
    assert forall b :: b in window ==> b in seen;
  }
}
