/** Everything the loop of BlendHarness.dfy does to its parties, in order: each party also writes down how it is called
    and what it answers, and every run's record is spelled out event by event. */
module HarnessTrace {
  import opened Wrappers
  import opened BlendHarness

  /** One call of a party and its answer; the kill switch is read when the guard has answered. */
  datatype Entry<G> =
    | Priced(close: real, bid: real, ask: real)
    | Gated(open: bool)
    | Proposed(strategy: nat, view: View, proposal: Option<(G, string)>)
    | Sent(signal: G, name: string)
    | Guarded(action: Action, killed: bool)

  datatype Traced<W, G> = Traced(world: W, log: seq<Entry<G>>)

  function Noted<W, G>(w: W, log: seq<Entry<G>>, entry: Entry<G>): Traced<W, G> {
    Traced(w, log + [entry])
  }

  /** The same parties with their record. */
  function Recorded<W, G>(p: Parties<W, G>): Parties<Traced<W, G>, G> {
    Parties(
      (w: Traced<W, G>, close: real, bid: real, ask: real) =>
        Noted(p.prices(w.world, close, bid, ask), w.log, Priced(close, bid, ask)),
      (w: Traced<W, G>) => (Noted(p.gate(w.world).0, w.log, Gated(p.gate(w.world).1)), p.gate(w.world).1),
      p.strategies,
      (w: Traced<W, G>, view: View, i: nat) =>
        (Noted(p.propose(w.world, view, i).0, w.log, Proposed(i, view, p.propose(w.world, view, i).1)),
         p.propose(w.world, view, i).1),
      (w: Traced<W, G>, signal: G, name: string) =>
        Noted(p.route(w.world, signal, name), w.log, Sent(signal, name)),
      (w: Traced<W, G>) => p.positions(w.world),
      (w: Traced<W, G>) =>
        (Noted(p.guard(w.world).0, w.log, Guarded(p.guard(w.world).1, p.killed(p.guard(w.world).0))),
         p.guard(w.world).1),
      (w: Traced<W, G>) => p.killed(w.world))
  }

  // ----- what a turn looks like ----------------------------------------------------------------

  /** The strategies from number `i` on are asked one by one, all with the same view, and each proposal is sent on
      before the next one is asked. */
  ghost predicate IsRound<G>(calls: seq<Entry<G>>, view: View, i: nat, strategies: nat)
    decreases strategies - i
  {
    if i >= strategies then calls == []
    else
      && calls != [] && calls[0].Proposed? && calls[0].strategy == i && calls[0].view == view
      && match calls[0].proposal
         case None => IsRound(calls[1..], view, i + 1, strategies)
         case Some((signal, name)) =>
           |calls| >= 2 && calls[1] == Sent(signal, name) && IsRound(calls[2..], view, i + 1, strategies)
  }

  /** The prices of a bar: bid and ask half the configured spread off its close when costs are on, the close
      otherwise. */
  predicate IsPricing<G>(entry: Entry<G>, cfg: Config, bar: Bar) {
    var half := if cfg.costs && cfg.spread > 0.0 then cfg.spread * 0.5 else 0.0;
    entry == Priced(bar.close, bar.close - half, bar.close + half)
  }

  /** The spread shown: the configured one when costs are on, otherwise a hundredth of the bar's own pips. */
  predicate IsShown(spread: real, cfg: Config, bar: Bar) {
    spread == if cfg.costs then cfg.spread else if bar.spreadPips <= 0.0 then 0.0 else bar.spreadPips / 100.0
  }

  /** One turn: prices, then the gate, then, where it is open, a round of the strategies with the timeframe marked as
      completed, then the guard. */
  ghost predicate IsTurn<G>(log: seq<Entry<G>>, step: Step, cfg: Config, strategies: nat) {
    var n := |log|;
    && n >= 3 && IsPricing(log[0], cfg, step.event.bar) && log[1].Gated? && log[n - 1].Guarded?
    && IsShown(step.seen.spread, cfg, step.event.bar)
    && if log[1].open then
         exists view: View :: IsMarked(view, step) && IsRound(log[2..n - 1], view, 0, strategies)
       else log[2..n - 1] == []
  }

  /** What the strategies are shown: the stores and the spread of the turn, its timeframe completed. */
  predicate IsMarked(view: View, step: Step) {
    && view.stores == step.seen.stores && view.spread == step.seen.spread
    && step.event.frame in view.completed && view.completed[step.event.frame]
    && step.event.frame in step.seen.completed && !step.seen.completed[step.event.frame]
  }

  predicate IsStopping<G>(entry: Entry<G>) {
    entry.Guarded? && (entry.action != Normal || entry.killed)
  }

  function Flat<G>(turns: seq<seq<Entry<G>>>): seq<Entry<G>> {
    if turns == [] then [] else turns[0] + Flat(turns[1..])
  }

  /** The turns of a run that made these steps: one for each, and only a last one stops it. */
  ghost predicate AreTurns<G>(turns: seq<seq<Entry<G>>>, steps: seq<Step>, cfg: Config, strategies: nat,
          running: bool) {
    && |turns| == |steps|
    && (forall k :: 0 <= k < |turns| ==> IsTurn(turns[k], steps[k], cfg, strategies))
    && forall k :: 0 <= k < |turns| ==>
         (IsStopping(turns[k][|turns[k]| - 1]) <==> k == |turns| - 1 && !running)
  }

  // ----- every run leaves such a record ----------------------------------------------------------

  lemma PricesAre<W, G>(p: Parties<W, G>, w: Traced<W, G>, close: real, bid: real, ask: real)
    ensures Recorded(p).prices(w, close, bid, ask)
         == Noted(p.prices(w.world, close, bid, ask), w.log, Priced(close, bid, ask))
  {
  }

  lemma GateIs<W, G>(p: Parties<W, G>, w: Traced<W, G>)
    ensures Recorded(p).gate(w)
         == (Noted(p.gate(w.world).0, w.log, Gated(p.gate(w.world).1)), p.gate(w.world).1)
  {
  }

  lemma ProposeIs<W, G>(p: Parties<W, G>, w: Traced<W, G>, view: View, i: nat)
    ensures var answer := p.propose(w.world, view, i);
            Recorded(p).propose(w, view, i) == (Noted(answer.0, w.log, Proposed(i, view, answer.1)), answer.1)
    ensures Recorded(p).strategies == p.strategies
  {
  }

  lemma RouteIs<W, G>(p: Parties<W, G>, w: Traced<W, G>, signal: G, name: string)
    ensures Recorded(p).route(w, signal, name) == Noted(p.route(w.world, signal, name), w.log, Sent(signal, name))
  {
  }

  lemma GuardIs<W, G>(p: Parties<W, G>, w: Traced<W, G>)
    ensures var answer := p.guard(w.world);
            && Recorded(p).guard(w) == (Noted(answer.0, w.log, Guarded(answer.1, p.killed(answer.0))), answer.1)
            && Recorded(p).killed(w) == p.killed(w.world)
  {
  }

  lemma {:induction false} RoundIsRecorded<W, G>(p: Parties<W, G>, cfg: Config, st: State<Traced<W, G>>, i: nat)
    returns (calls: seq<Entry<G>>)
    ensures Evaluate(Recorded(p), cfg, st, i).world.log == st.world.log + calls
    ensures IsRound(calls, st.view, i, p.strategies)
    decreases p.strategies - i
  {
    if i >= p.strategies {
      calls := [];
      assert st.world.log + [] == st.world.log;
    } else {
      var next := AskOne(Recorded(p), cfg, st, i);
      var first := AskIsRecorded(p, cfg, st, i);
      var rest := RoundIsRecorded(p, cfg, next, i + 1);
      calls := first + rest;
      assert st.world.log + first + rest == st.world.log + calls;
      assert calls[|first|..] == rest;
      hide Evaluate, AskOne, Recorded;
    }
  }

  lemma AskIsRecorded<W, G>(p: Parties<W, G>, cfg: Config, st: State<Traced<W, G>>, i: nat)
    returns (calls: seq<Entry<G>>)
    requires i < p.strategies
    ensures var next := AskOne(Recorded(p), cfg, st, i);
            next.world.log == st.world.log + calls && next.view == st.view
    ensures 1 <= |calls| <= 2 && calls[0].Proposed? && calls[0].strategy == i && calls[0].view == st.view
    ensures match calls[0].proposal
            case None => |calls| == 1
            case Some((signal, name)) => |calls| == 2 && calls[1] == Sent(signal, name)
  {
    var proposal := p.propose(st.world.world, st.view, i).1;
    calls := [Proposed(i, st.view, proposal)];
    ProposeIs(p, st.world, st.view, i);
    var told := Recorded(p).propose(st.world, st.view, i).0;
    if proposal.Some? {
      RouteIs(p, told, proposal.value.0, proposal.value.1);
      calls := calls + [Sent(proposal.value.0, proposal.value.1)];
    }
  }

  /** Between gate and guard: a round of the strategies, or nothing. */
  ghost predicate IsTrading<G>(calls: seq<Entry<G>>, open: bool, before: View, after: View, frame: Frame,
          strategies: nat) {
    if !open then calls == [] && after == before
    else
      && after.stores == before.stores && after.spread == before.spread
      && frame in after.completed && !after.completed[frame]
      && exists view: View ::
           && view.stores == before.stores && view.spread == before.spread
           && frame in view.completed && view.completed[frame] && IsRound(calls, view, 0, strategies)
  }

  lemma TradeIsRecorded<W, G>(p: Parties<W, G>, cfg: Config, st: State<Traced<W, G>>, e: Event, open: bool)
    returns (calls: seq<Entry<G>>)
    ensures var done := Trade(Recorded(p), cfg, st, e, open);
            && done.world.log == st.world.log + calls
            && IsTrading(calls, open, st.view, done.view, e.frame, p.strategies)
  {
    calls := [];
    if open {
      var marked := st.(view := st.view.(completed := st.view.completed[e.frame := true]));
      calls := RoundIsRecorded(p, cfg, marked, 0);
      EvaluationKeepsTheRest(Recorded(p), cfg, marked, 0);
      hide Evaluate, Recorded, IsRound;
    }
  }

  lemma ArriveIsRecorded<W, G>(p: Parties<W, G>, cfg: Config, st: State<Traced<W, G>>, e: Event)
    returns (entry: Entry<G>)
    ensures var q := Recorded(p);
            var arrived := Arrive(q, cfg, st, e);
            var (world, open) := q.gate(arrived.world);
            && IsPricing(entry, cfg, e.bar) && IsShown(arrived.view.spread, cfg, e.bar)
            && world.log == st.world.log + [entry, Gated(open)]
  {
    var (bid, ask) := Quotes(cfg, e.bar.close);
    entry := Priced(e.bar.close, bid, ask);
    hide Push;
    var q := Recorded(p);
    PricesAre(p, st.world, e.bar.close, bid, ask);
    var priced := q.prices(st.world, e.bar.close, bid, ask);
    assert priced.log == st.world.log + [entry];
    assert Arrive(q, cfg, st, e).world == priced;
    var open := p.gate(priced.world).1;
    GateIs(p, priced);
    hide Recorded;
    assert st.world.log + [entry] + [Gated(open)] == st.world.log + [entry, Gated(open)];
  }

  lemma SettleIsRecorded<W, G>(p: Parties<W, G>, st: State<Traced<W, G>>, e: Event) returns (entry: Entry<G>)
    requires st.running
    ensures var after := Settle(Recorded(p), st, e);
            && entry.Guarded? && after.world.log == st.world.log + [entry]
            && after.steps == st.steps + [Step(e, st.view)] && after.view == st.view
            && (IsStopping(entry) <==> !after.running)
  {
    var guarded := p.guard(st.world.world);
    entry := Guarded(guarded.1, p.killed(guarded.0));
    GuardIs(p, st.world);
    GuardIs(p, Recorded(p).guard(st.world).0);
    hide Recorded;
  }

  lemma TurnIsRecorded<W, G>(p: Parties<W, G>, cfg: Config, st: State<Traced<W, G>>, e: Event)
    returns (turn: seq<Entry<G>>)
    requires st.running
    ensures var after := Turn(Recorded(p), cfg, st, e);
            && after.world.log == st.world.log + turn && after.steps == st.steps + [Step(e, after.view)]
            && IsTurn(turn, Step(e, after.view), cfg, p.strategies)
            && turn != [] && (IsStopping(turn[|turn| - 1]) <==> !after.running)
  {
    var q := Recorded(p);
    var arrived := Arrive(q, cfg, st, e);
    var (world, open) := q.gate(arrived.world);
    var gated := arrived.(world := world);
    var traded := Trade(q, cfg, gated, e, open);
    assert Turn(q, cfg, st, e) == Settle(q, traded, e) && gated.running by {
      hide Settle, Trade, Arrive, Recorded;
      assert Arrive(q, cfg, st, e).running by { ArriveKeepsRunning(q, cfg, st, e); }
    }
    hide *;
    var first := ArriveIsRecorded(p, cfg, st, e);
    var calls := TradeIsRecorded(p, cfg, gated, e, open);
    RoutingKeepsRunning(q, cfg, gated, e, open);
    TradeTrace(q, cfg, gated, e, open);
    var last := SettleIsRecorded(p, traded, e);
    turn := [first, Gated(open)] + calls + [last];
    assert turn[|turn| - 1] == last;
    Appended(st.world.log, [first, Gated(open)], calls, [last]);
    TurnIs(first, open, calls, last, Step(e, traded.view), arrived.view, cfg, p.strategies);
    ArriveKeepsSteps(q, cfg, st, e);
  }

  lemma Appended<T>(log: seq<T>, a: seq<T>, b: seq<T>, c: seq<T>)
    ensures log + a + b + c == log + (a + b + c)
  {
  }

  lemma ArriveKeepsSteps<W, G>(p: Parties<W, G>, cfg: Config, st: State<W>, e: Event)
    ensures Arrive(p, cfg, st, e).steps == st.steps
  {
    hide Push, Quotes;
  }

  lemma ArriveKeepsRunning<W, G>(p: Parties<W, G>, cfg: Config, st: State<W>, e: Event)
    ensures Arrive(p, cfg, st, e).running == st.running
  {
    hide Push, Quotes;
  }

  lemma TurnIs<G>(first: Entry<G>, open: bool, calls: seq<Entry<G>>, last: Entry<G>, step: Step, before: View,
          cfg: Config, strategies: nat)
    requires IsPricing(first, cfg, step.event.bar) && last.Guarded? && IsShown(before.spread, cfg, step.event.bar)
    requires IsTrading(calls, open, before, step.seen, step.event.frame, strategies)
    ensures IsTurn([first, Gated(open)] + calls + [last], step, cfg, strategies)
  {
    hide IsPricing, IsShown, IsRound;
    var log := [first, Gated(open)] + calls + [last];
    assert log[2..|log| - 1] == calls;
    if open {
      var view: View :| view.stores == before.stores && view.spread == before.spread
                     && step.event.frame in view.completed && view.completed[step.event.frame]
                     && IsRound(calls, view, 0, strategies);
      assert IsMarked(view, step);
    }
  }

  /** The record from one state to another is one turn after the other, one for each step made between them. */
  ghost predicate Leaves<W, G>(st: State<Traced<W, G>>, done: State<Traced<W, G>>, turns: seq<seq<Entry<G>>>,
          cfg: Config, strategies: nat) {
    && |done.steps| >= |st.steps| && done.steps[..|st.steps|] == st.steps
    && done.world.log == st.world.log + Flat(turns)
    && AreTurns(turns, done.steps[|st.steps|..], cfg, strategies, done.running)
    && (turns == [] ==> done.running)
  }

  /** Every run of every harness, whatever its parties do: its record is one turn after the other, exactly one for
      each step, in which prices are set before the gate is asked, the gate before any strategy, every proposal is
      sent before the next strategy is asked, and the guard comes last; and the run stops at the first turn whose
      guard or kill switch says so. */
  lemma {:induction false} RunIsRecorded<W, G>(p: Parties<W, G>, cfg: Config, st: State<Traced<W, G>>,
          events: seq<Event>)
    returns (turns: seq<seq<Entry<G>>>)
    requires st.running
    ensures Leaves(st, Run(Recorded(p), cfg, st, events), turns, cfg, p.strategies)
    decreases |events|
  {
    hide *;
    turns := [];
    if events == [] {
      NothingLeft(Recorded(p), cfg, st, p.strategies);
    } else {
      var q := Recorded(p);
      var turn := TurnIsRecorded(p, cfg, st, events[0]);
      var next := Turn(q, cfg, st, events[0]);
      RunFromTurn(q, cfg, st, events);
      var rest := [];
      if next.running {
        rest := RunIsRecorded(p, cfg, next, events[1..]);
      } else {
        StoppedHere(next, cfg, p.strategies);
      }
      turns := [turn] + rest;
      LeavesMore(st, next, Run(q, cfg, st, events), Step(events[0], next.view), turn, rest, cfg, p.strategies);
    }
  }

  lemma NothingLeft<W, G>(q: Parties<Traced<W, G>, G>, cfg: Config, st: State<Traced<W, G>>, strategies: nat)
    requires st.running
    ensures Leaves(st, Run(q, cfg, st, []), [], cfg, strategies)
  {
    assert st.world.log + [] == st.world.log && st.steps[|st.steps|..] == [];
    hide Turn;
  }

  /** What a stopped state leaves is itself. */
  ghost predicate Stopped<W, G>(next: State<Traced<W, G>>, done: State<Traced<W, G>>) {
    done == next && !next.running
  }

  lemma StoppedHere<W, G>(next: State<Traced<W, G>>, cfg: Config, strategies: nat)
    requires !next.running
    ensures Stopped(next, next)
  {
  }

  lemma LeavesMore<W, G>(st: State<Traced<W, G>>, next: State<Traced<W, G>>, done: State<Traced<W, G>>, step: Step,
          turn: seq<Entry<G>>, rest: seq<seq<Entry<G>>>, cfg: Config, strategies: nat)
    requires next.world.log == st.world.log + turn && next.steps == st.steps + [step]
    requires turn != [] && IsTurn(turn, step, cfg, strategies) && (IsStopping(turn[|turn| - 1]) <==> !next.running)
    requires if next.running then Leaves(next, done, rest, cfg, strategies) else Stopped(next, done) && rest == []
    ensures Leaves(st, done, [turn] + rest, cfg, strategies)
  {
    FlatMore(turn, rest);
    hide IsTurn, IsStopping, AreTurns, Flat;
    assert st.world.log + turn + Flat(rest) == st.world.log + (turn + Flat(rest));
    assert done.steps[..|next.steps|] == next.steps;
    StepsMore(st.steps, step, done.steps);
    MoreTurns(turn, rest, step, done.steps[|next.steps|..], cfg, strategies, next.running, done.running);
  }

  lemma StepsMore(before: seq<Step>, step: Step, after: seq<Step>)
    requires |after| > |before| && after[..|before| + 1] == before + [step]
    ensures after[..|before|] == before && after[|before|..] == [step] + after[|before| + 1..]
  {
    assert after[..|before|] == after[..|before| + 1][..|before|];
    assert after[|before|] == after[..|before| + 1][|before|];
  }

  lemma MoreTurns<G>(turn: seq<Entry<G>>, rest: seq<seq<Entry<G>>>, step: Step, steps: seq<Step>, cfg: Config,
          strategies: nat, goesOn: bool, running: bool)
    requires IsTurn(turn, step, cfg, strategies) && turn != [] && (IsStopping(turn[|turn| - 1]) <==> !goesOn)
    requires if goesOn then AreTurns(rest, steps, cfg, strategies, running) else rest == [] && steps == [] && !running
    requires goesOn && rest == [] ==> running
    ensures AreTurns([turn] + rest, [step] + steps, cfg, strategies, running)
  {
    hide IsStopping;
    var turns, all := [turn] + rest, [step] + steps;
    forall k | 0 <= k < |turns|
      ensures IsTurn(turns[k], all[k], cfg, strategies)
      ensures IsStopping(turns[k][|turns[k]| - 1]) <==> k == |turns| - 1 && !running
    {
      if k > 0 {
        assert turns[k] == rest[k - 1] && all[k] == steps[k - 1];
      }
      hide IsTurn;
    }
  }

  lemma RunFromTurn<W, G>(p: Parties<W, G>, cfg: Config, st: State<W>, events: seq<Event>)
    requires st.running && events != []
    ensures var next := Turn(p, cfg, st, events[0]);
            Run(p, cfg, st, events) == if next.running then Run(p, cfg, next, events[1..]) else next
  {
    hide Turn;
    var next := Turn(p, cfg, st, events[0]);
    assert Run(p, cfg, st, events) == Run(p, cfg, next, events[1..]);
  }

  lemma FlatMore<G>(turn: seq<Entry<G>>, rest: seq<seq<Entry<G>>>)
    ensures Flat([turn] + rest) == turn + Flat(rest)
    ensures Flat<G>([]) == []
  {
    assert ([turn] + rest)[1..] == rest;
  }
}
