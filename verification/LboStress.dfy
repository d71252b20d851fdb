/** The cost-stressed simulator of scripts/lbo_cost_stress.py: `run_lbo` and `per_trade_cost`. */
module LboStress {
  import opened Wrappers
  import opened Reals
  import opened Positions
  import opened StrategyCalls
  import Study = GateStudy

  const MAX_BARS_HELD: nat := 50
  const MIN_STOP: real := 0.0001

  datatype Costs = Costs(spread: real, commission: real, slippage: real)

  const FREE := Costs(0.0, 0.0, 0.0)

  /** One round turn in dollars. */
  function PerTradeCost(qty: real, c: Costs): real {
    c.spread * qty * 0.10 + c.commission * qty + 2.0 * c.slippage * qty * 0.10
  }

  /** The share of a round turn charged to a booking. */
  function Weight(k: Kind): real {
    if k.Partial? then 0.3 else 0.5
  }

  datatype Setup<!S> = Setup(init: S, strategy: Strategy<S>, labels: seq<Study.Label>)

  predicate GateOk(l: Study.Label) {
    15.0 <= l.adx <= 30.0 && l.session == Study.London
  }

  function Charged(p: Position, kind: Kind, gross: real, c: Costs): real {
    gross - PerTradeCost(p.qty, c) * Weight(kind)
  }

  /** Slippage moves the entry; the quantity is still sized on the signal's own distance. */
  function OpenAt(sig: Signal, i: nat, c: Costs): Episode {
    var qty := RISK / Max(Abs(sig.entry - sig.stop), MIN_STOP);
    var shift := c.slippage * 0.10;
    var entry := if sig.dir == Long then sig.entry + shift else sig.entry - shift;
    Episode(sig, Position(sig.dir, entry, sig.stop, qty, i, 0), [])
  }

  function TakePartials(e: Episode, bar: Bar, i: nat, rm: nat, c: Costs): Episode
    decreases 4 - rm
  {
    if rm > 3 then e
    else if e.pos.partials == rm - 1 && Reaches(e.pos, bar, rm) then
      var pnl := Charged(e.pos, Partial(rm), Gain(e.pos, Target(e.pos, rm)) / 3.0, c);
      TakePartials(Book(e, Partial(rm), i, pnl).(pos := e.pos.(partials := rm)), bar, i, rm + 1, c)
    else TakePartials(e, bar, i, rm + 1, c)
  }

  function Manage(e: Episode, bar: Bar, i: nat, c: Costs): (Episode, bool) {
    if StopHit(e.pos, bar) then (Book(e, StopOut, i, Charged(e.pos, StopOut, -RISK, c)), true)
    else
      var e' := TakePartials(e, bar, i, 1, c);
      if e'.pos.partials >= 3 then (e', true)
      else if i - e'.pos.entryBar >= MAX_BARS_HELD then
        (Book(e', Timeout, i, Charged(e'.pos, Timeout, Gain(e'.pos, bar.close), c)), true)
      else (e', false)
  }

  function Step<S>(setup: Setup<S>, c: Costs, bars: seq<Bar>, st: State<S>, i: nat): State<S>
    requires i < |bars| == |setup.labels|
  {
    var (open, closed) :=
      if st.open.None? then (None, st.closed)
      else
        var (e, done) := Manage(st.open.value, bars[i], i, c);
        if done then (None, st.closed + [e]) else (Some(e), st.closed);
    if open.Some? || !GateOk(setup.labels[i]) then State(st.s, open, closed)
    else
      var (s, answer) := setup.strategy(st.s, bars[..i + 1]);
      State(s, if answer.Fires? then Some(OpenAt(answer.signal, i, c)) else None, closed)
  }

  function After<S>(setup: Setup<S>, c: Costs, bars: seq<Bar>, k: nat): State<S>
    requires k <= |bars| == |setup.labels|
  {
    if k == 0 then State(setup.init, None, []) else Step(setup, c, bars, After(setup, c, bars, k - 1), k - 1)
  }

  function Finish<S>(st: State<S>, c: Costs, bars: seq<Bar>): seq<Episode>
    requires st.open.Some? ==> bars != []
  {
    if st.open.None? then st.closed
    else
      var e := st.open.value;
      var gross := Gain(e.pos, bars[|bars| - 1].close);
      st.closed + [Book(e, EndOfData, |bars| - 1, Charged(e.pos, EndOfData, gross, c))]
  }

  function Episodes<S>(setup: Setup<S>, c: Costs, bars: seq<Bar>): seq<Episode>
    requires |bars| == |setup.labels|
  {
    Finish(After(setup, c, bars, |bars|), c, bars)
  }

  // ----- the loop as the script runs it ------------------------------------------------------

  /** The `rm`-R target taken, if it is next and reached. */
  function TakeOne(e: Episode, bar: Bar, i: nat, rm: nat, c: Costs): Episode {
    if e.pos.partials + 1 == rm && Reaches(e.pos, bar, rm) then
      var pnl := Charged(e.pos, Partial(rm), Gain(e.pos, Target(e.pos, rm)) / 3.0, c);
      Book(e, Partial(rm), i, pnl).(pos := e.pos.(partials := rm))
    else e
  }

  lemma TakePartialsTurn(e: Episode, bar: Bar, i: nat, rm: nat, c: Costs)
    requires rm <= 3
    ensures TakePartials(e, bar, i, rm, c) == TakePartials(TakeOne(e, bar, i, rm, c), bar, i, rm + 1, c)
  {
    hide Gain, Target, Reaches, Charged;
  }

  lemma NoTargetLeft(e: Episode, bar: Bar, i: nat, c: Costs)
    ensures TakePartials(e, bar, i, 4, c) == e
  {
  }

  /** What a target taken does to the position and to the list of trades. */
  lemma TakeOneBooks(e: Episode, bar: Bar, i: nat, rm: nat, c: Costs)
    ensures var taken := TakeOne(e, bar, i, rm, c);
            if e.pos.partials + 1 == rm && Reaches(e.pos, bar, rm) then
              && taken.pos == e.pos.(partials := rm)
              && Pnls(taken.bookings)
              == Pnls(e.bookings) + [Gain(e.pos, Target(e.pos, rm)) / 3.0 - PerTradeCost(e.pos.qty, c) * 0.3]
            else taken == e
  {
    var pnl := Gain(e.pos, Target(e.pos, rm)) / 3.0 - PerTradeCost(e.pos.qty, c) * 0.3;
    BookAppends(e, Partial(rm), i, pnl);
    hide Gain, Target, Reaches, PerTradeCost, Pnls;
  }

  /** The inner loop over the three targets. */
  method TakeTargets(p: Position, bar: Bar, i: nat, c: Costs, ghost e: Episode)
    returns (pos: Position, trades: seq<real>)
    requires p == e.pos
    ensures var e' := TakePartials(e, bar, i, 1, c);
            pos == e'.pos && Pnls(e'.bookings) == Pnls(e.bookings) + trades
  {
    hide *;
    pos, trades := p, [];
    ghost var now := e;
    for rm := 1 to 4
      invariant now.pos == pos && Pnls(now.bookings) == Pnls(e.bookings) + trades
      invariant TakePartials(e, bar, i, 1, c) == TakePartials(now, bar, i, rm, c)
    {
      TakePartialsTurn(now, bar, i, rm, c);
      TakeOneBooks(now, bar, i, rm, c);
      now := TakeOne(now, bar, i, rm, c);
      if rm - 1 == pos.partials && Reaches(pos, bar, rm) {
        var pnl := Gain(pos, Target(pos, rm)) / 3.0;
        pnl := pnl - PerTradeCost(pos.qty, c) * 0.3;
        trades := trades + [pnl];
        pos := pos.(partials := rm);
      }
    }
    NoTargetLeft(now, bar, i, c);
  }

  lemma BookAppends(e: Episode, kind: Kind, i: nat, pnl: real)
    ensures Pnls(Book(e, kind, i, pnl).bookings) == Pnls(e.bookings) + [pnl]
  {
  }

  method ManagePosition(p: Position, bar: Bar, i: nat, c: Costs, ghost e: Episode)
    returns (after: Option<Position>, trades: seq<real>)
    requires p == e.pos
    ensures var (e', done) := Manage(e, bar, i, c);
            && after == (if done then None else Some(e'.pos))
            && Pnls(e'.bookings) == Pnls(e.bookings) + trades
  {
    hide Gain, StopHit, PerTradeCost, TakePartials, Pnls;
    ghost var e' := TakePartials(e, bar, i, 1, c);
    if StopHit(p, bar) {
      var loss := -RISK - PerTradeCost(p.qty, c) * 0.5;
      BookAppends(e, StopOut, i, loss);
      return None, [loss];
    }
    var pos;
    pos, trades := TakeTargets(p, bar, i, c, e);
    if pos.partials >= 3 {
      return None, trades;
    }
    if i - pos.entryBar >= MAX_BARS_HELD {
      var pnl := Gain(pos, bar.close) - PerTradeCost(pos.qty, c) * 0.5;
      BookAppends(e', Timeout, i, pnl);
      return None, trades + [pnl];
    }
    return Some(pos), trades;
  }

  method RunLbo<S>(setup: Setup<S>, c: Costs, bars: seq<Bar>) returns (trades: seq<real>)
    requires |bars| == |setup.labels|
    ensures trades == Pnls(Ledger(Episodes(setup, c, bars)))
  {
    hide Manage, Gain, PerTradeCost, GateOk, Pnls, Ledger;
    var s := setup.init;
    var pos: Option<Position> := None;
    trades := [];
    ghost var st := After(setup, c, bars, 0);
    Study.NothingBooked(setup.init);
    for i := 0 to |bars|
      invariant st == After(setup, c, bars, i)
      invariant s == st.s && pos == (if st.open.Some? then Some(st.open.value.pos) else None)
      invariant trades == Pnls(Bookings(st))
    {
      ghost var was := st;
      st := After(setup, c, bars, i + 1);
      if pos.Some? {
        var after, booked := ManagePosition(pos.value, bars[i], i, c, was.open.value);
        LedgerManaged(was, bars[i], i, c, booked);
        pos, trades := after, trades + booked;
      }
      if pos.Some? || !GateOk(setup.labels[i]) {
        continue;
      }
      var (s', answer) := setup.strategy(s, bars[..i + 1]);
      s := s';
      if answer.Fires? {
        pos := Some(OpenAt(answer.signal, i, c).pos);
      }
    }
    if pos.Some? {
      var last := bars[|bars| - 1];
      trades := trades + [Gain(pos.value, last.close) - PerTradeCost(pos.value.qty, c) * 0.5];
      LedgerFinished(st, c, bars);
    }
  }

  lemma LedgerManaged<S>(st: State<S>, bar: Bar, i: nat, c: Costs, booked: seq<real>)
    requires st.open.Some?
    requires Pnls(Manage(st.open.value, bar, i, c).0.bookings) == Pnls(st.open.value.bookings) + booked
    ensures var (e', done) := Manage(st.open.value, bar, i, c);
            var open := if done then None else Some(e');
            var closed := if done then st.closed + [e'] else st.closed;
            Pnls(Bookings(State(st.s, open, closed))) == Pnls(Bookings(st)) + booked
  {
    hide Manage;
    Study.LedgerReplaced(st, Manage(st.open.value, bar, i, c).0, booked);
  }

  lemma LedgerFinished<S>(st: State<S>, c: Costs, bars: seq<Bar>)
    requires st.open.Some? && bars != []
    ensures var p := st.open.value.pos;
            var pnl := Gain(p, bars[|bars| - 1].close) - PerTradeCost(p.qty, c) * 0.5;
            Pnls(Ledger(Finish(st, c, bars))) == Pnls(Bookings(st)) + [pnl]
  {
    var e := Finish(st, c, bars)[|st.closed|];
    hide Gain, PerTradeCost;
    Study.LedgerAppend(st.closed, e);
    Study.PnlsAppend(Ledger(st.closed), e.bookings);
    Study.PnlsAppend(Ledger(st.closed), st.open.value.bookings);
  }

  // ----- costs only subtract, as long as slippage stays the same ------------------------------

  /** The costs without spread and commission: slippage alone decides entries and targets. */
  function SlipOnly(c: Costs): Costs {
    Costs(0.0, 0.0, c.slippage)
  }

  /** Spread and commission, which only subtract. */
  function Fees(c: Costs): Costs {
    Costs(c.spread, c.commission, 0.0)
  }

  /** The same position with every booking charged `c`. */
  function Charge(e: Episode, c: Costs): Episode {
    e.(bookings := seq(|e.bookings|, j requires 0 <= j < |e.bookings| =>
      e.bookings[j].(pnl := Charged(e.pos, e.bookings[j].kind, e.bookings[j].pnl, c))))
  }

  function ChargeAll(es: seq<Episode>, c: Costs): seq<Episode> {
    seq(|es|, j requires 0 <= j < |es| => Charge(es[j], c))
  }

  function ChargeState<S>(st: State<S>, c: Costs): State<S> {
    State(st.s, if st.open.None? then None else Some(Charge(st.open.value, c)), ChargeAll(st.closed, c))
  }

  lemma ChargeBook(e: Episode, kind: Kind, bar: nat, gross: real, c: Costs)
    ensures Charge(Book(e, kind, bar, gross), c) == Book(Charge(e, c), kind, bar, Charged(e.pos, kind, gross, c))
  {
  }

  lemma ChargeFree(e: Episode, kind: Kind, gross: real)
    ensures Charged(e.pos, kind, gross, FREE) == gross
  {
  }

  lemma ChargePos(e: Episode, k: nat, c: Costs)
    ensures Charge(e.(pos := e.pos.(partials := k)), c) == Charge(e, c).(pos := e.pos.(partials := k))
  {
  }

  lemma ChargeTwice(p: Position, kind: Kind, gross: real, c: Costs)
    ensures Charged(p, kind, Charged(p, kind, gross, SlipOnly(c)), Fees(c)) == Charged(p, kind, gross, c)
  {
    CostSplits(p.qty, c);
    hide PerTradeCost, SlipOnly, Fees;
  }

  lemma CostSplits(qty: real, c: Costs)
    ensures PerTradeCost(qty, c) == PerTradeCost(qty, SlipOnly(c)) + PerTradeCost(qty, Fees(c))
  {
    var x, y := c.spread * qty, c.slippage * qty;
    assert 0.0 * qty == 0.0;
    assert PerTradeCost(qty, Fees(c)) == x * 0.10 + c.commission * qty;
    assert PerTradeCost(qty, SlipOnly(c)) == 2.0 * c.slippage * qty * 0.10;
  }

  /** A booking of the run without fees, once charged, is the booking of the run with them. */
  lemma ChargeBooked(e: Episode, kind: Kind, bar: nat, gross: real, c: Costs)
    ensures Charge(Book(e, kind, bar, Charged(e.pos, kind, gross, SlipOnly(c))), Fees(c))
         == Book(Charge(e, Fees(c)), kind, bar, Charged(e.pos, kind, gross, c))
  {
    hide Charged, Charge;
    ChargeBook(e, kind, bar, Charged(e.pos, kind, gross, SlipOnly(c)), Fees(c));
    ChargeTwice(e.pos, kind, gross, c);
  }

  lemma {:induction false} ChargeTakePartials(e: Episode, bar: Bar, i: nat, rm: nat, c: Costs)
    ensures TakePartials(Charge(e, Fees(c)), bar, i, rm, c) == Charge(TakePartials(e, bar, i, rm, SlipOnly(c)), Fees(c))
    decreases 4 - rm
  {
    hide *;
    if rm <= 3 {
      ChargeTakeOne(e, bar, i, rm, c);
      TakePartialsTurn(e, bar, i, rm, SlipOnly(c));
      TakePartialsTurn(Charge(e, Fees(c)), bar, i, rm, c);
      ChargeTakePartials(TakeOne(e, bar, i, rm, SlipOnly(c)), bar, i, rm + 1, c);
    } else {
      TakePartialsEnd(e, bar, i, rm, SlipOnly(c));
      TakePartialsEnd(Charge(e, Fees(c)), bar, i, rm, c);
    }
  }

  lemma TakePartialsEnd(e: Episode, bar: Bar, i: nat, rm: nat, c: Costs)
    requires rm > 3
    ensures TakePartials(e, bar, i, rm, c) == e
  {
  }

  lemma ChargeTakeOne(e: Episode, bar: Bar, i: nat, rm: nat, c: Costs)
    ensures TakeOne(Charge(e, Fees(c)), bar, i, rm, c) == Charge(TakeOne(e, bar, i, rm, SlipOnly(c)), Fees(c))
  {
    hide Gain, Target, Reaches, Charged, Charge;
    SameCharge(e, Fees(c));
    if e.pos.partials + 1 == rm && Reaches(e.pos, bar, rm) {
      var gross := Gain(e.pos, Target(e.pos, rm)) / 3.0;
      ChargeBooked(e, Partial(rm), i, gross, c);
      ChargePos(Book(e, Partial(rm), i, Charged(e.pos, Partial(rm), gross, SlipOnly(c))), rm, Fees(c));
    }
  }

  lemma SameCharge(e: Episode, c: Costs)
    ensures Charge(e, c).pos == e.pos && Charge(e, c).signal == e.signal
  {
  }

  lemma ChargeManage(e: Episode, bar: Bar, i: nat, c: Costs)
    ensures var (free, done) := Manage(e, bar, i, SlipOnly(c));
            Manage(Charge(e, Fees(c)), bar, i, c) == (Charge(free, Fees(c)), done)
  {
    hide Charge, Charged, Gain, StopHit, TakePartials;
    SameCharge(e, Fees(c));
    ChargeBooked(e, StopOut, i, -RISK, c);
    var e' := TakePartials(e, bar, i, 1, SlipOnly(c));
    ChargeTakePartials(e, bar, i, 1, c);
    SameCharge(e', Fees(c));
    ChargeBooked(e', Timeout, i, Gain(e'.pos, bar.close), c);
  }

  lemma ChargeOpen(sig: Signal, i: nat, c: Costs)
    ensures OpenAt(sig, i, c) == Charge(OpenAt(sig, i, SlipOnly(c)), Fees(c))
  {
  }

  lemma ChargeAppend(es: seq<Episode>, e: Episode, c: Costs)
    ensures ChargeAll(es + [e], c) == ChargeAll(es, c) + [Charge(e, c)]
  {
  }

  lemma ChargeStep<S>(setup: Setup<S>, c: Costs, bars: seq<Bar>, free: State<S>, i: nat)
    requires i < |bars| == |setup.labels|
    ensures Step(setup, c, bars, ChargeState(free, Fees(c)), i)
         == ChargeState(Step(setup, SlipOnly(c), bars, free, i), Fees(c))
  {
    hide Manage, Charge, ChargeAll, OpenAt, GateOk;
    if free.open.Some? {
      ChargeManage(free.open.value, bars[i], i, c);
      ChargeAppend(free.closed, Manage(free.open.value, bars[i], i, SlipOnly(c)).0, Fees(c));
    }
    var answer := setup.strategy(free.s, bars[..i + 1]).1;
    if answer.Fires? {
      ChargeOpen(answer.signal, i, c);
    }
  }

  /** Spread and commission change no entry and no exit: after any number of bars the state is that of the run with
      the same slippage and no fees, with every booking charged. */
  lemma {:induction false} CostsOnlySubtract<S>(setup: Setup<S>, c: Costs, bars: seq<Bar>, k: nat)
    requires k <= |bars| == |setup.labels|
    ensures After(setup, c, bars, k) == ChargeState(After(setup, SlipOnly(c), bars, k), Fees(c))
  {
    hide Step;
    if k > 0 {
      CostsOnlySubtract(setup, c, bars, k - 1);
      ChargeStep(setup, c, bars, After(setup, SlipOnly(c), bars, k - 1), k - 1);
    } else {
      assert ChargeAll([], Fees(c)) == [];
    }
  }

  /** The whole backtest: the same positions, each booking lowered by its share of the fees. */
  lemma EpisodesAreCharged<S>(setup: Setup<S>, c: Costs, bars: seq<Bar>)
    requires |bars| == |setup.labels|
    ensures Episodes(setup, c, bars) == ChargeAll(Episodes(setup, SlipOnly(c), bars), Fees(c))
  {
    hide *;
    CostsOnlySubtract(setup, c, bars, |bars|);
    EpisodesFinish(setup, c, bars);
    EpisodesFinish(setup, SlipOnly(c), bars);
    ChargeFinish(After(setup, SlipOnly(c), bars, |bars|), c, bars);
  }

  lemma EpisodesFinish<S>(setup: Setup<S>, c: Costs, bars: seq<Bar>)
    requires |bars| == |setup.labels|
    ensures var st := After(setup, c, bars, |bars|);
            (st.open.Some? ==> bars != []) && Episodes(setup, c, bars) == Finish(st, c, bars)
  {
    hide Finish, Step;
  }

  lemma ChargeFinish<S>(free: State<S>, c: Costs, bars: seq<Bar>)
    requires free.open.Some? ==> bars != []
    ensures ChargeState(free, Fees(c)).open.Some? ==> bars != []
    ensures Finish(ChargeState(free, Fees(c)), c, bars) == ChargeAll(Finish(free, SlipOnly(c), bars), Fees(c))
  {
    hide Charge, ChargeAll, Charged, Gain;
    if free.open.Some? {
      var e := free.open.value;
      var gross := Gain(e.pos, bars[|bars| - 1].close);
      SameCharge(e, Fees(c));
      ChargeBooked(e, EndOfData, |bars| - 1, gross, c);
      ChargeAppend(free.closed, Book(e, EndOfData, |bars| - 1, Charged(e.pos, EndOfData, gross, SlipOnly(c))), Fees(c));
    }
  }

  /** `b` is `a` with every P&L lowered or kept. */
  ghost predicate LowerLedger(a: seq<Booking>, b: seq<Booking>) {
    && |a| == |b|
    && forall j :: 0 <= j < |a| ==> a[j].kind == b[j].kind && a[j].bar == b[j].bar && b[j].pnl <= a[j].pnl
  }

  /** The fees of one round turn, per unit: spread and commission weigh differently but add up. */
  function FeeRate(c: Costs): real {
    c.spread * 0.10 + c.commission
  }

  lemma FeesAreMonotone(qty: real, c: Costs, d: Costs)
    requires qty > 0.0
    ensures FeeRate(c) <= FeeRate(d) ==> PerTradeCost(qty, Fees(c)) <= PerTradeCost(qty, Fees(d))
    ensures FeeRate(c) < FeeRate(d) ==> PerTradeCost(qty, Fees(c)) < PerTradeCost(qty, Fees(d))
  {
    assert PerTradeCost(qty, Fees(c)) == qty * FeeRate(c);
    assert PerTradeCost(qty, Fees(d)) == qty * FeeRate(d);
    assert PerTradeCost(qty, Fees(d)) - PerTradeCost(qty, Fees(c)) == qty * (FeeRate(d) - FeeRate(c));
  }

  /** Two runs that slip alike: position by position the same signal, entry, size and exits on the same bars, and
      every booking lower in the run with the higher fees, strictly when the fees differ. */
  lemma DearerRunBooksLess<S>(setup: Setup<S>, c: Costs, d: Costs, bars: seq<Bar>, n: nat)
    requires |bars| == |setup.labels| && c.slippage == d.slippage
    requires FeeRate(c) <= FeeRate(d)
    requires n < |Episodes(setup, c, bars)|
    ensures |Episodes(setup, d, bars)| == |Episodes(setup, c, bars)|
    ensures var a, b := Episodes(setup, c, bars)[n], Episodes(setup, d, bars)[n];
            && a.signal == b.signal && a.pos == b.pos && LowerLedger(a.bookings, b.bookings)
            && (FeeRate(c) < FeeRate(d) ==>
                  forall j :: 0 <= j < |a.bookings| ==> b.bookings[j].pnl < a.bookings[j].pnl)
  {
    EpisodesAreCharged(setup, c, bars);
    EpisodesAreCharged(setup, d, bars);
    var free := Episodes(setup, SlipOnly(c), bars)[n];
    PositiveSize(setup, SlipOnly(c), bars, free);
    FeesAreMonotone(free.pos.qty, c, d);
    hide Episodes, PerTradeCost, FeeRate;
  }

  lemma PositiveSize<S>(setup: Setup<S>, c: Costs, bars: seq<Bar>, e: Episode)
    requires |bars| == |setup.labels| && e in Episodes(setup, c, bars)
    ensures FromSignal(e, c) && e.pos.qty > 0.0
  {
    hide OpenAt, Charged, Gain;
    RunSignals(setup, c, bars, |bars|);
    SignalSize(e, c);
  }

  lemma SignalSize(e: Episode, c: Costs)
    requires FromSignal(e, c)
    ensures e.pos.qty > 0.0
  {
  }

  predicate FromSignal(e: Episode, c: Costs) {
    e.pos == OpenAt(e.signal, e.pos.entryBar, c).pos.(partials := e.pos.partials)
  }

  lemma {:induction false} TakePartialsSignal(e: Episode, bar: Bar, i: nat, rm: nat, c: Costs)
    ensures var e' := TakePartials(e, bar, i, rm, c);
            e'.signal == e.signal && e'.pos == e.pos.(partials := e'.pos.partials)
    decreases 4 - rm
  {
    hide Reaches, Charged, Gain, Target;
    if rm <= 3 {
      if e.pos.partials == rm - 1 && Reaches(e.pos, bar, rm) {
        var pnl := Charged(e.pos, Partial(rm), Gain(e.pos, Target(e.pos, rm)) / 3.0, c);
        TakePartialsSignal(Book(e, Partial(rm), i, pnl).(pos := e.pos.(partials := rm)), bar, i, rm + 1, c);
      } else {
        TakePartialsSignal(e, bar, i, rm + 1, c);
      }
    }
  }

  ghost predicate SignalsOk<S>(st: State<S>, c: Costs) {
    && (st.open.Some? ==> FromSignal(st.open.value, c))
    && forall e :: e in st.closed ==> FromSignal(e, c)
  }

  lemma ManageSignal(e: Episode, bar: Bar, i: nat, c: Costs)
    requires FromSignal(e, c)
    ensures FromSignal(Manage(e, bar, i, c).0, c)
  {
    TakePartialsSignal(e, bar, i, 1, c);
    hide TakePartials, Charged, Gain, StopHit;
  }

  lemma StepSignals<S>(setup: Setup<S>, c: Costs, bars: seq<Bar>, st: State<S>, i: nat)
    requires i < |bars| == |setup.labels| && SignalsOk(st, c)
    ensures SignalsOk(Step(setup, c, bars, st, i), c)
  {
    if st.open.Some? {
      ManageSignal(st.open.value, bars[i], i, c);
    }
    var answer := setup.strategy(st.s, bars[..i + 1]).1;
    assert answer.Fires? ==> FromSignal(OpenAt(answer.signal, i, c), c);
    hide Manage, GateOk, OpenAt, FromSignal;
  }

  lemma {:induction false} RunSignals<S>(setup: Setup<S>, c: Costs, bars: seq<Bar>, k: nat)
    requires k <= |bars| == |setup.labels|
    ensures SignalsOk(After(setup, c, bars, k), c)
  {
    hide Step, FromSignal;
    if k > 0 {
      RunSignals(setup, c, bars, k - 1);
      StepSignals(setup, c, bars, After(setup, c, bars, k - 1), k - 1);
    }
  }

  lemma {:induction false} LowerTotal(a: seq<Booking>, b: seq<Booking>)
    requires LowerLedger(a, b)
    ensures Total(b) <= Total(a)
    ensures |a| > 0 && (forall j :: 0 <= j < |a| ==> b[j].pnl < a[j].pnl) ==> Total(b) < Total(a)
  {
    if |a| > 0 {
      LowerTotal(a[..|a| - 1], b[..|b| - 1]);
    }
  }

  lemma {:induction false} LowerLedgers(xs: seq<Episode>, bs: seq<Episode>)
    requires |xs| == |bs| && forall n :: 0 <= n < |xs| ==> LowerLedger(xs[n].bookings, bs[n].bookings)
    ensures LowerLedger(Ledger(xs), Ledger(bs))
  {
    if |xs| > 0 {
      LowerLedgers(xs[..|xs| - 1], bs[..|bs| - 1]);
    }
  }

  /** The net result of a whole backtest. */
  function Net<S>(setup: Setup<S>, c: Costs, bars: seq<Bar>): real
    requires |bars| == |setup.labels|
  {
    Total(Ledger(Episodes(setup, c, bars)))
  }

  /** So at the same slippage higher fees never raise the net result. */
  lemma NetNeverRises<S>(setup: Setup<S>, c: Costs, d: Costs, bars: seq<Bar>)
    requires |bars| == |setup.labels| && c.slippage == d.slippage && FeeRate(c) <= FeeRate(d)
    ensures Net(setup, d, bars) <= Net(setup, c, bars)
  {
    var a, b := Episodes(setup, c, bars), Episodes(setup, d, bars);
    EpisodesAreCharged(setup, c, bars);
    EpisodesAreCharged(setup, d, bars);
    forall n | 0 <= n < |a| ensures LowerLedger(a[n].bookings, b[n].bookings) {
      DearerRunBooksLess(setup, c, d, bars, n);
    }
    LowerLedgers(a, b);
    LowerTotal(Ledger(a), Ledger(b));
  }

  // ----- how much a position is charged, at any slippage ----------------------------------------

  function Weights(bs: seq<Booking>): real {
    if bs == [] then 0.0 else Weights(bs[..|bs| - 1]) + Weight(bs[|bs| - 1].kind)
  }

  /** The first `k` bookings are the targets in order, each at its target price on a third, less its charge. */
  ghost predicate PartialsTaken(e: Episode, k: nat, c: Costs) {
    && k <= |e.bookings|
    && forall j :: 0 <= j < k ==>
         && e.bookings[j].kind == Partial(j + 1)
         && e.bookings[j].pnl == Charged(e.pos, Partial(j + 1), Gain(e.pos, Target(e.pos, j + 1)) / 3.0, c)
  }

  ghost predicate Live(e: Episode, c: Costs) {
    e.pos.partials < 3 && |e.bookings| == e.pos.partials && PartialsTaken(e, e.pos.partials, c)
  }

  ghost predicate Done(e: Episode, c: Costs) {
    && e.pos.partials <= 3 && PartialsTaken(e, e.pos.partials, c)
    && if e.pos.partials == 3 then |e.bookings| == 3
       else |e.bookings| == e.pos.partials + 1 && !e.bookings[e.pos.partials].kind.Partial?
  }

  lemma {:induction false} TakePartialsShape(e: Episode, bar: Bar, i: nat, rm: nat, c: Costs)
    requires 1 <= rm <= 4 && e.pos.partials <= 3
    requires PartialsTaken(e, e.pos.partials, c) && |e.bookings| == e.pos.partials
    ensures var e' := TakePartials(e, bar, i, rm, c);
            e'.pos.partials <= 3 && PartialsTaken(e', e'.pos.partials, c) && |e'.bookings| == e'.pos.partials
    decreases 4 - rm
  {
    hide Gain, Target, Reaches;
    if rm <= 3 {
      if e.pos.partials == rm - 1 && Reaches(e.pos, bar, rm) {
        var pnl := Charged(e.pos, Partial(rm), Gain(e.pos, Target(e.pos, rm)) / 3.0, c);
        var taken := Book(e, Partial(rm), i, pnl).(pos := e.pos.(partials := rm));
        Study.SameTargets(e.pos, rm);
        hide PerTradeCost;
        assert PartialsTaken(taken, rm, c) by {
          forall j | 0 <= j < rm - 1 ensures taken.bookings[j] == e.bookings[j] {}
        }
        TakePartialsShape(taken, bar, i, rm + 1, c);
      } else {
        TakePartialsShape(e, bar, i, rm + 1, c);
      }
    }
  }

  lemma ManageShape(e: Episode, bar: Bar, i: nat, c: Costs)
    requires Live(e, c)
    ensures var (e', done) := Manage(e, bar, i, c);
            if done then Done(e', c) else Live(e', c)
  {
    hide Charged, Gain, StopHit, TakePartials, Target;
    TakePartialsShape(e, bar, i, 1, c);
  }

  ghost predicate ShapeOk<S>(st: State<S>, c: Costs) {
    && (st.open.Some? ==> Live(st.open.value, c))
    && forall e :: e in st.closed ==> Done(e, c)
  }

  lemma StepShape<S>(setup: Setup<S>, c: Costs, bars: seq<Bar>, st: State<S>, i: nat)
    requires i < |bars| == |setup.labels| && ShapeOk(st, c)
    ensures ShapeOk(Step(setup, c, bars, st, i), c)
  {
    if st.open.Some? {
      ManageShape(st.open.value, bars[i], i, c);
    }
    var answer := setup.strategy(st.s, bars[..i + 1]).1;
    assert answer.Fires? ==> Live(OpenAt(answer.signal, i, c), c);
    hide Manage, GateOk, OpenAt, Live, Done;
  }

  lemma {:induction false} RunShape<S>(setup: Setup<S>, c: Costs, bars: seq<Bar>, k: nat)
    requires k <= |bars| == |setup.labels|
    ensures ShapeOk(After(setup, c, bars, k), c)
  {
    hide Step, Live, Done;
    if k > 0 {
      RunShape(setup, c, bars, k - 1);
      StepShape(setup, c, bars, After(setup, c, bars, k - 1), k - 1);
    }
  }

  lemma FinishShape(e: Episode, bar: nat, gross: real, c: Costs)
    requires Live(e, c)
    ensures Done(Book(e, EndOfData, bar, Charged(e.pos, EndOfData, gross, c)), c)
  {
    hide Charged, Gain, Target;
  }

  lemma EpisodesShape<S>(setup: Setup<S>, c: Costs, bars: seq<Bar>, e: Episode)
    requires |bars| == |setup.labels| && e in Episodes(setup, c, bars)
    ensures Done(e, c)
  {
    var st := After(setup, c, bars, |bars|);
    assert st.open.Some? ==> bars != [];
    hide After, Live, Done, Gain, Charged;
    RunShape(setup, c, bars, |bars|);
    if st.open.Some? {
      FinishShape(st.open.value, |bars| - 1, Gain(st.open.value.pos, bars[|bars| - 1].close), c);
    }
  }

  /** Every position of every run is charged half a round turn and three tenths more per target taken, or nine
      tenths when the third target closes it: always between 0.5 and 1.1 of one round turn. */
  lemma ChargedShare<S>(setup: Setup<S>, c: Costs, bars: seq<Bar>, e: Episode)
    requires |bars| == |setup.labels| && e in Episodes(setup, c, bars)
    ensures Weights(e.bookings) == (if e.pos.partials == 3 then 0.9 else 0.5 + 0.3 * (e.pos.partials as real))
    ensures 0.5 <= Weights(e.bookings) <= 1.1
  {
    EpisodesShape(setup, c, bars, e);
    hide Charged, Gain, Target;
    WeightsTaken(e, e.pos.partials, c);
    assert e.bookings[..|e.bookings|] == e.bookings;
    if e.pos.partials < 3 {
      assert e.bookings[..|e.bookings| - 1] == e.bookings[..e.pos.partials];
    }
  }

  lemma {:induction false} WeightsTaken(e: Episode, k: nat, c: Costs)
    requires PartialsTaken(e, k, c)
    ensures Weights(e.bookings[..k]) == 0.3 * (k as real)
  {
    if k > 0 {
      WeightsTaken(e, k - 1, c);
      assert e.bookings[..k][..k - 1] == e.bookings[..k - 1];
    }
  }

  // ----- the cost-free run is run_variant ---------------------------------------------------------

  lemma {:induction false} FreePartials(e: Episode, bar: Bar, i: nat, rm: nat)
    ensures TakePartials(e, bar, i, rm, FREE) == Study.TakePartials(e, bar, i, rm)
    decreases 4 - rm
  {
    if rm <= 3 {
      var gross := Gain(e.pos, Target(e.pos, rm)) / 3.0;
      hide Gain, Target, Reaches, Charged;
      ChargeFree(e, Partial(rm), gross);
      if e.pos.partials == rm - 1 && Reaches(e.pos, bar, rm) {
        FreePartials(Book(e, Partial(rm), i, gross).(pos := e.pos.(partials := rm)), bar, i, rm + 1);
      } else {
        FreePartials(e, bar, i, rm + 1);
      }
    }
  }

  lemma FreeManage(e: Episode, bar: Bar, i: nat)
    ensures Manage(e, bar, i, FREE) == Study.Manage(e, bar, i)
  {
    hide TakePartials, Study.TakePartials, Charged, Gain, StopHit;
    var e' := TakePartials(e, bar, i, 1, FREE);
    FreePartials(e, bar, i, 1);
    ChargeFree(e, StopOut, -RISK);
    ChargeFree(e', Timeout, Gain(e'.pos, bar.close));
  }

  /** The two setups gate the same bars and their strategies answer alike on what each is shown. */
  ghost predicate Agree<S(!new)>(lbo: Setup<S>, variant: Study.Setup<S>, bars: seq<Bar>) {
    && lbo.init == variant.init && |lbo.labels| == |variant.labels| == |bars|
    && (forall i :: 0 <= i < |bars| ==> (GateOk(lbo.labels[i]) <==> Study.GateOk(variant.labels[i], variant.gate)))
    && (forall s: S, i: nat :: i < |bars| ==>
          lbo.strategy(s, bars[..i + 1]) == variant.strategy(s, Study.Seen(bars, i)))
  }

  lemma FreeStep<S>(lbo: Setup<S>, variant: Study.Setup<S>, bars: seq<Bar>, st: State<S>, i: nat)
    requires i < |bars| == |lbo.labels| == |variant.labels|
    requires GateOk(lbo.labels[i]) <==> Study.GateOk(variant.labels[i], variant.gate)
    requires lbo.strategy(st.s, bars[..i + 1]) == variant.strategy(st.s, Study.Seen(bars, i))
    ensures Step(lbo, FREE, bars, st, i) == Study.Step(variant, bars, st, i)
  {
    if st.open.Some? {
      FreeManage(st.open.value, bars[i], i);
    }
    var answer := lbo.strategy(st.s, bars[..i + 1]).1;
    assert answer.Fires? ==> OpenAt(answer.signal, i, FREE) == Study.OpenAt(answer.signal, i);
    hide Manage, Study.Manage, GateOk, Study.GateOk, Study.Seen, OpenAt, Study.OpenAt;
  }

  lemma {:induction false} FreeAfter<S(!new)>(lbo: Setup<S>, variant: Study.Setup<S>, bars: seq<Bar>, k: nat)
    requires Agree(lbo, variant, bars) && k <= |bars|
    ensures After(lbo, FREE, bars, k) == Study.After(variant, bars, k)
  {
    hide GateOk, Study.GateOk, Study.Seen, Step, Study.Step;
    if k > 0 {
      FreeAfter(lbo, variant, bars, k - 1);
      var i: nat := k - 1;
      FreeStep(lbo, variant, bars, After(lbo, FREE, bars, i), i);
    }
  }

  /** On the same signals and the same gate, the cost-free run finishes exactly the positions of `run_variant`. */
  lemma FreeRunIsVariant<S(!new)>(lbo: Setup<S>, variant: Study.Setup<S>, bars: seq<Bar>)
    requires Agree(lbo, variant, bars)
    ensures Episodes(lbo, FREE, bars) == Study.Episodes(variant, bars)
  {
    FreeAfter(lbo, variant, bars, |bars|);
    var st := After(lbo, FREE, bars, |bars|);
    hide After, Study.After, Charged, Gain;
    if st.open.Some? {
      ChargeFree(st.open.value, EndOfData, Gain(st.open.value.pos, bars[|bars| - 1].close));
    }
  }

  // ----- slippage is not monotone -------------------------------------------------------------------

  /** What a position makes that takes all three targets: slippage widens the distance the targets are measured
      in, while the size stays the signal's. */
  lemma FullTargetTotal<S>(setup: Setup<S>, c: Costs, bars: seq<Bar>, e: Episode)
    requires |bars| == |setup.labels| && e in Episodes(setup, c, bars)
    requires e.pos.partials == 3 && Study.GoodSignal(e.signal) && c.slippage >= 0.0
    ensures var d := Abs(e.signal.entry - e.signal.stop);
            && d > 0.0 && e.pos.qty == RISK / d
            && Total(e.bookings) == 2.0 * (e.pos.qty * (d + c.slippage * 0.10)) - 0.9 * PerTradeCost(e.pos.qty, c)
  {
    EpisodesShape(setup, c, bars, e);
    PositiveSize(setup, c, bars, e);
    SizedOnSignal(e, c);
    AllTakenTotal(e, c);
  }

  /** The size is the signal's, and the distance is the signal's plus the slippage. */
  lemma SizedOnSignal(e: Episode, c: Costs)
    requires FromSignal(e, c) && Study.GoodSignal(e.signal) && c.slippage >= 0.0
    ensures var d := Abs(e.signal.entry - e.signal.stop);
            d > 0.0 && e.pos.qty == RISK / d && Distance(e.pos) == d + c.slippage * 0.10
  {
  }

  lemma AllTakenTotal(e: Episode, c: Costs)
    requires Done(e, c) && e.pos.partials == 3
    ensures Total(e.bookings) == 2.0 * (e.pos.qty * Distance(e.pos)) - 0.9 * PerTradeCost(e.pos.qty, c)
  {
    var bs := e.bookings;
    assert bs[..3] == bs;
    TakenTotal(e, 3, c);
    Study.WorthIs(e.pos);
    hide *;
  }

  /** More slippage pays: of two positions opened on the same signal that both take all three targets, the one that
      slips more makes 0.02 * quantity MORE per unit of slippage. */
  lemma SlippagePaysFullTargets<S>(setup: Setup<S>, c: Costs, bars: seq<Bar>, e: Episode, setup0: Setup<S>, less: real,
          bars0: seq<Bar>, e0: Episode)
    requires |bars| == |setup.labels| && e in Episodes(setup, c, bars)
    requires |bars0| == |setup0.labels| && e0 in Episodes(setup0, c.(slippage := less), bars0)
    requires e.signal == e0.signal && Study.GoodSignal(e.signal)
    requires e.pos.partials == e0.pos.partials == 3 && c.slippage > less >= 0.0
    ensures Total(e.bookings) - Total(e0.bookings) == 0.02 * ((c.slippage - less) * e.pos.qty)
    ensures Total(e.bookings) > Total(e0.bookings)
  {
    hide *;
    FullTargetTotal(setup, c, bars, e);
    FullTargetTotal(setup0, c.(slippage := less), bars0, e0);
    PositiveSize(setup, c, bars, e);
    SlippageBalance(e.pos.qty, Abs(e.signal.entry - e.signal.stop), c, less);
  }

  lemma SlippageBalance(q: real, d: real, c: Costs, less: real)
    requires q > 0.0 && c.slippage > less
    ensures (2.0 * (q * (d + c.slippage * 0.10)) - 0.9 * PerTradeCost(q, c))
          - (2.0 * (q * (d + less * 0.10)) - 0.9 * PerTradeCost(q, c.(slippage := less)))
         == 0.02 * ((c.slippage - less) * q)
    ensures (c.slippage - less) * q > 0.0
  {
    var x, y := c.slippage * q, less * q;
    assert (c.slippage - less) * q == x - y;
    assert q * (d + c.slippage * 0.10) == q * d + x * 0.10;
    assert q * (d + less * 0.10) == q * d + y * 0.10;
    assert PerTradeCost(q, c) - 0.2 * x == PerTradeCost(q, c.(slippage := less)) - 0.2 * y;
  }

  const IN := Study.Label(None, 20.0, Study.London)
  const OUT := Study.Label(None, 0.0, Study.London)

  /** The strategy that fires `first` on the first bar and `second` on the second. */
  function TwoShots<S>(init: S, first: Signal, second: Signal, labels: seq<Study.Label>): Setup<S> {
    Setup(init, (s: S, seen: seq<Bar>) => (s, Fires(if |seen| == 1 then first else second)), labels)
  }

  function Flat(price: real): Bar {
    Bar(9, price, price, price, price)
  }

  /** The entry lies within the bar it is signalled on, and the stop on the right side, MIN_STOP away or more. */
  predicate SoundSignal(sig: Signal, bar: Bar) {
    Study.GoodSignal(sig) && bar.low <= sig.entry <= bar.high
  }

  /** Valid bars, and sound signals wherever the strategy is asked, whatever its state. */
  ghost predicate SoundRun<S(!new)>(setup: Setup<S>, bars: seq<Bar>) {
    && |bars| == |setup.labels| && (forall i :: 0 <= i < |bars| ==> ValidBar(bars[i]))
    && forall s: S, i: nat :: i < |bars| && GateOk(setup.labels[i]) ==> SoundAt(setup, bars, s, i)
  }

  predicate SoundAt<S>(setup: Setup<S>, bars: seq<Bar>, s: S, i: nat)
    requires i < |bars|
  {
    var answer := setup.strategy(s, bars[..i + 1]).1;
    answer.Fires? ==> SoundSignal(answer.signal, bars[i])
  }

  lemma TwoShotsAreSound<S(!new)>(init: S, first: Signal, second: Signal, labels: seq<Study.Label>, bars: seq<Bar>)
    requires 1 <= |bars| == |labels| <= 2 && forall i :: 0 <= i < |bars| ==> ValidBar(bars[i])
    requires SoundSignal(first, bars[0])
    requires |bars| == 2 && GateOk(labels[1]) ==> SoundSignal(second, bars[1])
    ensures TwoShots(init, first, second, labels).labels == labels
    ensures SoundRun(TwoShots(init, first, second, labels), bars)
  {
    hide SoundSignal, GateOk, ValidBar;
  }

  /** And it happens at all costs: whenever slippage rises and nothing else does, some two-bar run of valid bars and
      a sound signal nets more. */
  lemma SlippageCanRaiseTheNet<S(!new)>(init: S, c: Costs, more: real)
    returns (setup: Setup<S>, bars: seq<Bar>)
    requires 0.0 <= c.slippage < more
    ensures |bars| == |setup.labels| == 2 && SoundRun(setup, bars)
    ensures Net(setup, c.(slippage := more), bars) > Net(setup, c, bars)
  {
    var sig, d := Signal(Long, 10.0, 9.0), c.(slippage := more);
    setup := TwoShots(init, sig, sig, [IN, OUT]);
    bars := [Flat(10.0), Flat(13.0 + more)];
    TwoShotsAreSound(init, sig, sig, [IN, OUT], bars);
    ThreeReached(sig, c, bars[1]);
    ThreeReached(sig, d, bars[1]);
    hide OpenAt, Reaches, StopHit, Episodes, SoundRun;
    var e0 := OnePosition(setup, c, bars, sig);
    var e1 := OnePosition(setup, d, bars, sig);
    SlippagePaysFullTargets(setup, d, bars, e1, setup, c.slippage, bars, e0);
  }

  lemma ThreeReached(sig: Signal, c: Costs, bar: Bar)
    requires sig.dir == Long && sig.entry - sig.stop == 1.0 && c.slippage >= 0.0
    requires bar.low > sig.stop && bar.high >= sig.entry + 3.0 + c.slippage
    ensures var p := OpenAt(sig, 0, c).pos;
            !StopHit(p, bar) && Reaches(p, bar, 1) && Reaches(p, bar, 2) && Reaches(p, bar, 3)
  {
    var p := OpenAt(sig, 0, c).pos;
    assert Distance(p) == 1.0 + c.slippage * 0.10;
  }

  /** A two-bar run whose only position takes all three targets on the second bar. */
  lemma OnePosition<S>(setup: Setup<S>, c: Costs, bars: seq<Bar>, sig: Signal) returns (e: Episode)
    requires |bars| == |setup.labels| == 2 && GateOk(setup.labels[0]) && !GateOk(setup.labels[1])
    requires setup.strategy(setup.init, bars[..1]).1 == Fires(sig)
    requires var p := OpenAt(sig, 0, c).pos;
             && !StopHit(p, bars[1]) && Reaches(p, bars[1], 1) && Reaches(p, bars[1], 2) && Reaches(p, bars[1], 3)
    ensures Episodes(setup, c, bars) == [e] && e.signal == sig && e.pos.partials == 3
    ensures Ledger([e]) == e.bookings
  {
    var e0 := OpenAt(sig, 0, c);
    e := TakePartials(e0, bars[1], 1, 1, c);
    AllThree(e0, bars[1], 1, c);
    TakePartialsSignal(e0, bars[1], 1, 1, c);
    hide OpenAt, TakePartials, StopHit, Reaches, GateOk;
    assert After(setup, c, bars, 1) == State(setup.strategy(setup.init, bars[..1]).0, Some(e0), []);
    assert Manage(e0, bars[1], 1, c) == (e, true);
    assert After(setup, c, bars, 2).closed == [] + [e] && After(setup, c, bars, 2).open == None;
    Study.LedgerAppend([], e);
    assert [] + [e] == [e];
  }

  lemma AllThree(e: Episode, bar: Bar, i: nat, c: Costs)
    requires e.pos.partials == 0
    requires Reaches(e.pos, bar, 1) && Reaches(e.pos, bar, 2) && Reaches(e.pos, bar, 3)
    ensures TakePartials(e, bar, i, 1, c).pos.partials == 3
  {
    hide Gain, Target, Charged;
    Study.SameTargets(e.pos, 1);
    Study.SameTargets(e.pos, 2);
    var first := Charged(e.pos, Partial(1), Gain(e.pos, Target(e.pos, 1)) / 3.0, c);
    var one := Book(e, Partial(1), i, first).(pos := e.pos.(partials := 1));
    var second := Charged(one.pos, Partial(2), Gain(one.pos, Target(one.pos, 2)) / 3.0, c);
    var two := Book(one, Partial(2), i, second).(pos := e.pos.(partials := 2));
    assert TakePartials(e, bar, i, 1, c) == TakePartials(one, bar, i, 2, c);
    assert TakePartials(one, bar, i, 2, c) == TakePartials(two, bar, i, 3, c);
  }

  // ----- when no run nets more ----------------------------------------------------------------------

  /** On no sound run do the costs `d` net more than the costs `c`. */
  ghost predicate NeverNetsMore<S(!new)>(c: Costs, d: Costs) {
    forall setup: Setup<S>, bars: seq<Bar> :: SoundRun(setup, bars) ==> Net(setup, d, bars) <= Net(setup, c, bars)
  }

  /** A position that was opened on the last bar is closed there at once. */
  function AtOnce(sig: Signal, i: nat, c: Costs, bar: Bar): Episode {
    var e := OpenAt(sig, i, c);
    Book(e, EndOfData, i, Charged(e.pos, EndOfData, Gain(e.pos, bar.close), c))
  }

  /** What the last-bar position makes. */
  function Quick(sig: Signal, i: nat, c: Costs, bar: Bar): real {
    var p := OpenAt(sig, i, c).pos;
    Charged(p, EndOfData, Gain(p, bar.close), c)
  }

  lemma AtOnceBooks(sig: Signal, i: nat, c: Costs, bar: Bar)
    ensures AtOnce(sig, i, c, bar).bookings == [Booking(EndOfData, i, Quick(sig, i, c, bar))]
  {
    hide Charged, Gain;
  }

  lemma OneBarRun<S>(init: S, sig: Signal, c: Costs, bar: Bar)
    ensures Net(TwoShots(init, sig, sig, [IN]), c, [bar]) == Quick(sig, 0, c, bar)
  {
    var setup, bars, f := TwoShots(init, sig, sig, [IN]), [bar], AtOnce(sig, 0, c, bar);
    AtOnceBooks(sig, 0, c, bar);
    hide OpenAt, Charged, Gain, Quick;
    assert bars[..1] == bars;
    assert After(setup, c, bars, 0).open.None?;
    assert After(setup, c, bars, 1) == State(init, Some(OpenAt(sig, 0, c)), []);
    assert Episodes(setup, c, bars) == [] + [f];
    Study.LedgerAppend([], f);
    assert Ledger([]) + f.bookings == f.bookings && f.bookings[..0] == [];
    assert Total(f.bookings) == Quick(sig, 0, c, bar);
    assert Net(setup, c, bars) == Total(Ledger([] + [f]));
  }

  /** At the same slippage, lower fees net more on a one-bar run that opens a position. */
  lemma LowerFeesNetMore<S(!new)>(init: S, c: Costs, d: Costs) returns (setup: Setup<S>, bars: seq<Bar>)
    requires c.slippage == d.slippage && FeeRate(d) < FeeRate(c)
    ensures SoundRun(setup, bars) && Net(setup, d, bars) > Net(setup, c, bars)
  {
    hide *;
    var sig, bar := Signal(Long, 10.0, 9.0), Flat(10.0);
    setup, bars := TwoShots(init, sig, sig, [IN]), [bar];
    PlainSignalIsSound(sig, bar);
    TwoShotsAreSound(init, sig, sig, [IN], bars);
    OneBarRun(init, sig, c, bar);
    OneBarRun(init, sig, d, bar);
    LowerFeesPayMore(sig, 0, c, d, bar);
  }

  lemma PlainSignalIsSound(sig: Signal, bar: Bar)
    requires sig == Signal(Long, 10.0, 9.0) && bar == Flat(10.0)
    ensures ValidBar(bar) && SoundSignal(sig, bar)
  {
  }

  lemma LowerFeesPayMore(sig: Signal, i: nat, c: Costs, d: Costs, bar: Bar)
    requires c.slippage == d.slippage && FeeRate(d) < FeeRate(c)
    ensures Quick(sig, i, d, bar) > Quick(sig, i, c, bar)
  {
    var p := OpenAt(sig, i, c).pos;
    assert p == OpenAt(sig, i, d).pos && p.qty > 0.0;
    var gross := Gain(p, bar.close);
    hide Gain, OpenAt, PerTradeCost, FeeRate;
    ChargeTwice(p, EndOfData, gross, c);
    ChargeTwice(p, EndOfData, gross, d);
    FeesAreMonotone(p.qty, d, c);
  }

  lemma NotAllThree(e: Episode, bar: Bar, i: nat, c: Costs)
    requires e.pos.partials == 0 && !Reaches(e.pos, bar, 3)
    ensures TakePartials(e, bar, i, 1, c).pos.partials < 3
  {
    hide Gain, Target, Charged, Reaches;
    forall k: nat ensures Reaches(e.pos.(partials := k), bar, 3) == Reaches(e.pos, bar, 3) {
      Study.SameTargets(e.pos, k);
    }
  }

  /** A two-bar run that closes its first position on the second bar and opens another there. */
  lemma TwoPositions<S>(init: S, sig: Signal, second: Signal, c: Costs, bars: seq<Bar>)
    requires |bars| == 2
    requires var p := OpenAt(sig, 0, c).pos;
             && !StopHit(p, bars[1]) && Reaches(p, bars[1], 1) && Reaches(p, bars[1], 2) && Reaches(p, bars[1], 3)
    ensures Net(TwoShots(init, sig, second, [IN, IN]), c, bars)
         == Total(TakePartials(OpenAt(sig, 0, c), bars[1], 1, 1, c).bookings)
          + Quick(second, 1, c, bars[1])
  {
    var setup, e0 := TwoShots(init, sig, second, [IN, IN]), OpenAt(sig, 0, c);
    var e, f := TakePartials(e0, bars[1], 1, 1, c), AtOnce(second, 1, c, bars[1]);
    AllThree(e0, bars[1], 1, c);
    AtOnceBooks(second, 1, c, bars[1]);
    hide Quick, OpenAt, TakePartials, StopHit, Reaches, Charged, Gain;
    assert After(setup, c, bars, 1) == State(init, Some(e0), []);
    assert Manage(e0, bars[1], 1, c) == (e, true);
    assert bars[..2] == bars;
    assert After(setup, c, bars, 2) == State(init, Some(OpenAt(second, 1, c)), [] + [e]);
    assert Episodes(setup, c, bars) == [] + [e] + [f];
    hide *;
    NetOfTwo(setup, c, bars, e, f);
  }

  lemma NetOfTwo<S>(setup: Setup<S>, c: Costs, bars: seq<Bar>, e: Episode, f: Episode)
    requires |bars| == |setup.labels| && Episodes(setup, c, bars) == [] + [e] + [f] && |f.bookings| == 1
    ensures Net(setup, c, bars) == Total(e.bookings) + f.bookings[0].pnl
  {
    hide Episodes;
    Study.LedgerAppend([], e);
    Study.LedgerAppend([] + [e], f);
    assert Ledger([]) + e.bookings == e.bookings;
    assert (e.bookings + f.bookings)[..|e.bookings|] == e.bookings;
  }

  /** The same run at a slippage that keeps the first position open. */
  lemma StillHeld<S>(init: S, sig: Signal, second: Signal, c: Costs, bars: seq<Bar>)
    requires |bars| == 2
    requires var p := OpenAt(sig, 0, c).pos; !StopHit(p, bars[1]) && !Reaches(p, bars[1], 3)
    ensures Net(TwoShots(init, sig, second, [IN, IN]), c, bars) == Held(sig, c, bars[1])
  {
    var setup, e0 := TwoShots(init, sig, second, [IN, IN]), OpenAt(sig, 0, c);
    var e := TakePartials(e0, bars[1], 1, 1, c);
    NotAllThree(e0, bars[1], 1, c);
    TakePartialsSignal(e0, bars[1], 1, 1, c);
    hide TakePartials, StopHit, Reaches, Charged, Gain;
    assert e0.pos.partials == 0 && e.pos.entryBar == 0;
    hide OpenAt;
    assert After(setup, c, bars, 1) == State(init, Some(e0), []);
    assert Manage(e0, bars[1], 1, c) == (e, false);
    assert After(setup, c, bars, 2) == State(init, Some(e), []);
    var f := Book(e, EndOfData, 1, Charged(e.pos, EndOfData, Gain(e.pos, bars[1].close), c));
    assert Episodes(setup, c, bars) == [] + [f];
    hide Episodes;
    Study.LedgerAppend([], f);
    assert Ledger([]) + f.bookings == f.bookings;
  }

  /** What the position held through the second bar makes. */
  function Held(sig: Signal, c: Costs, bar: Bar): real {
    var e := TakePartials(OpenAt(sig, 0, c), bar, 1, 1, c);
    Total(Book(e, EndOfData, 1, Charged(e.pos, EndOfData, Gain(e.pos, bar.close), c)).bookings)
  }

  /** What one round turn costs per unit. */
  function Rate(c: Costs): real {
    c.spread * 0.10 + c.commission + 0.20 * c.slippage
  }

  lemma CostIsRate(q: real, c: Costs)
    ensures PerTradeCost(q, c) == q * Rate(c)
  {
    var x, y, z := c.spread * q, c.commission * q, c.slippage * q;
    assert q * Rate(c) == x * 0.10 + y + 0.20 * z;
    assert PerTradeCost(q, c) == x * 0.10 + y + 0.20 * z;
  }

  /** What the first two or three targets pay, in a position whose stop distance is worth `w`. */
  lemma TakenTotal(e: Episode, k: nat, c: Costs)
    requires 2 <= k <= 3 && PartialsTaken(e, k, c)
    ensures var w, cost := Study.Worth(e.pos), PerTradeCost(e.pos.qty, c);
            Total(e.bookings[..k]) == if k == 2 then w - 0.6 * cost else 2.0 * w - 0.9 * cost
  {
    Study.TargetPays(e.pos, 1);
    Study.TargetPays(e.pos, 2);
    Study.TargetPays(e.pos, 3);
    hide Gain, Target, Study.Worth, PerTradeCost;
    var bs := e.bookings;
    assert bs[..k][..k - 1] == bs[..k - 1] && bs[..k - 1][..k - 2] == bs[..k - 2];
    assert bs[..2][..1] == bs[..1] && bs[..1][..0] == [];
    assert Total(bs[..1]) == bs[0].pnl;
    assert Total(bs[..2]) == bs[0].pnl + bs[1].pnl;
  }

  lemma JustTwo(e: Episode, bar: Bar, i: nat, c: Costs)
    requires e.pos.partials == 0
    requires Reaches(e.pos, bar, 1) && Reaches(e.pos, bar, 2) && !Reaches(e.pos, bar, 3)
    ensures TakePartials(e, bar, i, 1, c).pos.partials == 2
  {
    hide Gain, Target, Charged;
    Study.SameTargets(e.pos, 1);
    Study.SameTargets(e.pos, 2);
    hide Reaches;
    var one, two := TakeOne(e, bar, i, 1, c), TakeOne(TakeOne(e, bar, i, 1, c), bar, i, 2, c);
    TakePartialsTurn(e, bar, i, 1, c);
    TakePartialsTurn(one, bar, i, 2, c);
    TakePartialsTurn(two, bar, i, 3, c);
    assert one.pos == e.pos.(partials := 1) && two.pos == e.pos.(partials := 2);
    assert TakeOne(two, bar, i, 3, c) == two;
  }

  /** A long whose stop is `room` away and whose entry slips by `shift`, on a bar that reaches its third target. */
  lemma ThirdTakenTotal(sig: Signal, c: Costs, bar: Bar)
    requires var p := OpenAt(sig, 0, c).pos; Reaches(p, bar, 1) && Reaches(p, bar, 2) && Reaches(p, bar, 3)
    ensures var p := OpenAt(sig, 0, c).pos;
            Total(TakePartials(OpenAt(sig, 0, c), bar, 1, 1, c).bookings)
            == 2.0 * Study.Worth(p) - 0.9 * PerTradeCost(p.qty, c)
  {
    var e := TakePartials(OpenAt(sig, 0, c), bar, 1, 1, c);
    AllThree(OpenAt(sig, 0, c), bar, 1, c);
    hide *;
    TakenFacts(sig, c, bar);
    TakenTotal(e, 3, c);
    assert e.bookings[..3] == e.bookings;
  }

  /** The targets taken on the second bar, in the position just opened. */
  lemma TakenFacts(sig: Signal, c: Costs, bar: Bar)
    ensures var e0, e := OpenAt(sig, 0, c), TakePartials(OpenAt(sig, 0, c), bar, 1, 1, c);
            && PartialsTaken(e, e.pos.partials, c) && |e.bookings| == e.pos.partials
            && e.pos.qty == e0.pos.qty && Study.Worth(e.pos) == Study.Worth(e0.pos)
            && Gain(e.pos, bar.close) == Gain(e0.pos, bar.close)
  {
    hide *;
    var e0 := OpenAt(sig, 0, c);
    OpensFresh(sig, c);
    FreshTaken(e0, c);
    TakePartialsSignal(e0, bar, 1, 1, c);
    TakePartialsShape(e0, bar, 1, 1, c);
    SameMeasures(e0.pos, TakePartials(e0, bar, 1, 1, c).pos.partials, bar.close);
  }

  lemma OpensFresh(sig: Signal, c: Costs)
    ensures OpenAt(sig, 0, c).bookings == [] && OpenAt(sig, 0, c).pos.partials == 0
  {
  }

  lemma SameMeasures(p: Position, k: nat, price: real)
    ensures Study.Worth(p.(partials := k)) == Study.Worth(p) && Gain(p.(partials := k), price) == Gain(p, price)
  {
    assert Distance(p.(partials := k)) == Distance(p);
  }

  lemma FreshTaken(e: Episode, c: Costs)
    ensures e.bookings == [] ==> PartialsTaken(e, 0, c)
  {
  }

  /** And on a bar that reaches the second but not the third. */
  lemma HeldTotal(sig: Signal, c: Costs, bar: Bar)
    requires var p := OpenAt(sig, 0, c).pos; Reaches(p, bar, 1) && Reaches(p, bar, 2) && !Reaches(p, bar, 3)
    ensures var p := OpenAt(sig, 0, c).pos;
            Held(sig, c, bar) == Study.Worth(p) + Gain(p, bar.close) - 1.1 * PerTradeCost(p.qty, c)
  {
    var e := TakePartials(OpenAt(sig, 0, c), bar, 1, 1, c);
    JustTwo(OpenAt(sig, 0, c), bar, 1, c);
    var pnl := Charged(e.pos, EndOfData, Gain(e.pos, bar.close), c);
    assert Held(sig, c, bar) == Total(e.bookings + [Booking(EndOfData, 1, pnl)]);
    assert pnl == Gain(e.pos, bar.close) - 0.5 * PerTradeCost(e.pos.qty, c) by {
      hide Gain, PerTradeCost, TakePartials;
    }
    hide *;
    TakenFacts(sig, c, bar);
    TakenTotal(e, 2, c);
    assert e.bookings[..2] == e.bookings;
    TotalMore(e.bookings, Booking(EndOfData, 1, pnl));
  }

  lemma TotalMore(bs: seq<Booking>, b: Booking)
    ensures Total(bs + [b]) == Total(bs) + b.pnl
  {
    assert (bs + [b])[..|bs|] == bs;
  }

  /** A signal at the right distance from the close books any result at once. */
  lemma AnyResult(i: nat, c: Costs, bar: Bar, result: real) returns (sig: Signal)
    ensures Quick(sig, i, c, bar) == result && Study.GoodSignal(sig)
    ensures sig.entry == bar.close - (result + c.slippage * 0.10 + 0.5 * Rate(c))
  {
    var entry := bar.close - (result + c.slippage * 0.10 + 0.5 * Rate(c));
    sig := Signal(Long, entry, entry - RISK);
    assert OpenAt(sig, i, c).pos.qty == 1.0;
    CostIsRate(1.0, c);
    hide Rate, PerTradeCost;
  }

  /** The size of the market on which two slippages part: large against everything that is charged. */
  function Span(c: Costs, d: Costs, gap: real): real {
    51.0 + Abs(Excess(c, d)) + Abs(gap) + Abs(c.slippage * 0.10 + 0.5 * Rate(c)) + Abs(c.slippage) + Abs(d.slippage)
  }

  /** What the held position makes more than the one that is closed, per unit of size. */
  function Excess(c: Costs, d: Costs): real {
    0.9 * Rate(c) - 1.1 * Rate(d) - 0.20 * c.slippage
  }

  /** The bar that reaches the third target of the lower slippage `c` and closes one stop distance up. */
  function PartingBar(c: Costs, span: real): Bar {
    Bar(9, 3.0 * span, 5.0 * span + 0.40 * c.slippage, 2.0 * span, 3.0 * span)
  }

  lemma Parts(c: Costs, d: Costs, span: real)
    requires c.slippage < d.slippage && span >= 51.0 + Abs(c.slippage) + Abs(d.slippage)
    ensures var sig, bar := Signal(Long, 2.0 * span, span), PartingBar(c, span);
            var p, q := OpenAt(sig, 0, c).pos, OpenAt(sig, 0, d).pos;
            && ValidBar(bar) && SoundSignal(sig, Flat(2.0 * span))
            && !StopHit(p, bar) && Reaches(p, bar, 1) && Reaches(p, bar, 2) && Reaches(p, bar, 3)
            && !StopHit(q, bar) && Reaches(q, bar, 1) && Reaches(q, bar, 2) && !Reaches(q, bar, 3)
  {
    hide SoundSignal, ValidBar;
    PartingBarIsSound(c, span);
    var sig := Signal(Long, 2.0 * span, span);
    OpensAway(sig, c, span);
    OpensAway(sig, d, span);
    hide OpenAt;
    Targets(OpenAt(sig, 0, c).pos, c.slippage * 0.10, span, PartingBar(c, span));
    Targets(OpenAt(sig, 0, d).pos, d.slippage * 0.10, span, PartingBar(c, span));
  }

  lemma PartingBarIsSound(c: Costs, span: real)
    requires span >= 51.0 + Abs(c.slippage)
    ensures ValidBar(PartingBar(c, span)) && SoundSignal(Signal(Long, 2.0 * span, span), Flat(2.0 * span))
  {
  }

  lemma OpensAway(sig: Signal, c: Costs, span: real)
    requires sig == Signal(Long, 2.0 * span, span) && span >= 51.0 + Abs(c.slippage)
    ensures var p := OpenAt(sig, 0, c).pos;
            && p.dir == Long && p.entry == 2.0 * span + c.slippage * 0.10 && p.stop == span && p.qty == RISK / span
            && Distance(p) == span + c.slippage * 0.10
  {
  }

  lemma Targets(p: Position, shift: real, span: real, bar: Bar)
    requires p.dir == Long && p.entry == 2.0 * span + shift && p.stop == span && Distance(p) == span + shift
    requires bar.low == 2.0 * span && span > 0.0
    ensures !StopHit(p, bar)
    ensures Reaches(p, bar, 1) <==> bar.high >= 3.0 * span + 2.0 * shift
    ensures Reaches(p, bar, 2) <==> bar.high >= 4.0 * span + 3.0 * shift
    ensures Reaches(p, bar, 3) <==> bar.high >= 5.0 * span + 4.0 * shift
  {
    hide Distance;
  }

  /** What the held position makes more than the closed one: less than RISK. */
  function Extra(c: Costs, d: Costs, gap: real): real {
    SpanIsLarge(c, d, gap);
    RISK / Span(c, d, gap) * Excess(c, d)
  }

  lemma ExtraIsSmall(c: Costs, d: Costs, gap: real)
    ensures -RISK <= Extra(c, d, gap) <= RISK
  {
    SmallShare(Span(c, d, gap), Excess(c, d));
    hide Excess;
  }

  lemma SpanIsLarge(c: Costs, d: Costs, gap: real)
    ensures Span(c, d, gap) >= 51.0 + Abs(c.slippage) + Abs(d.slippage)
    ensures Span(c, d, gap) >= 51.0 + Abs(c.slippage) && Span(c, d, gap) >= 51.0 + Abs(d.slippage)
    ensures Span(c, d, gap) > 0.0
  {
    hide Rate, Excess;
  }

  lemma PartingDifference(c: Costs, d: Costs, gap: real)
    requires c.slippage < d.slippage
    ensures var span := Span(c, d, gap);
            var sig, bar := Signal(Long, 2.0 * span, span), PartingBar(c, span);
            Held(sig, d, bar) - Total(TakePartials(OpenAt(sig, 0, c), bar, 1, 1, c).bookings) == Extra(c, d, gap)
  {
    var span := Span(c, d, gap);
    var sig, bar := Signal(Long, 2.0 * span, span), PartingBar(c, span);
    hide *;
    SpanIsLarge(c, d, gap);
    Parts(c, d, span);
    ThirdTakenTotal(sig, c, bar);
    HeldTotal(sig, d, bar);
    WorthDifference(c, d, gap);
  }

  lemma WorthDifference(c: Costs, d: Costs, gap: real)
    ensures var span := Span(c, d, gap);
            var sig, bar := Signal(Long, 2.0 * span, span), PartingBar(c, span);
            var p, q := OpenAt(sig, 0, c).pos, OpenAt(sig, 0, d).pos;
            Study.Worth(q) + Gain(q, bar.close) - 1.1 * PerTradeCost(q.qty, d)
            - (2.0 * Study.Worth(p) - 0.9 * PerTradeCost(p.qty, c)) == Extra(c, d, gap)
  {
    var span := Span(c, d, gap);
    var sig, bar := Signal(Long, 2.0 * span, span), PartingBar(c, span);
    hide *;
    SpanIsLarge(c, d, gap);
    WorthAway(sig, c, span);
    WorthAway(sig, d, span);
    BarCloses(c, span);
    Difference(Size(span), span, c.slippage * 0.10, d.slippage * 0.10, Rate(c), Rate(d));
    ExtraIs(c, d, gap);
  }

  lemma BarCloses(c: Costs, span: real)
    ensures PartingBar(c, span).close == 3.0 * span
  {
  }

  /** The size of a position whose stop is `span` away. */
  function Size(span: real): real
    requires span != 0.0
  {
    RISK / span
  }

  function Times(x: real, y: real): real {
    x * y
  }

  lemma WorthAway(sig: Signal, c: Costs, span: real)
    requires sig == Signal(Long, 2.0 * span, span) && span >= 51.0 + Abs(c.slippage)
    ensures var p := OpenAt(sig, 0, c).pos;
            && Study.Worth(p) == Times(Size(span), span + c.slippage * 0.10)
            && Gain(p, 3.0 * span) == Times(Size(span), span - c.slippage * 0.10)
            && PerTradeCost(p.qty, c) == Times(Size(span), Rate(c))
  {
    OpensAway(sig, c, span);
    hide OpenAt, Distance, PerTradeCost, Rate;
    var p := OpenAt(sig, 0, c).pos;
    CostIsRate(p.qty, c);
    assert 3.0 * span - p.entry == span - c.slippage * 0.10;
  }

  lemma ExtraIs(c: Costs, d: Costs, gap: real)
    requires Span(c, d, gap) != 0.0
    ensures Extra(c, d, gap)
         == Times(Size(Span(c, d, gap)), 0.9 * Rate(c) - 1.1 * Rate(d) - 2.0 * (c.slippage * 0.10))
  {
    hide Rate, Span;
    assert Excess(c, d) == 0.9 * Rate(c) - 1.1 * Rate(d) - 2.0 * (c.slippage * 0.10);
    hide Excess;
  }

  lemma Difference(q: real, span: real, s: real, r: real, rc: real, rd: real)
    ensures Times(q, span + r) + Times(q, span - r) - 1.1 * Times(q, rd)
          - (2.0 * Times(q, span + s) - 0.9 * Times(q, rc))
         == Times(q, 0.9 * rc - 1.1 * rd - 2.0 * s)
  {
    var a, b, x, y, z := q * span, q * r, q * s, q * rc, q * rd;
    assert q * (span + r) == a + b && q * (span - r) == a - b && q * (span + s) == a + x;
    assert q * (0.9 * rc - 1.1 * rd - 2.0 * s) == 0.9 * y - 1.1 * z - 2.0 * x;
  }

  lemma SmallShare(span: real, x: real)
    requires span > Abs(x)
    ensures -RISK <= RISK / span * x <= RISK
  {
    var q := RISK / span;
    assert q * span == RISK && q > 0.0;
    Study.Scaled(q, x, span);
    Study.Scaled(q, -span, x);
  }

  /** Two costs that slip differently can differ by any amount, in either direction, whatever their fees: there is a
      sound two-bar run on which they do.  The lower slippage reaches the third target and is free for the next
      signal. */
  lemma SlippageDecidesNothing<S(!new)>(init: S, c: Costs, d: Costs, gap: real)
    returns (setup: Setup<S>, bars: seq<Bar>)
    requires c.slippage < d.slippage
    ensures |bars| == |setup.labels| == 2 && SoundRun(setup, bars)
    ensures Net(setup, c, bars) - Net(setup, d, bars) == gap
  {
    var span := Span(c, d, gap);
    var sig := Signal(Long, 2.0 * span, span);
    bars := [Flat(2.0 * span), PartingBar(c, span)];
    hide *;
    var second := SecondSignal(c, d, gap);
    SpanIsLarge(c, d, gap);
    Parts(c, d, span);
    PartingDifference(c, d, gap);
    setup := TwoShots(init, sig, second, [IN, IN]);
    FlatIsValid(2.0 * span);
    TwoShotsAreSound(init, sig, second, [IN, IN], bars);
    TwoPositions(init, sig, second, c, bars);
    StillHeld(init, sig, second, d, bars);
  }

  lemma FlatIsValid(price: real)
    ensures ValidBar(Flat(price))
  {
  }

  /** The signal that turns the difference into `gap`, from within the bar. */
  lemma SecondSignal(c: Costs, d: Costs, gap: real) returns (second: Signal)
    ensures var span := Span(c, d, gap);
            && SoundSignal(second, PartingBar(c, span))
            && Quick(second, 1, c, PartingBar(c, span)) == Extra(c, d, gap) + gap
  {
    var span, extra := Span(c, d, gap), Extra(c, d, gap);
    ExtraIsSmall(c, d, gap);
    second := AnyResult(1, c, PartingBar(c, span), extra + gap);
    hide Quick, Rate, Excess, Extra;
    var off := extra + gap + (c.slippage * 0.10 + 0.5 * Rate(c));
    assert -span < off < span;
    assert second.entry == 3.0 * span - off;
  }

  /** Exactly when one set of costs never nets more than another, over every sound run: they slip alike and its fees
      are at least as high. */
  lemma NeverNetsMoreExactlyWhen<S(!new)>(init: S, c: Costs, d: Costs)
    ensures NeverNetsMore<S>(c, d) <==> c.slippage == d.slippage && FeeRate(c) <= FeeRate(d)
  {
    hide Net, FeeRate;
    if c.slippage == d.slippage && FeeRate(c) <= FeeRate(d) {
      forall setup: Setup<S>, bars: seq<Bar> | SoundRun(setup, bars)
        ensures Net(setup, d, bars) <= Net(setup, c, bars)
      {
        NetNeverRises(setup, c, d, bars);
      }
    } else if c.slippage == d.slippage {
      var setup, bars := LowerFeesNetMore(init, c, d);
    } else if c.slippage < d.slippage {
      var setup, bars := SlippageDecidesNothing(init, c, d, -1.0);
    } else {
      var setup, bars := SlippageDecidesNothing(init, d, c, 1.0);
    }
  }

  // ----- what the strategy is asked, and what becomes of its answers --------------------------------

  /** For each bar all bars up to it. */
  function Histories(bars: seq<Bar>): seq<seq<Bar>> {
    seq(|bars|, i requires 0 <= i < |bars| => bars[..i + 1])
  }

  /** The London bars with an ADX between 15 and 30. */
  function OpenBars(labels: seq<Study.Label>): seq<bool> {
    seq(|labels|, i requires 0 <= i < |labels| =>
      labels[i].session == Study.London && !(labels[i].adx < 15.0) && !(30.0 < labels[i].adx))
  }

  lemma {:induction false} TakePartialsStays(e: Episode, bar: Bar, i: nat, rm: nat, c: Costs)
    ensures var e' := TakePartials(e, bar, i, rm, c);
            && SameEntry(e, e') && e.pos.partials <= e'.pos.partials
            && (e'.pos.partials > e.pos.partials ==> e'.bookings != [] && LastBar(e') == i)
            && (e'.pos.partials == e.pos.partials ==> e' == e)
    decreases 4 - rm
  {
    hide Gain, Target, Reaches, Charged;
    if rm <= 3 {
      TakePartialsTurn(e, bar, i, rm, c);
      hide TakePartials;
      TakePartialsStays(TakeOne(e, bar, i, rm, c), bar, i, rm + 1, c);
    }
  }

  lemma ManageEnds(e: Episode, bar: Bar, i: nat, c: Costs)
    requires Live(e, c)
    ensures var (e', done) := Manage(e, bar, i, c);
            SameEntry(e, e') && (done ==> e'.bookings != [] && LastBar(e') == i)
  {
    hide Gain, Target, Reaches, TakePartials, StopHit, PartialsTaken, Charged;
    TakePartialsStays(e, bar, i, 1, c);
  }

  /** The state when bar `i` is over for the open position and the strategy is not asked yet. */
  function AfterManage<S>(st: State<S>, bar: Bar, i: nat, c: Costs): State<S> {
    match st.open
    case None => st
    case Some(e) =>
      var (e', done) := Manage(e, bar, i, c);
      if done then State(st.s, None, st.closed + [e']) else State(st.s, Some(e'), st.closed)
  }

  lemma ManagedByBar<S>(st: State<S>, bar: Bar, i: nat, c: Costs)
    requires st.open.Some? ==> Live(st.open.value, c)
    ensures Managed(st, AfterManage(st, bar, i, c), i)
  {
    if st.open.Some? {
      ManageEnds(st.open.value, bar, i, c);
      var e' := Manage(st.open.value, bar, i, c).0;
      hide Manage, Live, LastBar, SameEntry;
      assert SameEntry(st.open.value, e');
    }
  }

  lemma StepByTurn<S>(setup: Setup<S>, c: Costs, bars: seq<Bar>, st: State<S>, i: nat)
    requires i < |bars| == |setup.labels|
    ensures var managed := AfterManage(st, bars[i], i, c);
            && managed.s == st.s
            && Step(setup, c, bars, st, i)
            == if managed.open.Some? || !GateOk(setup.labels[i]) then managed
               else
                 var (s, answer) := setup.strategy(st.s, bars[..i + 1]);
                 State(s, if answer.Fires? then Some(OpenAt(answer.signal, i, c)) else None, managed.closed)
  {
    hide Manage, GateOk, OpenAt;
  }

  predicate OpensAt(e: Episode, sig: Signal, i: nat) {
    e.pos.entryBar == i && e.signal == sig
  }

  lemma StepTold<S>(setup: Setup<(S, seq<Call>)>, strategy: Strategy<S>, c: Costs, bars: seq<Bar>,
          st: State<(S, seq<Call>)>, at: seq<nat>, i: nat)
    returns (more: seq<nat>)
    requires i < |bars| == |setup.labels| && setup.strategy == Recording(strategy)
    requires st.open.Some? ==> Live(st.open.value, c)
    requires Told(st, at, i, Histories(bars), OpenBars(setup.labels)) && Past(st, i)
    ensures var st' := Step(setup, c, bars, st, i);
            Told(st', more, i + 1, Histories(bars), OpenBars(setup.labels)) && Past(st', i + 1)
  {
    var st', managed, open := Step(setup, c, bars, st, i), AfterManage(st, bars[i], i, c), OpenBars(setup.labels);
    ManagedByBar(st, bars[i], i, c);
    StillTold(st, managed, at, i, Histories(bars), open);
    StepByTurn(setup, c, bars, st, i);
    assert GateOk(setup.labels[i]) <==> open[i];
    if managed.open.Some? || !open[i] {
      more := at;
      hide *;
      NotAsked(managed, at, i, Histories(bars), open);
    } else {
      more := at + [i];
      var (s, answer) := strategy(st.s.0, bars[..i + 1]);
      var call := Call(bars[..i + 1], answer);
      assert call.bars == Histories(bars)[i];
      assert Recording(strategy)(st.s, bars[..i + 1]) == ((s, st.s.1 + [call]), answer);
      assert answer.Fires? ==> OpensAt(OpenAt(answer.signal, i, c), answer.signal, i);
      hide *;
      Asked(managed, st', at, i, Histories(bars), open, call);
    }
  }

  /** The run with its record, at any costs: for every strategy and after any number of bars, the strategy was asked
      exactly on the open bars on which no position was held, in order, each time with all bars so far; and the
      positions are exactly the signals it fired, in order. */
  lemma {:induction false} RunIsItsCalls<S>(init: S, strategy: Strategy<S>, labels: seq<Study.Label>, c: Costs,
          bars: seq<Bar>, k: nat)
    returns (at: seq<nat>)
    requires k <= |bars| == |labels|
    ensures var st := After(Setup((init, []), Recording(strategy), labels), c, bars, k);
            Told(st, at, k, Histories(bars), OpenBars(labels)) && Past(st, k)
  {
    hide *;
    var setup := Setup((init, []), Recording(strategy), labels);
    OpenBarsIs(labels, bars);
    if k == 0 {
      at := [];
      AfterNothing(setup, c, bars);
      ToldNothing(init, Histories(bars), OpenBars(labels));
    } else {
      var i: nat := k - 1;
      var before := RunIsItsCalls(init, strategy, labels, c, bars, i);
      AfterOneMore(setup, c, bars, i);
      OpenIsLive(setup, c, bars, i);
      at := StepTold(setup, strategy, c, bars, After(setup, c, bars, i), before, i);
    }
  }

  lemma OpenBarsIs(labels: seq<Study.Label>, bars: seq<Bar>)
    ensures |OpenBars(labels)| == |labels| && |Histories(bars)| == |bars|
  {
  }

  lemma AfterNothing<S>(setup: Setup<S>, c: Costs, bars: seq<Bar>)
    requires |bars| == |setup.labels|
    ensures After(setup, c, bars, 0) == State(setup.init, None, [])
  {
  }

  lemma AfterOneMore<S>(setup: Setup<S>, c: Costs, bars: seq<Bar>, k: nat)
    requires k < |bars| == |setup.labels|
    ensures After(setup, c, bars, k + 1) == Step(setup, c, bars, After(setup, c, bars, k), k)
  {
    hide Step;
  }

  lemma OpenIsLive<S>(setup: Setup<S>, c: Costs, bars: seq<Bar>, k: nat)
    requires k <= |bars| == |setup.labels|
    ensures var open := After(setup, c, bars, k).open; open.Some? ==> Live(open.value, c)
  {
    RunShape(setup, c, bars, k);
    hide After, Live, Done;
  }

  /** So the positions a whole run books for are its fired signals, each entered on the bar of its call. */
  lemma PositionsAreTheSignals<S>(init: S, strategy: Strategy<S>, labels: seq<Study.Label>, c: Costs, bars: seq<Bar>)
    returns (at: seq<nat>)
    requires |bars| == |labels|
    ensures var setup := Setup((init, []), Recording(strategy), labels);
            var st := After(setup, c, bars, |bars|);
            && Told(st, at, |bars|, Histories(bars), OpenBars(labels))
            && Entries(Episodes(setup, c, bars)) == Fired(at, st.s.1)
  {
    at := RunIsItsCalls(init, strategy, labels, c, bars, |bars|);
    var setup := Setup((init, []), Recording(strategy), labels);
    var st := After(setup, c, bars, |bars|);
    EpisodesFinish(setup, c, bars);
    hide After, Gain, Fired, Histories, OpenBars, Recording, Charged, Episodes;
    assert Entries(Finish(st, c, bars)) == Entries(Opened(st));
  }

  /** And every position of every run has the numbers of its signal, entered a tenth of the slippage worse. */
  lemma EveryPositionIsSized<S>(setup: Setup<S>, c: Costs, bars: seq<Bar>, e: Episode)
    requires |bars| == |setup.labels| && e in Episodes(setup, c, bars)
    ensures SizedOn(e, c.slippage * 0.10)
  {
    PositiveSize(setup, c, bars, e);
    hide Episodes;
    var d := Abs(e.signal.entry - e.signal.stop);
    assert e.pos.qty * Max(d, MIN_STOP) == RISK;
  }
}
