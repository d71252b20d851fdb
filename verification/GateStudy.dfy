/** The trade simulator of scripts/gate_loosening_study.py: labels, gates, and `run_variant`. */
module GateStudy {
  import opened Wrappers
  import opened Reals
  import opened Positions
  import opened StrategyCalls

  datatype Regime = RegimeQuiet | RegimeChoppy | RegimeTrending | RegimeVolatile

  datatype Session = Asia | London | NyAm | OtherSession

  /** `sessions == None` means no session restriction. */
  datatype Gate = Gate(regimes: set<Regime>, adxLo: real, adxHi: real, sessions: Option<set<Session>>)

  datatype Label = Label(regime: Option<Regime>, adx: real, session: Session)

  const WINDOW: nat := 100
  const LOOKBACK: nat := 300
  const MAX_BARS_HELD: nat := 50
  const MIN_STOP: real := 0.0001

  /** The detector and the ADX indicator over a window of bars; None stands for an exception or NaN. */
  datatype Indicators = Indicators(regime: seq<Bar> -> Option<Regime>, adx: seq<Bar> -> Option<real>)

  function SessionOf(hour: int): Session {
    if 0 <= hour < 7 then Asia else if 7 <= hour < 12 then London else if 12 <= hour < 17 then NyAm else OtherSession
  }

  function LabelAt(ind: Indicators, bars: seq<Bar>, i: nat): Label
    requires i < |bars|
  {
    var w := bars[if i < WINDOW then 0 else i - WINDOW..i + 1];
    var adx := if i >= WINDOW then ind.adx(w) else None;
    Label(if i >= WINDOW then ind.regime(w) else None, if adx.Some? then adx.value else 0.0, SessionOf(bars[i].hour))
  }

  method Precompute(ind: Indicators, bars: seq<Bar>) returns (labels: array<Label>)
    ensures fresh(labels) && labels.Length == |bars|
    ensures forall i :: 0 <= i < |bars| ==> labels[i] == LabelAt(ind, bars, i)
  {
    labels := new Label[|bars|](_ => Label(None, 0.0, OtherSession));
    for i := 0 to |bars|
      invariant forall j :: 0 <= j < i ==> labels[j] == LabelAt(ind, bars, j)
    {
      var regime: Option<Regime>, adx := None, 0.0;
      if i >= WINDOW {
        var w := bars[i - WINDOW..i + 1];
        regime := ind.regime(w);
        var a := ind.adx(w);
        if a.Some? {
          adx := a.value;
        }
      }
      labels[i] := Label(regime, adx, SessionOf(bars[i].hour));
    }
  }

  predicate GateOk(l: Label, g: Gate) {
    && l.regime.Some? && l.regime.value in g.regimes
    && (g.adxLo > 0.0 || g.adxHi < 100.0 ==> g.adxLo <= l.adx <= g.adxHi)
    && (g.sessions.Some? ==> l.session in g.sessions.value)
  }

  /** `GateConfig.copy()` with no changes: an empty session set is falsy and becomes None. */
  function Copy(g: Gate): Gate {
    g.(sessions := if g.sessions.Some? && g.sessions.value != {} then g.sessions else None)
  }

  /** Exactly when a plain copy is the same gate. */
  lemma CopyIsFaithfulExactlyWhenSessionsNotEmpty(g: Gate)
    ensures (forall l :: GateOk(l, Copy(g)) <==> GateOk(l, g))
       <==> g.sessions != Some({}) || g.regimes == {} || g.adxLo > g.adxHi
  {
    if g.sessions == Some({}) && g.adxLo <= g.adxHi {
      if r :| r in g.regimes {
        var l := Label(Some(r), g.adxLo, Asia);
        assert GateOk(l, Copy(g)) && !GateOk(l, g);
      }
    }
  }

  // ----- one bar --------------------------------------------------------------------------

  datatype Setup<!S> = Setup(init: S, strategy: Strategy<S>, gate: Gate, labels: seq<Label>)

  /** Up to three partial exits on one bar, each at the next target. */
  function TakePartials(e: Episode, bar: Bar, i: nat, rm: nat): Episode
    decreases 4 - rm
  {
    if rm > 3 then e
    else if e.pos.partials == rm - 1 && Reaches(e.pos, bar, rm) then
      var taken := Book(e, Partial(rm), i, Gain(e.pos, Target(e.pos, rm)) / 3.0);
      TakePartials(taken.(pos := e.pos.(partials := rm)), bar, i, rm + 1)
    else TakePartials(e, bar, i, rm + 1)
  }

  /** What a bar does to an open position, and whether that closes it. */
  function Manage(e: Episode, bar: Bar, i: nat): (Episode, bool) {
    if StopHit(e.pos, bar) then (Book(e, StopOut, i, -RISK), true)
    else
      var e' := TakePartials(e, bar, i, 1);
      if e'.pos.partials >= 3 then (e', true)
      else if i - e'.pos.entryBar >= MAX_BARS_HELD then (Book(e', Timeout, i, Gain(e'.pos, bar.close)), true)
      else (e', false)
  }

  function OpenAt(sig: Signal, i: nat): Episode {
    var qty := RISK / Max(Abs(sig.entry - sig.stop), MIN_STOP);
    Episode(sig, Position(sig.dir, sig.entry, sig.stop, qty, i, 0), [])
  }

  function Seen(bars: seq<Bar>, i: nat): seq<Bar>
    requires i < |bars|
  {
    bars[if i < LOOKBACK - 1 then 0 else i - (LOOKBACK - 1)..i + 1]
  }

  function Step<S>(setup: Setup<S>, bars: seq<Bar>, st: State<S>, i: nat): State<S>
    requires i < |bars| == |setup.labels|
  {
    var (open, closed) :=
      if st.open.None? then (None, st.closed)
      else
        var (e, done) := Manage(st.open.value, bars[i], i);
        if done then (None, st.closed + [e]) else (Some(e), st.closed);
    if open.Some? || !GateOk(setup.labels[i], setup.gate) then State(st.s, open, closed)
    else
      var (s, answer) := setup.strategy(st.s, Seen(bars, i));
      State(s, if answer.Fires? then Some(OpenAt(answer.signal, i)) else None, closed)
  }

  /** The state after the first `k` bars. */
  function After<S>(setup: Setup<S>, bars: seq<Bar>, k: nat): State<S>
    requires k <= |bars| == |setup.labels|
  {
    if k == 0 then State(setup.init, None, []) else Step(setup, bars, After(setup, bars, k - 1), k - 1)
  }

  /** A position still open after the last bar is closed at its close. */
  function Finish<S>(st: State<S>, bars: seq<Bar>): seq<Episode>
    requires st.open.Some? ==> bars != []
  {
    if st.open.None? then st.closed
    else
      var e := st.open.value;
      st.closed + [Book(e, EndOfData, |bars| - 1, Gain(e.pos, bars[|bars| - 1].close))]
  }

  function Episodes<S>(setup: Setup<S>, bars: seq<Bar>): seq<Episode>
    requires |bars| == |setup.labels|
  {
    Finish(After(setup, bars, |bars|), bars)
  }

  // ----- the loop as the script runs it ----------------------------------------------------

  /** The `rm`-R target taken. */
  function Taken(e: Episode, i: nat, rm: nat): Episode {
    Book(e, Partial(rm), i, Gain(e.pos, Target(e.pos, rm)) / 3.0).(pos := e.pos.(partials := rm))
  }

  lemma TakePartialsTurn(e: Episode, bar: Bar, i: nat, rm: nat)
    ensures TakePartials(e, bar, i, rm)
         == if rm > 3 then e
            else if e.pos.partials == rm - 1 && Reaches(e.pos, bar, rm) then
              TakePartials(Taken(e, i, rm), bar, i, rm + 1)
            else TakePartials(e, bar, i, rm + 1)
  {
    hide Gain, Target, Reaches;
  }

  /** What a target taken does to the position and to the list of trades. */
  lemma TakenBooks(e: Episode, i: nat, rm: nat)
    ensures var taken := Taken(e, i, rm);
            && taken.pos == e.pos.(partials := rm)
            && Pnls(taken.bookings) == Pnls(e.bookings) + [Gain(e.pos, Target(e.pos, rm)) / 3.0]
  {
    BookAppends(e, Partial(rm), i, Gain(e.pos, Target(e.pos, rm)) / 3.0);
    hide Gain, Target, Pnls;
  }

  lemma BookAppends(e: Episode, kind: Kind, i: nat, pnl: real)
    ensures Pnls(Book(e, kind, i, pnl).bookings) == Pnls(e.bookings) + [pnl]
  {
  }

  /** The inner loop over the three targets. */
  method TakeTargets(p: Position, bar: Bar, i: nat, ghost e: Episode) returns (pos: Position, trades: seq<real>)
    requires p == e.pos
    ensures var e' := TakePartials(e, bar, i, 1);
            pos == e'.pos && Pnls(e'.bookings) == Pnls(e.bookings) + trades
  {
    hide *;
    pos, trades := p, [];
    ghost var now := e;
    for rm := 1 to 4
      invariant now.pos == pos && Pnls(now.bookings) == Pnls(e.bookings) + trades
      invariant TakePartials(e, bar, i, 1) == TakePartials(now, bar, i, rm)
    {
      TakePartialsTurn(now, bar, i, rm);
      if rm - 1 == pos.partials && Reaches(pos, bar, rm) {
        TakenBooks(now, i, rm);
        now := Taken(now, i, rm);
        var pnl := Gain(pos, Target(pos, rm)) / 3.0;
        trades := trades + [pnl];
        pos := pos.(partials := rm);
      }
    }
    TakePartialsTurn(now, bar, i, 4);
  }

  method ManagePosition(p: Position, bar: Bar, i: nat, ghost e: Episode)
    returns (after: Option<Position>, trades: seq<real>)
    requires p == e.pos
    ensures var (e', done) := Manage(e, bar, i);
            && after == (if done then None else Some(e'.pos))
            && Pnls(e'.bookings) == Pnls(e.bookings) + trades
  {
    hide Gain, StopHit, TakePartials, Pnls;
    ghost var e' := TakePartials(e, bar, i, 1);
    if StopHit(p, bar) {
      BookAppends(e, StopOut, i, -RISK);
      return None, [-RISK];
    }
    var pos;
    pos, trades := TakeTargets(p, bar, i, e);
    if pos.partials >= 3 {
      return None, trades;
    }
    if i - pos.entryBar >= MAX_BARS_HELD {
      var pnl := Gain(pos, bar.close);
      BookAppends(e', Timeout, i, pnl);
      return None, trades + [pnl];
    }
    return Some(pos), trades;
  }

  method RunVariant<S>(setup: Setup<S>, bars: seq<Bar>) returns (trades: seq<real>)
    requires |bars| == |setup.labels|
    ensures trades == Pnls(Ledger(Episodes(setup, bars)))
  {
    hide Manage, Gain, GateOk, Pnls, Ledger;
    var s := setup.init;
    var pos: Option<Position> := None;
    trades := [];
    ghost var st := After(setup, bars, 0);
    NothingBooked(setup.init);
    for i := 0 to |bars|
      invariant st == After(setup, bars, i)
      invariant s == st.s && pos == (if st.open.Some? then Some(st.open.value.pos) else None)
      invariant trades == Pnls(Bookings(st))
    {
      ghost var was := st;
      st := After(setup, bars, i + 1);
      if pos.Some? {
        var after, booked := ManagePosition(pos.value, bars[i], i, was.open.value);
        LedgerManaged(was, bars[i], i, booked);
        pos, trades := after, trades + booked;
      }
      if pos.Some? || !GateOk(setup.labels[i], setup.gate) {
        continue;
      }
      var (s', answer) := setup.strategy(s, Seen(bars, i));
      s := s';
      if answer.Fires? {
        pos := Some(OpenAt(answer.signal, i).pos);
      }
    }
    if pos.Some? {
      var last := bars[|bars| - 1];
      trades := trades + [Gain(pos.value, last.close)];
      LedgerFinished(st, bars);
    }
  }

  lemma NothingBooked<S>(s: S)
    ensures Pnls(Bookings(State(s, None, []))) == []
  {
  }

  lemma LedgerAppend(closed: seq<Episode>, e: Episode)
    ensures Ledger(closed + [e]) == Ledger(closed) + e.bookings
  {
    assert (closed + [e])[..|closed|] == closed;
  }

  lemma PnlsAppend(a: seq<Booking>, b: seq<Booking>)
    ensures Pnls(a + b) == Pnls(a) + Pnls(b)
  {
  }

  lemma LedgerManaged<S>(st: State<S>, bar: Bar, i: nat, booked: seq<real>)
    requires st.open.Some?
    requires Pnls(Manage(st.open.value, bar, i).0.bookings) == Pnls(st.open.value.bookings) + booked
    ensures var (e', done) := Manage(st.open.value, bar, i);
            var open := if done then None else Some(e');
            var closed := if done then st.closed + [e'] else st.closed;
            Pnls(Bookings(State(st.s, open, closed))) == Pnls(Bookings(st)) + booked
  {
    hide Manage;
    LedgerReplaced(st, Manage(st.open.value, bar, i).0, booked);
  }

  /** Replacing the open position by one with more bookings, closed or not, appends to the ledger. */
  lemma LedgerReplaced<S>(st: State<S>, e: Episode, booked: seq<real>)
    requires st.open.Some?
    requires Pnls(e.bookings) == Pnls(st.open.value.bookings) + booked
    ensures Pnls(Bookings(State(st.s, Some(e), st.closed))) == Pnls(Bookings(st)) + booked
    ensures Pnls(Bookings(State(st.s, None, st.closed + [e]))) == Pnls(Bookings(st)) + booked
  {
    hide Pnls, Ledger;
    LedgerAppend(st.closed, e);
    assert Ledger(st.closed) + e.bookings + [] == Ledger(st.closed) + e.bookings;
    PnlsAppend(Ledger(st.closed), e.bookings);
    PnlsAppend(Ledger(st.closed), st.open.value.bookings);
    assert Pnls(Ledger(st.closed)) + (Pnls(st.open.value.bookings) + booked)
        == Pnls(Ledger(st.closed)) + Pnls(st.open.value.bookings) + booked;
  }

  lemma LedgerFinished<S>(st: State<S>, bars: seq<Bar>)
    requires st.open.Some? && bars != []
    ensures Pnls(Ledger(Finish(st, bars))) == Pnls(Bookings(st)) + [Gain(st.open.value.pos, bars[|bars| - 1].close)]
  {
    var e := Finish(st, bars)[|st.closed|];
    LedgerAppend(st.closed, e);
    PnlsAppend(Ledger(st.closed), e.bookings);
    PnlsAppend(Ledger(st.closed), st.open.value.bookings);
  }

  // ----- the shape of every position, on any bars and any strategy ---------------------------

  /** The position is the one its signal opened, but for the partials taken. */
  predicate FromSignal(e: Episode) {
    e.pos == OpenAt(e.signal, e.pos.entryBar).pos.(partials := e.pos.partials)
  }

  /** The first `k` bookings are the targets 1..k in order, each at its target price on a third, none on the
      entry bar and none after bar `last`. */
  ghost predicate PartialsTaken(e: Episode, k: nat, last: nat) {
    && k <= |e.bookings|
    && forall j :: 0 <= j < k ==>
         && e.bookings[j].kind == Partial(j + 1)
         && e.bookings[j].pnl == Gain(e.pos, Target(e.pos, j + 1)) / 3.0
         && e.pos.entryBar < e.bookings[j].bar <= last
  }

  /** The bar neither hits the stop nor reaches the next target. */
  predicate Survives(p: Position, b: Bar) {
    !StopHit(p, b) && !Reaches(p, b, p.partials + 1)
  }

  ghost predicate Live(e: Episode, bars: seq<Bar>, i: nat) {
    && FromSignal(e) && e.pos.partials < 3
    && e.pos.entryBar < i <= |bars|
    && PartialsTaken(e, e.pos.partials, i - 1) && |e.bookings| == e.pos.partials
    && i - 1 - e.pos.entryBar < 50
    && (e.pos.entryBar < i - 1 ==> Survives(e.pos, bars[i - 1]))
  }

  /** How a position ends: three targets, or fewer and one exit on the whole quantity. */
  ghost predicate Done(e: Episode, bars: seq<Bar>) {
    && FromSignal(e) && e.pos.partials <= 3
    && |e.bookings| == (if e.pos.partials == 3 then 3 else e.pos.partials + 1)
    && var x := e.bookings[|e.bookings| - 1];
       && e.pos.entryBar <= x.bar < |bars| && x.bar - e.pos.entryBar <= 50
       && PartialsTaken(e, e.pos.partials, x.bar)
       && (e.pos.partials < 3 ==> Exit(e, x, bars))
  }

  ghost predicate Exit(e: Episode, x: Booking, bars: seq<Bar>)
    requires e.pos.entryBar <= x.bar < |bars|
  {
    match x.kind
    case StopOut => x.pnl == -50.0 && StopHit(e.pos, bars[x.bar]) && e.pos.entryBar < x.bar
    case Partial(_) => false
    case Timeout =>
      && x.pnl == Gain(e.pos, bars[x.bar].close) && Survives(e.pos, bars[x.bar])
      && x.bar - e.pos.entryBar == 50
    case EndOfData =>
      && x.pnl == Gain(e.pos, bars[x.bar].close) && x.bar == |bars| - 1
      && (e.pos.entryBar < x.bar ==> Survives(e.pos, bars[x.bar]))
  }

  lemma OneTaken(e: Episode, i: nat, rm: nat)
    requires e.pos.entryBar < i && rm == e.pos.partials + 1
    requires PartialsTaken(e, e.pos.partials, i) && |e.bookings| == e.pos.partials
    ensures var taken := Taken(e, i, rm);
            && PartialsTaken(taken, rm, i) && |taken.bookings| == rm && taken.bookings[rm - 1].bar == i
            && taken.signal == e.signal && taken.pos == e.pos.(partials := rm)
            && taken.bookings[..|e.bookings|] == e.bookings
  {
    SameTargets(e.pos, rm);
    hide Gain, Target;
  }

  /** What taking targets on bar `i` makes of `e`: the same position with more targets taken, and a next one that the
      bar does not reach. */
  ghost predicate Carried(e: Episode, e': Episode, bar: Bar, i: nat) {
    && e'.signal == e.signal && e'.pos == e.pos.(partials := e'.pos.partials)
    && e.pos.partials <= e'.pos.partials <= 3
    && PartialsTaken(e', e'.pos.partials, i) && |e'.bookings| == e'.pos.partials
    && |e.bookings| == e.pos.partials && e'.bookings[..|e.bookings|] == e.bookings
    && (e'.pos.partials < 3 ==> !Reaches(e'.pos, bar, e'.pos.partials + 1))
    && (e'.pos.partials > e.pos.partials ==> e'.bookings[e'.pos.partials - 1].bar == i)
  }

  lemma {:induction false} TakePartialsShape(e: Episode, bar: Bar, i: nat, rm: nat)
    requires 1 <= rm <= 4 && e.pos.partials <= 3 && e.pos.entryBar < i
    requires PartialsTaken(e, e.pos.partials, i) && |e.bookings| == e.pos.partials
    requires e.pos.partials < rm - 1 ==> !Reaches(e.pos, bar, e.pos.partials + 1)
    ensures Carried(e, TakePartials(e, bar, i, rm), bar, i)
    decreases 4 - rm
  {
    hide *;
    TakePartialsTurn(e, bar, i, rm);
    if rm > 3 {
      NothingTaken(e, bar, i);
    } else if e.pos.partials == rm - 1 && Reaches(e.pos, bar, rm) {
      var taken := Taken(e, i, rm);
      OneTaken(e, i, rm);
      TakePartialsShape(taken, bar, i, rm + 1);
      CarriedOn(e, taken, TakePartials(taken, bar, i, rm + 1), bar, i);
    } else {
      TakePartialsShape(e, bar, i, rm + 1);
    }
  }

  lemma NothingTaken(e: Episode, bar: Bar, i: nat)
    requires e.pos.partials <= 3 && PartialsTaken(e, e.pos.partials, i) && |e.bookings| == e.pos.partials
    requires e.pos.partials < 3 ==> !Reaches(e.pos, bar, e.pos.partials + 1)
    ensures Carried(e, e, bar, i)
  {
    hide PartialsTaken, Reaches;
  }

  lemma CarriedOn(e: Episode, taken: Episode, e': Episode, bar: Bar, i: nat)
    requires taken.signal == e.signal && taken.pos == e.pos.(partials := taken.pos.partials)
    requires taken.pos.partials == e.pos.partials + 1 == |taken.bookings|
    requires |e.bookings| == e.pos.partials && taken.bookings[..|e.bookings|] == e.bookings
    requires taken.bookings[e.pos.partials].bar == i && Carried(taken, e', bar, i)
    ensures Carried(e, e', bar, i)
  {
    hide PartialsTaken, Reaches;
    assert e'.bookings[..|e.bookings|] == e'.bookings[..|taken.bookings|][..|e.bookings|];
    assert e'.bookings[..|taken.bookings|][e.pos.partials] == e'.bookings[e.pos.partials];
  }

  lemma SameTargets(p: Position, k: nat)
    ensures forall rm :: Gain(p.(partials := k), Target(p.(partials := k), rm)) == Gain(p, Target(p, rm))
    ensures forall b, rm :: Reaches(p.(partials := k), b, rm) == Reaches(p, b, rm)
  {
    assert Distance(p.(partials := k)) == Distance(p);
    hide Distance;
    assert forall rm :: Target(p.(partials := k), rm) == Target(p, rm);
    hide Target;
  }

  lemma ManageShape(e: Episode, bars: seq<Bar>, i: nat)
    requires i < |bars| && Live(e, bars, i)
    ensures var (e', done) := Manage(e, bars[i], i);
            if done then Done(e', bars) else Live(e', bars, i + 1)
  {
    hide Gain, Target, Reaches, TakePartials, Done, Live, StopHit;
    assert e.pos.entryBar < i && e.pos.partials <= 3 by { LiveFacts(e, bars, i); }
    if StopHit(e.pos, bars[i]) {
      StoppedShape(e, bars, i);
    } else {
      LiveFacts(e, bars, i);
      TakePartialsShape(e, bars[i], i, 1);
      KeptShape(e, TakePartials(e, bars[i], i, 1), bars, i);
    }
  }

  lemma LiveFacts(e: Episode, bars: seq<Bar>, i: nat)
    requires i < |bars| && Live(e, bars, i)
    ensures e.pos.entryBar < i && e.pos.partials < 3 && FromSignal(e) && |e.bookings| == e.pos.partials
    ensures PartialsTaken(e, e.pos.partials, i - 1) && PartialsTaken(e, e.pos.partials, i)
    ensures i - 1 - e.pos.entryBar < 50
  {
    hide Gain, Target, FromSignal, Survives;
  }

  lemma StoppedShape(e: Episode, bars: seq<Bar>, i: nat)
    requires i < |bars| && Live(e, bars, i) && StopHit(e.pos, bars[i])
    ensures Done(Book(e, StopOut, i, -RISK), bars)
  {
    hide Gain, Target, Reaches, StopHit, Survives;
  }

  /** The bar was survived, or three targets are taken on it, or the time is up. */
  lemma KeptShape(e: Episode, e': Episode, bars: seq<Bar>, i: nat)
    requires i < |bars| && Live(e, bars, i) && !StopHit(e.pos, bars[i])
    requires Carried(e, e', bars[i], i)
    ensures if e'.pos.partials >= 3 then Done(e', bars)
            else if i - e'.pos.entryBar >= MAX_BARS_HELD then
              Done(Book(e', Timeout, i, Gain(e'.pos, bars[i].close)), bars)
            else Live(e', bars, i + 1)
  {
    hide Gain, Target, Reaches;
  }

  ghost predicate ShapeOk<S>(st: State<S>, bars: seq<Bar>, k: nat) {
    && (st.open.Some? ==> Live(st.open.value, bars, k))
    && forall e :: e in st.closed ==> Done(e, bars)
  }

  lemma OpenShape(sig: Signal, bars: seq<Bar>, i: nat)
    requires i < |bars|
    ensures Live(OpenAt(sig, i), bars, i + 1)
  {
    hide Max, Abs;
  }

  lemma FinishShape(e: Episode, bars: seq<Bar>)
    requires bars != [] && Live(e, bars, |bars|)
    ensures Done(Book(e, EndOfData, |bars| - 1, Gain(e.pos, bars[|bars| - 1].close)), bars)
  {
    hide Gain, Target, Survives;
  }

  lemma StepShape<S>(setup: Setup<S>, bars: seq<Bar>, st: State<S>, i: nat)
    requires i < |bars| == |setup.labels| && ShapeOk(st, bars, i)
    ensures ShapeOk(Step(setup, bars, st, i), bars, i + 1)
  {
    if st.open.Some? {
      ManageShape(st.open.value, bars, i);
    }
    var answer := setup.strategy(st.s, Seen(bars, i)).1;
    if answer.Fires? {
      OpenShape(answer.signal, bars, i);
    }
    hide Manage, GateOk, OpenAt, Live, Done, Seen;
  }

  /** Over every run: the open position is live and every finished one is done. */
  lemma {:induction false} RunShape<S>(setup: Setup<S>, bars: seq<Bar>, k: nat)
    requires k <= |bars| == |setup.labels|
    ensures ShapeOk(After(setup, bars, k), bars, k)
  {
    hide Step, Live, Done;
    if k > 0 {
      RunShape(setup, bars, k - 1);
      StepShape(setup, bars, After(setup, bars, k - 1), k - 1);
    }
  }

  lemma EpisodesShape<S>(setup: Setup<S>, bars: seq<Bar>, e: Episode)
    requires |bars| == |setup.labels| && e in Episodes(setup, bars)
    ensures Done(e, bars)
  {
    hide After, Live, Done, Gain;
    var st := After(setup, bars, |bars|);
    RunShape(setup, bars, |bars|);
    if st.open.Some? {
      LiveNotEmpty(st.open.value, bars);
      FinishShape(st.open.value, bars);
    }
  }

  lemma LiveNotEmpty(e: Episode, bars: seq<Bar>)
    requires Live(e, bars, |bars|)
    ensures bars != []
  {
  }

  // ----- the ledger of one position ------------------------------------------------------------

  /** The stop stands on the right side of the entry, at least MIN_STOP away. */
  predicate GoodSignal(sig: Signal) {
    match sig.dir
    case Long => sig.entry - sig.stop >= MIN_STOP
    case Short => sig.stop - sig.entry >= MIN_STOP
  }

  lemma Rearrange(d: real, r: real, q: real)
    ensures (d * r) * q == r * (q * d)
  {
  }

  lemma Scaled(q: real, x: real, y: real)
    requires q > 0.0 && x < y
    ensures q * x < q * y
  {
  }

  /** What the targets taken so far have paid, where the stop's distance is worth `w`: a third of it for the first,
      two for the second, three for the last. */
  function PartialTotal(k: nat, w: real): real {
    if k == 0 then 0.0 else if k == 1 then w / 3.0 else if k == 2 then w else 2.0 * w
  }

  /** What the distance to the stop is worth: RISK, or less when the stop is closer than MIN_STOP. */
  function Worth(p: Position): real {
    p.qty * Distance(p)
  }

  lemma WorthIsAtMostRisk(e: Episode)
    requires FromSignal(e)
    ensures e.pos.qty > 0.0 && 0.0 <= Worth(e.pos) <= RISK
    ensures Worth(e.pos) == RISK <==> Distance(e.pos) >= MIN_STOP
  {
    var d, m := Distance(e.pos), Max(Distance(e.pos), MIN_STOP);
    assert e.pos.qty * m == RISK;
    assert e.pos.qty > 0.0 && d >= 0.0 && (m == d || d < m == MIN_STOP);
    assert Worth(e.pos) == e.pos.qty * d;
    hide *;
    if d < m { Scaled(e.pos.qty, d, m); }
    if 0.0 < d { Scaled(e.pos.qty, 0.0, d); }
  }

  lemma {:induction false} PartialsPay(e: Episode, k: nat, last: nat)
    requires PartialsTaken(e, k, last) && k <= 3
    ensures Total(e.bookings[..k]) == PartialTotal(k, Worth(e.pos))
  {
    hide Gain, Target, Worth;
    if k > 0 {
      PartialsPay(e, k - 1, last);
      TargetPays(e.pos, k);
      assert e.bookings[..k][..k - 1] == e.bookings[..k - 1];
      assert e.bookings[k - 1].pnl == Gain(e.pos, Target(e.pos, k)) / 3.0;
    }
  }

  lemma TargetPays(p: Position, rm: nat)
    ensures Gain(p, Target(p, rm)) == (rm as real) * Worth(p)
  {
    hide Distance;
    assert Gain(p, Target(p, rm)) == (Distance(p) * (rm as real)) * p.qty;
    Rearrange(Distance(p), rm as real, p.qty);
  }

  /** A target pays rm * RISK / 3 exactly when the stop is at least MIN_STOP from the entry. */
  lemma PartialPaysExactlyWhenStopIsFar(e: Episode, rm: nat)
    requires FromSignal(e) && 1 <= rm <= 3
    ensures Gain(e.pos, Target(e.pos, rm)) / 3.0 == (rm as real) * 50.0 / 3.0 <==> Distance(e.pos) >= 0.0001
  {
    assert RISK == 50.0 && MIN_STOP == 0.0001;
    hide *;
    TargetPays(e.pos, rm);
    WorthIsAtMostRisk(e);
    var w := Worth(e.pos);
    assert (rm as real) * w == (rm as real) * RISK <==> w == RISK by {
      assert rm as real == 1.0 || rm as real == 2.0 || rm as real == 3.0;
    }
  }

  /** The mark of a bar that survived: no worse than the stop's distance, short of the next target. */
  lemma SurvivingMark(e: Episode, b: Bar)
    requires FromSignal(e) && ValidBar(b) && Survives(e.pos, b) && e.pos.partials < 3
    ensures -Worth(e.pos) <= Gain(e.pos, b.close) < ((e.pos.partials + 1) as real) * Worth(e.pos)
  {
    hide *;
    WorthIsAtMostRisk(e);
    SizeOnRoom(e, b.close);
    SurvivingMove(e, b);
    ScaledMove(e.pos.qty, Distance(e.pos), Move(e.signal, b.close), (e.pos.partials + 1) as real);
    WorthIs(e.pos);
  }

  lemma WorthIs(p: Position)
    ensures Worth(p) == p.qty * Distance(p)
  {
  }

  lemma SurvivingMove(e: Episode, b: Bar)
    requires FromSignal(e) && ValidBar(b) && Survives(e.pos, b)
    ensures -Distance(e.pos) <= Move(e.signal, b.close) < Distance(e.pos) * ((e.pos.partials + 1) as real)
  {
    assert e.pos.entry == e.signal.entry && e.pos.stop == e.signal.stop && e.pos.dir == e.signal.dir;
    hide FromSignal;
    var t := Target(e.pos, e.pos.partials + 1);
    assert if e.pos.dir == Long then e.pos.stop < b.close < t else t < b.close < e.pos.stop;
    TargetIsAway(e.pos, e.pos.partials + 1);
    hide Target, Reaches, StopHit;
  }

  lemma TargetIsAway(p: Position, rm: nat)
    ensures var away := Distance(p) * (rm as real);
            Target(p, rm) == if p.dir == Long then p.entry + away else p.entry - away
  {
    hide Distance;
  }

  /** The size makes RISK of the room, and the gain is the move on that size. */
  lemma SizeOnRoom(e: Episode, price: real)
    requires FromSignal(e)
    ensures e.pos.qty > 0.0 && e.pos.qty * Room(e.signal) == RISK
    ensures Gain(e.pos, price) == Move(e.signal, price) * e.pos.qty
  {
  }

  lemma ScaledMove(q: real, d: real, move: real, rm: real)
    requires q > 0.0 && -d <= move < d * rm
    ensures -(q * d) <= move * q < rm * (q * d)
  {
    if -d < move { Scaled(q, -d, move); }
    Scaled(q, move, d * rm);
    Rearrange(d, rm, q);
  }

  /** How far a price has moved in the signal's favour. */
  function Move(sig: Signal, price: real): real {
    if sig.dir == Long then price - sig.entry else sig.entry - price
  }

  /** The distance the size is computed on. */
  function Room(sig: Signal): real {
    Max(Abs(sig.entry - sig.stop), MIN_STOP)
  }

  lemma MarkAdds(k: nat, w: real, mark: real)
    requires k < 3 && 0.0 <= w <= RISK && -w <= mark < ((k + 1) as real) * w
    ensures -RISK <= PartialTotal(k, w) + mark < 4.0 * RISK
  {
    assert k == 0 || k == 1 || k == 2;
  }

  lemma DoneTotal(e: Episode, bars: seq<Bar>)
    requires Done(e, bars)
    requires forall b :: b in bars ==> ValidBar(b)
    ensures e.pos.entryBar < |bars|
    ensures if e.pos.entryBar < |bars| - 1 then -RISK <= Total(e.bookings) < 4.0 * RISK
            else Total(e.bookings) == Gain(e.pos, bars[e.pos.entryBar].close)
  {
    hide FromSignal, Gain, Survives, StopHit, ValidBar, Distance, Target, Worth;
    var k := e.pos.partials;
    PartialsPay(e, k, e.bookings[|e.bookings| - 1].bar);
    WorthIsAtMostRisk(e);
    if k == 3 {
      assert e.bookings[..3] == e.bookings;
    } else {
      var x := e.bookings[k];
      assert e.bookings[..|e.bookings| - 1] == e.bookings[..k];
      assert Total(e.bookings) == PartialTotal(k, Worth(e.pos)) + x.pnl;
      if x.bar > e.pos.entryBar && x.kind != StopOut {
        SurvivingMark(e, bars[x.bar]);
        MarkAdds(k, Worth(e.pos), x.pnl);
      }
    }
  }

  lemma DoneBookings(e: Episode, bars: seq<Bar>)
    requires Done(e, bars)
    ensures 1 <= |e.bookings| <= 3
    ensures forall x :: x in e.bookings ==> e.pos.entryBar <= x.bar <= e.pos.entryBar + 50
  {
  }

  /** Every position of every run over valid bars, whatever the signals: one to three bookings over at most fifty
      bars; it never loses more than RISK in all and makes less than 4*RISK, unless it is opened on the very last
      bar, where all it makes is the mark of that bar's close. */
  lemma PositionBounds<S>(setup: Setup<S>, bars: seq<Bar>, e: Episode)
    requires |bars| == |setup.labels| && e in Episodes(setup, bars)
    requires forall b :: b in bars ==> ValidBar(b)
    ensures 1 <= |e.bookings| <= 3 && e.pos.entryBar < |bars|
    ensures forall x :: x in e.bookings ==> e.pos.entryBar <= x.bar <= e.pos.entryBar + 50
    ensures if e.pos.entryBar < |bars| - 1 then -50.0 <= Total(e.bookings) < 4.0 * 50.0
            else Total(e.bookings) == Gain(e.pos, bars[e.pos.entryBar].close)
  {
    EpisodesShape(setup, bars, e);
    DoneBookings(e, bars);
    DoneTotal(e, bars);
  }

  /** Exactly when a position loses more than RISK, or makes 4*RISK or more: it is opened on the last bar, and that
      bar closes further against the entry than the distance the size is computed on, or four times as far for it. */
  lemma BoundsFailExactlyWhen<S>(setup: Setup<S>, bars: seq<Bar>, e: Episode)
    requires |bars| == |setup.labels| && e in Episodes(setup, bars)
    requires forall b :: b in bars ==> ValidBar(b)
    ensures e.pos.entryBar < |bars|
    ensures var onLast, move := e.pos.entryBar == |bars| - 1, Move(e.signal, bars[e.pos.entryBar].close);
            && (Total(e.bookings) < -50.0 <==> onLast && move < -Room(e.signal))
            && (Total(e.bookings) >= 4.0 * 50.0 <==> onLast && move >= 4.0 * Room(e.signal))
  {
    PositionBounds(setup, bars, e);
    EpisodesShape(setup, bars, e);
    assert FromSignal(e);
    hide Episodes, Done, Total;
    MarkInRoom(e, bars[e.pos.entryBar].close);
  }

  lemma MarkInRoom(e: Episode, price: real)
    requires FromSignal(e)
    ensures Gain(e.pos, price) < -RISK <==> Move(e.signal, price) < -Room(e.signal)
    ensures Gain(e.pos, price) >= 4.0 * RISK <==> Move(e.signal, price) >= 4.0 * Room(e.signal)
  {
    var q, m, move := e.pos.qty, Room(e.signal), Move(e.signal, price);
    SizeOnRoom(e, price);
    hide *;
    SameOrderThan(q, m, move, RISK, -1.0);
    SameOrderThan(q, m, move, RISK, 4.0);
  }

  lemma SameOrderThan(q: real, m: real, move: real, risk: real, k: real)
    requires q > 0.0 && q * m == risk
    ensures move * q < k * risk <==> move < k * m
  {
    var x := move - k * m;
    assert q * x == move * q - k * risk by { Distributes(q, move, m, -k); }
    SignOf(q, x);
  }

  lemma Distributes(q: real, x: real, m: real, k: real)
    ensures q * (x + k * m) == x * q + k * (q * m)
  {
  }

  lemma SignOf(q: real, x: real)
    requires q > 0.0
    ensures (q * x < 0.0 <==> x < 0.0) && (q * x > 0.0 <==> x > 0.0)
  {
    assert q * 0.0 == 0.0;
    if x < 0.0 {
      Scaled(q, x, 0.0);
    } else if x > 0.0 {
      Scaled(q, 0.0, x);
    }
  }

  /** The quantity a position is booked on: with all three targets exactly the whole; with `k` targets and
      another exit the whole and `k` thirds more. */
  lemma QuantityIsOverbooked<S>(setup: Setup<S>, bars: seq<Bar>, e: Episode)
    requires |bars| == |setup.labels| && e in Episodes(setup, bars)
    ensures Shares(e.bookings) == (if e.pos.partials == 3 then 1.0 else 1.0 + (e.pos.partials as real) / 3.0)
    ensures Shares(e.bookings) == 1.0 <==> e.pos.partials in {0, 3}
  {
    EpisodesShape(setup, bars, e);
    SharesTaken(e, e.pos.partials, e.bookings[|e.bookings| - 1].bar);
    assert e.bookings[..|e.bookings|] == e.bookings;
    if e.pos.partials < 3 {
      assert e.bookings[..|e.bookings| - 1] == e.bookings[..e.pos.partials];
    }
  }

  lemma {:induction false} SharesTaken(e: Episode, k: nat, last: nat)
    requires PartialsTaken(e, k, last)
    ensures Shares(e.bookings[..k]) == (k as real) / 3.0
  {
    if k > 0 {
      SharesTaken(e, k - 1, last);
      assert e.bookings[..k][..k - 1] == e.bookings[..k - 1];
    }
  }

  /** The bound of 4*RISK does fail on the last bar: one bar, a signal of distance 0.5 and a close nine above
      the entry book 900. */
  lemma LastBarCanPayMore()
    ensures var bar := Bar(8, 1.0, 10.0, 1.0, 10.0);
            var setup := Setup((), (s: (), seen: seq<Bar>) => ((), Fires(Signal(Long, 1.0, 0.5))),
                               Gate({RegimeQuiet}, 0.0, 100.0, None), [Label(Some(RegimeQuiet), 20.0, London)]);
            var es := Episodes(setup, [bar]);
            && ValidBar(bar) && |es| == 1 && GoodSignal(es[0].signal) && StopBehindClose(es[0].signal, bar)
            && Total(es[0].bookings) == 900.0
  {
    var bar := Bar(8, 1.0, 10.0, 1.0, 10.0);
    var setup := Setup((), (s: (), seen: seq<Bar>) => ((), Fires(Signal(Long, 1.0, 0.5))),
                       Gate({RegimeQuiet}, 0.0, 100.0, None), [Label(Some(RegimeQuiet), 20.0, London)]);
    var e := OpenAt(Signal(Long, 1.0, 0.5), 0);
    assert e.pos.qty == 100.0;
    assert After(setup, [bar], 1) == State((), Some(e), []);
    assert Episodes(setup, [bar]) == [Book(e, EndOfData, 0, 900.0)];
    assert Book(e, EndOfData, 0, 900.0).bookings == [Booking(EndOfData, 0, 900.0)];
    assert [Booking(EndOfData, 0, 900.0)][..0] == [];
  }

  /** The stop is not beyond the close of the entry bar. */
  predicate StopBehindClose(sig: Signal, entryBar: Bar) {
    match sig.dir
    case Long => entryBar.close >= sig.stop
    case Short => entryBar.close <= sig.stop
  }

  /** And the bound of -RISK fails there when the close is beyond the stop: one bar, a sound signal, and a close four
      under the entry lose 400. */
  lemma LastBarCanLoseMore()
    ensures var bar := Bar(8, 10.0, 10.0, 6.0, 6.0);
            var setup := Setup((), (s: (), seen: seq<Bar>) => ((), Fires(Signal(Long, 10.0, 9.5))),
                               Gate({RegimeQuiet}, 0.0, 100.0, None), [Label(Some(RegimeQuiet), 20.0, London)]);
            var es := Episodes(setup, [bar]);
            && ValidBar(bar) && |es| == 1 && GoodSignal(es[0].signal) && !StopBehindClose(es[0].signal, bar)
            && Total(es[0].bookings) == -400.0
  {
    var bar := Bar(8, 10.0, 10.0, 6.0, 6.0);
    var setup := Setup((), (s: (), seen: seq<Bar>) => ((), Fires(Signal(Long, 10.0, 9.5))),
                       Gate({RegimeQuiet}, 0.0, 100.0, None), [Label(Some(RegimeQuiet), 20.0, London)]);
    var e := OpenAt(Signal(Long, 10.0, 9.5), 0);
    assert e.pos.qty == 100.0;
    assert After(setup, [bar], 1) == State((), Some(e), []);
    assert Episodes(setup, [bar]) == [Book(e, EndOfData, 0, -400.0)];
    assert Book(e, EndOfData, 0, -400.0).bookings == [Booking(EndOfData, 0, -400.0)];
    assert [Booking(EndOfData, 0, -400.0)][..0] == [];
  }

  // ----- causality -------------------------------------------------------------------------------

  /** The setup whose labels are precomputed from the bars themselves. */
  function Labelled<S>(init: S, strategy: Strategy<S>, gate: Gate, ind: Indicators, bars: seq<Bar>): Setup<S> {
    Setup(init, strategy, gate, seq(|bars|, i requires 0 <= i < |bars| => LabelAt(ind, bars, i)))
  }

  /** No lookahead, labels included: two series that agree on their first `k` bars leave the same state after
      them, whatever follows. */
  lemma {:induction false} NoLookahead<S>(init: S, strategy: Strategy<S>, gate: Gate, ind: Indicators, bars: seq<Bar>,
          other: seq<Bar>, k: nat)
    requires k <= |bars| && k <= |other| && bars[..k] == other[..k]
    ensures After(Labelled(init, strategy, gate, ind, bars), bars, k)
         == After(Labelled(init, strategy, gate, ind, other), other, k)
  {
    hide *;
    LabelledIs(init, strategy, gate, ind, bars);
    LabelledIs(init, strategy, gate, ind, other);
    var a, b := Labelled(init, strategy, gate, ind, bars), Labelled(init, strategy, gate, ind, other);
    if k > 0 {
      assert bars[..k - 1] == bars[..k][..k - 1] == other[..k][..k - 1] == other[..k - 1];
      NoLookahead(init, strategy, gate, ind, bars, other, k - 1);
      SameStep(init, strategy, gate, ind, bars, other, k - 1, After(a, bars, k - 1));
      AfterOneMore(a, bars, k - 1);
      AfterOneMore(b, other, k - 1);
    } else {
      AfterNothing(a, bars);
      AfterNothing(b, other);
    }
  }

  lemma LabelledIs<S>(init: S, strategy: Strategy<S>, gate: Gate, ind: Indicators, bars: seq<Bar>)
    ensures var setup := Labelled(init, strategy, gate, ind, bars);
            setup.init == init && |setup.labels| == |bars|
  {
  }

  lemma AfterNothing<S>(setup: Setup<S>, bars: seq<Bar>)
    requires |bars| == |setup.labels|
    ensures After(setup, bars, 0) == State(setup.init, None, [])
  {
  }

  lemma SameStep<S>(init: S, strategy: Strategy<S>, gate: Gate, ind: Indicators, bars: seq<Bar>, other: seq<Bar>,
          i: nat, st: State<S>)
    requires i < |bars| && i < |other| && bars[..i + 1] == other[..i + 1]
    ensures Step(Labelled(init, strategy, gate, ind, bars), bars, st, i)
         == Step(Labelled(init, strategy, gate, ind, other), other, st, i)
  {
    SameBar(bars, other, i + 1);
    assert Seen(bars, i) == Seen(other, i);
    assert LabelAt(ind, bars, i) == LabelAt(ind, other, i);
    hide Manage, GateOk, Seen, LabelAt, OpenAt;
  }

  lemma SameBar(bars: seq<Bar>, other: seq<Bar>, k: nat)
    requires 0 < k <= |bars| && k <= |other| && bars[..k] == other[..k]
    ensures bars[k - 1] == other[k - 1]
    ensures forall lo :: 0 <= lo < k ==> bars[lo..k] == other[lo..k]
  {
    assert bars[k - 1] == bars[..k][k - 1] == other[..k][k - 1];
    forall lo | 0 <= lo < k ensures bars[lo..k] == other[lo..k] {
      assert bars[lo..k] == bars[..k][lo..] == other[..k][lo..] == other[lo..k];
    }
  }

  lemma {:induction false} ClosedOnlyGrows<S>(setup: Setup<S>, bars: seq<Bar>, k: nat, n: nat)
    requires k <= n <= |bars| == |setup.labels|
    ensures After(setup, bars, k).closed <= After(setup, bars, n).closed
  {
    hide *;
    if k < n {
      AfterOneMore(setup, bars, n - 1);
      ClosedOnlyGrows(setup, bars, k, n - 1);
      var before, after := After(setup, bars, n - 1), After(setup, bars, n);
      StepGrows(setup, bars, before, n - 1);
      PrefixAgain(After(setup, bars, k).closed, before.closed, after.closed);
    }
  }

  lemma PrefixAgain(a: seq<Episode>, b: seq<Episode>, c: seq<Episode>)
    requires a <= b <= c
    ensures a <= c
  {
  }

  lemma AfterOneMore<S>(setup: Setup<S>, bars: seq<Bar>, k: nat)
    requires k < |bars| == |setup.labels|
    ensures After(setup, bars, k + 1) == Step(setup, bars, After(setup, bars, k), k)
  {
    hide Step;
  }

  lemma StepGrows<S>(setup: Setup<S>, bars: seq<Bar>, st: State<S>, i: nat)
    requires i < |bars| == |setup.labels|
    ensures st.closed <= Step(setup, bars, st, i).closed
  {
    hide Manage, GateOk, OpenAt, Seen;
  }

  /** So cutting a series after `k` bars keeps every position that was finished by then, unchanged and in order;
      only the position still open at the cut is closed differently. */
  lemma TruncationKeepsFinishedPositions<S>(init: S, strategy: Strategy<S>, gate: Gate, ind: Indicators, bars: seq<Bar>,
          k: nat)
    requires k <= |bars|
    ensures var cut := Episodes(Labelled(init, strategy, gate, ind, bars[..k]), bars[..k]);
            var full := Episodes(Labelled(init, strategy, gate, ind, bars), bars);
            var finished := After(Labelled(init, strategy, gate, ind, bars), bars, k).closed;
            && finished <= full && finished <= cut && |cut| <= |finished| + 1
  {
    assert bars[..k][..k] == bars[..k];
    NoLookahead(init, strategy, gate, ind, bars, bars[..k], k);
    ClosedOnlyGrows(Labelled(init, strategy, gate, ind, bars), bars, k, |bars|);
  }

  // ----- what the strategy is asked, and what becomes of its answers --------------------------------

  /** For each bar the last 300 bars up to it. */
  function Windows(bars: seq<Bar>): seq<seq<Bar>> {
    seq(|bars|, i requires 0 <= i < |bars| => bars[if i < 299 then 0 else i - 299..i + 1])
  }

  predicate InSession(s: Session, hour: int) {
    match s
    case Asia => 0 <= hour < 7
    case London => 7 <= hour < 12
    case NyAm => 12 <= hour < 17
    case OtherSession => !(0 <= hour < 17)
  }

  /** The ADX over the window, 0 when there is none, lies in the range; a range that leaves nothing out is not asked. */
  predicate AdxOk(gate: Gate, adx: Option<real>) {
    var value := if adx.Some? then adx.value else 0.0;
    (gate.adxLo <= 0.0 && 100.0 <= gate.adxHi) || gate.adxLo <= value <= gate.adxHi
  }

  /** Bar `i` is open to new positions: from the 101st bar on, regime and ADX of the last 101 bars and the hour. */
  predicate IsOpen(gate: Gate, ind: Indicators, bars: seq<Bar>, i: nat)
    requires i < |bars|
  {
    && i >= 100
    && var window := bars[i - 100..i + 1];
       && (exists r :: r in gate.regimes && ind.regime(window) == Some(r))
       && AdxOk(gate, ind.adx(window))
       && (gate.sessions.Some? ==> exists s :: s in gate.sessions.value && InSession(s, bars[i].hour))
  }

  function OpenBars(gate: Gate, ind: Indicators, bars: seq<Bar>): seq<bool> {
    seq(|bars|, i requires 0 <= i < |bars| => IsOpen(gate, ind, bars, i))
  }

  lemma GateOkIsOpen(gate: Gate, ind: Indicators, bars: seq<Bar>, i: nat)
    requires i < |bars|
    ensures GateOk(LabelAt(ind, bars, i), gate) <==> OpenBars(gate, ind, bars)[i]
  {
    if gate.sessions.Some? {
      SessionIs(gate, bars[i].hour);
    }
    if i >= 100 {
      assert bars[if i < WINDOW then 0 else i - WINDOW..i + 1] == bars[i - 100..i + 1];
      var regime := ind.regime(bars[i - 100..i + 1]);
      assert (exists r :: r in gate.regimes && regime == Some(r)) <==> regime.Some? && regime.value in gate.regimes;
    }
    hide SessionOf, InSession;
  }

  lemma SessionIs(gate: Gate, hour: int)
    requires gate.sessions.Some?
    ensures SessionOf(hour) in gate.sessions.value <==> exists s :: s in gate.sessions.value && InSession(s, hour)
  {
    assert forall s :: InSession(s, hour) <==> s == SessionOf(hour);
    hide SessionOf, InSession;
  }

  lemma {:induction false} TakePartialsStays(e: Episode, bar: Bar, i: nat, rm: nat)
    ensures SameEntry(e, TakePartials(e, bar, i, rm))
    decreases 4 - rm
  {
    hide Gain, Target, Reaches;
    if rm <= 3 {
      TakePartialsStays(Taken(e, i, rm), bar, i, rm + 1);
      TakePartialsStays(e, bar, i, rm + 1);
    }
  }

  /** A bar leaves the position the one that was opened, and when it ends the position the last booking is on it. */
  lemma ManageEnds(e: Episode, bars: seq<Bar>, i: nat)
    requires i < |bars| && Live(e, bars, i)
    ensures var (e', done) := Manage(e, bars[i], i);
            SameEntry(e, e') && (done ==> e'.bookings != [] && LastBar(e') == i)
  {
    hide Gain, Target, Reaches, TakePartials, Live, StopHit, PartialsTaken;
    LiveFacts(e, bars, i);
    TakePartialsShape(e, bars[i], i, 1);
    TakePartialsStays(e, bars[i], i, 1);
  }

  lemma StepTold<S>(setup: Setup<(S, seq<Call>)>, strategy: Strategy<S>, bars: seq<Bar>, st: State<(S, seq<Call>)>,
          at: seq<nat>, i: nat, open: seq<bool>) returns (more: seq<nat>)
    requires i < |bars| == |setup.labels| == |open| && setup.strategy == Recording(strategy)
    requires GateOk(setup.labels[i], setup.gate) <==> open[i]
    requires st.open.Some? ==> Live(st.open.value, bars, i)
    requires Told(st, at, i, Windows(bars), open) && Past(st, i)
    ensures var st' := Step(setup, bars, st, i);
            Told(st', more, i + 1, Windows(bars), open) && Past(st', i + 1)
  {
    var st', managed := Step(setup, bars, st, i), AfterManage(st, bars[i], i);
    ManagedByBar(st, bars, i);
    StillTold(st, managed, at, i, Windows(bars), open);
    StepByTurn(setup, bars, st, i);
    if managed.open.Some? || !open[i] {
      more := at;
      hide *;
      NotAsked(managed, at, i, Windows(bars), open);
    } else {
      more := at + [i];
      var (s, answer) := strategy(st.s.0, Seen(bars, i));
      var call := Call(Seen(bars, i), answer);
      assert call.bars == Windows(bars)[i];
      assert Recording(strategy)(st.s, Seen(bars, i)) == ((s, st.s.1 + [call]), answer);
      assert answer.Fires? ==> OpensAt(OpenAt(answer.signal, i), answer.signal, i);
      hide *;
      Asked(managed, st', at, i, Windows(bars), open, call);
    }
  }

  predicate OpensAt(e: Episode, sig: Signal, i: nat) {
    e.pos.entryBar == i && e.signal == sig
  }

  /** The state when bar `i` is over for the open position and the strategy is not asked yet. */
  function AfterManage<S>(st: State<S>, bar: Bar, i: nat): State<S> {
    match st.open
    case None => st
    case Some(e) =>
      var (e', done) := Manage(e, bar, i);
      if done then State(st.s, None, st.closed + [e']) else State(st.s, Some(e'), st.closed)
  }

  lemma ManagedByBar<S>(st: State<S>, bars: seq<Bar>, i: nat)
    requires i < |bars| && (st.open.Some? ==> Live(st.open.value, bars, i))
    ensures Managed(st, AfterManage(st, bars[i], i), i)
  {
    if st.open.Some? {
      ManageEnds(st.open.value, bars, i);
      var e' := Manage(st.open.value, bars[i], i).0;
      hide Manage, Live, LastBar, SameEntry;
      assert SameEntry(st.open.value, e');
    }
  }

  lemma StepByTurn<S>(setup: Setup<S>, bars: seq<Bar>, st: State<S>, i: nat)
    requires i < |bars| == |setup.labels|
    ensures var managed := AfterManage(st, bars[i], i);
            && managed.s == st.s
            && Step(setup, bars, st, i)
            == if managed.open.Some? || !GateOk(setup.labels[i], setup.gate) then managed
               else
                 var (s, answer) := setup.strategy(st.s, Seen(bars, i));
                 State(s, if answer.Fires? then Some(OpenAt(answer.signal, i)) else None, managed.closed)
  {
    hide Manage, GateOk, Seen, OpenAt;
  }

  /** The run with its record: for every strategy and after any number of bars, the strategy was asked exactly on the
      open bars on which no position was held, in order, each time with the last 300 bars; and the positions are
      exactly the signals it fired, in order. */
  lemma {:induction false} RunIsItsCalls<S>(init: S, strategy: Strategy<S>, gate: Gate, ind: Indicators, bars: seq<Bar>,
          k: nat)
    returns (at: seq<nat>)
    requires k <= |bars|
    ensures var setup := Labelled((init, []), Recording(strategy), gate, ind, bars);
            var st := After(setup, bars, k);
            Told(st, at, k, Windows(bars), OpenBars(gate, ind, bars)) && Past(st, k)
  {
    hide *;
    var setup := Labelled((init, []), Recording(strategy), gate, ind, bars);
    LabelledIs((init, []), Recording(strategy), gate, ind, bars);
    OpenBarsIs(gate, ind, bars);
    if k == 0 {
      at := [];
      AfterNothing(setup, bars);
      ToldNothing(init, Windows(bars), OpenBars(gate, ind, bars));
    } else {
      var i: nat := k - 1;
      var before := RunIsItsCalls(init, strategy, gate, ind, bars, i);
      LabelledAt((init, []), Recording(strategy), gate, ind, bars, i);
      GateOkIsOpen(gate, ind, bars, i);
      AfterOneMore(setup, bars, i);
      OpenIsLive(setup, bars, i);
      at := StepTold(setup, strategy, bars, After(setup, bars, i), before, i, OpenBars(gate, ind, bars));
    }
  }

  /** So the positions a whole run books for are its fired signals, each entered on the bar of its call. */
  lemma PositionsAreTheSignals<S>(init: S, strategy: Strategy<S>, gate: Gate, ind: Indicators, bars: seq<Bar>)
    returns (at: seq<nat>)
    ensures var setup := Labelled((init, []), Recording(strategy), gate, ind, bars);
            var st := After(setup, bars, |bars|);
            && Told(st, at, |bars|, Windows(bars), OpenBars(gate, ind, bars))
            && Entries(Episodes(setup, bars)) == Fired(at, st.s.1)
  {
    at := RunIsItsCalls(init, strategy, gate, ind, bars, |bars|);
    var setup := Labelled((init, []), Recording(strategy), gate, ind, bars);
    var st := After(setup, bars, |bars|);
    assert st.open.Some? ==> bars != [];
    hide After, Gain, Fired, Labelled, Windows, OpenBars, Recording;
    assert Entries(Finish(st, bars)) == Entries(Opened(st));
  }

  lemma OpenBarsIs(gate: Gate, ind: Indicators, bars: seq<Bar>)
    ensures |OpenBars(gate, ind, bars)| == |Windows(bars)| == |bars|
  {
  }

  lemma LabelledAt<S>(init: S, strategy: Strategy<S>, gate: Gate, ind: Indicators, bars: seq<Bar>, i: nat)
    requires i < |bars|
    ensures var setup := Labelled(init, strategy, gate, ind, bars);
            |setup.labels| == |bars| && setup.labels[i] == LabelAt(ind, bars, i)
            && setup.gate == gate && setup.strategy == strategy
  {
    hide LabelAt;
  }

  lemma OpenIsLive<S>(setup: Setup<S>, bars: seq<Bar>, k: nat)
    requires k <= |bars| == |setup.labels|
    ensures var open := After(setup, bars, k).open; open.Some? ==> Live(open.value, bars, k)
  {
    RunShape(setup, bars, k);
    hide After, Live, Done;
  }

  /** And every position of every run, whatever the strategy, has the numbers of its signal. */
  lemma EveryPositionIsSized<S>(setup: Setup<S>, bars: seq<Bar>, e: Episode)
    requires |bars| == |setup.labels| && e in Episodes(setup, bars)
    ensures SizedOn(e, 0.0)
  {
    EpisodesShape(setup, bars, e);
    assert FromSignal(e);
    hide Episodes, Done;
    var d := Abs(e.signal.entry - e.signal.stop);
    assert e.pos.qty * Max(d, MIN_STOP) == RISK;
  }
}
