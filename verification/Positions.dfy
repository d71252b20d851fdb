/** The single-position machine shared by scripts/gate_loosening_study.py and scripts/lbo_cost_stress.py:
    bars, signals, positions, and what is booked while a position lives. */
module Positions {
  import opened Wrappers
  import opened Reals

  /** A bar; `hour` is the hour of its open time. */
  datatype Bar = Bar(hour: int, open: real, high: real, low: real, close: real)

  predicate ValidBar(b: Bar) {
    b.low <= b.open <= b.high && b.low <= b.close <= b.high
  }

  datatype Direction = Long | Short

  datatype Signal = Signal(dir: Direction, entry: real, stop: real)

  /** What a strategy answers: it may raise, stay quiet, or fire. */
  datatype Evaluation = Raised | Quiet | Fires(signal: Signal)

  datatype Position = Position(dir: Direction, entry: real, stop: real, qty: real, entryBar: nat, partials: nat)

  const RISK: real := 50.0

  function Distance(p: Position): real { Abs(p.entry - p.stop) }

  predicate StopHit(p: Position, b: Bar) {
    match p.dir
    case Long => b.low <= p.stop
    case Short => b.high >= p.stop
  }

  /** The price of the `rm`-R target. */
  function Target(p: Position, rm: nat): real {
    match p.dir
    case Long => p.entry + Distance(p) * (rm as real)
    case Short => p.entry - Distance(p) * (rm as real)
  }

  predicate Reaches(p: Position, b: Bar, rm: nat) {
    match p.dir
    case Long => b.high >= Target(p, rm)
    case Short => b.low <= Target(p, rm)
  }

  /** The whole position marked at `price`. */
  function Gain(p: Position, price: real): real {
    match p.dir
    case Long => (price - p.entry) * p.qty
    case Short => (p.entry - price) * p.qty
  }

  datatype Kind = StopOut | Partial(rm: nat) | Timeout | EndOfData

  /** One entry of the script's `trades` list, with what caused it and on which bar. */
  datatype Booking = Booking(kind: Kind, bar: nat, pnl: real)

  /** A position from the signal that opened it, with everything booked for it so far. */
  datatype Episode = Episode(signal: Signal, pos: Position, bookings: seq<Booking>)

  function Book(e: Episode, kind: Kind, bar: nat, pnl: real): Episode {
    e.(bookings := e.bookings + [Booking(kind, bar, pnl)])
  }

  function Total(bs: seq<Booking>): real {
    if bs == [] then 0.0 else Total(bs[..|bs| - 1]) + bs[|bs| - 1].pnl
  }

  /** The share of the position's quantity that a booking is computed on. */
  function Share(k: Kind): real {
    if k.Partial? then 1.0 / 3.0 else 1.0
  }

  function Shares(bs: seq<Booking>): real {
    if bs == [] then 0.0 else Shares(bs[..|bs| - 1]) + Share(bs[|bs| - 1].kind)
  }

  function Pnls(bs: seq<Booking>): (r: seq<real>)
    ensures |r| == |bs|
    ensures forall i :: 0 <= i < |bs| ==> r[i] == bs[i].pnl
  {
    seq(|bs|, i requires 0 <= i < |bs| => bs[i].pnl)
  }

  /** Everything booked, in order. */
  function Ledger(closed: seq<Episode>): seq<Booking> {
    if closed == [] then [] else Ledger(closed[..|closed| - 1]) + closed[|closed| - 1].bookings
  }

  /** A strategy is stateful: each evaluation sees the bars handed to it and may change the state. */
  type Strategy<!S> = (S, seq<Bar>) -> (S, Evaluation)

  /** The run after some bars: the strategy, the open position, the finished ones. */
  datatype State<S> = State(s: S, open: Option<Episode>, closed: seq<Episode>)

  function Bookings<S>(st: State<S>): seq<Booking> {
    Ledger(st.closed) + (if st.open.Some? then st.open.value.bookings else [])
  }
}
