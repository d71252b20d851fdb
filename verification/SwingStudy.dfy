/** Swing points and trade outcomes of scripts/backtest_q1_3_to_1_rr.py. */
module SwingStudy {
  import opened Wrappers
  import opened Reals

  datatype Bar = Bar(high: real, low: real, close: real)

  datatype SwingPoint = SwingPoint(index: nat, price: real, isHigh: bool)

  // ----- swing points ----------------------------------------------------------------------------

  /** Bar `i` tops both bars at distance `d`. */
  predicate Higher(bars: seq<Bar>, i: nat, d: nat)
    requires d <= i < |bars| - d
  {
    bars[i].high > bars[i - d].high && bars[i].high > bars[i + d].high
  }

  predicate Lower(bars: seq<Bar>, i: nat, d: nat)
    requires d <= i < |bars| - d
  {
    bars[i].low < bars[i - d].low && bars[i].low < bars[i + d].low
  }

  predicate SwingHigh(bars: seq<Bar>, n: nat, i: int) {
    n <= i < |bars| - n && forall d :: 1 <= d <= n ==> Higher(bars, i, d)
  }

  predicate SwingLow(bars: seq<Bar>, n: nat, i: int) {
    n <= i < |bars| - n && forall d :: 1 <= d <= n ==> Lower(bars, i, d)
  }

  /** A bar that is both is reported as a high only. */
  function PointAt(bars: seq<Bar>, n: nat, i: int): seq<SwingPoint> {
    if SwingHigh(bars, n, i) then [SwingPoint(i, bars[i].high, true)]
    else if SwingLow(bars, n, i) then [SwingPoint(i, bars[i].low, false)]
    else []
  }

  function Swings(bars: seq<Bar>, n: nat, stop: int): seq<SwingPoint>
    decreases stop
  {
    if stop <= n then [] else Swings(bars, n, stop - 1) + PointAt(bars, n, stop - 1)
  }

  method DetectSwingPoints(bars: seq<Bar>, lookback: nat) returns (points: seq<SwingPoint>)
    ensures points == Swings(bars, lookback, |bars| - lookback)
  {
    hide SwingHigh, SwingLow, Swings;
    NoSwings(bars, lookback);
    points := [];
    var i := lookback;
    while i < |bars| - lookback
      invariant lookback <= i && (i == lookback || i <= |bars| - lookback)
      invariant points == Swings(bars, lookback, i)
    {
      SwingsMore(bars, lookback, i);
      var isHigh, isLow := ScanAround(bars, lookback, i);
      if isHigh {
        points := points + [SwingPoint(i, bars[i].high, true)];
      } else if isLow {
        points := points + [SwingPoint(i, bars[i].low, false)];
      }
      i := i + 1;
    }
  }

  lemma NoSwings(bars: seq<Bar>, n: nat)
    ensures forall stop: int :: stop <= n ==> Swings(bars, n, stop) == []
  {
    hide PointAt;
  }

  lemma SwingsMore(bars: seq<Bar>, n: nat, i: nat)
    requires n <= i
    ensures Swings(bars, n, i + 1) == Swings(bars, n, i) + PointAt(bars, n, i)
  {
    hide PointAt;
  }

  method ScanAround(bars: seq<Bar>, lookback: nat, i: nat) returns (isHigh: bool, isLow: bool)
    requires lookback <= i < |bars| - lookback
    ensures isHigh == SwingHigh(bars, lookback, i) && isLow == SwingLow(bars, lookback, i)
  {
    isHigh, isLow := true, true;
    for j := 1 to lookback + 1
      invariant isHigh <==> forall d :: 1 <= d < j ==> Higher(bars, i, d)
      invariant isLow <==> forall d :: 1 <= d < j ==> Lower(bars, i, d)
    {
      ghost var higher, lower := Higher(bars, i, j), Lower(bars, i, j);
      if bars[i].high <= bars[i - j].high || bars[i].high <= bars[i + j].high {
        isHigh := false;
      }
      if bars[i].low >= bars[i - j].low || bars[i].low >= bars[i + j].low {
        isLow := false;
      }
    }
  }

  ghost predicate Ascending(points: seq<SwingPoint>) {
    forall i, j :: 0 <= i < j < |points| ==> points[i].index < points[j].index
  }

  lemma PointHasIndex(bars: seq<Bar>, n: nat, i: nat)
    ensures |PointAt(bars, n, i)| <= 1 && forall p :: p in PointAt(bars, n, i) ==> p.index == i
  {
    hide SwingHigh, SwingLow;
  }

  lemma PointKind(bars: seq<Bar>, n: nat, i: nat, p: SwingPoint)
    requires p in PointAt(bars, n, i)
    ensures if p.isHigh then SwingHigh(bars, n, i) else SwingLow(bars, n, i)
  {
    hide SwingHigh, SwingLow;
  }

  /** The points are exactly the swing highs and the swing lows that are not also highs, in ascending order. */
  lemma {:induction false} SwingsAreComplete(bars: seq<Bar>, n: nat, stop: int)
    requires stop <= |bars| - n
    ensures Ascending(Swings(bars, n, stop))
    ensures forall p :: p in Swings(bars, n, stop) <==> n <= p.index < stop && p in PointAt(bars, n, p.index)
    decreases stop
  {
    hide SwingHigh, SwingLow, PointAt;
    if stop > n {
      SwingsAreComplete(bars, n, stop - 1);
      PointHasIndex(bars, n, stop - 1);
      var before, last := Swings(bars, n, stop - 1), PointAt(bars, n, stop - 1);
      assert Swings(bars, n, stop) == before + last;
      hide Swings;
      forall p: SwingPoint ensures p in before + last <==> n <= p.index < stop && p in PointAt(bars, n, p.index) {
      }
      assert forall p :: p in before ==> p.index < stop - 1;
    }
  }

  lemma NoMutualExtremes(bars: seq<Bar>, i: nat, d: nat)
    requires d <= i < |bars| - d && i + d < |bars| - d
    ensures !(Higher(bars, i, d) && Higher(bars, i + d, d)) && !(Lower(bars, i, d) && Lower(bars, i + d, d))
  {
  }

  lemma TwoExtremes(bars: seq<Bar>, n: nat, i: nat, j: nat)
    requires i < j
    requires (SwingHigh(bars, n, i) && SwingHigh(bars, n, j)) || (SwingLow(bars, n, i) && SwingLow(bars, n, j))
    ensures j - i > n
  {
    if j - i <= n {
      NoMutualExtremes(bars, i, j - i);
    }
  }

  /** Two swing highs, or two swing lows, are more than `lookback` bars apart. */
  lemma SameKindIsSpaced(bars: seq<Bar>, n: nat, p: SwingPoint, q: SwingPoint)
    requires p in Swings(bars, n, |bars| - n) && q in Swings(bars, n, |bars| - n)
    requires p.isHigh == q.isHigh && p.index < q.index
    ensures q.index - p.index > n
  {
    hide Swings, SwingHigh, SwingLow, PointAt;
    SwingsAreComplete(bars, n, |bars| - n);
    PointKind(bars, n, p.index, p);
    PointKind(bars, n, q.index, q);
    TwoExtremes(bars, n, p.index, q.index);
  }

  // ----- reflection ------------------------------------------------------------------------------

  function Flip(b: Bar): Bar {
    Bar(-b.low, -b.high, -b.close)
  }

  function Mirror(bars: seq<Bar>): seq<Bar> {
    seq(|bars|, i requires 0 <= i < |bars| => Flip(bars[i]))
  }

  function MirrorPoints(points: seq<SwingPoint>): seq<SwingPoint> {
    seq(|points|, i requires 0 <= i < |points| => SwingPoint(points[i].index, -points[i].price, !points[i].isHigh))
  }

  lemma MirrorSwaps(bars: seq<Bar>, n: nat, i: int)
    ensures SwingHigh(Mirror(bars), n, i) <==> SwingLow(bars, n, i)
    ensures SwingLow(Mirror(bars), n, i) <==> SwingHigh(bars, n, i)
  {
    if n <= i < |bars| - n {
      assert forall d :: 1 <= d <= n ==> Higher(Mirror(bars), i, d) == Lower(bars, i, d);
      assert forall d :: 1 <= d <= n ==> Lower(Mirror(bars), i, d) == Higher(bars, i, d);
      hide Higher, Lower;
    }
  }

  /** One bar's points are mirrored unless the bar is a high and a low at once. */
  lemma MirrorPoint(bars: seq<Bar>, n: nat, i: nat)
    ensures PointAt(Mirror(bars), n, i) == MirrorPoints(PointAt(bars, n, i))
       <==> !(SwingHigh(bars, n, i) && SwingLow(bars, n, i))
  {
    MirrorSwaps(bars, n, i);
    var a, b := PointAt(Mirror(bars), n, i), MirrorPoints(PointAt(bars, n, i));
    if SwingHigh(bars, n, i) && SwingLow(bars, n, i) {
      assert a[0].isHigh && !b[0].isHigh;
    } else if SwingHigh(bars, n, i) {
      assert a == [SwingPoint(i, -bars[i].high, false)] == b;
    } else if SwingLow(bars, n, i) {
      assert a == [SwingPoint(i, -bars[i].low, true)] == b;
    } else {
      assert a == [] == b;
    }
  }

  lemma MirrorConcat(xs: seq<SwingPoint>, ys: seq<SwingPoint>)
    ensures MirrorPoints(xs + ys) == MirrorPoints(xs) + MirrorPoints(ys)
  {
  }

  lemma SameCount(bars: seq<Bar>, n: nat, i: nat)
    ensures |PointAt(Mirror(bars), n, i)| == |PointAt(bars, n, i)| == |MirrorPoints(PointAt(bars, n, i))|
  {
    MirrorSwaps(bars, n, i);
    hide SwingHigh, SwingLow;
  }

  /** Turning the chart upside down turns the swing points upside down exactly when no bar is both high and low. */
  lemma {:induction false} MirrorExactlyWhenNoOutsideSwing(bars: seq<Bar>, n: nat, stop: int)
    requires stop <= |bars| - n
    ensures Swings(Mirror(bars), n, stop) == MirrorPoints(Swings(bars, n, stop))
       <==> forall i :: n <= i < stop ==> !(SwingHigh(bars, n, i) && SwingLow(bars, n, i))
    decreases stop
  {
    hide SwingHigh, SwingLow, PointAt, Mirror, MirrorPoints;
    if stop > n {
      MirrorExactlyWhenNoOutsideSwing(bars, n, stop - 1);
      MirrorPoint(bars, n, stop - 1);
      SameCount(bars, n, stop - 1);
      var init, last := Swings(bars, n, stop - 1), PointAt(bars, n, stop - 1);
      var mInit, mLast := Swings(Mirror(bars), n, stop - 1), PointAt(Mirror(bars), n, stop - 1);
      MirrorConcat(init, last);
      SameSplit(mInit, mLast, MirrorPoints(init), MirrorPoints(last));
    } else {
      assert MirrorPoints([]) == [] by { MirrorsNothing(); }
    }
  }

  lemma MirrorsNothing()
    ensures MirrorPoints([]) == []
  {
  }

  lemma SameSplit<T>(a: seq<T>, b: seq<T>, c: seq<T>, d: seq<T>)
    requires |b| == |d|
    ensures a + b == c + d <==> a == c && b == d
  {
    if a + b == c + d {
      assert |a| == |c|;
      assert (a + b)[..|a|] == a && (c + d)[..|a|] == c;
      assert (a + b)[|a|..] == b && (c + d)[|a|..] == d;
    }
  }

  // ----- outcomes --------------------------------------------------------------------------------

  datatype Outcome = L1 | L2 | L3 | SL

  datatype Levels = Levels(long: bool, stop: real, tp1: real, tp2: real, tp3: real)

  const MAX_HOLD: nat := 96

  /** Whether a bar reaches a target: from below for a long, from above for a short. */
  predicate Reaches(b: Bar, long: bool, target: real) {
    if long then b.high >= target else b.low <= target
  }

  predicate Stopped(b: Bar, l: Levels) {
    if l.long then b.low <= l.stop else b.high >= l.stop
  }

  predicate Touches(b: Bar, l: Levels) {
    Reaches(b, l.long, l.tp3) || Reaches(b, l.long, l.tp2) || Reaches(b, l.long, l.tp1) || Stopped(b, l)
  }

  /** Targets before the stop, the farthest target first. */
  function Grade(b: Bar, l: Levels): Option<Outcome> {
    if Reaches(b, l.long, l.tp3) then Some(L3)
    else if Reaches(b, l.long, l.tp2) then Some(L2)
    else if Reaches(b, l.long, l.tp1) then Some(L1)
    else if Stopped(b, l) then Some(SL)
    else None
  }

  /** Bar `i` is the first of the holding window, which includes the entry bar, that touches any level. */
  ghost predicate FirstTouch(bars: seq<Bar>, entry: nat, l: Levels, i: nat) {
    && entry <= i < |bars| && i < entry + 96 && Touches(bars[i], l)
    && (forall j :: entry <= j < i ==> !Touches(bars[j], l))
  }

  /** The answer is the grade of the first touching bar alone; there is none when no bar of the window touches. */
  ghost predicate OutcomeIs(bars: seq<Bar>, entry: nat, l: Levels, r: Option<Outcome>) {
    match r
    case Some(o) => exists i: nat :: FirstTouch(bars, entry, l, i) && Grade(bars[i], l) == Some(o)
    case None => forall i: nat :: entry <= i < |bars| && i < entry + 96 ==> !Touches(bars[i], l)
  }

  method EvaluateTradeOutcome(bars: seq<Bar>, entry: nat, l: Levels) returns (r: Option<Outcome>)
    ensures OutcomeIs(bars, entry, l, r)
  {
    var end := if entry + MAX_HOLD < |bars| then entry + MAX_HOLD else |bars|;
    var i := entry;
    while i < end
      invariant entry <= i
      invariant forall j :: entry <= j < i && j < end ==> !Touches(bars[j], l)
    {
      var bar := bars[i];
      r := None;
      if l.long {
        if bar.high >= l.tp3 {
          r := Some(L3);
        } else if bar.high >= l.tp2 {
          r := Some(L2);
        } else if bar.high >= l.tp1 {
          r := Some(L1);
        } else if bar.low <= l.stop {
          r := Some(SL);
        }
      } else {
        if bar.low <= l.tp3 {
          r := Some(L3);
        } else if bar.low <= l.tp2 {
          r := Some(L2);
        } else if bar.low <= l.tp1 {
          r := Some(L1);
        } else if bar.high >= l.stop {
          r := Some(SL);
        }
      }
      assert r == Grade(bar, l);
      if r.Some? {
        assert FirstTouch(bars, entry, l, i);
        return;
      }
      i := i + 1;
    }
    return None;
  }

  /** What one bar gives a long: its high against the targets, the farthest first, and only then its low against the
      stop; a short the reverse. */
  lemma GradeInPrices(b: Bar, l: Levels)
    ensures Touches(b, l) <==> Grade(b, l).Some?
    ensures l.long ==>
              Grade(b, l) == (
                if b.high >= l.tp3 then Some(L3) else if b.high >= l.tp2 then Some(L2)
                else if b.high >= l.tp1 then Some(L1) else if b.low <= l.stop then Some(SL) else None)
    ensures !l.long ==>
              Grade(b, l) == (
                if b.low <= l.tp3 then Some(L3) else if b.low <= l.tp2 then Some(L2)
                else if b.low <= l.tp1 then Some(L1) else if b.high >= l.stop then Some(SL) else None)
  {
  }

  lemma FirstTouchIsUnique(bars: seq<Bar>, entry: nat, l: Levels, i: nat, j: nat)
    requires FirstTouch(bars, entry, l, i) && FirstTouch(bars, entry, l, j)
    ensures i == j
  {
    hide Touches;
  }

  /** The specification has one answer. */
  lemma OutcomeIsUnique(bars: seq<Bar>, entry: nat, l: Levels, r: Option<Outcome>, s: Option<Outcome>)
    requires OutcomeIs(bars, entry, l, r) && OutcomeIs(bars, entry, l, s)
    ensures r == s
  {
    hide Touches, Grade;
    if r.Some? && s.Some? {
      var i: nat :| FirstTouch(bars, entry, l, i) && Grade(bars[i], l) == r;
      var j: nat :| FirstTouch(bars, entry, l, j) && Grade(bars[j], l) == s;
      FirstTouchIsUnique(bars, entry, l, i, j);
    }
  }

  /** 3:1 is booked exactly when the very first bar to touch a level jumps to the last target:
      a trade that reaches the first target on one bar and the third on the next is not counted. */
  lemma ThreeToOneIsOneBar(bars: seq<Bar>, entry: nat, l: Levels, r: Option<Outcome>)
    requires OutcomeIs(bars, entry, l, r)
    ensures r == Some(L3) <==> exists i: nat :: FirstTouch(bars, entry, l, i) && Reaches(bars[i], l.long, l.tp3)
  {
    forall i: nat | FirstTouch(bars, entry, l, i) && Reaches(bars[i], l.long, l.tp3) ensures r == Some(L3) {
      if r.Some? {
        var j: nat :| FirstTouch(bars, entry, l, j) && Grade(bars[j], l) == r;
        FirstTouchIsUnique(bars, entry, l, i, j);
      }
    }
  }

  function FlipLevels(l: Levels): Levels {
    Levels(!l.long, -l.stop, -l.tp1, -l.tp2, -l.tp3)
  }

  lemma FlipBar(b: Bar, l: Levels)
    ensures Touches(Flip(b), FlipLevels(l)) == Touches(b, l) && Grade(Flip(b), FlipLevels(l)) == Grade(b, l)
  {
  }

  /** A long on the upside-down chart ends as the short does, and the reverse. */
  lemma MirrorKeepsOutcome(bars: seq<Bar>, entry: nat, l: Levels, r: Option<Outcome>)
    requires OutcomeIs(bars, entry, l, r)
    ensures OutcomeIs(Mirror(bars), entry, FlipLevels(l), r)
  {
    var m := Mirror(bars);
    forall i: nat | i < |bars|
      ensures Touches(m[i], FlipLevels(l)) == Touches(bars[i], l) && Grade(m[i], FlipLevels(l)) == Grade(bars[i], l)
    {
      FlipBar(bars[i], l);
    }
    hide Touches, Grade, FlipLevels, Flip;
    if r.Some? {
      var i: nat :| FirstTouch(bars, entry, l, i) && Grade(bars[i], l) == r;
      assert FirstTouch(m, entry, FlipLevels(l), i);
    }
  }

  // ----- the tally -------------------------------------------------------------------------------

  datatype Formation = Formation(isW: bool, lastIndex: nat, lastPrice: real)

  datatype Tally = Tally(l1: nat, l2: nat, l3: nat, sl: nat, open: nat)

  datatype Rates = Rates(rr31: real, averageRr: real, l1: real, l2: real, l3: real, sl: real)

  function Closed(t: Tally): nat {
    t.l1 + t.l2 + t.l3 + t.sl
  }

  function AtLeastThree(rrs: seq<real>): nat {
    if rrs == [] then 0 else AtLeastThree(rrs[..|rrs| - 1]) + (if rrs[|rrs| - 1] >= 3.0 then 1 else 0)
  }

  function RewardOf(o: Outcome): real {
    match o
    case L3 => 3.0
    case L2 => 2.0
    case L1 => 1.0
    case SL => 0.0
  }

  function RiskOf(bars: seq<Bar>, f: Formation, atr: real): real
    requires f.lastIndex + 1 < |bars|
  {
    var entry := bars[f.lastIndex + 1].close;
    if f.isW then entry - (f.lastPrice - atr * 1.5) else f.lastPrice + atr * 1.5 - entry
  }

  function LevelsOf(bars: seq<Bar>, f: Formation, atr: real): Levels
    requires f.lastIndex + 1 < |bars|
  {
    var entry, risk := bars[f.lastIndex + 1].close, RiskOf(bars, f, atr);
    var side := if f.isW then 1.0 else -1.0;
    Levels(f.isW, entry - side * risk, entry + side * risk, entry + side * risk * 2.0, entry + side * risk * 3.0)
  }

  /** A formation is dropped without a trace when its stop is on the wrong side of the entry. */
  predicate Dropped(bars: seq<Bar>, f: Formation, atr: real) {
    f.lastIndex + 1 < |bars| && RiskOf(bars, f, atr) <= 0.0
  }

  function DroppedCount(bars: seq<Bar>, fs: seq<Formation>, atr: real): nat {
    if fs == [] then 0
    else DroppedCount(bars, fs[..|fs| - 1], atr) + (if Dropped(bars, fs[|fs| - 1], atr) then 1 else 0)
  }

  ghost predicate Consistent(bars: seq<Bar>, fs: seq<Formation>, atr: real, t: Tally, rrs: seq<real>) {
    && Closed(t) + t.open + DroppedCount(bars, fs, atr) == |fs|
    && |rrs| == Closed(t)
    && AtLeastThree(rrs) == t.l3
    && Total(rrs) == (t.l1 as real) + 2.0 * (t.l2 as real) + 3.0 * (t.l3 as real)
  }

  /** What becomes of a formation: no bar to enter on, a stop on the wrong side, no level touched, or an outcome. */
  datatype Fate = Late | Void | Untouched | Ended(outcome: Outcome)

  /** One and a half times the range beyond the formation's last point. */
  function StopOf(f: Formation, atr: real): real {
    if f.isW then f.lastPrice - 1.5 * atr else f.lastPrice + 1.5 * atr
  }

  /** The levels of an entry: a long for a W and a short for an M, and targets at one, two and three times what lies
      between entry and stop. */
  predicate AreLevels(l: Levels, f: Formation, atr: real, entry: real) {
    && l.long == f.isW && l.stop == StopOf(f, atr)
    && l.tp1 - entry == entry - l.stop && l.tp2 - l.tp1 == entry - l.stop && l.tp3 - l.tp2 == entry - l.stop
  }

  ghost predicate FateIs(bars: seq<Bar>, f: Formation, atr: real, fate: Fate) {
    if f.lastIndex + 1 >= |bars| then fate == Late
    else
      var entry := bars[f.lastIndex + 1].close;
      if (if f.isW then entry <= StopOf(f, atr) else entry >= StopOf(f, atr)) then fate == Void
      else
        exists l: Levels, r: Option<Outcome> ::
          AreLevels(l, f, atr, entry) && OutcomeIs(bars, f.lastIndex + 1, l, r) && fate == FateOf(r)
  }

  function FateOf(r: Option<Outcome>): Fate {
    if r.None? then Untouched else Ended(r.value)
  }

  function CountOf(fates: seq<Fate>, fate: Fate): nat {
    if fates == [] then 0
    else CountOf(fates[..|fates| - 1], fate) + (if fates[|fates| - 1] == fate then 1 else 0)
  }

  /** The reward of each outcome, in order: three, two and one times the risk, and nothing for a stop. */
  function Rewards(fates: seq<Fate>): seq<real> {
    if fates == [] then []
    else
      var before := Rewards(fates[..|fates| - 1]);
      match fates[|fates| - 1]
      case Ended(L3) => before + [3.0]
      case Ended(L2) => before + [2.0]
      case Ended(L1) => before + [1.0]
      case Ended(SL) => before + [0.0]
      case _ => before
  }

  /** The tally counts the fates, and the ratios are their rewards. */
  ghost predicate Counts(bars: seq<Bar>, fs: seq<Formation>, atr: real, t: Tally, rrs: seq<real>, fates: seq<Fate>) {
    && |fates| == |fs| && (forall i :: 0 <= i < |fs| ==> FateIs(bars, fs[i], atr, fates[i]))
    && t.l1 == CountOf(fates, Ended(L1)) && t.l2 == CountOf(fates, Ended(L2)) && t.l3 == CountOf(fates, Ended(L3))
    && t.sl == CountOf(fates, Ended(SL)) && t.open == CountOf(fates, Late) + CountOf(fates, Untouched)
    && rrs == Rewards(fates)
  }

  lemma CountAppends(fates: seq<Fate>, fate: Fate)
    ensures forall x :: CountOf(fates + [fate], x) == CountOf(fates, x) + (if x == fate then 1 else 0)
    ensures Rewards(fates + [fate])
         == Rewards(fates) + (if fate.Ended? then [RewardOf(fate.outcome)] else [])
  {
    assert (fates + [fate])[..|fates|] == fates;
  }

  lemma CountMore(bars: seq<Bar>, fs: seq<Formation>, f: Formation, atr: real, t: Tally, rrs: seq<real>,
          fates: seq<Fate>, fate: Fate)
    requires Counts(bars, fs, atr, t, rrs, fates) && FateIs(bars, f, atr, fate)
    ensures var u := match fate
                     case Void => t
                     case Ended(o) => Book(t, o)
                     case _ => t.(open := t.open + 1);
            var out := if fate.Ended? then rrs + [RewardOf(fate.outcome)] else rrs;
            Counts(bars, fs + [f], atr, u, out, fates + [fate])
  {
    CountAppends(fates, fate);
    hide FateIs, CountOf, Rewards, RewardOf;
    assert rrs + [] == rrs;
  }

  lemma LevelsAre(bars: seq<Bar>, f: Formation, atr: real)
    requires f.lastIndex + 1 < |bars|
    ensures var entry := bars[f.lastIndex + 1].close;
            && AreLevels(LevelsOf(bars, f, atr), f, atr, entry)
            && (RiskOf(bars, f, atr) <= 0.0 <==> (if f.isW then entry <= StopOf(f, atr) else entry >= StopOf(f, atr)))
  {
  }

  lemma FateOfOutcome(bars: seq<Bar>, f: Formation, atr: real, r: Option<Outcome>)
    requires f.lastIndex + 1 < |bars| && RiskOf(bars, f, atr) > 0.0
    requires OutcomeIs(bars, f.lastIndex + 1, LevelsOf(bars, f, atr), r)
    ensures FateIs(bars, f, atr, FateOf(r))
  {
    LevelsAre(bars, f, atr);
    hide OutcomeIs, LevelsOf, RiskOf, AreLevels, FateOf;
  }

  lemma FateWithout(bars: seq<Bar>, f: Formation, atr: real)
    ensures f.lastIndex + 1 >= |bars| ==> FateIs(bars, f, atr, Late)
    ensures f.lastIndex + 1 < |bars| && RiskOf(bars, f, atr) <= 0.0 ==> FateIs(bars, f, atr, Void)
  {
    if f.lastIndex + 1 < |bars| {
      LevelsAre(bars, f, atr);
    }
    hide OutcomeIs, LevelsOf, RiskOf, AreLevels, StopOf;
  }

  function Total(rrs: seq<real>): real {
    if rrs == [] then 0.0 else Total(rrs[..|rrs| - 1]) + rrs[|rrs| - 1]
  }

  function Book(t: Tally, o: Outcome): Tally {
    match o
    case L1 => t.(l1 := t.l1 + 1)
    case L2 => t.(l2 := t.l2 + 1)
    case L3 => t.(l3 := t.l3 + 1)
    case SL => t.(sl := t.sl + 1)
  }

  lemma BookOne(t: Tally, rrs: seq<real>, o: Outcome)
    ensures Closed(Book(t, o)) == Closed(t) + 1 && Book(t, o).open == t.open
    ensures AtLeastThree(rrs + [RewardOf(o)]) - AtLeastThree(rrs) == Book(t, o).l3 - t.l3
    ensures Total(rrs + [RewardOf(o)]) == Total(rrs) + RewardOf(o)
  {
    assert (rrs + [RewardOf(o)])[..|rrs|] == rrs;
  }

  lemma NothingTallied(bars: seq<Bar>, atr: real)
    ensures Consistent(bars, [], atr, Tally(0, 0, 0, 0, 0), [])
    ensures Counts(bars, [], atr, Tally(0, 0, 0, 0, 0), [], [])
  {
    hide *;
    NothingConsistent(bars, [], atr, Tally(0, 0, 0, 0, 0), []);
    NothingCounts(bars, atr);
  }

  lemma NothingConsistent(bars: seq<Bar>, fs: seq<Formation>, atr: real, t: Tally, rrs: seq<real>)
    requires fs == [] && rrs == [] && t.l1 == t.l2 == t.l3 == t.sl == t.open == 0
    ensures Consistent(bars, fs, atr, t, rrs)
  {
    hide *;
    NothingSums();
    NothingDropped(bars, atr);
    ZeroTally(t);
    ConsistentFrom(bars, fs, atr, t, rrs);
  }

  lemma ZeroTally(t: Tally)
    requires t.l1 == 0 && t.l2 == 0 && t.l3 == 0 && t.sl == 0
    ensures Closed(t) == 0 && (t.l1 as real) + 2.0 * (t.l2 as real) + 3.0 * (t.l3 as real) == 0.0
  {
  }

  lemma ConsistentFrom(bars: seq<Bar>, fs: seq<Formation>, atr: real, t: Tally, rrs: seq<real>)
    requires Closed(t) + t.open + DroppedCount(bars, fs, atr) == |fs| && |rrs| == Closed(t)
    requires AtLeastThree(rrs) == t.l3
    requires Total(rrs) == (t.l1 as real) + 2.0 * (t.l2 as real) + 3.0 * (t.l3 as real)
    ensures Consistent(bars, fs, atr, t, rrs)
  {
  }

  lemma NothingSums()
    ensures AtLeastThree([]) == 0 && Total([]) == 0.0
  {
  }

  lemma NothingDropped(bars: seq<Bar>, atr: real)
    ensures DroppedCount(bars, [], atr) == 0
  {
  }

  lemma NothingCounted(fate: Fate)
    ensures CountOf([], fate) == 0 && Rewards([]) == []
  {
  }

  lemma NothingCounts(bars: seq<Bar>, atr: real)
    ensures Counts(bars, [], atr, Tally(0, 0, 0, 0, 0), [], [])
  {
    NothingCounted(Ended(L1));
    NothingCounted(Ended(L2));
    NothingCounted(Ended(L3));
    NothingCounted(Ended(SL));
    NothingCounted(Late);
    NothingCounted(Untouched);
    hide FateIs, CountOf, Rewards;
  }

  /** The loop over the formations. */
  method TallyOutcomes(bars: seq<Bar>, fs: seq<Formation>, atr: real)
    returns (t: Tally, rrs: seq<real>, ghost fates: seq<Fate>)
    ensures Consistent(bars, fs, atr, t, rrs) && Counts(bars, fs, atr, t, rrs, fates)
  {
    hide *;
    t, rrs, fates := Tally(0, 0, 0, 0, 0), [], [];
    NothingTallied(bars, atr);
    ghost var done: seq<Formation> := [];
    for i := 0 to |fs|
      invariant done == fs[..i]
      invariant Consistent(bars, done, atr, t, rrs) && Counts(bars, done, atr, t, rrs, fates)
    {
      t, rrs, fates := TallyOne(bars, done, fs[i], atr, t, rrs, fates);
      done := done + [fs[i]];
    }
    assert done == fs;
  }

  lemma DroppedMore(bars: seq<Bar>, fs: seq<Formation>, f: Formation, atr: real)
    ensures DroppedCount(bars, fs + [f], atr) == DroppedCount(bars, fs, atr) + (if Dropped(bars, f, atr) then 1 else 0)
  {
    assert (fs + [f])[..|fs|] == fs;
  }

  method TallyOne(bars: seq<Bar>, ghost done: seq<Formation>, f: Formation, atr: real, t: Tally, rrs: seq<real>,
          ghost fates: seq<Fate>)
    returns (u: Tally, out: seq<real>, ghost more: seq<Fate>)
    requires Consistent(bars, done, atr, t, rrs) && Counts(bars, done, atr, t, rrs, fates)
    ensures Consistent(bars, done + [f], atr, u, out) && Counts(bars, done + [f], atr, u, out, more)
  {
    DroppedMore(bars, done, f, atr);
    FateWithout(bars, f, atr);
    hide DroppedCount, AtLeastThree, Total, Counts, FateIs;
    u, out := t, rrs;
    ghost var fate := if f.lastIndex + 1 >= |bars| then Late else Void;
    if f.lastIndex + 1 >= |bars| {
      u := t.(open := t.open + 1);
    } else if RiskOf(bars, f, atr) > 0.0 {
      var outcome := EvaluateTradeOutcome(bars, f.lastIndex + 1, LevelsOf(bars, f, atr));
      FateOfOutcome(bars, f, atr, outcome);
      fate := FateOf(outcome);
      hide RiskOf, LevelsOf, OutcomeIs;
      if outcome.None? {
        u := t.(open := t.open + 1);
      } else {
        BookOne(t, rrs, outcome.value);
        u, out := Book(t, outcome.value), rrs + [RewardOf(outcome.value)];
      }
    }
    CountMore(bars, done, f, atr, t, rrs, fates, fate);
    more := fates + [fate];
  }

  function Positives(rrs: seq<real>): nat {
    if rrs == [] then 0 else Positives(rrs[..|rrs| - 1]) + (if rrs[|rrs| - 1] > 0.0 then 1 else 0)
  }

  function PositiveTotal(rrs: seq<real>): real {
    if rrs == [] then 0.0 else PositiveTotal(rrs[..|rrs| - 1]) + (if rrs[|rrs| - 1] > 0.0 then rrs[|rrs| - 1] else 0.0)
  }

  /** The rates before rounding. */
  function ExactRates(t: Tally, rrs: seq<real>): Rates {
    if Closed(t) == 0 then Rates(0.0, 0.0, 0.0, 0.0, 0.0, 0.0)
    else
      var n := Closed(t) as real;
      Rates((AtLeastThree(rrs) as real) / n,
            if Positives(rrs) == 0 then 0.0 else PositiveTotal(rrs) / (Positives(rrs) as real),
            (t.l1 as real) / n, (t.l2 as real) / n, (t.l3 as real) / n, (t.sl as real) / n)
  }

  /** Positive rewards are those of the three targets. */
  ghost predicate RewardsAddUp(fates: seq<Fate>) {
    var l1, l2, l3 := CountOf(fates, Ended(L1)), CountOf(fates, Ended(L2)), CountOf(fates, Ended(L3));
    && Positives(Rewards(fates)) == l1 + l2 + l3
    && PositiveTotal(Rewards(fates)) == (l1 as real) + 2.0 * (l2 as real) + 3.0 * (l3 as real)
  }

  lemma {:induction false} RewardsOfFates(fates: seq<Fate>)
    ensures RewardsAddUp(fates)
  {
    if fates != [] {
      hide *;
      RewardsOfFates(fates[..|fates| - 1]);
      RewardsMore(fates[..|fates| - 1], fates[|fates| - 1]);
      assert fates == fates[..|fates| - 1] + [fates[|fates| - 1]];
    }
  }

  lemma RewardsMore(fates: seq<Fate>, fate: Fate)
    requires RewardsAddUp(fates)
    ensures RewardsAddUp(fates + [fate])
  {
    CountAppends(fates, fate);
    hide CountOf, Rewards;
    if fate.Ended? {
      PositivesAppend(Rewards(fates), RewardOf(fate.outcome));
      hide Positives, PositiveTotal;
    } else {
      assert Rewards(fates) + [] == Rewards(fates);
    }
  }

  lemma PositivesAppend(rrs: seq<real>, r: real)
    ensures Positives(rrs + [r]) == Positives(rrs) + (if r > 0.0 then 1 else 0)
    ensures PositiveTotal(rrs + [r]) == PositiveTotal(rrs) + (if r > 0.0 then r else 0.0)
  {
    assert (rrs + [r])[..|rrs|] == rrs;
  }

  /** The average reward is over the trades that reached a target at all. */
  lemma AverageIsOverWinners(bars: seq<Bar>, fs: seq<Formation>, atr: real, t: Tally, rrs: seq<real>, fates: seq<Fate>)
    requires Counts(bars, fs, atr, t, rrs, fates)
    ensures var average, winners := ExactRates(t, rrs).averageRr, t.l1 + t.l2 + t.l3;
            && average * (winners as real) == (t.l1 as real) + 2.0 * (t.l2 as real) + 3.0 * (t.l3 as real)
            && (winners == 0 ==> average == 0.0)
  {
    RewardsOfFates(fates);
    hide FateIs, CountOf, Rewards, Positives, PositiveTotal, AtLeastThree;
    var n, total := Positives(rrs), PositiveTotal(rrs);
    if n > 0 {
      assert total / (n as real) * (n as real) == total;
    }
  }

  /** The rates as reported, each rounded to two places on its own. */
  function OutcomeStats(t: Tally, rrs: seq<real>, ties: Ties): Rates {
    var r := ExactRates(t, rrs);
    var l1, l2, l3, sl := Round2(r.l1, ties), Round2(r.l2, ties), Round2(r.l3, ties), Round2(r.sl, ties);
    Rates(Round2(r.rr31, ties), Round2(r.averageRr, ties), l1, l2, l3, sl)
  }

  /** Without a closed trade every rate is reported as zero. */
  lemma NothingClosedIsZero(t: Tally, rrs: seq<real>, ties: Ties)
    requires Closed(t) == 0
    ensures var r := OutcomeStats(t, rrs, ties);
            r.rr31 == 0.0 && r.averageRr == 0.0 && r.l1 == 0.0 && r.l2 == 0.0 && r.l3 == 0.0 && r.sl == 0.0
  {
    assert (0.0 * 100.0).Floor == 0;
    assert Round2(0.0, ties) == 0.0;
    hide Round2;
  }

  /** The verdict of the study. */
  predicate Passes(r: Rates) {
    r.rr31 >= 0.60
  }

  lemma Fractions(a: real, b: real, c: real, d: real, n: real)
    requires n > 0.0 && a + b + c + d == n
    ensures a / n + b / n + c / n + d / n == 1.0
  {
    assert (a / n + b / n + c / n + d / n) * n == a + b + c + d;
  }

  /** The four outcome rates of closed trades sum to one before rounding and to one give or take 0.02 after it, and
      the 3:1 hit rate is the L3 rate. */
  lemma RatesAgree(bars: seq<Bar>, fs: seq<Formation>, atr: real, t: Tally, rrs: seq<real>, ties: Ties)
    requires Consistent(bars, fs, atr, t, rrs) && Closed(t) > 0
    ensures var e, r := ExactRates(t, rrs), OutcomeStats(t, rrs, ties);
            && e.l1 + e.l2 + e.l3 + e.sl == 1.0 && e.rr31 == e.l3 && r.rr31 == r.l3
            && 0.98 <= r.l1 + r.l2 + r.l3 + r.sl <= 1.02
  {
    Fractions(t.l1 as real, t.l2 as real, t.l3 as real, t.sl as real, Closed(t) as real);
    hide Round2;
  }

  /** The whole percents that `c` of `n` trades are. */
  function Percents(c: nat, n: nat): nat
    requires n > 0
  {
    100 * c / n
  }

  /** What is left over, in units of one percent of one trade. */
  function Rest(c: nat, n: nat): nat
    requires n > 0
  {
    100 * c % n
  }

  /** Whether the rate of `c` of `n` trades is rounded up. */
  predicate RoundsUp(c: nat, n: nat, ties: Ties)
    requires n > 0
  {
    2 * Rest(c, n) > n || (2 * Rest(c, n) == n && ties((c as real) / (n as real)))
  }

  function Up(c: nat, n: nat, ties: Ties): nat
    requires n > 0
  {
    if RoundsUp(c, n, ties) then 1 else 0
  }

  lemma PercentsAndRest(c: nat, n: nat)
    requires n > 0
    ensures 100 * c == Percents(c, n) * n + Rest(c, n) && Rest(c, n) < n
  {
  }

  lemma {:induction false} CastProduct(a: int, b: nat)
    ensures (a * b) as real == (a as real) * (b as real)
  {
    if b > 0 {
      CastProduct(a, b - 1);
      assert a * b == a * (b - 1) + a;
      assert (a as real) * (b as real) == (a as real) * ((b - 1) as real) + (a as real);
    }
  }

  lemma FloorOfRate(c: nat, n: nat, x: real)
    requires n > 0 && x * (n as real) == (100 * c) as real
    ensures x.Floor == Percents(c, n) && (x - (x.Floor as real)) * (n as real) == Rest(c, n) as real
  {
    var q, m := Percents(c, n), Rest(c, n);
    PercentsAndRest(c, n);
    hide Percents, Rest;
    CastProduct(q, n);
    FloorIs(x, n as real, q, m as real);
  }

  lemma FloorIs(x: real, n: real, q: int, m: real)
    requires x * n == (q as real) * n + m && 0.0 <= m < n
    ensures x.Floor == q && (x - (x.Floor as real)) * n == m
  {
    var d := x - (q as real);
    Remainder(x, q as real, n, m, d);
    Between(d, n, m);
  }

  lemma Remainder(x: real, q: real, n: real, m: real, d: real)
    requires x * n == q * n + m && d == x - q
    ensures d * n == m
  {
    assert d * n == x * n - q * n;
  }

  lemma Between(d: real, n: real, m: real)
    requires d * n == m && 0.0 <= m < n
    ensures 0.0 <= d < 1.0
  {
    NotNegative(d, n);
    assert (1.0 - d) * n == n - m;
    Positive(1.0 - d, n);
  }

  lemma NotNegative(x: real, n: real)
    requires n > 0.0 && x * n >= 0.0
    ensures x >= 0.0
  {
  }

  lemma Positive(x: real, n: real)
    requires n > 0.0 && x * n > 0.0
    ensures x > 0.0
  {
  }

  lemma InHundredths(c: nat, n: nat) returns (x: real)
    requires n > 0
    ensures x == (c as real) / (n as real) * 100.0 && x * (n as real) == (100 * c) as real
  {
    var r := (c as real) / (n as real);
    assert r * (n as real) == c as real;
    x := r * 100.0;
    assert x * (n as real) == 100.0 * (r * (n as real));
  }

  /** A reported rate in percent points. */
  lemma ReportedRate(c: nat, n: nat, ties: Ties)
    requires n > 0
    ensures Round2((c as real) / (n as real), ties) * 100.0 == (Percents(c, n) + Up(c, n, ties)) as real
  {
    var x := InHundredths(c, n);
    hide Percents, Rest;
    FloorOfRate(c, n, x);
    HalfExactly(x - (x.Floor as real), n as real, Rest(c, n) as real);
  }

  lemma HalfExactly(d: real, n: real, m: real)
    requires n > 0.0 && d * n == m
    ensures (d < 0.5 <==> 2.0 * m < n) && (d == 0.5 <==> 2.0 * m == n)
  {
    var e := d - 0.5;
    assert e * n == m - 0.5 * n;
    if e > 0.0 {
      assert e * n > 0.0;
    } else if e < 0.0 {
      assert (-e) * n > 0.0;
    }
  }

  /** Exactly when the four reported rates of `n` closed trades sum to one: as many of them are rounded up as whole
      percents are left over. */
  lemma ReportedRatesSumToOneExactlyWhen(t: Tally, rrs: seq<real>, ties: Ties)
    requires Closed(t) > 0
    ensures var r, n := OutcomeStats(t, rrs, ties), Closed(t);
            r.l1 + r.l2 + r.l3 + r.sl == 1.0
            <==> (Up(t.l1, n, ties) + Up(t.l2, n, ties) + Up(t.l3, n, ties) + Up(t.sl, n, ties)) * n
                 == Rest(t.l1, n) + Rest(t.l2, n) + Rest(t.l3, n) + Rest(t.sl, n)
  {
    var n := Closed(t);
    hide Percents, Rest, Up, Round2, OutcomeStats;
    var ups := Up(t.l1, n, ties) + Up(t.l2, n, ties) + Up(t.l3, n, ties) + Up(t.sl, n, ties);
    var whole := Percents(t.l1, n) + Percents(t.l2, n) + Percents(t.l3, n) + Percents(t.sl, n);
    var rests := Rest(t.l1, n) + Rest(t.l2, n) + Rest(t.l3, n) + Rest(t.sl, n);
    WholeAndRest(t.l1, t.l2, t.l3, t.sl, n);
    ReportedSum(t, rrs, ties, whole + ups);
    WholeMeans(whole, ups, rests, n);
  }

  lemma WholeMeans(whole: nat, ups: nat, rests: nat, n: nat)
    requires n > 0 && whole * n + rests == 100 * n
    ensures whole + ups == 100 <==> ups * n == rests
  {
    assert (whole + ups) * n == whole * n + ups * n;
    SameProduct(whole + ups, 100, n);
  }

  lemma ReportedSum(t: Tally, rrs: seq<real>, ties: Ties, points: nat)
    requires var n := Closed(t);
             && n > 0
             && points == Percents(t.l1, n) + Percents(t.l2, n) + Percents(t.l3, n) + Percents(t.sl, n)
                          + (Up(t.l1, n, ties) + Up(t.l2, n, ties) + Up(t.l3, n, ties) + Up(t.sl, n, ties))
    ensures var r := OutcomeStats(t, rrs, ties); r.l1 + r.l2 + r.l3 + r.sl == 1.0 <==> points == 100
  {
    var n := Closed(t);
    ReportedRate(t.l1, n, ties);
    ReportedRate(t.l2, n, ties);
    ReportedRate(t.l3, n, ties);
    ReportedRate(t.sl, n, ties);
    hide Round2, Up, Percents, AtLeastThree, Positives, PositiveTotal;
    var r := OutcomeStats(t, rrs, ties);
    assert (r.l1 + r.l2 + r.l3 + r.sl) * 100.0 == points as real;
  }

  lemma WholeAndRest(a: nat, b: nat, c: nat, d: nat, n: nat)
    requires n > 0 && a + b + c + d == n
    ensures var whole := Percents(a, n) + Percents(b, n) + Percents(c, n) + Percents(d, n);
            whole * n + (Rest(a, n) + Rest(b, n) + Rest(c, n) + Rest(d, n)) == 100 * n
  {
    PercentsAndRest(a, n);
    PercentsAndRest(b, n);
    PercentsAndRest(c, n);
    PercentsAndRest(d, n);
    hide Percents, Rest;
    FourTimes(Percents(a, n), Percents(b, n), Percents(c, n), Percents(d, n), n);
  }

  lemma FourTimes(a: int, b: int, c: int, d: int, n: int)
    ensures (a + b + c + d) * n == a * n + b * n + c * n + d * n
  {
  }

  lemma SameProduct(x: int, y: int, n: nat)
    requires n > 0
    ensures x * n == y * n <==> x == y
  {
    if x * n == y * n {
      assert (x - y) * n == 0;
    }
  }

  /** So they need not: one trade of each profitable outcome reports 0.33 three times. */
  lemma RoundedRatesMissOne(ties: Ties)
    ensures var r := OutcomeStats(Tally(1, 1, 1, 0, 0), [1.0, 2.0, 3.0], ties);
            r.l1 + r.l2 + r.l3 + r.sl == 0.99
  {
    hide AtLeastThree, Positives, PositiveTotal, Round2;
    ThirdRounds(ties);
  }

  lemma ThirdRounds(ties: Ties)
    ensures Round2(1.0 / 3.0, ties) == 0.33 && Round2(0.0 / 3.0, ties) == 0.0
  {
    var third := 1.0 / 3.0;
    assert 33.0 < third * 100.0 < 33.5;
    assert (third * 100.0).Floor == 33;
  }

  /** The bar of 60 percent is compared with the rounded rate: a hit rate above 59.5 percent passes and one below it
      does not; at the tie the verdict is that of the rounding. */
  lemma PassesExactlyWhen(t: Tally, rrs: seq<real>, ties: Ties)
    ensures var rate := ExactRates(t, rrs).rr31;
            Passes(OutcomeStats(t, rrs, ties)) <==> rate > 0.595 || (rate == 0.595 && ties(rate))
  {
    hide ExactRates;
    RoundsUpExactlyWhen(ExactRates(t, rrs).rr31, ties);
  }

  lemma RoundsUpExactlyWhen(x: real, ties: Ties)
    ensures Round2(x, ties) >= 0.60 <==> x > 0.595 || (x == 0.595 && ties(x))
  {
    var y := x * 100.0;
    assert y >= 60.0 ==> y.Floor >= 60;
    assert 59.0 <= y < 60.0 ==> y.Floor == 59;
    assert y < 59.0 ==> y.Floor < 59;
  }
}
