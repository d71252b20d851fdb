/** The two repairs of scripts/fetch_binance_history_2yr.py: keep the longest gap-free segment, and fill
    zero-volume bars. */
module BarRepair {
  import opened Wrappers
  import opened Reals

  /** A bar; `time` is its open time in seconds. */
  datatype Bar = Bar(time: int, open: real, high: real, low: real, close: real, volume: real, spread: real)

  // ----- the longest segment ---------------------------------------------------------------

  /** The step into bar `i` exceeds the threshold (in seconds). */
  predicate Gap(bars: seq<Bar>, threshold: real, i: nat) {
    0 < i < |bars| && (bars[i].time - bars[i - 1].time) as real > threshold
  }

  ghost predicate GapFree(bars: seq<Bar>, threshold: real) {
    forall i :: 0 <= i < |bars| ==> !Gap(bars, threshold, i)
  }

  /** No step between neighbours exceeds the threshold; one that equals it does not. */
  lemma GapFreeExactlyWhen(bars: seq<Bar>, threshold: real)
    ensures GapFree(bars, threshold) <==>
              forall i :: 0 <= i < |bars| - 1 ==> bars[i + 1].time as real <= bars[i].time as real + threshold
  {
    if GapFree(bars, threshold) {
      forall i | 0 <= i < |bars| - 1 ensures bars[i + 1].time as real <= bars[i].time as real + threshold {
        assert !Gap(bars, threshold, i + 1);
      }
    } else {
      var i :| 0 <= i < |bars| && Gap(bars, threshold, i);
      assert !(bars[i - 1 + 1].time as real <= bars[i - 1].time as real + threshold);
    }
  }

  /** [lo, hi) is gap-free, no gap-free slice is longer, and none as long starts earlier. */
  ghost predicate LongestRun(bars: seq<Bar>, threshold: real, lo: nat, hi: nat) {
    && lo <= hi <= |bars| && GapFree(bars[lo..hi], threshold)
    && forall a, b :: 0 <= a <= b <= |bars| && GapFree(bars[a..b], threshold) ==>
         b - a <= hi - lo && (b - a == hi - lo > 0 ==> lo <= a)
  }

  /** A maximal stretch between two gaps. */
  ghost predicate Segment(bars: seq<Bar>, threshold: real, s: (nat, nat)) {
    && s.0 < s.1 <= |bars|
    && (s.0 == 0 || Gap(bars, threshold, s.0)) && (s.1 == |bars| || Gap(bars, threshold, s.1))
    && forall i :: s.0 < i < s.1 ==> !Gap(bars, threshold, i)
  }

  /** The segments cut [0, end) into consecutive pieces. */
  ghost predicate Tiles(segments: seq<(nat, nat)>, end: nat) {
    && (segments == [] ==> end == 0)
    && (segments != [] ==> segments[0].0 == 0 && segments[|segments| - 1].1 == end)
    && (forall k :: 0 <= k < |segments| ==> segments[k].0 < segments[k].1)
    && (forall k :: 0 < k < |segments| ==> segments[k].0 == segments[k - 1].1)
  }

  /** The indices after a gap, in order. */
  ghost predicate GapList(bars: seq<Bar>, threshold: real, gaps: seq<nat>) {
    && (forall i: nat :: i in gaps <==> Gap(bars, threshold, i))
    && forall j, k :: 0 <= j < k < |gaps| ==> gaps[j] < gaps[k]
  }

  method FindGaps(bars: seq<Bar>, threshold: real) returns (gaps: seq<nat>)
    requires bars != []
    ensures GapList(bars, threshold, gaps)
  {
    gaps := [];
    for i := 1 to |bars|
      invariant forall g: nat :: g in gaps <==> g < i && Gap(bars, threshold, g)
      invariant forall j :: 0 <= j < |gaps| ==> gaps[j] < i
      invariant forall j, k :: 0 <= j < k < |gaps| ==> gaps[j] < gaps[k]
    {
      assert forall j :: 0 <= j < |gaps| ==> gaps[j] in gaps;
      if (bars[i].time - bars[i - 1].time) as real > threshold {
        gaps := gaps + [i];
      }
    }
  }

  /** Every listed stretch is a segment. */
  ghost predicate AllSegments(bars: seq<Bar>, threshold: real, segments: seq<(nat, nat)>) {
    forall k :: 0 <= k < |segments| ==> Segment(bars, threshold, segments[k])
  }

  method CutSegments(bars: seq<Bar>, threshold: real, gaps: seq<nat>) returns (segments: seq<(nat, nat)>)
    requires bars != [] && GapList(bars, threshold, gaps)
    ensures |segments| == |gaps| + 1 && Tiles(segments, |bars|) && AllSegments(bars, threshold, segments)
  {
    hide Tiles, AllSegments, GapList;
    segments := [];
    var start := 0;
    NoSegments(bars, threshold);
    for n := 0 to |gaps|
      invariant |segments| == n && Tiles(segments, start)
      invariant start == if n == 0 then 0 else gaps[n - 1]
      invariant AllSegments(bars, threshold, segments)
    {
      BetweenGaps(bars, threshold, gaps, n);
      AddSegment(bars, threshold, segments, start, gaps[n]);
      segments := segments + [(start, gaps[n])];
      start := gaps[n];
    }
    BetweenGaps(bars, threshold, gaps, |gaps|);
    AddSegment(bars, threshold, segments, start, |bars|);
    segments := segments + [(start, |bars|)];
  }

  lemma NoSegments(bars: seq<Bar>, threshold: real)
    ensures Tiles([], 0) && AllSegments(bars, threshold, [])
  {
  }

  lemma AddSegment(bars: seq<Bar>, threshold: real, segments: seq<(nat, nat)>, start: nat, next: nat)
    requires Tiles(segments, start) && AllSegments(bars, threshold, segments)
    requires Segment(bars, threshold, (start, next))
    ensures Tiles(segments + [(start, next)], next)
    ensures AllSegments(bars, threshold, segments + [(start, next)])
  {
  }

  lemma BetweenGaps(bars: seq<Bar>, threshold: real, gaps: seq<nat>, n: nat)
    requires bars != [] && GapList(bars, threshold, gaps) && n <= |gaps|
    ensures Segment(bars, threshold,
                    (if n == 0 then 0 else gaps[n - 1], if n == |gaps| then |bars| else gaps[n]))
  {
    var lo := if n == 0 then 0 else gaps[n - 1];
    var hi := if n == |gaps| then |bars| else gaps[n];
    assert n > 0 ==> lo in gaps;
    assert n < |gaps| ==> hi in gaps;
    forall i: nat | lo < i < hi ensures !Gap(bars, threshold, i) {
      if i in gaps {
        var k :| 0 <= k < |gaps| && gaps[k] == i;
      }
    }
  }

  /** Index of the first longest segment. */
  method PickLongest(segments: seq<(nat, nat)>) returns (best: nat)
    requires segments != [] && forall k :: 0 <= k < |segments| ==> segments[k].0 < segments[k].1
    ensures best < |segments|
    ensures forall k :: 0 <= k < |segments| ==> segments[k].1 - segments[k].0 <= segments[best].1 - segments[best].0
    ensures forall k :: 0 <= k < best ==> segments[k].1 - segments[k].0 < segments[best].1 - segments[best].0
  {
    best := 0;
    for n := 1 to |segments|
      invariant best < n
      invariant forall k :: 0 <= k < n ==> segments[k].1 - segments[k].0 <= segments[best].1 - segments[best].0
      invariant forall k :: 0 <= k < best ==> segments[k].1 - segments[k].0 < segments[best].1 - segments[best].0
    {
      if segments[n].1 - segments[n].0 > segments[best].1 - segments[best].0 {
        best := n;
      }
    }
  }

  method TrimKeepLongestSegment(bars: seq<Bar>, threshold: real)
    returns (kept: seq<Bar>, lo: nat, hi: nat, gaps: seq<nat>)
    ensures LongestRun(bars, threshold, lo, hi) && kept == bars[lo..hi]
    ensures GapList(bars, threshold, gaps)
  {
    if |bars| == 0 {
      return [], 0, 0, [];
    }
    gaps := FindGaps(bars, threshold);
    if |gaps| == 0 {
      WholeIsLongest(bars, threshold);
      return bars, 0, |bars|, gaps;
    }
    var segments := CutSegments(bars, threshold, gaps);
    var best := PickLongest(segments);
    lo, hi := segments[best].0, segments[best].1;
    kept := bars[lo..hi];
    LongestSegmentIsLongestRun(bars, threshold, segments, best);
  }

  lemma WholeIsLongest(bars: seq<Bar>, threshold: real)
    requires GapFree(bars, threshold)
    ensures LongestRun(bars, threshold, 0, |bars|)
  {
    assert bars[0..|bars|] == bars;
  }

  lemma SliceGap(bars: seq<Bar>, threshold: real, a: nat, b: nat, i: nat)
    requires a <= b <= |bars| && i < b - a
    ensures Gap(bars[a..b], threshold, i) <==> i > 0 && Gap(bars, threshold, a + i)
  {
  }

  lemma {:induction false} TileOf(segments: seq<(nat, nat)>, end: nat, a: nat) returns (k: nat)
    requires Tiles(segments, end) && a < end
    ensures k < |segments| && segments[k].0 <= a < segments[k].1
  {
    k := |segments| - 1;
    if a < segments[k].0 {
      k := TileOf(segments[..k], segments[k].0, a);
    }
  }

  lemma {:induction false} TilesAscend(segments: seq<(nat, nat)>, end: nat, j: nat, k: nat)
    requires Tiles(segments, end) && j <= k < |segments|
    ensures segments[j].0 <= segments[k].0
  {
    if j < k {
      TilesAscend(segments, end, j, k - 1);
    }
  }

  lemma LongestSegmentIsLongestRun(bars: seq<Bar>, threshold: real, segments: seq<(nat, nat)>, best: nat)
    requires Tiles(segments, |bars|) && best < |segments|
    requires AllSegments(bars, threshold, segments)
    requires forall k :: 0 <= k < |segments| ==> segments[k].1 - segments[k].0 <= segments[best].1 - segments[best].0
    requires forall k :: 0 <= k < best ==> segments[k].1 - segments[k].0 < segments[best].1 - segments[best].0
    ensures LongestRun(bars, threshold, segments[best].0, segments[best].1)
  {
    var (lo, hi) := segments[best];
    forall i | 0 <= i < hi - lo ensures !Gap(bars[lo..hi], threshold, i) {
      SliceGap(bars, threshold, lo, hi, i);
    }
    forall a, b | 0 <= a <= b <= |bars| && GapFree(bars[a..b], threshold)
      ensures b - a <= hi - lo && (b - a == hi - lo > 0 ==> lo <= a)
    {
      if a < b {
        var k := TileOf(segments, |bars|, a);
        var e := segments[k].1;
        if e < b {
          SliceGap(bars, threshold, a, b, e - a);
        }
        if k >= best { TilesAscend(segments, |bars|, best, k); }
      }
    }
  }

  /** Trimming is idempotent: what was kept is its own longest run. */
  lemma TrimIsIdempotent(bars: seq<Bar>, threshold: real, lo: nat, hi: nat, lo2: nat, hi2: nat)
    requires LongestRun(bars, threshold, lo, hi) && LongestRun(bars[lo..hi], threshold, lo2, hi2)
    ensures bars[lo..hi][lo2..hi2] == bars[lo..hi]
  {
    var kept := bars[lo..hi];
    assert kept[0..|kept|] == kept;
  }

  /** The run that is kept is determined by the property alone. */
  lemma LongestRunIsUnique(bars: seq<Bar>, threshold: real, lo: nat, hi: nat, lo2: nat, hi2: nat)
    requires LongestRun(bars, threshold, lo, hi) && LongestRun(bars, threshold, lo2, hi2)
    ensures bars[lo..hi] == bars[lo2..hi2]
  {
  }

  // ----- zero-volume bars ------------------------------------------------------------------

  const VOLUME_SHARE: real := 0.000001
  const VOLUME_FLOOR: real := 0.000000001

  function NegligibleVolume(volume: real): real {
    if volume > 0.0 then Max(volume * VOLUME_SHARE, VOLUME_FLOOR) else VOLUME_FLOOR
  }

  /** The last bar before `i` whose volume is not zero. */
  function LastReal(bars: seq<Bar>, i: nat): Option<Bar>
    requires i <= |bars|
  {
    if i == 0 then None else if bars[i - 1].volume != 0.0 then Some(bars[i - 1]) else LastReal(bars, i - 1)
  }

  /** The first bar from `i` on whose volume is positive. */
  function NextReal(bars: seq<Bar>, i: nat): Option<Bar>
    requires i <= |bars|
    decreases |bars| - i
  {
    if i == |bars| then None else if bars[i].volume > 0.0 then Some(bars[i]) else NextReal(bars, i + 1)
  }

  function RepairedBar(bars: seq<Bar>, i: nat): Bar
    requires i < |bars|
  {
    var b := bars[i];
    if b.volume != 0.0 then b
    else
      match LastReal(bars, i)
      case Some(p) => Bar(b.time, p.close, p.close, p.close, p.close, NegligibleVolume(p.volume), p.spread)
      case None =>
        match NextReal(bars, i + 1)
        case Some(n) => Bar(b.time, n.open, n.high, n.low, n.open, NegligibleVolume(n.volume), n.spread)
        case None => b.(volume := VOLUME_FLOOR)
  }

  function Repaired(bars: seq<Bar>): (r: seq<Bar>)
    ensures |r| == |bars|
    ensures forall i :: 0 <= i < |bars| ==> r[i] == RepairedBar(bars, i)
  {
    seq(|bars|, i requires 0 <= i < |bars| => RepairedBar(bars, i))
  }

  method TrimZeroVolumeBars(bars: seq<Bar>) returns (kept: seq<Bar>, repaired: seq<nat>)
    ensures kept == Repaired(bars)
    ensures forall i: nat :: i in repaired <==> i < |bars| && bars[i].volume == 0.0
  {
    kept, repaired := [], [];
    var prev: Option<Bar> := None;
    for i := 0 to |bars|
      invariant |kept| == i && forall j :: 0 <= j < i ==> kept[j] == RepairedBar(bars, j)
      invariant prev == LastReal(bars, i)
      invariant forall j: nat :: j in repaired <==> j < i && bars[j].volume == 0.0
    {
      var bar := bars[i];
      if bar.volume != 0.0 {
        kept, prev := kept + [bar], Some(bar);
        continue;
      }
      var fixed: Bar;
      if prev.Some? {
        var c := prev.value.close;
        fixed := Bar(bar.time, c, c, c, c, NegligibleVolume(prev.value.volume), prev.value.spread);
      } else {
        var next: Option<Bar> := None;
        for j := i + 1 to |bars|
          invariant next == None && NextReal(bars, i + 1) == NextReal(bars, j)
        {
          if bars[j].volume > 0.0 {
            next := Some(bars[j]);
            break;
          }
        }
        if next.Some? {
          var n := next.value;
          fixed := Bar(bar.time, n.open, n.high, n.low, n.open, NegligibleVolume(n.volume), n.spread);
        } else {
          fixed := bar.(volume := VOLUME_FLOOR);
        }
      }
      kept, repaired := kept + [fixed], repaired + [i];
    }
  }

  predicate ValidBar(b: Bar) {
    b.low <= b.open <= b.high && b.low <= b.close <= b.high
  }

  /** Bar `j` is the last one before `i` that traded. */
  ghost predicate TradedLast(bars: seq<Bar>, i: nat, j: int)
    requires i <= |bars|
  {
    0 <= j < i && bars[j].volume != 0.0 && forall k :: j < k < i ==> bars[k].volume == 0.0
  }

  lemma {:induction false} LastRealIs(bars: seq<Bar>, i: nat)
    requires i <= |bars|
    ensures var r := LastReal(bars, i);
            r.Some? ==> r.value in bars && r.value.volume != 0.0
  {
    if i > 0 && bars[i - 1].volume == 0.0 {
      LastRealIs(bars, i - 1);
    }
  }

  lemma {:induction false} LastRealAt(bars: seq<Bar>, i: nat, j: nat)
    requires i <= |bars| && TradedLast(bars, i, j)
    ensures LastReal(bars, i) == Some(bars[j])
  {
    if j < i - 1 {
      LastRealAt(bars, i - 1, j);
    }
  }

  lemma {:induction false} NextRealIs(bars: seq<Bar>, i: nat)
    requires i <= |bars|
    ensures var r := NextReal(bars, i);
            r.Some? ==> r.value in bars && r.value.volume > 0.0
    decreases |bars| - i
  {
    if i < |bars| && bars[i].volume <= 0.0 {
      NextRealIs(bars, i + 1);
    }
  }

  /** Length, times and every bar that traded are kept; a repaired bar has a positive volume; and valid bars
      stay valid. */
  lemma RepairKeeps(bars: seq<Bar>, i: nat)
    requires i < |bars|
    ensures var r := Repaired(bars);
            && |r| == |bars| && r[i].time == bars[i].time
            && (bars[i].volume != 0.0 ==> r[i] == bars[i])
            && (bars[i].volume == 0.0 ==> r[i].volume > 0.0)
            && ((forall b :: b in bars ==> ValidBar(b)) ==> ValidBar(r[i]))
  {
    LastRealIs(bars, i);
    NextRealIs(bars, i + 1);
    assert bars[i] in bars;
  }

  /** After the repair every volume is positive exactly when no input volume was negative. */
  lemma AllPositiveExactlyWhenNoneNegative(bars: seq<Bar>)
    ensures (forall b :: b in Repaired(bars) ==> b.volume > 0.0) <==> (forall b :: b in bars ==> b.volume >= 0.0)
  {
    forall i | 0 <= i < |bars| ensures Repaired(bars)[i].volume > 0.0 <==> bars[i].volume >= 0.0 {
      RepairKeeps(bars, i);
    }
    if b :| b in bars && b.volume < 0.0 {
      var i :| 0 <= i < |bars| && bars[i] == b;
      assert Repaired(bars)[i] in Repaired(bars);
    }
  }

  /** A zero-volume bar after some traded bar is flat at the close of the last bar that traded in the INPUT, with
      only zero-volume bars between: never at a repaired one. */
  lemma FlatFillIsFromLastTradedBar(bars: seq<Bar>, i: nat, j: nat)
    requires i < |bars| && bars[i].volume == 0.0 && TradedLast(bars, i, j)
    ensures var r := Repaired(bars)[i];
            r.open == r.high == r.low == r.close == bars[j].close && r.spread == bars[j].spread
  {
    LastRealAt(bars, i, j);
  }

  /** The cadence is untouched: the same steps are gaps, so the same segment is the longest one. */
  lemma RepairKeepsCadence(bars: seq<Bar>, threshold: real, lo: nat, hi: nat)
    ensures GapFree(Repaired(bars), threshold) <==> GapFree(bars, threshold)
    ensures LongestRun(Repaired(bars), threshold, lo, hi) <==> LongestRun(bars, threshold, lo, hi)
  {
    var r := Repaired(bars);
    SameTimesSameGaps(bars, r, threshold);
    forall a, b | 0 <= a <= b <= |bars| ensures GapFree(r[a..b], threshold) <==> GapFree(bars[a..b], threshold) {
      forall i | 0 <= i < b - a ensures r[a..b][i].time == bars[a..b][i].time {
        RepairKeeps(bars, a + i);
      }
      SameTimesSameGaps(bars[a..b], r[a..b], threshold);
    }
  }

  lemma SameTimesSameGaps(xs: seq<Bar>, ys: seq<Bar>, threshold: real)
    requires |xs| == |ys| && forall i :: 0 <= i < |xs| ==> xs[i].time == ys[i].time
    ensures GapFree(ys, threshold) <==> GapFree(xs, threshold)
  {
    assert forall i: nat :: Gap(xs, threshold, i) <==> Gap(ys, threshold, i);
  }

  lemma RepairIsIdempotent(bars: seq<Bar>)
    ensures Repaired(Repaired(bars)) == Repaired(bars)
  {
    forall i | 0 <= i < |bars| ensures RepairedBar(Repaired(bars), i) == Repaired(bars)[i] {
      RepairKeeps(bars, i);
    }
  }

  /** Bar `n` is the first one after `i` with a positive volume. */
  ghost predicate TradesNext(bars: seq<Bar>, i: nat, n: int) {
    i < n < |bars| && bars[n].volume > 0.0 && forall k :: i < k < n ==> bars[k].volume <= 0.0
  }

  /** A millionth of `volume`, and a billionth at least. */
  predicate Negligible(v: real, volume: real) {
    v == 1.0 / 1_000_000_000.0 || (volume > 0.0 && v == volume / 1_000_000.0 && v >= 1.0 / 1_000_000_000.0)
  }

  /** No less than either. */
  predicate AtLeastNegligible(v: real, volume: real) {
    v >= 1.0 / 1_000_000_000.0 && v >= volume / 1_000_000.0
  }

  lemma {:induction false} NextRealAt(bars: seq<Bar>, i: nat, n: nat)
    requires i <= n < |bars| && bars[n].volume > 0.0 && forall k :: i <= k < n ==> bars[k].volume <= 0.0
    ensures NextReal(bars, i) == Some(bars[n])
    decreases n - i
  {
    if i < n {
      NextRealAt(bars, i + 1, n);
    }
  }

  ghost predicate NoneBefore(bars: seq<Bar>, i: nat) {
    i <= |bars| && forall k :: 0 <= k < i ==> bars[k].volume == 0.0
  }

  ghost predicate NoneFrom(bars: seq<Bar>, i: nat) {
    i <= |bars| && forall k :: i <= k < |bars| ==> bars[k].volume <= 0.0
  }

  lemma {:induction false} NoRealLeft(bars: seq<Bar>, i: nat)
    requires NoneBefore(bars, i)
    ensures LastReal(bars, i) == None
  {
    if i > 0 {
      NoRealLeft(bars, i - 1);
    }
  }

  lemma {:induction false} NoRealRight(bars: seq<Bar>, i: nat)
    requires NoneFrom(bars, i)
    ensures NextReal(bars, i) == None
    decreases |bars| - i
  {
    if i < |bars| {
      NoRealRight(bars, i + 1);
    }
  }

  lemma NegligibleIs(volume: real)
    ensures Negligible(NegligibleVolume(volume), volume) && AtLeastNegligible(NegligibleVolume(volume), volume)
    ensures Negligible(VOLUME_FLOOR, 0.0)
  {
  }

  /** The repaired bar, field by field, in the three cases of the script: behind the last bar `j` that traded it is
      flat at that close; before the first bar `n` that trades it has that bar's open, high and low; and in a series
      that never trades it keeps its own prices. Volume and spread are those of the same bar, the volume negligible. */
  lemma RepairedBarIs(bars: seq<Bar>, i: nat)
    requires i < |bars| && bars[i].volume == 0.0
    ensures var r := Repaired(bars)[i];
            && (forall j :: TradedLast(bars, i, j) ==>
                  && r.open == r.high == r.low == r.close == bars[j].close && r.spread == bars[j].spread
                  && Negligible(r.volume, bars[j].volume) && AtLeastNegligible(r.volume, bars[j].volume))
            && (NoneBefore(bars, i) ==>
                  forall n :: TradesNext(bars, i, n) ==>
                    && r.open == r.close == bars[n].open && r.high == bars[n].high && r.low == bars[n].low
                    && r.spread == bars[n].spread
                    && Negligible(r.volume, bars[n].volume) && AtLeastNegligible(r.volume, bars[n].volume))
            && (NoneBefore(bars, i) && NoneFrom(bars, i + 1) ==>
                  r == bars[i].(volume := r.volume) && Negligible(r.volume, 0.0))
  {
    hide LastReal, NextReal, NegligibleVolume;
    NegligibleIs(0.0);
    forall j | TradedLast(bars, i, j)
      ensures LastReal(bars, i) == Some(bars[j])
      ensures Negligible(NegligibleVolume(bars[j].volume), bars[j].volume)
      ensures AtLeastNegligible(NegligibleVolume(bars[j].volume), bars[j].volume)
    {
      LastRealAt(bars, i, j);
      NegligibleIs(bars[j].volume);
    }
    if NoneBefore(bars, i) {
      NoRealLeft(bars, i);
      forall n | TradesNext(bars, i, n)
        ensures NextReal(bars, i + 1) == Some(bars[n])
        ensures Negligible(NegligibleVolume(bars[n].volume), bars[n].volume)
        ensures AtLeastNegligible(NegligibleVolume(bars[n].volume), bars[n].volume)
      {
        NextRealAt(bars, i + 1, n);
        NegligibleIs(bars[n].volume);
      }
    }
    if NoneBefore(bars, i) && NoneFrom(bars, i + 1) {
      NoRealLeft(bars, i);
      NoRealRight(bars, i + 1);
    }
  }
}
