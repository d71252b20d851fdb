/** The spread-widening detector of scripts/ftmo_broker_validation.py. */
module SpreadEvents {
  import opened Reals
  /** One spread sample; `time` is its parsed timestamp in seconds. */
  datatype Sample = Sample(pair: string, time: real, spread: real, condition: string)

  /** A reported event: when it began, the condition of the sample that ended it, and its figures. */
  datatype Event = Event(start: real, pair: string, condition: string, baseline: real, peak: real, duration: real)

  /** The detector's settings for one pair; `baseline` is the pair's median spread. */
  datatype Limits = Limits(baseline: real, threshold: real, minDuration: real)

  const BASELINE_SAMPLES: nat := 20

  predicate Above(s: Sample, l: Limits)
    requires l.baseline > 0.0
  {
    s.spread / l.baseline >= l.threshold
  }

  // ----- specification -----------------------------------------------------------------

  /** [s, e) is a maximal stretch of samples above the threshold, closed by the sample at `e`. */
  ghost predicate ClosedRun(xs: seq<Sample>, l: Limits, s: nat, e: nat)
    requires l.baseline > 0.0
  {
    && s < e < |xs| && !Above(xs[e], l)
    && (forall i :: s <= i < e ==> Above(xs[i], l))
    && (s == 0 || !Above(xs[s - 1], l))
  }

  /** Where the stretch above the threshold that ends just before `e` begins; `e` itself when there is none. */
  function RunStart(xs: seq<Sample>, l: Limits, e: nat): (s: nat)
    requires l.baseline > 0.0 && e <= |xs|
    ensures s <= e
  {
    if e == 0 || !Above(xs[e - 1], l) then e else RunStart(xs, l, e - 1)
  }

  function MaxSpread(xs: seq<Sample>, s: nat, e: nat): real
    requires s < e <= |xs|
  {
    if e == s + 1 then xs[s].spread else Max(MaxSpread(xs, s, e - 1), xs[e - 1].spread)
  }

  predicate ReportedAt(xs: seq<Sample>, l: Limits, e: nat)
    requires l.baseline > 0.0 && e < |xs|
  {
    var s := RunStart(xs, l, e);
    !Above(xs[e], l) && s < e && xs[e].time - xs[s].time >= l.minDuration
  }

  /** The stretches reported while reading the first `n` samples, as (start, closing sample). */
  function Runs(xs: seq<Sample>, l: Limits, n: nat): seq<(nat, nat)>
    requires l.baseline > 0.0 && n <= |xs|
  {
    if n == 0 then []
    else Runs(xs, l, n - 1) + (if ReportedAt(xs, l, n - 1) then [(RunStart(xs, l, n - 1), n - 1)] else [])
  }

  function EventOf(pair: string, xs: seq<Sample>, l: Limits, s: nat, e: nat): Event
    requires s < e < |xs|
  {
    Event(xs[s].time, pair, xs[e].condition, l.baseline, MaxSpread(xs, s, e), xs[e].time - xs[s].time)
  }

  function EventsUpTo(pair: string, xs: seq<Sample>, l: Limits, n: nat): seq<Event>
    requires l.baseline > 0.0 && n <= |xs|
  {
    if n == 0 then []
    else
      var e := n - 1;
      EventsUpTo(pair, xs, l, e) + (if ReportedAt(xs, l, e) then [EventOf(pair, xs, l, RunStart(xs, l, e), e)] else [])
  }

  // ----- the loop over one pair's samples -------------------------------------------------

  method DetectPair(pair: string, xs: seq<Sample>, l: Limits) returns (events: seq<Event>)
    requires l.baseline > 0.0
    ensures events == EventsUpTo(pair, xs, l, |xs|)
  {
    events := [];
    var inEvent, start, peak := false, 0.0, 0.0;
    for i := 0 to |xs|
      invariant events == EventsUpTo(pair, xs, l, i)
      invariant inEvent <==> RunStart(xs, l, i) < i
      invariant inEvent ==> start == xs[RunStart(xs, l, i)].time && peak == MaxSpread(xs, RunStart(xs, l, i), i)
    {
      var s := xs[i];
      var factor := s.spread / l.baseline;
      ghost var from := RunStart(xs, l, i);
      if factor >= l.threshold && !inEvent {
        inEvent, start, peak := true, s.time, s.spread;
        assert RunStart(xs, l, i + 1) == from == i;
      } else if inEvent {
        peak := Max(peak, s.spread);
        if factor < l.threshold {
          ClosingSampleIsNoPeak(xs, l, from, i);
          var duration := s.time - start;
          if duration >= l.minDuration {
            events := events + [Event(start, pair, s.condition, l.baseline, peak, duration)];
          }
          inEvent, start, peak := false, 0.0, 0.0;
        }
      }
    }
  }

  lemma {:induction false} RunStartIs(xs: seq<Sample>, l: Limits, e: nat)
    requires l.baseline > 0.0 && e <= |xs|
    ensures var s := RunStart(xs, l, e);
            && (forall i :: s <= i < e ==> Above(xs[i], l))
            && (s == 0 || !Above(xs[s - 1], l))
  {
    if e > 0 && Above(xs[e - 1], l) {
      RunStartIs(xs, l, e - 1);
    }
  }

  lemma {:induction false} MaxSpreadIs(xs: seq<Sample>, s: nat, e: nat)
    requires s < e <= |xs|
    ensures forall i :: s <= i < e ==> xs[i].spread <= MaxSpread(xs, s, e)
    ensures exists i :: s <= i < e && xs[i].spread == MaxSpread(xs, s, e)
  {
    if e == s + 1 {
      assert xs[s].spread == MaxSpread(xs, s, e);
    } else {
      MaxSpreadIs(xs, s, e - 1);
      var i :| s <= i < e - 1 && xs[i].spread == MaxSpread(xs, s, e - 1);
      var top := if xs[i].spread >= xs[e - 1].spread then i else e - 1;
      assert xs[top].spread == MaxSpread(xs, s, e);
    }
  }

  /** The loop also folds the closing sample into the peak; being below the threshold it never is the peak. */
  lemma ClosingSampleIsNoPeak(xs: seq<Sample>, l: Limits, s: nat, e: nat)
    requires l.baseline > 0.0 && e < |xs| && s == RunStart(xs, l, e) < e && !Above(xs[e], l)
    ensures Max(MaxSpread(xs, s, e), xs[e].spread) == MaxSpread(xs, s, e)
  {
    RunStartIs(xs, l, e);
    MaxSpreadIs(xs, s, e);
    assert Above(xs[s], l);
    FactorOrder(xs[e].spread, xs[s].spread, l.baseline);
  }

  lemma FactorOrder(x: real, y: real, b: real)
    requires b > 0.0 && x / b < y / b
    ensures x < y
  {
    assert x == x / b * b && y == y / b * b;
  }

  // ----- the declarative specification -----------------------------------------------------

  /** A closed run is found from its closing sample. */
  lemma {:induction false} RunStartOfClosedRun(xs: seq<Sample>, l: Limits, s: nat, e: nat, k: nat)
    requires l.baseline > 0.0 && ClosedRun(xs, l, s, e) && s <= k <= e
    ensures RunStart(xs, l, k) == s
  {
    if k > s {
      RunStartOfClosedRun(xs, l, s, e, k - 1);
    }
  }

  /** A closed run that lasts long enough. */
  ghost predicate LongRun(xs: seq<Sample>, l: Limits, s: nat, e: nat)
    requires l.baseline > 0.0
  {
    ClosedRun(xs, l, s, e) && xs[e].time - xs[s].time >= l.minDuration
  }

  lemma ReportedIsLongRun(xs: seq<Sample>, l: Limits, s: nat, e: nat)
    requires l.baseline > 0.0 && e < |xs|
    ensures LongRun(xs, l, s, e) <==> ReportedAt(xs, l, e) && s == RunStart(xs, l, e)
  {
    RunStartIs(xs, l, e);
    if ClosedRun(xs, l, s, e) {
      RunStartOfClosedRun(xs, l, s, e, e);
    }
  }

  /** The stretches reported are exactly the maximal runs above the threshold that a sample below it closes and
      that last at least the minimum: in order, disjoint, each once.  A run still open at the end is none of them. */
  lemma {:induction false} RunsAreTheLongRuns(xs: seq<Sample>, l: Limits, n: nat)
    requires l.baseline > 0.0 && n <= |xs|
    ensures var rs := Runs(xs, l, n);
            && (forall s: nat, e: nat :: (s, e) in rs <==> e < n && LongRun(xs, l, s, e))
            && (forall i, j :: 0 <= i < j < |rs| ==> rs[i].1 < rs[j].0)
  {
    if n > 0 {
      var e, before := n - 1, Runs(xs, l, n - 1);
      RunsAreTheLongRuns(xs, l, e);
      forall s: nat ensures LongRun(xs, l, s, e) <==> ReportedAt(xs, l, e) && s == RunStart(xs, l, e) {
        ReportedIsLongRun(xs, l, s, e);
      }
      if ReportedAt(xs, l, e) {
        forall i | 0 <= i < |before| ensures before[i].1 < RunStart(xs, l, e) {
          assert (before[i].0, before[i].1) in before;
          RunStartIs(xs, l, e);
        }
      }
    }
  }

  lemma {:induction false} EventsAreRuns(pair: string, xs: seq<Sample>, l: Limits, n: nat)
    requires l.baseline > 0.0 && n <= |xs|
    ensures |EventsUpTo(pair, xs, l, n)| == |Runs(xs, l, n)|
    ensures forall i :: 0 <= i < |Runs(xs, l, n)| ==>
              var (s, e) := Runs(xs, l, n)[i];
              s < e < |xs| && EventsUpTo(pair, xs, l, n)[i] == EventOf(pair, xs, l, s, e)
  {
    if n > 0 {
      EventsAreRuns(pair, xs, l, n - 1);
    }
  }

  /** The events of one pair, declaratively: one for each long run, in the order the runs close, beginning at the
      run's first sample, lasting to the sample that closes it, and peaking at the largest spread in it. */
  lemma EventsMeetTheSpecification(pair: string, xs: seq<Sample>, l: Limits)
    returns (rs: seq<(nat, nat)>)
    requires l.baseline > 0.0
    ensures forall s: nat, e: nat :: (s, e) in rs <==> LongRun(xs, l, s, e)
    ensures forall i, j :: 0 <= i < j < |rs| ==> rs[i].1 < rs[j].0
    ensures |EventsUpTo(pair, xs, l, |xs|)| == |rs|
    ensures forall i :: 0 <= i < |rs| ==> Reports(EventsUpTo(pair, xs, l, |xs|)[i], pair, xs, l, rs[i].0, rs[i].1)
  {
    rs := Runs(xs, l, |xs|);
    RunsAreTheLongRuns(xs, l, |xs|);
    EventsAreRuns(pair, xs, l, |xs|);
    forall i | 0 <= i < |rs| ensures Reports(EventsUpTo(pair, xs, l, |xs|)[i], pair, xs, l, rs[i].0, rs[i].1) {
      MaxSpreadIs(xs, rs[i].0, rs[i].1);
    }
  }

  ghost predicate Reports(v: Event, pair: string, xs: seq<Sample>, l: Limits, s: nat, e: nat) {
    && s < e < |xs|
    && v.start == xs[s].time && v.duration == xs[e].time - xs[s].time
    && v.pair == pair && v.condition == xs[e].condition && v.baseline == l.baseline
    && (forall i :: s <= i < e ==> xs[i].spread <= v.peak) && (exists i :: s <= i < e && xs[i].spread == v.peak)
  }

  // ----- all pairs ---------------------------------------------------------------------------

  function PairSamples(xs: seq<Sample>, pair: string): seq<Sample> {
    if xs == [] then []
    else PairSamples(xs[..|xs| - 1], pair) + (if xs[|xs| - 1].pair == pair then [xs[|xs| - 1]] else [])
  }

  /** The pairs in the order they first appear. */
  function Pairs(xs: seq<Sample>): seq<string> {
    if xs == [] then []
    else
      var seen := Pairs(xs[..|xs| - 1]);
      if xs[|xs| - 1].pair in seen then seen else seen + [xs[|xs| - 1].pair]
  }

  function Spreads(xs: seq<Sample>): seq<real> {
    seq(|xs|, i requires 0 <= i < |xs| => xs[i].spread)
  }

  /** The baseline is the median of a pair's first twenty samples. */
  function Baseline(xs: seq<Sample>, median: seq<real> -> real): real {
    median(Spreads(if |xs| < BASELINE_SAMPLES then xs else xs[..BASELINE_SAMPLES]))
  }

  function PairEvents(pair: string, xs: seq<Sample>, median: seq<real> -> real, threshold: real,
          minDuration: real): seq<Event> {
    if |xs| < 3 || Baseline(xs, median) <= 0.0 then []
    else EventsUpTo(pair, xs, Limits(Baseline(xs, median), threshold, minDuration), |xs|)
  }

  function AllEvents(xs: seq<Sample>, pairs: seq<string>, median: seq<real> -> real, threshold: real,
          minDuration: real): seq<Event> {
    if pairs == [] then []
    else
      var p := pairs[|pairs| - 1];
      AllEvents(xs, pairs[..|pairs| - 1], median, threshold, minDuration)
      + PairEvents(p, PairSamples(xs, p), median, threshold, minDuration)
  }

  /** `by_pair`: each pair seen, in order of appearance, with its samples in order. */
  method GroupByPair(xs: seq<Sample>) returns (order: seq<string>, byPair: map<string, seq<Sample>>)
    ensures order == Pairs(xs)
    ensures forall p :: p in byPair <==> p in order
    ensures forall p :: p in order ==> byPair[p] == PairSamples(xs, p)
  {
    order, byPair := [], map[];
    for i := 0 to |xs|
      invariant Grouped(xs[..i], order, byPair)
    {
      GroupedStep(xs, i, order, byPair);
      var s := xs[i];
      if s.pair in byPair {
        byPair := byPair[s.pair := byPair[s.pair] + [s]];
      } else {
        order, byPair := order + [s.pair], byPair[s.pair := [s]];
      }
    }
    assert xs[..|xs|] == xs;
  }

  ghost predicate Grouped(xs: seq<Sample>, order: seq<string>, byPair: map<string, seq<Sample>>) {
    && order == Pairs(xs)
    && (forall p :: p in byPair <==> p in order)
    && (forall p :: p in order ==> byPair[p] == PairSamples(xs, p))
    && (forall p :: p !in order ==> PairSamples(xs, p) == [])
  }

  lemma GroupedStep(xs: seq<Sample>, i: nat, order: seq<string>, byPair: map<string, seq<Sample>>)
    requires i < |xs| && Grouped(xs[..i], order, byPair)
    ensures var s := xs[i];
            if s.pair in byPair then Grouped(xs[..i + 1], order, byPair[s.pair := byPair[s.pair] + [s]])
            else Grouped(xs[..i + 1], order + [s.pair], byPair[s.pair := [s]])
  {
    PairsStep(xs, i);
    hide Pairs, PairSamples;
    if xs[i].pair in byPair {
      KnownPair(xs, i, order, byPair);
    } else {
      NewPair(xs, i, order, byPair);
    }
  }

  lemma PairsStep(xs: seq<Sample>, i: nat)
    requires i < |xs|
    ensures var s, seen := xs[i], Pairs(xs[..i]);
            && Pairs(xs[..i + 1]) == (if s.pair in seen then seen else seen + [s.pair])
            && PairSamples(xs[..i + 1], s.pair) == PairSamples(xs[..i], s.pair) + [s]
            && (forall p :: p != s.pair ==> PairSamples(xs[..i + 1], p) == PairSamples(xs[..i], p))
  {
    var more := xs[..i + 1];
    assert more[..i] == xs[..i];
    forall p | p != xs[i].pair ensures PairSamples(more, p) == PairSamples(xs[..i], p) {
      assert PairSamples(more, p) == PairSamples(xs[..i], p) + [];
    }
  }

  lemma KnownPair(xs: seq<Sample>, i: nat, order: seq<string>, byPair: map<string, seq<Sample>>)
    requires i < |xs| && Grouped(xs[..i], order, byPair) && xs[i].pair in byPair
    requires Pairs(xs[..i + 1]) == order
    requires PairSamples(xs[..i + 1], xs[i].pair) == PairSamples(xs[..i], xs[i].pair) + [xs[i]]
    requires forall p :: p != xs[i].pair ==> PairSamples(xs[..i + 1], p) == PairSamples(xs[..i], p)
    ensures Grouped(xs[..i + 1], order, byPair[xs[i].pair := byPair[xs[i].pair] + [xs[i]]])
  {
    hide Pairs, PairSamples;
  }

  lemma NewPair(xs: seq<Sample>, i: nat, order: seq<string>, byPair: map<string, seq<Sample>>)
    requires i < |xs| && Grouped(xs[..i], order, byPair) && xs[i].pair !in byPair
    requires Pairs(xs[..i + 1]) == order + [xs[i].pair]
    requires PairSamples(xs[..i + 1], xs[i].pair) == PairSamples(xs[..i], xs[i].pair) + [xs[i]]
    requires forall p :: p != xs[i].pair ==> PairSamples(xs[..i + 1], p) == PairSamples(xs[..i], p)
    ensures Grouped(xs[..i + 1], order + [xs[i].pair], byPair[xs[i].pair := [xs[i]]])
  {
    hide Pairs, PairSamples;
    assert PairSamples(xs[..i], xs[i].pair) == [];
    assert [] + [xs[i]] == [xs[i]];
  }

  method DetectSpreadEvents(xs: seq<Sample>, median: seq<real> -> real, threshold: real, minDuration: real)
    returns (events: seq<Event>)
    ensures events == Detected(xs, median, threshold, minDuration)
    ensures forall p :: DetectedFor(xs, events, p, median, threshold, minDuration)
    ensures InPairOrder(xs, events)
  {
    forall p ensures DetectedFor(xs, Detected(xs, median, threshold, minDuration), p, median, threshold, minDuration) {
      DetectionIs(xs, median, threshold, minDuration, p);
    }
    DetectedInOrder(xs, median, threshold, minDuration);
    hide DetectedFor, InPairOrder, AllEvents, Pairs;
    events := [];
    if |xs| < 3 {
      return;
    }
    var order, byPair := GroupByPair(xs);
    hide *;
    NoPairs(xs, median, threshold, minDuration);
    for k := 0 to |order|
      invariant events == AllEvents(xs, order[..k], median, threshold, minDuration)
    {
      MorePairs(xs, order, k, median, threshold, minDuration);
      var pair := order[k];
      assert pair in order;
      var found := DetectOnePair(pair, byPair[pair], median, threshold, minDuration);
      events := events + found;
    }
    assert order[..|order|] == order;
  }

  method DetectOnePair(pair: string, mine: seq<Sample>, median: seq<real> -> real, threshold: real, minDuration: real)
    returns (events: seq<Event>)
    ensures events == PairEvents(pair, mine, median, threshold, minDuration)
  {
    if |mine| < 3 {
      return [];
    }
    var baseline := Baseline(mine, median);
    if baseline <= 0.0 {
      return [];
    }
    events := DetectPair(pair, mine, Limits(baseline, threshold, minDuration));
  }

  lemma NoPairs(xs: seq<Sample>, median: seq<real> -> real, threshold: real, minDuration: real)
    ensures AllEvents(xs, [], median, threshold, minDuration) == []
  {
  }

  lemma MorePairs(xs: seq<Sample>, order: seq<string>, k: nat, median: seq<real> -> real, threshold: real,
          minDuration: real)
    requires k < |order|
    ensures AllEvents(xs, order[..k + 1], median, threshold, minDuration)
         == AllEvents(xs, order[..k], median, threshold, minDuration)
            + PairEvents(order[k], PairSamples(xs, order[k]), median, threshold, minDuration)
  {
    assert order[..k + 1][..k] == order[..k];
  }

  /** The events of one pair, in order. */
  function OfPair(events: seq<Event>, pair: string): seq<Event> {
    if events == [] then []
    else
      var last := events[|events| - 1];
      OfPair(events[..|events| - 1], pair) + (if last.pair == pair then [last] else [])
  }

  lemma {:induction false} OfPairAppend(a: seq<Event>, b: seq<Event>, pair: string)
    ensures OfPair(a + b, pair) == OfPair(a, pair) + OfPair(b, pair)
  {
    if b == [] {
      assert a + b == a;
    } else {
      assert (a + b)[..|a + b| - 1] == a + b[..|b| - 1];
      OfPairAppend(a, b[..|b| - 1], pair);
    }
  }

  lemma {:induction false} OfPairUniform(events: seq<Event>, pair: string, other: string)
    requires forall i :: 0 <= i < |events| ==> events[i].pair == pair
    ensures OfPair(events, other) == (if other == pair then events else [])
  {
    if events != [] {
      OfPairUniform(events[..|events| - 1], pair, other);
      assert events == events[..|events| - 1] + [events[|events| - 1]];
    }
  }

  lemma OfPairOwn(pair: string, xs: seq<Sample>, l: Limits, n: nat, other: string)
    requires l.baseline > 0.0 && n <= |xs|
    ensures OfPair(EventsUpTo(pair, xs, l, n), other) == (if other == pair then EventsUpTo(pair, xs, l, n) else [])
  {
    EventsAreRuns(pair, xs, l, n);
    hide Runs, EventsUpTo;
    OfPairUniform(EventsUpTo(pair, xs, l, n), pair, other);
  }

  lemma {:induction false} PairsAreDistinct(xs: seq<Sample>)
    ensures forall i, j :: 0 <= i < j < |Pairs(xs)| ==> Pairs(xs)[i] != Pairs(xs)[j]
  {
    if xs != [] {
      PairsAreDistinct(xs[..|xs| - 1]);
    }
  }

  lemma {:induction false} OfPairAll(xs: seq<Sample>, pairs: seq<string>, median: seq<real> -> real, threshold: real,
          minDuration: real, p: string)
    requires forall i, j :: 0 <= i < j < |pairs| ==> pairs[i] != pairs[j]
    ensures OfPair(AllEvents(xs, pairs, median, threshold, minDuration), p)
         == (if p in pairs then PairEvents(p, PairSamples(xs, p), median, threshold, minDuration) else [])
  {
    hide *;
    if pairs == [] {
      NoPairs(xs, median, threshold, minDuration);
      OfPairNothing(p);
    } else {
      var init, last := pairs[..|pairs| - 1], pairs[|pairs| - 1];
      assert pairs[..|pairs| - 1 + 1] == pairs && pairs == init + [last];
      OfPairAll(xs, init, median, threshold, minDuration, p);
      MorePairs(xs, pairs, |pairs| - 1, median, threshold, minDuration);
      OfPairOfOne(last, PairSamples(xs, last), median, threshold, minDuration, p);
      var before := AllEvents(xs, init, median, threshold, minDuration);
      OfPairAppend(before, PairEvents(last, PairSamples(xs, last), median, threshold, minDuration), p);
    }
  }

  lemma OfPairNothing(pair: string)
    ensures OfPair([], pair) == []
  {
  }

  lemma OfPairOfOne(last: string, mine: seq<Sample>, median: seq<real> -> real, threshold: real, minDuration: real,
          p: string)
    ensures var events := PairEvents(last, mine, median, threshold, minDuration);
            OfPair(events, p) == if p == last then events else []
  {
    OfPairNothing(p);
    hide Baseline, EventsUpTo, OfPair;
    if |mine| >= 3 && Baseline(mine, median) > 0.0 {
      OfPairOwn(last, mine, Limits(Baseline(mine, median), threshold, minDuration), |mine|, p);
    }
  }

  /** Pairs do not disturb each other: the events the detector reports for a pair are the events of that pair's
      own samples. */
  lemma PairsAreIndependent(xs: seq<Sample>, median: seq<real> -> real, threshold: real, minDuration: real, p: string)
    requires p in Pairs(xs)
    ensures OfPair(AllEvents(xs, Pairs(xs), median, threshold, minDuration), p)
         == PairEvents(p, PairSamples(xs, p), median, threshold, minDuration)
  {
    PairsAreDistinct(xs);
    OfPairAll(xs, Pairs(xs), median, threshold, minDuration, p);
  }

  function Detected(xs: seq<Sample>, median: seq<real> -> real, threshold: real, minDuration: real): seq<Event> {
    if |xs| < 3 then [] else AllEvents(xs, Pairs(xs), median, threshold, minDuration)
  }

  // ----- what the detector reports, in terms of the samples and the two settings alone -----------------

  /** `at` are the positions of the pair's samples, ascending. */
  ghost predicate AreOfPair(xs: seq<Sample>, pair: string, at: seq<nat>) {
    && (forall i, j :: 0 <= i < j < |at| ==> at[i] < at[j])
    && (forall k: nat :: k in at <==> k < |xs| && xs[k].pair == pair)
  }

  ghost predicate Picks(xs: seq<Sample>, at: seq<nat>, mine: seq<Sample>) {
    |mine| == |at| && forall k :: 0 <= k < |mine| ==> at[k] < |xs| && mine[k] == xs[at[k]]
  }

  /** The grouping by pair takes each of its samples, in order. */
  lemma {:induction false} PairSamplesAre(xs: seq<Sample>, pair: string) returns (at: seq<nat>)
    ensures AreOfPair(xs, pair, at) && Picks(xs, at, PairSamples(xs, pair))
  {
    hide *;
    at := [];
    if xs == [] {
      NothingOfPair(pair);
    } else {
      var init, last := xs[..|xs| - 1], xs[|xs| - 1];
      assert xs == init + [last];
      var before := PairSamplesAre(init, pair);
      PairSamplesAppend(init, last, pair);
      OneMorePicked(init, last, pair, before, PairSamples(init, pair));
      at := before + (if last.pair == pair then [|init|] else []);
    }
  }

  lemma NothingOfPair(pair: string)
    ensures AreOfPair([], pair, []) && Picks([], [], PairSamples([], pair))
  {
  }

  lemma PairSamplesAppend(xs: seq<Sample>, last: Sample, pair: string)
    ensures PairSamples(xs + [last], pair) == PairSamples(xs, pair) + (if last.pair == pair then [last] else [])
  {
    assert (xs + [last])[..|xs|] == xs;
  }

  lemma OneMorePicked(xs: seq<Sample>, last: Sample, pair: string, at: seq<nat>, mine: seq<Sample>)
    requires AreOfPair(xs, pair, at) && Picks(xs, at, mine)
    ensures var all := xs + [last];
            if last.pair == pair then AreOfPair(all, pair, at + [|xs|]) && Picks(all, at + [|xs|], mine + [last])
            else AreOfPair(all, pair, at + []) && Picks(all, at + [], mine + [])
  {
    var all, more := xs + [last], at + [|xs|];
    assert at + [] == at && mine + [] == mine;
    forall k: nat ensures k in more <==> k in at || k == |xs| {
      assert more[|at|] == |xs|;
    }
    forall k | 0 <= k < |at| ensures at[k] < |xs| {
      assert at[k] in at;
    }
  }

  /** At least `threshold` times the baseline. */
  predicate Wide(s: Sample, baseline: real, threshold: real)
    requires baseline > 0.0
  {
    s.spread / baseline >= threshold
  }

  /** A maximal stretch of wide samples that a narrower one closes, long enough. */
  ghost predicate WideRun(xs: seq<Sample>, baseline: real, threshold: real, minDuration: real, s: nat, e: nat)
    requires baseline > 0.0
  {
    && s < e < |xs| && !Wide(xs[e], baseline, threshold)
    && (forall i :: s <= i < e ==> Wide(xs[i], baseline, threshold))
    && (s == 0 || !Wide(xs[s - 1], baseline, threshold))
    && xs[e].time - xs[s].time >= minDuration
  }

  /** One event for each of these stretches, in order. */
  ghost predicate ReportsRuns(events: seq<Event>, pair: string, xs: seq<Sample>, baseline: real, threshold: real,
          minDuration: real, rs: seq<(nat, nat)>)
    requires baseline > 0.0
  {
    && |events| == |rs|
    && (forall s: nat, e: nat :: (s, e) in rs <==> WideRun(xs, baseline, threshold, minDuration, s, e))
    && (forall i, j :: 0 <= i < j < |rs| ==> rs[i].1 < rs[j].0)
    && (forall i :: 0 <= i < |rs| ==> ReportsRun(events[i], pair, xs, baseline, rs[i].0, rs[i].1))
  }

  ghost predicate ReportsRun(v: Event, pair: string, xs: seq<Sample>, baseline: real, s: nat, e: nat) {
    && s < e < |xs|
    && v.start == xs[s].time && v.duration == xs[e].time - xs[s].time
    && v.pair == pair && v.condition == xs[e].condition && v.baseline == baseline
    && (forall i :: s <= i < e ==> xs[i].spread <= v.peak) && (exists i :: s <= i < e && xs[i].spread == v.peak)
  }

  /** `b` is the median of the first twenty spreads, or of all when there are fewer. */
  ghost predicate IsBaseline(b: real, xs: seq<Sample>, median: seq<real> -> real) {
    exists first: seq<real> :: FirstSpreads(first, xs) && b == median(first)
  }

  predicate FirstSpreads(first: seq<real>, xs: seq<Sample>) {
    |first| == (if |xs| < 20 then |xs| else 20) && forall i :: 0 <= i < |first| ==> first[i] == xs[i].spread
  }

  /** What is reported of one pair: with at least three samples and a positive baseline one event for each of its
      stretches, otherwise nothing. */
  ghost predicate ReportedOf(own: seq<Event>, pair: string, mine: seq<Sample>, median: seq<real> -> real,
          threshold: real, minDuration: real) {
    exists b :: IsBaseline(b, mine, median) && ReportedWith(own, pair, mine, b, threshold, minDuration)
  }

  ghost predicate ReportedWith(own: seq<Event>, pair: string, mine: seq<Sample>, b: real, threshold: real,
          minDuration: real) {
    if |mine| >= 3 && b > 0.0 then
      exists rs: seq<(nat, nat)> :: ReportsRuns(own, pair, mine, b, threshold, minDuration, rs)
    else own == []
  }

  ghost predicate DetectedFor(xs: seq<Sample>, events: seq<Event>, pair: string, median: seq<real> -> real,
          threshold: real, minDuration: real) {
    exists at: seq<nat>, mine: seq<Sample> ::
      && AreOfPair(xs, pair, at) && Picks(xs, at, mine)
      && ReportedOf(OfPair(events, pair), pair, mine, median, threshold, minDuration)
  }

  lemma BaselineIs(xs: seq<Sample>, median: seq<real> -> real)
    ensures IsBaseline(Baseline(xs, median), xs, median)
  {
    assert FirstSpreads(Spreads(if |xs| < BASELINE_SAMPLES then xs else xs[..BASELINE_SAMPLES]), xs);
  }

  lemma RunIsWide(xs: seq<Sample>, l: Limits)
    requires l.baseline > 0.0
    ensures forall s: nat, e: nat ::
              LongRun(xs, l, s, e) <==> WideRun(xs, l.baseline, l.threshold, l.minDuration, s, e)
  {
    forall s: nat, e: nat
      ensures LongRun(xs, l, s, e) <==> WideRun(xs, l.baseline, l.threshold, l.minDuration, s, e)
    {
      assert forall x :: Above(x, l) <==> Wide(x, l.baseline, l.threshold);
      hide Above, Wide;
    }
  }

  lemma PairReports(pair: string, xs: seq<Sample>, median: seq<real> -> real, threshold: real, minDuration: real)
    ensures ReportedOf(PairEvents(pair, xs, median, threshold, minDuration), pair, xs, median, threshold, minDuration)
  {
    var own, b := PairEvents(pair, xs, median, threshold, minDuration), Baseline(xs, median);
    BaselineIs(xs, median);
    hide EventsUpTo, Baseline, ReportsRuns, IsBaseline;
    if |xs| >= 3 && b > 0.0 {
      var rs := ReportsByLimits(pair, xs, Limits(b, threshold, minDuration));
    }
    assert ReportedWith(own, pair, xs, b, threshold, minDuration);
  }

  lemma ReportsByLimits(pair: string, xs: seq<Sample>, l: Limits) returns (rs: seq<(nat, nat)>)
    requires l.baseline > 0.0
    ensures ReportsRuns(EventsUpTo(pair, xs, l, |xs|), pair, xs, l.baseline, l.threshold, l.minDuration, rs)
  {
    rs := EventsMeetTheSpecification(pair, xs, l);
    RunIsWide(xs, l);
    hide EventsUpTo, LongRun, WideRun;
  }

  /** The detector, declaratively, for any pair whatever: with the pair's own samples, the two settings as given and the
      median of its first twenty spreads, its events are exactly one for each maximal stretch of wide samples that a
      narrower one closes after at least the minimum; and a pair with fewer than three samples, without a positive
      baseline or without any sample has none. */
  lemma DetectionIs(xs: seq<Sample>, median: seq<real> -> real, threshold: real, minDuration: real, p: string)
    ensures DetectedFor(xs, Detected(xs, median, threshold, minDuration), p, median, threshold, minDuration)
  {
    var at := PairSamplesAre(xs, p);
    var mine, events := PairSamples(xs, p), Detected(xs, median, threshold, minDuration);
    hide ReportedOf, AreOfPair, Picks, OfPair, PairEvents, PairSamples, AllEvents, Pairs;
    PairReports(p, mine, median, threshold, minDuration);
    OwnEvents(xs, median, threshold, minDuration, p);
  }

  lemma OwnEvents(xs: seq<Sample>, median: seq<real> -> real, threshold: real, minDuration: real, p: string)
    ensures OfPair(Detected(xs, median, threshold, minDuration), p)
         == PairEvents(p, PairSamples(xs, p), median, threshold, minDuration)
  {
    FewSamples(xs, p);
    NoSamples(xs, p);
    OfPairNothing(p);
    PairsAreDistinct(xs);
    OfPairAll(xs, Pairs(xs), median, threshold, minDuration, p);
    hide OfPair, AllEvents, Pairs, PairSamples;
  }

  lemma {:induction false} FewSamples(xs: seq<Sample>, p: string)
    ensures |PairSamples(xs, p)| <= |xs|
  {
    if xs != [] {
      FewSamples(xs[..|xs| - 1], p);
    }
  }

  lemma {:induction false} NoSamples(xs: seq<Sample>, p: string)
    ensures PairSamples(xs, p) == [] <==> p !in Pairs(xs)
  {
    if xs != [] {
      NoSamples(xs[..|xs| - 1], p);
    }
  }

  /** `p` occurs before `q` does. */
  ghost predicate SeenBefore(xs: seq<Sample>, p: string, q: string) {
    exists i :: 0 <= i < |xs| && xs[i].pair == p && NotUpTo(xs, q, i)
  }

  predicate NotUpTo(xs: seq<Sample>, q: string, i: int) {
    forall j :: 0 <= j <= i && j < |xs| ==> xs[j].pair != q
  }

  /** The events of one pair stand together, and pairs follow each other as they first appear in the samples. */
  ghost predicate InPairOrder(xs: seq<Sample>, events: seq<Event>) {
    forall i, j :: 0 <= i < j < |events| ==>
      events[i].pair == events[j].pair || SeenBefore(xs, events[i].pair, events[j].pair)
  }

  lemma SeenStays(xs: seq<Sample>, last: Sample, p: string, q: string)
    requires SeenBefore(xs, p, q)
    ensures SeenBefore(xs + [last], p, q)
  {
    var i :| 0 <= i < |xs| && xs[i].pair == p && NotUpTo(xs, q, i);
    assert (xs + [last])[i] == xs[i] && NotUpTo(xs + [last], q, i);
  }

  lemma {:induction false} PairsAreSeen(xs: seq<Sample>)
    ensures forall p :: p in Pairs(xs) <==> exists i :: 0 <= i < |xs| && xs[i].pair == p
    ensures forall i, j :: 0 <= i < j < |Pairs(xs)| ==> SeenBefore(xs, Pairs(xs)[i], Pairs(xs)[j])
  {
    if xs != [] {
      var init, last := xs[..|xs| - 1], xs[|xs| - 1];
      assert xs == init + [last];
      PairsAreSeen(init);
      PairsAppend(init, last);
      hide Pairs, SeenBefore;
      var before, after := Pairs(init), Pairs(xs);
      forall i, j | 0 <= i < j < |after| ensures SeenBefore(xs, after[i], after[j]) {
        if j < |before| {
          SeenStays(init, last, before[i], before[j]);
        } else {
          assert before[i] in before;
          SeenOfOld(init, last, before[i]);
        }
      }
      forall p ensures p in after <==> exists i :: 0 <= i < |xs| && xs[i].pair == p {
        if i :| 0 <= i < |init| && init[i].pair == p {
          assert xs[i].pair == p;
        }
        assert xs[|xs| - 1] == last;
        assert forall i :: 0 <= i < |init| ==> xs[i] == init[i];
      }
    }
  }

  lemma PairsAppend(xs: seq<Sample>, last: Sample)
    ensures Pairs(xs + [last]) == if last.pair in Pairs(xs) then Pairs(xs) else Pairs(xs) + [last.pair]
  {
    assert (xs + [last])[..|xs|] == xs;
  }

  lemma SeenOfOld(xs: seq<Sample>, last: Sample, p: string)
    requires exists i :: 0 <= i < |xs| && xs[i].pair == p
    requires forall i :: 0 <= i < |xs| ==> xs[i].pair != last.pair
    ensures SeenBefore(xs + [last], p, last.pair)
  {
    var i :| 0 <= i < |xs| && xs[i].pair == p;
    assert (xs + [last])[i].pair == p && NotUpTo(xs + [last], last.pair, i);
  }

  lemma {:induction false} EventsFollowPairs(xs: seq<Sample>, pairs: seq<string>, median: seq<real> -> real,
          threshold: real, minDuration: real)
    requires forall i, j :: 0 <= i < j < |pairs| ==> SeenBefore(xs, pairs[i], pairs[j])
    ensures var events := AllEvents(xs, pairs, median, threshold, minDuration);
            InPairOrder(xs, events) && forall i :: 0 <= i < |events| ==> events[i].pair in pairs
  {
    hide *;
    if pairs == [] {
      NoPairs(xs, median, threshold, minDuration);
      NothingInOrder(xs);
    } else {
      var init, last := pairs[..|pairs| - 1], pairs[|pairs| - 1];
      assert pairs[..|pairs| - 1 + 1] == pairs && pairs == init + [last];
      EventsFollowPairs(xs, init, median, threshold, minDuration);
      MorePairs(xs, pairs, |pairs| - 1, median, threshold, minDuration);
      var more := PairEvents(last, PairSamples(xs, last), median, threshold, minDuration);
      OwnPair(last, PairSamples(xs, last), median, threshold, minDuration);
      forall p | p in init ensures SeenBefore(xs, p, last) {
        var k :| 0 <= k < |init| && init[k] == p;
        assert pairs[k] == p;
      }
      OrderAppends(xs, AllEvents(xs, init, median, threshold, minDuration), more, init, last);
    }
  }

  lemma NothingInOrder(xs: seq<Sample>)
    ensures InPairOrder(xs, [])
  {
  }

  lemma OwnPair(pair: string, mine: seq<Sample>, median: seq<real> -> real, threshold: real, minDuration: real)
    ensures forall v :: v in PairEvents(pair, mine, median, threshold, minDuration) ==> v.pair == pair
  {
    hide Baseline, EventsUpTo;
    if |mine| >= 3 && Baseline(mine, median) > 0.0 {
      var l := Limits(Baseline(mine, median), threshold, minDuration);
      EventsAreRuns(pair, mine, l, |mine|);
    }
  }

  lemma OrderAppends(xs: seq<Sample>, a: seq<Event>, b: seq<Event>, pairs: seq<string>, last: string)
    requires InPairOrder(xs, a) && (forall i :: 0 <= i < |a| ==> a[i].pair in pairs)
    requires forall v :: v in b ==> v.pair == last
    requires forall p :: p in pairs ==> SeenBefore(xs, p, last)
    ensures InPairOrder(xs, a + b) && forall i :: 0 <= i < |a + b| ==> (a + b)[i].pair in pairs + [last]
  {
    hide SeenBefore;
  }

  lemma DetectedInOrder(xs: seq<Sample>, median: seq<real> -> real, threshold: real, minDuration: real)
    ensures InPairOrder(xs, Detected(xs, median, threshold, minDuration))
  {
    PairsAreSeen(xs);
    EventsFollowPairs(xs, Pairs(xs), median, threshold, minDuration);
    NothingInOrder(xs);
    hide AllEvents, Pairs, InPairOrder, SeenBefore;
  }
}
