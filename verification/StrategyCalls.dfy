/** What a simulator asks its strategy and what it makes of the answers, for both scripts of Positions.dfy: bar by bar
    the bars handed over, whether the bar is open to new positions, and the positions opened. */
module StrategyCalls {
  import opened Wrappers
  import opened Reals
  import opened Positions

  /** One evaluation: the bars it was handed and its answer. */
  datatype Call = Call(bars: seq<Bar>, answer: Evaluation)

  /** The strategy that also keeps a record of its evaluations. */
  function Recording<S>(strategy: Strategy<S>): Strategy<(S, seq<Call>)> {
    (s: (S, seq<Call>), bars: seq<Bar>) =>
      var (s', answer) := strategy(s.0, bars);
      ((s', s.1 + [Call(bars, answer)]), answer)
  }

  /** The positions of a run, the open one last. */
  function Opened<S>(st: State<S>): seq<Episode> {
    st.closed + (if st.open.Some? then [st.open.value] else [])
  }

  /** Where each position was opened, and on which signal. */
  function Entries(es: seq<Episode>): (r: seq<(nat, Signal)>)
    ensures |r| == |es|
  {
    seq(|es|, i requires 0 <= i < |es| => (es[i].pos.entryBar, es[i].signal))
  }

  /** The calls that fire, with the bars `at` on which they are made. */
  function Fired(at: seq<nat>, calls: seq<Call>): seq<(nat, Signal)>
    requires |at| == |calls|
  {
    if calls == [] then []
    else
      var n := |calls| - 1;
      Fired(at[..n], calls[..n]) + (if calls[n].answer.Fires? then [(at[n], calls[n].answer.signal)] else [])
  }

  function LastBar(e: Episode): nat
    requires e.bookings != []
  {
    e.bookings[|e.bookings| - 1].bar
  }

  /** A position opened earlier is still open when bar `i` is over. */
  ghost predicate Held<S>(st: State<S>, i: nat) {
    || (st.open.Some? && st.open.value.pos.entryBar < i)
    || exists e :: e in st.closed && e.bookings != [] && e.pos.entryBar < i < LastBar(e)
  }

  /** After `k` bars: the strategy was asked, in order, on exactly the open bars on which no position was held, each
      time with the view of that bar; and the positions are exactly its signals. */
  ghost predicate Told<S>(st: State<(S, seq<Call>)>, at: seq<nat>, k: nat, views: seq<seq<Bar>>, open: seq<bool>)
    requires k <= |views| == |open|
  {
    && |at| == |st.s.1|
    && (forall i, j :: 0 <= i < j < |at| ==> at[i] < at[j])
    && (forall j :: 0 <= j < |at| ==> at[j] < k && st.s.1[j].bars == views[at[j]])
    && (forall i: nat :: i in at <==> i < k && open[i] && !Held(st, i))
    && Entries(Opened(st)) == Fired(at, st.s.1)
  }

  /** Every position was opened before bar `k`, and the finished ones ended by then. */
  ghost predicate Past<S>(st: State<S>, k: nat) {
    && (st.open.Some? ==> st.open.value.pos.entryBar < k)
    && forall e :: e in st.closed ==> e.bookings != [] && LastBar(e) <= k
  }

  /** What bar `i` makes of the open position: the same position, ended on the bar if it is done. */
  ghost predicate Managed<S>(st: State<S>, st': State<S>, i: nat) {
    && st'.s == st.s
    && match st.open
       case None => st' == st
       case Some(e) =>
         exists e' :: SameEntry(e, e')
           && if st'.open.Some? then st' == State(st.s, Some(e'), st.closed)
              else st' == State(st.s, None, st.closed + [e']) && e'.bookings != [] && LastBar(e') == i
  }

  predicate SameEntry(e: Episode, e': Episode) {
    e'.signal == e.signal && e'.pos.entryBar == e.pos.entryBar
  }

  lemma ToldNothing<S>(s: S, views: seq<seq<Bar>>, open: seq<bool>)
    requires |views| == |open|
    ensures var st: State<(S, seq<Call>)> := State((s, []), None, []);
            Told(st, [], 0, views, open) && Past(st, 0)
  {
  }

  lemma StillTold<S>(st: State<(S, seq<Call>)>, st': State<(S, seq<Call>)>, at: seq<nat>, k: nat,
          views: seq<seq<Bar>>, open: seq<bool>)
    requires k <= |views| == |open| && Told(st, at, k, views, open) && Past(st, k) && Managed(st, st', k)
    ensures Told(st', at, k, views, open) && Past(st', k)
  {
    hide Fired;
    assert Entries(Opened(st')) == Entries(Opened(st));
    forall i: nat | i < k ensures Held(st', i) <==> Held(st, i) {
      if st.open.Some? && st'.open.None? {
        var e' :| e' in st'.closed && SameEntry(st.open.value, e') && st' == State(st.s, None, st.closed + [e'])
               && e'.bookings != [] && LastBar(e') == k;
      }
      hide SameEntry, LastBar, Opened, Entries;
    }
  }

  lemma NotAsked<S>(st: State<(S, seq<Call>)>, at: seq<nat>, k: nat, views: seq<seq<Bar>>, open: seq<bool>)
    requires k < |views| == |open| && Told(st, at, k, views, open) && Past(st, k) && (st.open.Some? || !open[k])
    ensures Told(st, at, k + 1, views, open) && Past(st, k + 1)
  {
    hide Fired, Opened, Entries, LastBar;
  }

  lemma Asked<S>(st: State<(S, seq<Call>)>, st': State<(S, seq<Call>)>, at: seq<nat>, k: nat, views: seq<seq<Bar>>,
          open: seq<bool>, call: Call)
    requires k < |views| == |open| && Told(st, at, k, views, open) && Past(st, k) && st.open.None? && open[k]
    requires call.bars == views[k] && st'.s.1 == st.s.1 + [call] && st'.closed == st.closed
    requires call.answer.Fires? == st'.open.Some?
    requires st'.open.Some? ==>
               st'.open.value.pos.entryBar == k && st'.open.value.signal == call.answer.signal
    ensures Told(st', at + [k], k + 1, views, open) && Past(st', k + 1)
  {
    var more, calls := at + [k], st.s.1 + [call];
    assert more[..|at|] == at && calls[..|at|] == st.s.1;
    assert Fired(more, calls)
        == Fired(at, st.s.1) + (if call.answer.Fires? then [(k, call.answer.signal)] else []);
    hide Fired;
    assert Entries(Opened(st'))
        == Entries(Opened(st)) + (if st'.open.Some? then [(k, call.answer.signal)] else []);
    hide Entries, Opened, LastBar;
    forall i: nat ensures i in more <==> i < k + 1 && open[i] && !Held(st', i) {
      assert i in more <==> i in at || i == k;
    }
  }

  /** The position is the signal's, entered `shift` to its disadvantage, and sized so that the signal's own distance, or
      0.0001 when that is smaller, is worth 50. */
  predicate SizedOn(e: Episode, shift: real) {
    var d := if e.signal.entry >= e.signal.stop then e.signal.entry - e.signal.stop else e.signal.stop - e.signal.entry;
    && e.pos.dir == e.signal.dir && e.pos.stop == e.signal.stop
    && e.pos.entry == (if e.signal.dir == Long then e.signal.entry + shift else e.signal.entry - shift)
    && e.pos.qty * (if d >= 0.0001 then d else 0.0001) == 50.0
  }
}
