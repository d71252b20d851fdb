/** The paged, resumable history download of scripts/fetch_binance_history_2yr.py.

    The venue is a function from (request number, endTime) to a reply, so it may fail,
    ban or lie differently at every request.  `Honest` singles out the venues whose accepted
    payloads are the newest page of one fixed history at or before `endTime`. */
module BinanceFetch {
  import opened Wrappers

  const PAGE_SIZE: nat := 1000
  const MAX_RETRIES_PER_POLL: nat := 8

  /** One kline; `time` is the open time in milliseconds. */
  datatype Bar = Bar(time: int, open: real, high: real, low: real, close: real, volume: real)

  datatype Reply =
    | ConnectionError
    | RateLimited
    | Banned
    | OtherStatus
    | Unparsable
    | Payload(bars: seq<Bar>)

  type Venue = (nat, Option<int>) -> Reply

  /** What a checkpoint stores. */
  datatype Snapshot = Snapshot(bars: seq<Bar>, pages: nat, cursor: Option<int>)

  const EMPTY := Snapshot([], 0, None)

  datatype Exit = Capped | Exhausted | GaveUp | ShortPage

  datatype PollResult = PollResult(page: seq<Bar>, requests: nat, answered: bool)

  datatype Outcome = Outcome(final: Snapshot, requests: nat, exit: Exit, saves: seq<Snapshot>)

  // ----- specification ---------------------------------------------------------------

  /** One page with its retries: a ban gives up at once, every other failure is retried until
      MAX_RETRIES_PER_POLL requests have been made. */
  function Poll(venue: Venue, n: nat, cursor: Option<int>, attempt: nat): PollResult
    decreases MAX_RETRIES_PER_POLL - attempt
  {
    if attempt >= MAX_RETRIES_PER_POLL then PollResult([], n, false)
    else
      match venue(n, cursor)
      case Payload(bars) => PollResult(bars, n + 1, true)
      case Banned => PollResult([], n + 1, false)
      case _ => Poll(venue, n + 1, cursor, attempt + 1)
  }

  /** One turn of the fetch loop: the state it leaves, the checkpoint it writes (if any), and
      why the loop stops after it (if it does).  The checkpoint is written BEFORE the cursor moves. */
  datatype Turn = Turn(next: Snapshot, requests: nat, saved: seq<Snapshot>, stop: Option<Exit>)

  function PageTurn(venue: Venue, s: Snapshot, n: nat): Turn {
    var p := Poll(venue, n, s.cursor, 0);
    if |p.page| == 0 then
      Turn(s, p.requests, [], Some(if p.answered then Exhausted else GaveUp))
    else
      var saved := Snapshot(p.page + s.bars, s.pages + 1, s.cursor);
      if |p.page| < PAGE_SIZE then Turn(saved, p.requests, [saved], Some(ShortPage))
      else Turn(saved.(cursor := Some(p.page[0].time - 1)), p.requests, [saved], None)
  }

  /** The whole fetch loop from snapshot `s`.  `saves` lists every checkpoint written, in order;
      the last one is the post-loop snapshot. */
  function Run(venue: Venue, s: Snapshot, n: nat, target: nat, maxPages: nat): Outcome
    decreases maxPages - s.pages
  {
    if |s.bars| >= target || s.pages >= maxPages then Outcome(s, n, Capped, [s])
    else
      var t := PageTurn(venue, s, n);
      match t.stop
      case Some(exit) => Outcome(t.next, t.requests, exit, t.saved + [t.next])
      case None =>
        var rest := Run(venue, t.next, t.requests, target, maxPages);
        rest.(saves := t.saved + rest.saves)
  }

  /** One more turn of a run. */
  lemma RunTurn(venue: Venue, s: Snapshot, n: nat, target: nat, maxPages: nat)
    requires |s.bars| < target && s.pages < maxPages
    ensures var t := PageTurn(venue, s, n);
            && (t.stop.None? ==> t.next.pages == s.pages + 1)
            && Run(venue, s, n, target, maxPages)
            == match t.stop
               case Some(exit) => Outcome(t.next, t.requests, exit, t.saved + [t.next])
               case None =>
                 var rest := Run(venue, t.next, t.requests, target, maxPages);
                 rest.(saves := t.saved + rest.saves)
  {
    hide Poll;
  }

  /** One more request of a page: an answer or a ban ends it, anything else is retried while attempts are left. */
  lemma PollTurn(venue: Venue, n: nat, cursor: Option<int>, attempt: nat)
    requires attempt <= MAX_RETRIES_PER_POLL
    ensures var p := Poll(venue, n, cursor, attempt);
            if attempt == MAX_RETRIES_PER_POLL then p == PollResult([], n, false)
            else
              match venue(n, cursor)
              case Payload(bars) => p == PollResult(bars, n + 1, true)
              case Banned => p == PollResult([], n + 1, false)
              case _ => p == Poll(venue, n + 1, cursor, attempt + 1)
  {
  }

  /** The reply neither answers the page nor bans the script. */
  predicate IsRetried(reply: Reply) {
    !reply.Payload? && reply != Banned
  }

  /** The answer of a page that request number `m` decided, or that was given up at number `last`. */
  ghost predicate IsDecidedBy(p: PollResult, venue: Venue, cursor: Option<int>, m: nat, last: nat) {
    if m == last then p == PollResult([], m, false)
    else
      match venue(m, cursor)
      case Payload(bars) => p == PollResult(bars, m + 1, true)
      case Banned => p == PollResult([], m + 1, false)
      case _ => false
  }

  lemma DecidedAtOnce(venue: Venue, n: nat, cursor: Option<int>, attempt: nat)
    requires attempt <= 8 && (attempt == 8 || !IsRetried(venue(n, cursor)))
    ensures IsDecidedBy(Poll(venue, n, cursor, attempt), venue, cursor, n, n + (8 - attempt))
  {
    PollTurn(venue, n, cursor, attempt);
  }

  lemma RetriedPoll(venue: Venue, n: nat, cursor: Option<int>, attempt: nat)
    requires attempt < 8 && IsRetried(venue(n, cursor))
    ensures Poll(venue, n, cursor, attempt) == Poll(venue, n + 1, cursor, attempt + 1)
  {
    PollTurn(venue, n, cursor, attempt);
  }

  lemma {:induction false} PollFrom(venue: Venue, n: nat, cursor: Option<int>, attempt: nat) returns (m: nat)
    requires attempt <= 8
    ensures n <= m <= n + (8 - attempt) && (forall k :: n <= k < m ==> IsRetried(venue(k, cursor)))
    ensures IsDecidedBy(Poll(venue, n, cursor, attempt), venue, cursor, m, n + (8 - attempt))
    decreases 8 - attempt
  {
    m := n;
    hide *;
    if attempt < 8 && IsRetried(venue(n, cursor)) {
      m := PollFrom(venue, n + 1, cursor, attempt + 1);
      RetriedPoll(venue, n, cursor, attempt);
    } else {
      DecidedAtOnce(venue, n, cursor, attempt);
    }
  }

  /** What becomes of one page on any venue: of eight requests at most, the first that is answered or brings a ban,
      number `m`, decides; eight others give the page up. */
  lemma PollIsFirstAnswer(venue: Venue, n: nat, cursor: Option<int>) returns (m: nat)
    ensures n <= m <= n + 8 && (forall k :: n <= k < m ==> IsRetried(venue(k, cursor)))
    ensures var p := Poll(venue, n, cursor, 0);
            if m == n + 8 then p == PollResult([], m, false)
            else
              match venue(m, cursor)
              case Payload(bars) => p == PollResult(bars, m + 1, true)
              case Banned => p == PollResult([], m + 1, false)
              case _ => false
  {
    hide Poll;
    m := PollFrom(venue, n, cursor, 0);
  }

  ghost predicate Ascending(bars: seq<Bar>) {
    forall i, j :: 0 <= i < j < |bars| ==> bars[i].time < bars[j].time
  }

  /** How many bars of an ascending history open at or before `c`. */
  function CountUpTo(hist: seq<Bar>, c: int): (n: nat)
    ensures n <= |hist|
  {
    if hist == [] then 0
    else if hist[|hist| - 1].time <= c then |hist|
    else CountUpTo(hist[..|hist| - 1], c)
  }

  /** Index in `hist` of the first bar the cursor excludes. */
  function EndIndex(hist: seq<Bar>, cursor: Option<int>): (n: nat)
    ensures n <= |hist|
  {
    match cursor
    case None => |hist|
    case Some(c) => CountUpTo(hist, c)
  }

  function NewestPage(hist: seq<Bar>, cursor: Option<int>): seq<Bar> {
    var e := EndIndex(hist, cursor);
    hist[if e > PAGE_SIZE then e - PAGE_SIZE else 0 .. e]
  }

  ghost predicate Honest(venue: Venue, hist: seq<Bar>) {
    && Ascending(hist)
    && forall n, c :: venue(n, c).Payload? ==> venue(n, c).bars == NewestPage(hist, c)
  }

  /** The cursor excludes exactly the bars already held. */
  predicate Aligned(s: Snapshot) {
    s.cursor == if s.bars == [] then None else Some(s.bars[0].time - 1)
  }

  /** `whole` is the run that has already written the checkpoints `saved` and continues as `rest`. */
  ghost predicate Extends(whole: Outcome, saved: seq<Snapshot>, rest: Outcome) {
    && whole.final == rest.final && whole.requests == rest.requests && whole.exit == rest.exit
    && whole.saves == saved + rest.saves
  }

  lemma ExtendsTurn(whole: Outcome, saved: seq<Snapshot>, venue: Venue, s: Snapshot, n: nat, target: nat, maxPages: nat)
    requires |s.bars| < target && s.pages < maxPages
    requires Extends(whole, saved, Run(venue, s, n, target, maxPages))
    ensures var t := PageTurn(venue, s, n);
            match t.stop
            case Some(exit) => Extends(whole, saved + t.saved, Outcome(t.next, t.requests, exit, [t.next]))
            case None => Extends(whole, saved + t.saved, Run(venue, t.next, t.requests, target, maxPages))
  {
    hide Run, PageTurn;
    RunTurn(venue, s, n, target, maxPages);
    var t := PageTurn(venue, s, n);
    match t.stop
    case Some(exit) =>
      SavesAppend(saved, t.saved, [t.next]);
    case None =>
      SavesAppend(saved, t.saved, Run(venue, t.next, t.requests, target, maxPages).saves);
  }

  lemma SavesAppend(a: seq<Snapshot>, b: seq<Snapshot>, c: seq<Snapshot>)
    ensures a + (b + c) == a + b + c
  {
  }

  // ----- the loop as the script runs it ------------------------------------------------

  class PairFetcher {
    var bars: seq<Bar>
    var pagesFetched: nat
    var endTimeMs: Option<int>
    /** The checkpoint file: absent before the first save. */
    var disk: Option<Snapshot>
    /** Requests sent so far. */
    var requests: nat
    /** Every checkpoint ever written. */
    ghost var journal: seq<Snapshot>

    constructor ()
      ensures disk == None && requests == 0 && journal == []
    {
      bars, pagesFetched, endTimeMs := [], 0, None;
      disk, requests, journal := None, 0, [];
    }

    ghost function Here(): Snapshot
      reads this
    {
      Snapshot(bars, pagesFetched, endTimeMs)
    }

    method SaveState()
      modifies this`disk, this`journal
      ensures disk == Some(Here())
      ensures journal == old(journal) + [Here()]
    {
      disk := Some(Snapshot(bars, pagesFetched, endTimeMs));
      journal := journal + [Snapshot(bars, pagesFetched, endTimeMs)];
    }

    method PollPage(venue: Venue) returns (page: seq<Bar>, answered: bool)
      modifies this`requests
      ensures PollResult(page, requests, answered) == Poll(venue, old(requests), endTimeMs, 0)
    {
      hide Poll;
      var attempt := 0;
      page, answered := [], false;
      while attempt < MAX_RETRIES_PER_POLL
        invariant attempt <= MAX_RETRIES_PER_POLL
        invariant page == [] && !answered
        invariant Poll(venue, old(requests), endTimeMs, 0) == Poll(venue, requests, endTimeMs, attempt)
      {
        PollTurn(venue, requests, endTimeMs, attempt);
        var reply := venue(requests, endTimeMs);
        requests, attempt := requests + 1, attempt + 1;
        match reply {
          case Payload(payload) => return payload, true;
          case Banned => return;
          case _ =>
        }
      }
      PollTurn(venue, requests, endTimeMs, attempt);
    }

    /** Fetches and checkpoints one page, then moves the cursor. */
    method FetchPage(venue: Venue) returns (stop: Option<Exit>)
      modifies this
      ensures var t := PageTurn(venue, old(Here()), old(requests));
              && Here() == t.next && requests == t.requests && stop == t.stop
              && journal == old(journal) + t.saved
              && disk == if t.saved == [] then old(disk) else Some(t.saved[0])
    {
      hide Poll;
      var page, answered := PollPage(venue);
      if |page| == 0 {
        return Some(if answered then Exhausted else GaveUp);
      }
      bars := page + bars;
      pagesFetched := pagesFetched + 1;
      SaveState();
      if |page| < PAGE_SIZE {
        return Some(ShortPage);
      }
      endTimeMs := Some(page[0].time - 1);
      return None;
    }

    method FetchOnePair(venue: Venue, target: nat, maxPages: nat) returns (exit: Exit)
      modifies this
      ensures var start := if old(disk).None? then EMPTY else old(disk).value;
              var r := Run(venue, start, old(requests), target, maxPages);
              && Here() == r.final && exit == r.exit
              && disk == Some(r.final)
              && requests == r.requests
              && journal == old(journal) + r.saves
    {
      var start := if disk.None? then EMPTY else disk.value;
      bars, pagesFetched, endTimeMs, exit := start.bars, start.pages, start.cursor, Capped;
      ghost var run := Run(venue, start, requests, target, maxPages);
      ghost var whole := run.(saves := journal + run.saves);
      while |bars| < target && pagesFetched < maxPages
        invariant exit == Capped
        invariant Extends(whole, journal, Run(venue, Here(), requests, target, maxPages))
        decreases maxPages - pagesFetched
      {
        ExtendsTurn(whole, journal, venue, Here(), requests, target, maxPages);
        var stop := FetchPage(venue);
        if stop.Some? {
          exit := stop.value;
          break;
        }
      }
      assert Extends(whole, journal, Outcome(Here(), requests, exit, [Here()]));
      SaveState();
    }
  }

  // ----- what the venue's history says about a page -------------------------------------

  /** A cursor one millisecond before bar `k` excludes exactly the bars from `k` on. */
  lemma {:induction false} CursorBefore(hist: seq<Bar>, k: nat)
    requires Ascending(hist) && k < |hist|
    ensures EndIndex(hist, Some(hist[k].time - 1)) == k
  {
    var last := |hist| - 1;
    if k < last {
      assert hist[..last][k] == hist[k];
      CursorBefore(hist[..last], k);
    } else if k > 0 {
      assert hist[..last][last - 1].time < hist[k].time;
      assert CountUpTo(hist, hist[k].time - 1) == CountUpTo(hist[..last], hist[k].time - 1);
    }
  }

  /** On an honest venue an accepted page is the newest page; an answered empty one means
      that nothing is left. */
  lemma {:induction false} HonestPoll(venue: Venue, hist: seq<Bar>, n: nat, cursor: Option<int>, attempt: nat)
    requires Honest(venue, hist)
    ensures var p := Poll(venue, n, cursor, attempt);
            if p.answered then p.page == NewestPage(hist, cursor) else p.page == []
    decreases MAX_RETRIES_PER_POLL - attempt
  {
    hide Poll, NewestPage, Ascending;
    if attempt <= MAX_RETRIES_PER_POLL {
      PollTurn(venue, n, cursor, attempt);
      if attempt < MAX_RETRIES_PER_POLL && venue(n, cursor) != Banned && !venue(n, cursor).Payload? {
        HonestPoll(venue, hist, n + 1, cursor, attempt + 1);
      }
    } else {
      NoPollLeft(venue, n, cursor, attempt);
    }
  }

  lemma NoPollLeft(venue: Venue, n: nat, cursor: Option<int>, attempt: nat)
    requires attempt > MAX_RETRIES_PER_POLL
    ensures Poll(venue, n, cursor, attempt) == PollResult([], n, false)
  {
  }

  // ----- the fetch invariant --------------------------------------------------------------

  /** The bars held are `hist[k..m]` followed by `tail`. */
  ghost predicate Holds(hist: seq<Bar>, bars: seq<Bar>, k: nat, m: nat, tail: seq<Bar>) {
    k <= m <= |hist| && bars == hist[k..m] + tail
  }

  /** The bars held are such a slice from somewhere between `j` and `k`. */
  ghost predicate Between(hist: seq<Bar>, bars: seq<Bar>, j: nat, k: nat, m: nat, tail: seq<Bar>) {
    exists i :: j <= i <= k && Holds(hist, bars, i, m, tail)
  }

  /** A run whose cursor excludes exactly what it already holds of `hist[..m]` only ever grows that
      slice to the left: nothing is missed and nothing repeated, at every checkpoint. */
  lemma {:induction false} WindowRun(venue: Venue, hist: seq<Bar>, s: Snapshot, n: nat, target: nat, maxPages: nat,
          k: nat, m: nat, tail: seq<Bar>)
    returns (j: nat)
    requires Honest(venue, hist)
    requires Holds(hist, s.bars, k, m, tail) && EndIndex(hist, s.cursor) == k
    ensures var r := Run(venue, s, n, target, maxPages);
            && j <= k && Holds(hist, r.final.bars, j, m, tail)
            && (r.exit in {Exhausted, ShortPage} ==> j == 0)
            && (r.exit != ShortPage ==> EndIndex(hist, r.final.cursor) == j)
            && forall c :: c in r.saves ==> Between(hist, c.bars, j, k, m, tail)
    decreases maxPages - s.pages
  {
    hide *;
    j := k;
    HeldBetween(hist, s.bars, k, k, k, m, tail);
    if |s.bars| >= target || s.pages >= maxPages {
      CappedAtOnce(venue, s, n, target, maxPages);
    } else {
      var t := PageTurn(venue, s, n);
      var b := WindowTurn(venue, hist, s, n, k, m, tail);
      RunTurn(venue, s, n, target, maxPages);
      j := b;
      if t.stop.None? {
        j := WindowRun(venue, hist, t.next, t.requests, target, maxPages, b, m, tail);
        MoreBetween(hist, Run(venue, t.next, t.requests, target, maxPages).saves, j, b, k, m, tail);
      }
      HeldBetween(hist, t.next.bars, j, b, k, m, tail);
    }
  }

  lemma HeldBetween(hist: seq<Bar>, bars: seq<Bar>, j: nat, i: nat, k: nat, m: nat, tail: seq<Bar>)
    requires j <= i <= k && Holds(hist, bars, i, m, tail)
    ensures Between(hist, bars, j, k, m, tail)
  {
    hide Holds;
  }

  lemma MoreBetween(hist: seq<Bar>, saves: seq<Snapshot>, j: nat, b: nat, k: nat, m: nat, tail: seq<Bar>)
    requires b <= k && forall c :: c in saves ==> Between(hist, c.bars, j, b, m, tail)
    ensures forall c :: c in saves ==> Between(hist, c.bars, j, k, m, tail)
  {
    hide Holds;
  }

  /** One turn of such a run: it stops with what it holds, or holds more and the cursor keeps up unless the page was
      short. */
  lemma WindowTurn(venue: Venue, hist: seq<Bar>, s: Snapshot, n: nat, k: nat, m: nat, tail: seq<Bar>)
    returns (b: nat)
    requires Honest(venue, hist)
    requires Holds(hist, s.bars, k, m, tail) && EndIndex(hist, s.cursor) == k
    ensures var t := PageTurn(venue, s, n);
            && b <= k && Holds(hist, t.next.bars, b, m, tail)
            && t.stop != Some(Capped) && (t.stop == Some(Exhausted) || t.stop == Some(ShortPage) ==> b == 0)
            && (t.stop != Some(ShortPage) ==> EndIndex(hist, t.next.cursor) == b)
            && forall c :: c in t.saved ==> c.bars == t.next.bars
  {
    hide *;
    var page := Poll(venue, n, s.cursor, 0).page;
    b := k;
    HonestPoll(venue, hist, n, s.cursor, 0);
    TurnOnPage(venue, s, n);
    PageOfEnd(hist, s.cursor);
    if page != [] {
      b := k - |page|;
      HoldsMore(hist, s.bars, page, k, m, tail);
      if |page| >= 1000 {
        HonestAscends(venue, hist);
        CursorBefore(hist, b);
      }
    }
  }

  lemma PageOfEnd(hist: seq<Bar>, cursor: Option<int>)
    ensures var e, page := EndIndex(hist, cursor), NewestPage(hist, cursor);
            && |page| <= e && page == hist[e - |page|..e] && (|page| < 1000 ==> |page| == e)
  {
    hide EndIndex;
  }

  lemma HoldsMore(hist: seq<Bar>, bars: seq<Bar>, page: seq<Bar>, k: nat, m: nat, tail: seq<Bar>)
    requires Holds(hist, bars, k, m, tail) && |page| <= k <= |hist| && page == hist[k - |page|..k]
    ensures Holds(hist, page + bars, k - |page|, m, tail)
    ensures page != [] ==> page[0] == hist[k - |page|]
  {
    var b := k - |page|;
    assert hist[b..k] + (hist[k..m] + tail) == hist[b..m] + tail;
  }

  ghost predicate IsSuffix(hist: seq<Bar>, bars: seq<Bar>) {
    |bars| <= |hist| && bars == hist[|hist| - |bars|..]
  }

  lemma {:induction false} PollIsBounded(venue: Venue, n: nat, cursor: Option<int>, attempt: nat)
    requires attempt <= MAX_RETRIES_PER_POLL
    ensures n <= Poll(venue, n, cursor, attempt).requests <= n + (MAX_RETRIES_PER_POLL - attempt)
    decreases MAX_RETRIES_PER_POLL - attempt
  {
    hide Poll;
    PollTurn(venue, n, cursor, attempt);
    if attempt < MAX_RETRIES_PER_POLL {
      PollIsBounded(venue, n + 1, cursor, attempt + 1);
    }
  }

  /** On any venue whatever: a page costs one checkpoint and at most eight requests, and no run goes
      past `maxPages`. */
  lemma {:induction false} RunIsBounded(venue: Venue, s: Snapshot, n: nat, target: nat, maxPages: nat)
    ensures var r := Run(venue, s, n, target, maxPages);
            && s.pages <= r.final.pages <= (if s.pages > maxPages then s.pages else maxPages)
            && |r.saves| == r.final.pages - s.pages + 1
            && r.requests <= n + 8 * (r.final.pages - s.pages + 1)
            && (r.exit == Capped ==> |r.final.bars| >= target || r.final.pages >= maxPages)
    decreases maxPages - s.pages
  {
    hide *;
    if |s.bars| >= target || s.pages >= maxPages {
      CappedAtOnce(venue, s, n, target, maxPages);
    } else {
      var t := PageTurn(venue, s, n);
      TurnIsBounded(venue, s, n);
      RunTurn(venue, s, n, target, maxPages);
      if t.stop.None? {
        RunIsBounded(venue, t.next, t.requests, target, maxPages);
      }
    }
  }

  lemma TurnIsBounded(venue: Venue, s: Snapshot, n: nat)
    ensures var t := PageTurn(venue, s, n);
            && t.requests <= n + 8 && t.stop != Some(Capped)
            && t.next.pages == s.pages + |t.saved| && (t.stop.None? ==> |t.saved| == 1) && |t.saved| <= 1
  {
    PollIsBounded(venue, n, s.cursor, 0);
    hide Poll;
  }

  /** A first run, from no bars, no pages and no cursor: at every checkpoint the bars held are a suffix of the
      history; a run that stopped on a short or empty page holds all of it; a run that stopped on its caps reached
      one of them. A run that gave up holds a suffix and nothing more is said of it. */
  lemma FirstRun(venue: Venue, hist: seq<Bar>, n: nat, target: nat, maxPages: nat)
    requires Honest(venue, hist)
    ensures var r := Run(venue, EMPTY, n, target, maxPages);
            && (forall c :: c in r.saves ==> IsSuffix(hist, c.bars))
            && IsSuffix(hist, r.final.bars)
            && (r.exit in {Exhausted, ShortPage} ==> r.final.bars == hist)
            && (r.exit == Capped ==> |r.final.bars| >= target || r.final.pages >= maxPages)
            && r.final.pages == |r.saves| - 1
  {
    var r := Run(venue, EMPTY, n, target, maxPages);
    RunIsBounded(venue, EMPTY, n, target, maxPages);
    hide Run;
    assert Holds(hist, [], |hist|, |hist|, []);
    var j := WindowRun(venue, hist, EMPTY, n, target, maxPages, |hist|, |hist|, []);
    HoldsSuffix(hist, r.final.bars, j);
    forall c | c in r.saves ensures IsSuffix(hist, c.bars) {
      assert Between(hist, c.bars, j, |hist|, |hist|, []);
      var i :| j <= i <= |hist| && Holds(hist, c.bars, i, |hist|, []);
      HoldsSuffix(hist, c.bars, i);
    }
  }

  lemma HoldsSuffix(hist: seq<Bar>, bars: seq<Bar>, k: nat)
    requires Holds(hist, bars, k, |hist|, [])
    ensures IsSuffix(hist, bars) && |bars| == |hist| - k
  {
  }

  // ----- resuming --------------------------------------------------------------------------

  /** Resuming the post-loop snapshot of a run that stopped on its caps, with larger caps, is the
      larger run: same bars, same pages, same requests, same checkpoints but for the extra post-loop one. */
  lemma {:induction false} ResumeAfterCap(venue: Venue, s: Snapshot, n: nat, t1: nat, m1: nat, t2: nat, m2: nat)
    requires t1 <= t2 && m1 <= m2
    requires Run(venue, s, n, t1, m1).exit == Capped
    ensures var first := Run(venue, s, n, t1, m1);
            var second := Run(venue, first.final, first.requests, t2, m2);
            && |first.saves| > 0
            && Run(venue, s, n, t2, m2) == second.(saves := first.saves[..|first.saves| - 1] + second.saves)
    decreases m1 - s.pages
  {
    hide *;
    var first := Run(venue, s, n, t1, m1);
    var second := Run(venue, first.final, first.requests, t2, m2);
    if |s.bars| >= t1 || s.pages >= m1 {
      CappedAtOnce(venue, s, n, t1, m1);
      assert first.saves[..0] + second.saves == second.saves;
    } else {
      var t := PageTurn(venue, s, n);
      RunTurn(venue, s, n, t1, m1);
      RunTurn(venue, s, n, t2, m2);
      TurnIsNotCapped(venue, s, n);
      ResumeAfterCap(venue, t.next, t.requests, t1, m1, t2, m2);
      DropLastAppend(t.saved, Run(venue, t.next, t.requests, t1, m1).saves, second.saves);
    }
  }

  lemma TurnIsNotCapped(venue: Venue, s: Snapshot, n: nat)
    ensures PageTurn(venue, s, n).stop != Some(Capped)
  {
    hide Poll;
  }

  lemma DropLastAppend<T>(a: seq<T>, b: seq<T>, c: seq<T>)
    requires |b| > 0
    ensures a + (b[..|b| - 1] + c) == (a + b)[..|a + b| - 1] + c
  {
  }

  /** The snapshot holds a suffix of the history whose first bars are exactly the page its cursor
      asks for again. */
  ghost predicate Behind(hist: seq<Bar>, s: Snapshot) {
    && IsSuffix(hist, s.bars)
    && |hist| - |s.bars| < EndIndex(hist, s.cursor)
    && NewestPage(hist, s.cursor) == hist[|hist| - |s.bars|..EndIndex(hist, s.cursor)]
  }

  /** Every checkpoint of a first run written inside the loop is one page behind; the post-loop
      snapshot is behind exactly when the run stopped on a short page, and aligned otherwise. */
  lemma FirstRunSnapshots(venue: Venue, hist: seq<Bar>, n: nat, target: nat, maxPages: nat)
    requires Honest(venue, hist)
    ensures var r := Run(venue, EMPTY, n, target, maxPages);
            && (forall i :: 0 <= i < |r.saves| - 1 ==> Behind(hist, r.saves[i]))
            && r.saves[|r.saves| - 1] == r.final
            && (if r.exit == ShortPage then Behind(hist, r.final) else Aligned(r.final))
  {
    RunSnapshots(venue, hist, EMPTY, n, target, maxPages);
  }

  lemma {:induction false} RunSnapshots(venue: Venue, hist: seq<Bar>, s: Snapshot, n: nat, target: nat, maxPages: nat)
    requires Honest(venue, hist)
    requires IsSuffix(hist, s.bars) && Aligned(s)
    ensures var r := Run(venue, s, n, target, maxPages);
            && |r.saves| > 0
            && (forall i :: 0 <= i < |r.saves| - 1 ==> Behind(hist, r.saves[i]))
            && r.saves[|r.saves| - 1] == r.final
            && (if r.exit == ShortPage then Behind(hist, r.final) else Aligned(r.final))
    decreases maxPages - s.pages
  {
    hide *;
    if |s.bars| >= target || s.pages >= maxPages {
      CappedAtOnce(venue, s, n, target, maxPages);
    } else {
      TurnSnapshots(venue, hist, s, n);
      RunTurn(venue, s, n, target, maxPages);
      var t := PageTurn(venue, s, n);
      if t.stop.None? {
        RunSnapshots(venue, hist, t.next, t.requests, target, maxPages);
      }
    }
  }

  lemma TurnSnapshots(venue: Venue, hist: seq<Bar>, s: Snapshot, n: nat)
    requires Honest(venue, hist)
    requires IsSuffix(hist, s.bars) && Aligned(s)
    ensures var t := PageTurn(venue, s, n);
            && (t.saved == [] ==> t.stop.Some? && t.stop != Some(ShortPage) && t.next == s)
            && (t.saved != [] ==> |t.saved| == 1 && Behind(hist, t.saved[0]))
            && (t.saved != [] && t.stop.Some? ==> t.stop == Some(ShortPage) && t.next == t.saved[0])
            && (t.stop.None? ==> IsSuffix(hist, t.next.bars) && Aligned(t.next))
  {
    hide *;
    var page := Poll(venue, n, s.cursor, 0).page;
    HonestAscends(venue, hist);
    TurnOnPage(venue, s, n);
    AlignedEnd(hist, s);
    HonestPoll(venue, hist, n, s.cursor, 0);
    if |page| > 0 {
      PrependPage(hist, s, page);
      PrependSuffix(hist, s, page);
    }
  }

  /** A turn by the page it was answered: an empty one ends the run and changes nothing; any other is put in front of
      the bars and stored with the old cursor; a page of fewer than 1000 bars ends the run there, and a full one moves
      the cursor to just before its first bar. */
  lemma TurnOnPage(venue: Venue, s: Snapshot, n: nat)
    ensures var p, t := Poll(venue, n, s.cursor, 0), PageTurn(venue, s, n);
            var saved := Snapshot(p.page + s.bars, s.pages + 1, s.cursor);
            && t.requests == p.requests
            && if p.page == [] then
                 t.saved == [] && t.next == s && t.stop == Some(if p.answered then Exhausted else GaveUp)
               else
                 && t.saved == [saved]
                 && (if |p.page| < 1000 then t.stop == Some(ShortPage) && t.next == saved
                     else t.stop.None? && t.next == saved.(cursor := Some(p.page[0].time - 1)) && Aligned(t.next))
  {
    hide Poll;
    var page := Poll(venue, n, s.cursor, 0).page;
    assert page != [] ==> (page + s.bars)[0] == page[0];
  }

  lemma AlignedEnd(hist: seq<Bar>, s: Snapshot)
    requires Ascending(hist) && IsSuffix(hist, s.bars) && Aligned(s)
    ensures EndIndex(hist, s.cursor) == |hist| - |s.bars|
  {
    if s.bars != [] {
      CursorBefore(hist, |hist| - |s.bars|);
    }
  }

  lemma PrependPage(hist: seq<Bar>, s: Snapshot, page: seq<Bar>)
    requires IsSuffix(hist, s.bars) && EndIndex(hist, s.cursor) == |hist| - |s.bars|
    requires page == NewestPage(hist, s.cursor) && |page| > 0
    ensures Behind(hist, Snapshot(page + s.bars, s.pages + 1, s.cursor))
  {
    var e := |hist| - |s.bars|;
    var b := e - |page|;
    assert hist[b..e] + hist[e..] == hist[b..];
  }

  lemma PrependSuffix(hist: seq<Bar>, s: Snapshot, page: seq<Bar>)
    requires Behind(hist, Snapshot(page + s.bars, s.pages + 1, s.cursor))
    ensures IsSuffix(hist, page + s.bars)
  {
  }

  /** Resuming a snapshot that is one page behind repeats exactly that page: either no page is accepted and
      nothing changes, or the result is a slice of the history up to the end of that page followed by the bars
      the snapshot already held. */
  lemma ResumeBehind(venue: Venue, hist: seq<Bar>, s: Snapshot, n: nat, target: nat, maxPages: nat)
    returns (j: nat)
    requires Honest(venue, hist) && Behind(hist, s)
    ensures var r := Run(venue, s, n, target, maxPages);
            var k, e := |hist| - |s.bars|, EndIndex(hist, s.cursor);
            && j <= k
            && r.final.bars == (if r.final.pages == s.pages then s.bars else hist[j..k] + hist[k..e] + s.bars)
            && (r.final.pages > s.pages && r.exit in {Exhausted, ShortPage} ==> j == 0)
  {
    var k, e := |hist| - |s.bars|, EndIndex(hist, s.cursor);
    j := k;
    if |s.bars| < target && s.pages < maxPages {
      TurnBehind(venue, hist, s, n);
      var t := PageTurn(venue, s, n);
      if t.stop.None? {
        RunIsBounded(venue, t.next, t.requests, target, maxPages);
        j := WindowRun(venue, hist, t.next, t.requests, target, maxPages, k, e, s.bars);
      }
      SplitSlice(hist, j, k, e, s.bars);
    }
  }

  lemma TurnBehind(venue: Venue, hist: seq<Bar>, s: Snapshot, n: nat)
    requires Honest(venue, hist) && Behind(hist, s)
    ensures var t := PageTurn(venue, s, n);
            var k, e := |hist| - |s.bars|, EndIndex(hist, s.cursor);
            if t.saved == [] then t.next == s && t.stop == Some(GaveUp)
            else
              && t.next.pages == s.pages + 1 && Holds(hist, t.next.bars, k, e, s.bars)
              && (if t.stop.Some? then t.stop == Some(ShortPage) && k == 0 else EndIndex(hist, t.next.cursor) == k)
  {
    HonestPoll(venue, hist, n, s.cursor, 0);
    if PageTurn(venue, s, n).stop.None? {
      CursorBefore(hist, |hist| - |s.bars|);
    }
  }

  lemma SplitSlice<T>(xs: seq<T>, j: nat, k: nat, e: nat, tail: seq<T>)
    requires j <= k <= e <= |xs|
    ensures xs[j..e] + tail == xs[j..k] + xs[k..e] + tail
  {
  }

  /** Resuming an aligned snapshot keeps the bars a suffix of the history. */
  lemma ResumeAligned(venue: Venue, hist: seq<Bar>, s: Snapshot, n: nat, target: nat, maxPages: nat)
    requires Honest(venue, hist) && IsSuffix(hist, s.bars) && Aligned(s)
    ensures var r := Run(venue, s, n, target, maxPages);
            IsSuffix(hist, r.final.bars) && (r.exit in {Exhausted, ShortPage} ==> r.final.bars == hist)
  {
    AlignedEnd(hist, s);
    var k := |hist| - |s.bars|;
    assert Holds(hist, s.bars, k, |hist|, []);
    var j := WindowRun(venue, hist, s, n, target, maxPages, k, |hist|, []);
    HoldsSuffix(hist, Run(venue, s, n, target, maxPages).final.bars, j);
  }

  // ----- resuming when the history has grown -------------------------------------------------

  lemma {:induction false} CountGrows(hist: seq<Bar>, newer: seq<Bar>, c: int)
    ensures CountUpTo(hist + newer, c) >= CountUpTo(hist, c)
  {
    if newer == [] {
      assert hist + newer == hist;
    } else {
      assert (hist + newer)[..|hist + newer| - 1] == hist + newer[..|newer| - 1];
      CountGrows(hist, newer[..|newer| - 1], c);
    }
  }

  lemma EndGrows(hist: seq<Bar>, newer: seq<Bar>, cursor: Option<int>)
    ensures EndIndex(hist + newer, cursor) >= EndIndex(hist, cursor)
  {
    if cursor.Some? {
      CountGrows(hist, newer, cursor.value);
    }
  }

  /** Whether a run accepts a page at all, as a caller can tell before it: a cap is reached already, or the one
      page it asks for first is not answered. */
  predicate AcceptsNothing(venue: Venue, s: Snapshot, n: nat, target: nat, maxPages: nat) {
    |s.bars| >= target || s.pages >= maxPages || !Poll(venue, n, s.cursor, 0).answered
  }

  /** Bars put in front of bars that are no newer are not an ascending history. */
  lemma RepeatedPageIsNotAscending(hist: seq<Bar>, bars: seq<Bar>, j: nat, e: nat, k: nat, m: nat)
    requires Ascending(hist) && j < e <= |hist| && k < e && k < m <= |hist|
    requires bars == hist[j..e] + hist[k..m]
    ensures !Ascending(bars)
  {
    assert bars[e - 1 - j] == hist[e - 1] && bars[e - j] == hist[k];
    assert k == e - 1 || hist[k].time < hist[e - 1].time;
  }

  /** Resuming a snapshot whose cursor lets in a bar it already holds: unless nothing is accepted, some bars of the
      history come twice or out of order. */
  lemma ResumeBehindIsNotAscending(venue: Venue, hist: seq<Bar>, s: Snapshot, n: nat, target: nat, maxPages: nat,
          k: nat, m: nat)
    requires Honest(venue, hist) && k < m <= |hist| && s.bars == hist[k..m] && k < EndIndex(hist, s.cursor)
    ensures Ascending(Run(venue, s, n, target, maxPages).final.bars)
       <==> AcceptsNothing(venue, s, n, target, maxPages)
  {
    hide NewestPage, Poll, Run;
    if |s.bars| >= target || s.pages >= maxPages {
      CappedAtOnce(venue, s, n, target, maxPages);
      SliceAscends(hist, k, m);
    } else {
      var e, p := EndIndex(hist, s.cursor), Poll(venue, n, s.cursor, 0);
      HonestPoll(venue, hist, n, s.cursor, 0);
      PageSize(hist, s.cursor);
      RunTurn(venue, s, n, target, maxPages);
      if !p.answered {
        SliceAscends(hist, k, m);
      } else {
        var t, b := PageTurn(venue, s, n), e - |p.page|;
        assert Holds(hist, t.next.bars, b, e, s.bars);
        var j := b;
        if t.stop.None? {
          CursorBefore(hist, b);
          j := WindowRun(venue, hist, t.next, t.requests, target, maxPages, b, e, s.bars);
        }
        RepeatedPageIsNotAscending(hist, Run(venue, s, n, target, maxPages).final.bars, j, e, k, m);
      }
    }
  }

  lemma CappedAtOnce(venue: Venue, s: Snapshot, n: nat, target: nat, maxPages: nat)
    requires |s.bars| >= target || s.pages >= maxPages
    ensures Run(venue, s, n, target, maxPages) == Outcome(s, n, Capped, [s])
  {
  }

  lemma SliceAscends(hist: seq<Bar>, k: nat, m: nat)
    requires Ascending(hist) && k <= m <= |hist|
    ensures Ascending(hist[k..m])
  {
  }

  lemma PageSize(hist: seq<Bar>, cursor: Option<int>)
    requires EndIndex(hist, cursor) > 0
    ensures var e, page := EndIndex(hist, cursor), NewestPage(hist, cursor);
            0 < |page| <= e && page == hist[e - |page|..e]
  {
  }

  /** An aligned snapshot of an older history, resumed when newer bars have come: it goes on to the left and never
      sees the newer ones, except that an empty one begins afresh. */
  lemma ResumeAlignedLater(venue: Venue, hist: seq<Bar>, newer: seq<Bar>, s: Snapshot, n: nat, target: nat,
          maxPages: nat)
    requires Honest(venue, hist + newer) && Ascending(hist) && IsSuffix(hist, s.bars) && Aligned(s)
    ensures var r := Run(venue, s, n, target, maxPages);
            IsSuffix(if s.bars == [] then hist + newer else hist, r.final.bars) && Ascending(r.final.bars)
  {
    var all := hist + newer;
    hide *;
    HonestAscends(venue, all);
    if s.bars == [] {
      SuffixOfNothing(all);
      ResumeAligned(venue, all, s, n, target, maxPages);
      SuffixAscends(all, Run(venue, s, n, target, maxPages).final.bars);
    } else {
      AlignedLater(hist, newer, s);
      var j := WindowRun(venue, all, s, n, target, maxPages, |hist| - |s.bars|, |hist|, []);
      WindowIsSuffix(hist, newer, Run(venue, s, n, target, maxPages).final.bars, j);
      SuffixAscends(hist, Run(venue, s, n, target, maxPages).final.bars);
    }
  }

  lemma SuffixOfNothing(hist: seq<Bar>)
    ensures IsSuffix(hist, [])
  {
  }

  lemma SuffixAscends(hist: seq<Bar>, bars: seq<Bar>)
    requires Ascending(hist) && IsSuffix(hist, bars)
    ensures Ascending(bars)
  {
  }

  lemma AlignedLater(hist: seq<Bar>, newer: seq<Bar>, s: Snapshot)
    requires Ascending(hist + newer) && IsSuffix(hist, s.bars) && Aligned(s) && s.bars != []
    ensures var k := |hist| - |s.bars|;
            EndIndex(hist + newer, s.cursor) == k && Holds(hist + newer, s.bars, k, |hist|, [])
  {
    var all, k := hist + newer, |hist| - |s.bars|;
    assert all[k] == s.bars[0];
    CursorBefore(all, k);
    hide EndIndex, Ascending;
    assert all[k..|hist|] + [] == s.bars;
  }

  lemma WindowIsSuffix(hist: seq<Bar>, newer: seq<Bar>, bars: seq<Bar>, j: nat)
    requires Holds(hist + newer, bars, j, |hist|, [])
    ensures IsSuffix(hist, bars)
  {
    assert (hist + newer)[j..|hist|] == hist[j..];
  }

  /** Exactly when a resume is clean.  Over every snapshot that a first run writes (inside the loop or after it), a
      history that may have grown since, and every way of resuming, the resumed bars are strictly ascending if and
      only if the stored cursor stands just before the first stored bar, or the resumed run accepts no page. */
  lemma ResumeIsCleanExactlyWhenAligned(venue: Venue, hist: seq<Bar>, n: nat, target: nat, maxPages: nat, i: nat,
          venue2: Venue, newer: seq<Bar>, n2: nat, target2: nat, maxPages2: nat)
    requires Honest(venue, hist) && Honest(venue2, hist + newer)
    requires i < |Run(venue, EMPTY, n, target, maxPages).saves|
    ensures var s := Run(venue, EMPTY, n, target, maxPages).saves[i];
            var r := Run(venue2, s, n2, target2, maxPages2);
            && (Ascending(r.final.bars) <==> Aligned(s) || AcceptsNothing(venue2, s, n2, target2, maxPages2))
            && (Aligned(s) ==> IsSuffix(if s.bars == [] then hist + newer else hist, r.final.bars))
  {
    var s := Run(venue, EMPTY, n, target, maxPages).saves[i];
    hide *;
    SnapshotCases(venue, hist, n, target, maxPages, i);
    if Aligned(s) {
      ResumeAlignedLater(venue2, hist, newer, s, n2, target2, maxPages2);
    } else {
      BehindLater(hist, newer, s);
      ResumeBehindIsNotAscending(venue2, hist + newer, s, n2, target2, maxPages2, |hist| - |s.bars|, |hist|);
    }
  }

  lemma HonestAscends(venue: Venue, hist: seq<Bar>)
    requires Honest(venue, hist)
    ensures Ascending(hist)
  {
  }

  lemma SnapshotCases(venue: Venue, hist: seq<Bar>, n: nat, target: nat, maxPages: nat, i: nat)
    requires Honest(venue, hist) && i < |Run(venue, EMPTY, n, target, maxPages).saves|
    ensures var s := Run(venue, EMPTY, n, target, maxPages).saves[i];
            Ascending(hist) && IsSuffix(hist, s.bars) && (Aligned(s) || Behind(hist, s))
  {
    hide *;
    HonestAscends(venue, hist);
    var r := Run(venue, EMPTY, n, target, maxPages);
    assert r.saves[i] in r.saves;
    FirstRun(venue, hist, n, target, maxPages);
    FirstRunSnapshots(venue, hist, n, target, maxPages);
  }

  lemma BehindLater(hist: seq<Bar>, newer: seq<Bar>, s: Snapshot)
    requires Behind(hist, s)
    ensures var k := |hist| - |s.bars|;
            0 <= k < |hist| && s.bars == (hist + newer)[k..|hist|] && k < EndIndex(hist + newer, s.cursor)
  {
    EndGrows(hist, newer, s.cursor);
    hide NewestPage, EndIndex;
  }
}
