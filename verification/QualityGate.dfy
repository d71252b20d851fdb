/** The list algebra of scripts/builder_quality_gate.py: the baseline diff of ruff findings, the batching of
    file lists, and the grouping of TypeScript files by tsconfig root.  Tool output is an input. */
module QualityGate {
  import opened Wrappers
  import opened Sorting

  // ----- baseline diff ---------------------------------------------------------------------------

  /** `row` is 0 when the finding has no location; `detail` is the rest of the record. */
  datatype Finding = Finding(code: string, message: string, row: int, detail: string)

  type Key = (string, string)

  type Ranges = seq<(int, int)>

  datatype Classified = Classified(
    news: seq<Finding>,
    informational: seq<Finding>,
    fixed: seq<Finding>,
    baselineCount: nat,
    currentCount: nat)

  function Fingerprint(f: Finding): Key {
    (f.code, f.message)
  }

  function Keys(fs: seq<Finding>): set<Key> {
    set f | f in fs :: Fingerprint(f)
  }

  /** The dictionary built from a list: a later finding replaces an earlier one with the same fingerprint. */
  function ByKey(fs: seq<Finding>): map<Key, Finding> {
    if fs == [] then map[]
    else ByKey(fs[..|fs| - 1])[Fingerprint(fs[|fs| - 1]) := fs[|fs| - 1]]
  }

  predicate InAnyRange(row: int, ranges: Ranges) {
    exists r :: r in ranges && r.0 <= row <= r.1
  }

  predicate OnAddedLine(f: Finding, ranges: Option<Ranges>) {
    ranges.None? || InAnyRange(f.row, ranges.value)
  }

  lemma {:induction false} ByKeyFinds(fs: seq<Finding>)
    ensures ByKey(fs).Keys == Keys(fs)
    ensures forall k :: k in ByKey(fs) ==> ByKey(fs)[k] in fs && Fingerprint(ByKey(fs)[k]) == k
  {
    if fs != [] {
      var init, last := fs[..|fs| - 1], fs[|fs| - 1];
      ByKeyFinds(init);
      assert fs == init + [last];
      assert Keys(fs) == Keys(init) + {Fingerprint(last)};
    }
  }

  /** The last finding of a fingerprint is the one the dictionary keeps. */
  lemma {:induction false} ByKeyKeepsLast(fs: seq<Finding>, i: nat)
    requires i < |fs| && forall j :: i < j < |fs| ==> Fingerprint(fs[j]) != Fingerprint(fs[i])
    ensures Fingerprint(fs[i]) in ByKey(fs) && ByKey(fs)[Fingerprint(fs[i])] == fs[i]
  {
    if i < |fs| - 1 {
      ByKeyKeepsLast(fs[..|fs| - 1], i);
      assert Fingerprint(fs[|fs| - 1]) != Fingerprint(fs[i]);
    }
  }

  /** The fingerprints that block. */
  function BlockingKeys(baseline: seq<Finding>, current: seq<Finding>, ranges: Option<Ranges>): set<Key> {
    set k | k in ByKey(current) && k !in Keys(baseline) && OnAddedLine(ByKey(current)[k], ranges)
  }

  /** `fs` holds, in some order, exactly the dictionary's findings for `keys`, each once. */
  ghost predicate Lists(fs: seq<Finding>, keys: set<Key>, byKey: map<Key, Finding>) {
    && keys <= byKey.Keys
    && Keys(fs) == keys
    && (forall f :: f in fs ==> Fingerprint(f) in byKey && f == byKey[Fingerprint(f)])
    && Distinct(fs)
  }

  ghost predicate ClassifiedAs(c: Classified, baseline: seq<Finding>, current: seq<Finding>, ranges: Option<Ranges>) {
    var blocking := BlockingKeys(baseline, current, ranges);
    && Lists(c.news, blocking, ByKey(current))
    && Lists(c.informational, Keys(current) - blocking, ByKey(current))
    && Lists(c.fixed, Keys(baseline) - Keys(current), ByKey(baseline))
    && c.baselineCount == |baseline| && c.currentCount == |current|
  }

  method KeyDict(fs: seq<Finding>) returns (byKey: map<Key, Finding>)
    ensures byKey == ByKey(fs) && byKey.Keys == Keys(fs)
  {
    byKey := map[];
    for i := 0 to |fs|
      invariant byKey == ByKey(fs[..i])
    {
      byKey := byKey[Fingerprint(fs[i]) := fs[i]];
      assert fs[..i + 1][..i] == fs[..i];
    }
    assert fs[..|fs|] == fs;
    ByKeyFinds(fs);
  }

  lemma ListsOneMore(fs: seq<Finding>, keys: set<Key>, byKey: map<Key, Finding>, k: Key)
    requires Lists(fs, keys, byKey) && k in byKey && k !in keys && Fingerprint(byKey[k]) == k
    ensures Lists(fs + [byKey[k]], keys + {k}, byKey)
  {
    var f := byKey[k];
    assert Keys(fs + [f]) == Keys(fs) + {k};
    assert f in fs ==> k in Keys(fs);
  }

  /** The comprehension over a set of keys, in whatever order the set yields them. */
  method Collect(keys: set<Key>, byKey: map<Key, Finding>) returns (fs: seq<Finding>)
    requires keys <= byKey.Keys && forall k :: k in byKey ==> Fingerprint(byKey[k]) == k
    ensures Lists(fs, keys, byKey)
  {
    fs := [];
    var rest := keys;
    while exists k :: k in rest
      invariant rest <= keys && Lists(fs, keys - rest, byKey)
      decreases rest
    {
      var k :| k in rest;
      ListsOneMore(fs, keys - rest, byKey, k);
      assert keys - rest + {k} == keys - (rest - {k});
      fs, rest := fs + [byKey[k]], rest - {k};
    }
    assert keys - rest == keys;
  }

  method LineInAnyRange(row: int, ranges: Ranges) returns (found: bool)
    ensures found == InAnyRange(row, ranges)
  {
    for i := 0 to |ranges|
      invariant forall j :: 0 <= j < i ==> !(ranges[j].0 <= row <= ranges[j].1)
    {
      if ranges[i].0 <= row <= ranges[i].1 {
        return true;
      }
    }
    return false;
  }

  /** The loop that separates the findings on added lines from the others. */
  method SplitByRange(unmatched: seq<Finding>, ranges: Ranges) returns (inAdded: seq<Finding>, outside: seq<Finding>)
    ensures inAdded == OnLines(unmatched, ranges, true) && outside == OnLines(unmatched, ranges, false)
  {
    inAdded, outside := [], [];
    for i := 0 to |unmatched|
      invariant inAdded == OnLines(unmatched[..i], ranges, true) && outside == OnLines(unmatched[..i], ranges, false)
    {
      assert unmatched[..i + 1][..i] == unmatched[..i];
      var found := LineInAnyRange(unmatched[i].row, ranges);
      if found {
        inAdded := inAdded + [unmatched[i]];
      } else {
        outside := outside + [unmatched[i]];
      }
    }
    assert unmatched[..|unmatched|] == unmatched;
  }

  function OnLines(fs: seq<Finding>, ranges: Ranges, added: bool): seq<Finding> {
    if fs == [] then []
    else
      var before, f := OnLines(fs[..|fs| - 1], ranges, added), fs[|fs| - 1];
      if InAnyRange(f.row, ranges) == added then before + [f] else before
  }

  lemma {:induction false} OnLinesLists(fs: seq<Finding>, ranges: Ranges, added: bool)
    requires Distinct(fs)
    ensures Distinct(OnLines(fs, ranges, added))
    ensures forall f :: f in OnLines(fs, ranges, added) <==> f in fs && InAnyRange(f.row, ranges) == added
  {
    hide InAnyRange;
    if fs != [] {
      var init, last := fs[..|fs| - 1], fs[|fs| - 1];
      assert fs == init + [last];
      OnLinesLists(init, ranges, added);
      assert last !in init by {
        assert forall i :: 0 <= i < |init| ==> init[i] == fs[i];
      }
    }
  }

  lemma SubLists(fs: seq<Finding>, keys: set<Key>, byKey: map<Key, Finding>, part: seq<Finding>, partKeys: set<Key>)
    requires Lists(fs, keys, byKey) && partKeys <= keys && Distinct(part)
    requires forall f :: f in part <==> f in fs && Fingerprint(f) in partKeys
    ensures Lists(part, partKeys, byKey)
  {
    forall k | k in partKeys ensures k in Keys(part) {
      var f :| f in fs && Fingerprint(f) == k;
      assert f in part;
    }
  }

  lemma JoinLists(xs: seq<Finding>, ys: seq<Finding>, a: set<Key>, b: set<Key>, byKey: map<Key, Finding>)
    requires Lists(xs, a, byKey) && Lists(ys, b, byKey) && a !! b
    ensures Lists(xs + ys, a + b, byKey)
  {
    assert Keys(xs + ys) == a + b;
    forall i, j | 0 <= i < |xs| && 0 <= j < |ys| ensures xs[i] != ys[j] {
      assert Fingerprint(xs[i]) in Keys(xs) && Fingerprint(ys[j]) in Keys(ys);
    }
  }

  method ClassifyFindings(baseline: seq<Finding>, current: seq<Finding>, ranges: Option<Ranges>) returns (c: Classified)
    ensures ClassifiedAs(c, baseline, current, ranges)
  {
    var baselineByKey := KeyDict(baseline);
    var currentByKey := KeyDict(current);
    ByKeyFinds(current);
    ByKeyFinds(baseline);
    var baselineKeys, currentKeys := baselineByKey.Keys, currentByKey.Keys;
    ghost var blocking := BlockingKeys(baseline, current, ranges);
    var matched := Collect(currentKeys * baselineKeys, currentByKey);
    var unmatched := Collect(currentKeys - baselineKeys, currentByKey);
    var fixed := Collect(baselineKeys - currentKeys, baselineByKey);
    var news, informational := unmatched, matched;
    if ranges.Some? {
      var inAdded, outside := SplitByRange(unmatched, ranges.value);
      SplitLists(baseline, current, ranges.value, unmatched);
      ghost var off := currentKeys - baselineKeys - blocking;
      JoinLists(matched, outside, currentKeys * baselineKeys, off, currentByKey);
      news, informational := inAdded, matched + outside;
      assert currentKeys * baselineKeys + off == Keys(current) - blocking;
    } else {
      assert blocking == currentKeys - baselineKeys;
      assert currentKeys * baselineKeys == Keys(current) - blocking;
    }
    c := Classified(news, informational, fixed, |baseline|, |current|);
  }

  lemma SplitLists(baseline: seq<Finding>, current: seq<Finding>, ranges: Ranges, unmatched: seq<Finding>)
    requires Lists(unmatched, Keys(current) - Keys(baseline), ByKey(current))
    ensures var blocking := BlockingKeys(baseline, current, Some(ranges));
            && Lists(OnLines(unmatched, ranges, true), blocking, ByKey(current))
            && Lists(OnLines(unmatched, ranges, false), Keys(current) - Keys(baseline) - blocking, ByKey(current))
  {
    var byKey, keys := ByKey(current), Keys(current) - Keys(baseline);
    var blocking := BlockingKeys(baseline, current, Some(ranges));
    ByKeyFinds(current);
    OnLinesLists(unmatched, ranges, true);
    OnLinesLists(unmatched, ranges, false);
    forall f | f in unmatched
      ensures Fingerprint(f) in keys && (Fingerprint(f) in blocking <==> InAnyRange(f.row, ranges))
    {
      assert Fingerprint(f) in Keys(unmatched);
    }
    hide OnLines, ByKey, BlockingKeys, InAnyRange;
    assert blocking <= keys by { BlockingAreNew(baseline, current, Some(ranges)); }
    SubLists(unmatched, keys, byKey, OnLines(unmatched, ranges, true), blocking);
    SubLists(unmatched, keys, byKey, OnLines(unmatched, ranges, false), keys - blocking);
  }

  lemma BlockingAreNew(baseline: seq<Finding>, current: seq<Finding>, ranges: Option<Ranges>)
    ensures BlockingKeys(baseline, current, ranges) <= Keys(current) - Keys(baseline)
  {
    ByKeyFinds(current);
  }

  lemma {:induction false} DistinctKeysCount(fs: seq<Finding>, keys: set<Key>, byKey: map<Key, Finding>)
    requires Lists(fs, keys, byKey)
    ensures |fs| == |keys|
  {
    if fs != [] {
      var init, last := fs[..|fs| - 1], fs[|fs| - 1];
      assert fs == init + [last];
      assert Keys(fs) == Keys(init) + {Fingerprint(last)};
      assert forall i :: 0 <= i < |init| ==> init[i] == fs[i] != last;
      assert Fingerprint(last) !in Keys(init);
      DistinctKeysCount(init, Keys(init), byKey);
      assert keys == Keys(init) + {Fingerprint(last)};
    }
  }

  /** New and informational findings partition the current fingerprints, one finding each. */
  lemma EveryFingerprintOnce(c: Classified, baseline: seq<Finding>, current: seq<Finding>, ranges: Option<Ranges>)
    requires ClassifiedAs(c, baseline, current, ranges)
    ensures Keys(c.news) !! Keys(c.informational) && Keys(c.news) + Keys(c.informational) == Keys(current)
    ensures |c.news| + |c.informational| == |Keys(current)|
  {
    var blocking := BlockingKeys(baseline, current, ranges);
    BlockingAreNew(baseline, current, ranges);
    DistinctKeysCount(c.news, blocking, ByKey(current));
    DistinctKeysCount(c.informational, Keys(current) - blocking, ByKey(current));
    assert blocking + (Keys(current) - blocking) == Keys(current);
  }

  /** A blocking finding is a current one, absent from the baseline, and on an added line. */
  lemma BlockersAreNewAndAdded(c: Classified, baseline: seq<Finding>, current: seq<Finding>, ranges: Option<Ranges>,
          f: Finding)
    requires ClassifiedAs(c, baseline, current, ranges) && f in c.news
    ensures f in current
    ensures ranges.Some? ==> exists r :: r in ranges.value && r.0 <= f.row <= r.1
    ensures forall b :: b in baseline ==> Fingerprint(b) != Fingerprint(f)
  {
    ByKeyFinds(current);
    assert Fingerprint(f) in Keys(c.news);
  }

  /** Every line of `narrow` is a line of `wide`. */
  ghost predicate Within(narrow: Ranges, wide: Ranges) {
    forall row :: InAnyRange(row, narrow) ==> InAnyRange(row, wide)
  }

  /** A larger baseline or fewer added lines never add a blocker; without ranges most findings block. */
  lemma BlockingIsMonotone(small: seq<Finding>, big: seq<Finding>, current: seq<Finding>, narrow: Ranges, wide: Ranges)
    requires Keys(small) <= Keys(big) && Within(narrow, wide)
    ensures BlockingKeys(big, current, Some(narrow)) <= BlockingKeys(small, current, Some(wide))
    ensures BlockingKeys(small, current, Some(wide)) <= BlockingKeys(small, current, None)
  {
  }

  /** A current finding that a reader of the rule expects to block. */
  predicate Expected(f: Finding, baseline: seq<Finding>, current: seq<Finding>, ranges: Ranges) {
    f in current && Fingerprint(f) !in Keys(baseline) && InAnyRange(f.row, ranges)
  }

  predicate Blocks(f: Finding, baseline: seq<Finding>, current: seq<Finding>, ranges: Ranges) {
    Fingerprint(f) in BlockingKeys(baseline, current, Some(ranges))
  }

  /** An expected finding `i` whose fingerprint's last finding `j` is not on an added line. */
  ghost predicate Overshadowed(baseline: seq<Finding>, current: seq<Finding>, ranges: Ranges, i: nat, j: nat) {
    && i < j && IsLast(current, j) && Fingerprint(current[j]) == Fingerprint(current[i])
    && Expected(current[i], baseline, current, ranges)
    && !InAnyRange(current[j].row, ranges)
  }

  /** No expected fingerprint is missed exactly when no expected finding is overshadowed by a later duplicate. */
  lemma NothingIsMissedExactlyWhen(baseline: seq<Finding>, current: seq<Finding>, ranges: Ranges)
    ensures (forall f :: Expected(f, baseline, current, ranges) ==> Blocks(f, baseline, current, ranges))
       <==> !exists i: nat, j: nat :: Overshadowed(baseline, current, ranges, i, j)
  {
    hide InAnyRange;
    ByKeyFinds(current);
    forall i: nat, j: nat | Overshadowed(baseline, current, ranges, i, j)
      ensures Expected(current[i], baseline, current, ranges)
           && Fingerprint(current[i]) !in BlockingKeys(baseline, current, Some(ranges))
    {
      ByKeyKeepsLast(current, j);
    }
    forall f | Expected(f, baseline, current, ranges)
      ensures Fingerprint(f) in BlockingKeys(baseline, current, Some(ranges))
           || exists i: nat, j: nat :: Overshadowed(baseline, current, ranges, i, j)
    {
      var i :| 0 <= i < |current| && current[i] == f;
      var j := LastWith(current, i);
      ByKeyKeepsLast(current, j);
      assert Blocks(f, baseline, current, ranges) || Overshadowed(baseline, current, ranges, i, j);
    }
  }

  /** So with unique current fingerprints every expected finding blocks. */
  lemma UniqueFingerprintsAreComplete(baseline: seq<Finding>, current: seq<Finding>, ranges: Ranges, f: Finding)
    requires forall i, j :: 0 <= i < j < |current| ==> Fingerprint(current[i]) != Fingerprint(current[j])
    requires Expected(f, baseline, current, ranges)
    ensures Fingerprint(f) in BlockingKeys(baseline, current, Some(ranges))
  {
    NothingIsMissedExactlyWhen(baseline, current, ranges);
    hide BlockingKeys;
  }

  /** A finding off the added lines never blocks, although the docstring counts it as new. */
  lemma OutsideAddedIsInformational(c: Classified, baseline: seq<Finding>, current: seq<Finding>, ranges: Ranges,
          i: nat)
    requires ClassifiedAs(c, baseline, current, Some(ranges))
    requires IsLast(current, i) && !InAnyRange(current[i].row, ranges)
    ensures current[i] in c.informational && current[i] !in c.news
  {
    hide InAnyRange;
    ByKeyKeepsLast(current, i);
    ByKeyFinds(current);
    assert Fingerprint(current[i]) in Keys(c.informational);
    assert forall f :: f in c.news ==> Fingerprint(f) in Keys(c.news);
  }

  ghost predicate IsLast(fs: seq<Finding>, j: int) {
    0 <= j < |fs| && forall k :: j < k < |fs| ==> Fingerprint(fs[k]) != Fingerprint(fs[j])
  }

  lemma LastWith(fs: seq<Finding>, i: nat) returns (j: nat)
    requires i < |fs|
    ensures i <= j && IsLast(fs, j) && Fingerprint(fs[j]) == Fingerprint(fs[i])
  {
    j := i;
    for k := i + 1 to |fs|
      invariant i <= j < k <= |fs| && Fingerprint(fs[j]) == Fingerprint(fs[i])
      invariant forall m :: j < m < k ==> Fingerprint(fs[m]) != Fingerprint(fs[j])
    {
      if Fingerprint(fs[k]) == Fingerprint(fs[i]) {
        j := k;
      }
    }
  }

  /** Two findings with one fingerprint, the first on an added line: nothing blocks. */
  lemma DuplicateHidesABlocker(f: Finding, start: int)
    requires f.row == start
    ensures var late := f.(row := start + 1);
            && Expected(f, [], [f, late], [(start, start)])
            && BlockingKeys([], [f, late], Some([(start, start)])) == {}
  {
    var late := f.(row := start + 1);
    ByKeyKeepsLast([f, late], 1);
    ByKeyFinds([f, late]);
    assert InAnyRange(f.row, [(start, start)]) by { assert (start, start) in [(start, start)]; }
    assert !InAnyRange(late.row, [(start, start)]);
    assert [f, late][0] == f;
  }

  // ----- batches ---------------------------------------------------------------------------------

  const CHUNK_SIZE: nat := 200

  function Flatten<T>(batches: seq<seq<T>>): seq<T> {
    if batches == [] then [] else Flatten(batches[..|batches| - 1]) + batches[|batches| - 1]
  }

  lemma FlattenAppends<T>(batches: seq<seq<T>>, batch: seq<T>)
    ensures Flatten(batches + [batch]) == Flatten(batches) + batch
  {
    assert (batches + [batch])[..|batches|] == batches;
  }

  /** All batches are full but the last, which is not empty; none is reordered or dropped. */
  ghost predicate Batched<T>(batches: seq<seq<T>>, items: seq<T>, size: nat) {
    && Flatten(batches) == items
    && (forall b :: 0 <= b < |batches| - 1 ==> |batches[b]| == size)
    && (batches != [] ==> 1 <= |batches[|batches| - 1]| <= size)
  }

  method ChunkPaths<T>(items: seq<T>, size: int := CHUNK_SIZE) returns (batches: Option<seq<seq<T>>>)
    ensures batches.None? <==> size < 1
    ensures batches.Some? ==> Batched(batches.value, items, size)
  {
    if size < 1 {
      return None;
    }
    if items == [] {
      return Some([]);
    }
    var out: seq<seq<T>> := [];
    var start := 0;
    while start < |items|
      invariant 0 <= start
      invariant Flatten(out) == items[..if start < |items| then start else |items|]
      invariant start < |items| ==> forall b :: 0 <= b < |out| ==> |out[b]| == size
      invariant forall b :: 0 <= b < |out| - 1 ==> |out[b]| == size
      invariant out != [] ==> 1 <= |out[|out| - 1]| <= size
    {
      var end := if start + size < |items| then start + size else |items|;
      FlattenAppends(out, items[start..end]);
      assert items[..start] + items[start..end] == items[..end];
      out := out + [items[start..end]];
      start := start + size;
    }
    assert items[..|items|] == items;
    return Some(out);
  }

  /** The results of the batches, concatenated in order. */
  function MapBatches<T, R>(fn: seq<T> -> seq<R>, batches: seq<seq<T>>): seq<R> {
    if batches == [] then [] else MapBatches(fn, batches[..|batches| - 1]) + fn(batches[|batches| - 1])
  }

  method ChunkedApply<T, R>(fn: seq<T> -> seq<R>, items: seq<T>, size: int := CHUNK_SIZE) returns (rows: Option<seq<R>>)
    ensures rows.None? <==> size < 1 && items != []
    ensures rows.Some? ==> exists batches :: Chunking(batches, items, size) && rows.value == MapBatches(fn, batches)
  {
    if items == [] {
      assert Chunking([], items, size) && MapBatches(fn, []) == [];
      return Some([]);
    }
    var chunks := ChunkPaths(items, size);
    if chunks.None? {
      return None;
    }
    var batches, out := chunks.value, [];
    for i := 0 to |batches|
      invariant out == MapBatches(fn, batches[..i])
    {
      assert batches[..i + 1][..i] == batches[..i];
      out := out + fn(batches[i]);
    }
    assert batches[..|batches|] == batches;
    assert Chunking(batches, items, size);
    return Some(out);
  }

  ghost predicate Chunking<T>(batches: seq<seq<T>>, items: seq<T>, size: int) {
    (items == [] && batches == []) || (size >= 1 && Batched(batches, items, size))
  }

  ghost predicate Additive<T(!new), R>(fn: seq<T> -> seq<R>) {
    forall xs, ys :: fn(xs + ys) == fn(xs) + fn(ys)
  }

  /** Chunked application gives the rows of the single pass at every batch size, over every list. */
  ghost predicate Transparent<T(!new), R>(fn: seq<T> -> seq<R>) {
    forall batches: seq<seq<T>>, items: seq<T>, size: int ::
      Chunking(batches, items, size) ==> MapBatches(fn, batches) == fn(items)
  }

  lemma AdditiveOnEmpty<T(!new), R>(fn: seq<T> -> seq<R>)
    requires Additive(fn)
    ensures fn([]) == []
  {
    var none: seq<T> := [];
    assert none + none == none;
    assert fn(none + none) == fn(none) + fn(none);
    assert |fn(none)| == |fn(none)| + |fn(none)|;
  }

  lemma {:induction false} AdditiveOverBatches<T(!new), R>(fn: seq<T> -> seq<R>, batches: seq<seq<T>>)
    requires Additive(fn)
    ensures MapBatches(fn, batches) == fn(Flatten(batches))
  {
    if batches == [] {
      AdditiveOnEmpty(fn);
    } else {
      AdditiveOverBatches(fn, batches[..|batches| - 1]);
    }
  }

  /** The batches of size one. */
  function Singles<T>(items: seq<T>): seq<seq<T>> {
    seq(|items|, i requires 0 <= i < |items| => [items[i]])
  }

  lemma {:induction false} SinglesAreBatches<T>(items: seq<T>)
    ensures Batched(Singles(items), items, 1)
  {
    if items != [] {
      var init, last := items[..|items| - 1], items[|items| - 1];
      SinglesAreBatches(init);
      assert Singles(items) == Singles(init) + [[last]];
      FlattenAppends(Singles(init), [last]);
      assert items == init + [last];
    }
  }

  lemma SinglesMore<T>(items: seq<T>, x: T)
    ensures Singles(items + [x]) == Singles(items) + [[x]]
  {
  }

  lemma {:induction false} SinglesConcat<T, R>(fn: seq<T> -> seq<R>, xs: seq<T>, ys: seq<T>)
    ensures MapBatches(fn, Singles(xs + ys)) == MapBatches(fn, Singles(xs)) + MapBatches(fn, Singles(ys))
  {
    if ys == [] {
      assert xs + ys == xs;
    } else {
      hide Singles, MapBatches;
      var init, last := ys[..|ys| - 1], ys[|ys| - 1];
      assert ys == init + [last] && xs + ys == xs + init + [last];
      SinglesConcat(fn, xs, init);
      SinglesMore(xs + init, last);
      SinglesMore(init, last);
      MapAppends(fn, Singles(xs + init), [last]);
      MapAppends(fn, Singles(init), [last]);
    }
  }

  lemma MapAppends<T, R>(fn: seq<T> -> seq<R>, batches: seq<seq<T>>, batch: seq<T>)
    ensures MapBatches(fn, batches + [batch]) == MapBatches(fn, batches) + fn(batch)
  {
    assert (batches + [batch])[..|batches|] == batches;
  }

  /** The batching is invisible for exactly the additive checks. */
  lemma TransparentExactlyWhenAdditive<T(!new), R>(fn: seq<T> -> seq<R>)
    ensures Transparent(fn) <==> Additive(fn)
  {
    if Additive(fn) {
      forall batches: seq<seq<T>>, items: seq<T>, size: int | Chunking(batches, items, size)
        ensures MapBatches(fn, batches) == fn(items)
      {
        AdditiveOverBatches(fn, batches);
      }
    }
    if Transparent(fn) {
      forall xs, ys ensures fn(xs + ys) == fn(xs) + fn(ys) {
        SinglesAreBatches(xs);
        SinglesAreBatches(ys);
        SinglesAreBatches(xs + ys);
        SinglesConcat(fn, xs, ys);
        assert Chunking(Singles(xs), xs, 1) && Chunking(Singles(ys), ys, 1) && Chunking(Singles(xs + ys), xs + ys, 1);
      }
    }
  }

  // ----- TypeScript files ------------------------------------------------------------------------

  datatype File = File(path: string, suffix: string)

  /** Where the nearest tsconfig.json is, and what one compiler run over some files of a root says. */
  datatype Tsc<!R> = Tsc(
    root: File -> Option<string>,
    run: (string, seq<File>) -> R,
    config: Option<string>,
    scoped: string -> R)

  datatype Row<R> =
    | NoFiles
    | NoRoot(files: seq<File>)
    | Scoped(file: File, result: R)
    | Orphan(file: File)
    | Checked(file: File, root: string, result: R)

  function TsFiles(files: seq<File>): seq<File> {
    if files == [] then []
    else
      var before, f := TsFiles(files[..|files| - 1]), files[|files| - 1];
      if f.suffix in {".ts", ".tsx"} then before + [f] else before
  }

  function WithRoot<R>(t: Tsc<R>, files: seq<File>, root: Option<string>): seq<File> {
    if files == [] then []
    else
      var before, f := WithRoot(t, files[..|files| - 1], root), files[|files| - 1];
      if t.root(f) == root then before + [f] else before
  }

  /** The roots in order of first appearance, as a dictionary keeps them. */
  function Roots<R>(t: Tsc<R>, files: seq<File>): seq<string> {
    if files == [] then []
    else
      var before, root := Roots(t, files[..|files| - 1]), t.root(files[|files| - 1]);
      if root.Some? && root.value !in before then before + [root.value] else before
  }

  function ScopedRows<R>(files: seq<File>, result: R): seq<Row<R>> {
    seq(|files|, i requires 0 <= i < |files| => Scoped(files[i], result))
  }

  function OrphanRows<R>(files: seq<File>): seq<Row<R>> {
    seq(|files|, i requires 0 <= i < |files| => Orphan(files[i]))
  }

  function CheckedRows<R>(files: seq<File>, root: string, result: R): seq<Row<R>> {
    seq(|files|, i requires 0 <= i < |files| => Checked(files[i], root, result))
  }

  function RootRows<R>(t: Tsc<R>, files: seq<File>, roots: seq<string>): seq<Row<R>> {
    if roots == [] then []
    else
      var root := roots[|roots| - 1];
      var mine := WithRoot(t, files, Some(root));
      RootRows(t, files, roots[..|roots| - 1]) + CheckedRows(mine, root, t.run(root, mine))
  }

  function TscRows<R>(t: Tsc<R>, files: seq<File>): seq<Row<R>> {
    var ts := TsFiles(files);
    if ts == [] then [NoFiles]
    else if t.config.Some? then ScopedRows(ts, t.scoped(t.config.value))
    else if Roots(t, ts) == [] then [NoRoot(ts)]
    else OrphanRows(WithRoot(t, ts, None)) + RootRows(t, ts, Roots(t, ts))
  }

  /** Every file counts as often as it is given when it ends in .ts or .tsx, and not at all otherwise. */
  lemma {:induction false} TsFilesCount(files: seq<File>, f: File)
    ensures multiset(TsFiles(files))[f]
         == if f.suffix == ".ts" || f.suffix == ".tsx" then multiset(files)[f] else 0
  {
    if files != [] {
      var init, last := files[..|files| - 1], files[|files| - 1];
      assert files == init + [last];
      TsFilesCount(init, f);
    }
  }

  method SelectTs(files: seq<File>) returns (ts: seq<File>)
    ensures ts == TsFiles(files)
  {
    ts := [];
    for i := 0 to |files|
      invariant ts == TsFiles(files[..i])
    {
      assert files[..i + 1][..i] == files[..i];
      if files[i].suffix in {".ts", ".tsx"} {
        ts := ts + [files[i]];
      }
    }
    assert files[..|files|] == files;
  }

  lemma {:induction false} RootsComplete<R>(t: Tsc<R>, files: seq<File>)
    ensures forall r :: r in Roots(t, files) <==> exists i :: 0 <= i < |files| && t.root(files[i]) == Some(r)
    ensures Distinct(Roots(t, files))
  {
    if files != [] {
      var init, last := files[..|files| - 1], files[|files| - 1];
      RootsComplete(t, init);
      assert files == init + [last];
      forall r ensures r in Roots(t, files) <==> exists i :: 0 <= i < |files| && t.root(files[i]) == Some(r) {
        if i :| 0 <= i < |init| && t.root(init[i]) == Some(r) {
          assert t.root(files[i]) == Some(r);
        }
        if t.root(last) == Some(r) {
          assert t.root(files[|files| - 1]) == Some(r);
        }
      }
    }
  }

  /** The first loop: orphans are reported at once, the other files are collected by root. */
  method GroupByRoot<R>(t: Tsc<R>, ts: seq<File>)
    returns (rows: seq<Row<R>>, order: seq<string>, groups: map<string, seq<File>>)
    ensures rows == OrphanRows(WithRoot(t, ts, None)) && order == Roots(t, ts)
    ensures forall r :: r in order ==> r in groups && groups[r] == WithRoot(t, ts, Some(r))
  {
    rows, order, groups := [], [], map[];
    for i := 0 to |ts|
      invariant rows == OrphanRows(WithRoot(t, ts[..i], None)) && order == Roots(t, ts[..i])
      invariant forall r :: r in order <==> r in groups
      invariant forall r :: r in groups ==> groups[r] == WithRoot(t, ts[..i], Some(r))
    {
      assert ts[..i + 1][..i] == ts[..i];
      var root := t.root(ts[i]);
      match root
      case None =>
        rows := rows + [Orphan(ts[i])];
      case Some(r) =>
        if r !in groups {
          NoFilesOfRoot(t, ts[..i], r);
          order, groups := order + [r], groups[r := []];
        }
        groups := groups[r := groups[r] + [ts[i]]];
    }
    assert ts[..|ts|] == ts;
  }

  lemma {:induction false} NoFilesOfRoot<R>(t: Tsc<R>, files: seq<File>, r: string)
    requires r !in Roots(t, files)
    ensures WithRoot(t, files, Some(r)) == []
  {
    if files != [] {
      NoFilesOfRoot(t, files[..|files| - 1], r);
    }
  }

  method CheckTsc<R>(t: Tsc<R>, files: seq<File>) returns (rows: seq<Row<R>>)
    ensures rows == TscRows(t, files)
  {
    var ts := SelectTs(files);
    if ts == [] {
      return [NoFiles];
    }
    if t.config.Some? {
      rows := CheckScoped(ts, t.scoped(t.config.value));
      return;
    }
    var order, groups;
    rows, order, groups := GroupByRoot(t, ts);
    if order == [] {
      return [NoRoot(ts)];
    }
    hide OrphanRows, WithRoot, TsFiles;
    var more := CheckRoots(t, ts, order, groups);
    rows := rows + more;
  }

  /** The rows of the scoped configuration. */
  method CheckScoped<R>(ts: seq<File>, result: R) returns (rows: seq<Row<R>>)
    ensures rows == ScopedRows(ts, result)
  {
    rows := [];
    for i := 0 to |ts|
      invariant rows == ScopedRows(ts[..i], result)
    {
      rows := rows + [Scoped(ts[i], result)];
    }
    assert ts[..|ts|] == ts;
  }

  /** The second loop: one compiler run a root. */
  method CheckRoots<R>(t: Tsc<R>, ghost ts: seq<File>, order: seq<string>, groups: map<string, seq<File>>)
    returns (rows: seq<Row<R>>)
    requires forall r :: r in order ==> r in groups && groups[r] == WithRoot(t, ts, Some(r))
    ensures rows == RootRows(t, ts, order)
  {
    hide WithRoot, CheckedRows;
    rows := [];
    for i := 0 to |order|
      invariant rows == RootRows(t, ts, order[..i])
    {
      assert order[..i + 1][..i] == order[..i];
      var r := order[i];
      rows := rows + CheckedRows(groups[r], r, t.run(r, groups[r]));
    }
    assert order[..|order|] == order;
  }

  /** The files the rows are about, row by row. */
  function Files<R>(rows: seq<Row<R>>): seq<File> {
    if rows == [] then []
    else
      var before, row := Files(rows[..|rows| - 1]), rows[|rows| - 1];
      match row
      case NoFiles => before
      case NoRoot(_) => before
      case Scoped(f, _) => before + [f]
      case Orphan(f) => before + [f]
      case Checked(f, _, _) => before + [f]
  }

  lemma FilesAppends<R>(rows: seq<Row<R>>, row: Row<R>)
    ensures Files(rows + [row]) == Files(rows) + Files([row])
  {
    assert (rows + [row])[..|rows|] == rows;
    assert [row][..0] == [];
  }

  lemma {:induction false} FilesConcat<R>(xs: seq<Row<R>>, ys: seq<Row<R>>)
    ensures Files(xs + ys) == Files(xs) + Files(ys)
  {
    if ys == [] {
      assert xs + ys == xs;
    } else {
      hide Files;
      var init, last := ys[..|ys| - 1], ys[|ys| - 1];
      assert xs + ys == xs + init + [last] && ys == init + [last];
      FilesConcat(xs, init);
      FilesAppends(xs + init, last);
      FilesAppends(init, last);
    }
  }

  lemma {:induction false} FilesOfRows<R>(files: seq<File>, root: string, result: R)
    ensures Files(OrphanRows<R>(files)) == files && Files(CheckedRows(files, root, result)) == files
    ensures Files(ScopedRows(files, result)) == files
  {
    if files != [] {
      var init, last := files[..|files| - 1], files[|files| - 1];
      assert OrphanRows<R>(files) == OrphanRows<R>(init) + [Orphan(last)];
      assert CheckedRows(files, root, result) == CheckedRows(init, root, result) + [Checked(last, root, result)];
      assert ScopedRows(files, result) == ScopedRows(init, result) + [Scoped(last, result)];
      hide Files, OrphanRows, CheckedRows, ScopedRows;
      FilesOfRows(init, root, result);
      FilesAppends(OrphanRows<R>(init), Orphan(last));
      FilesAppends(CheckedRows(init, root, result), Checked(last, root, result));
      FilesAppends(ScopedRows(init, result), Scoped(last, result));
    }
  }

  function Grouped<R>(t: Tsc<R>, files: seq<File>, roots: seq<string>): seq<File> {
    if roots == [] then []
    else Grouped(t, files, roots[..|roots| - 1]) + WithRoot(t, files, Some(roots[|roots| - 1]))
  }

  lemma {:induction false} FilesOfRootRows<R>(t: Tsc<R>, files: seq<File>, roots: seq<string>)
    ensures Files(RootRows(t, files, roots)) == Grouped(t, files, roots)
  {
    if roots != [] {
      var init, root := roots[..|roots| - 1], roots[|roots| - 1];
      var mine := WithRoot(t, files, Some(root));
      FilesOfRootRows(t, files, init);
      FilesOfRows(mine, root, t.run(root, mine));
      FilesConcat(RootRows(t, files, init), CheckedRows(mine, root, t.run(root, mine)));
      hide Files, WithRoot, CheckedRows;
    }
  }

  /** `after` has one more `f` than `before`, or exactly as much. */
  ghost predicate Gains(before: seq<File>, after: seq<File>, f: File, more: bool) {
    multiset(after) == if more then multiset(before) + multiset{f} else multiset(before)
  }

  lemma GainsConcat(xs: seq<File>, xs': seq<File>, inXs: bool, ys: seq<File>, ys': seq<File>, inYs: bool, f: File)
    requires Gains(xs, xs', f, inXs) && Gains(ys, ys', f, inYs) && !(inXs && inYs)
    ensures Gains(xs + ys, xs' + ys', f, inXs || inYs)
  {
    assert multiset(xs + ys) == multiset(xs) + multiset(ys);
    assert multiset(xs' + ys') == multiset(xs') + multiset(ys');
  }

  lemma WithRootAppends<R>(t: Tsc<R>, files: seq<File>, f: File, root: Option<string>)
    ensures t.root(f) == root ==> WithRoot(t, files + [f], root) == WithRoot(t, files, root) + [f]
    ensures t.root(f) != root ==> WithRoot(t, files + [f], root) == WithRoot(t, files, root)
    ensures Gains(WithRoot(t, files, root), WithRoot(t, files + [f], root), f, t.root(f) == root)
  {
    assert (files + [f])[..|files|] == files;
    hide WithRoot;
  }

  lemma GroupedMore<R>(t: Tsc<R>, files: seq<File>, roots: seq<string>, root: string)
    ensures Grouped(t, files, roots + [root]) == Grouped(t, files, roots) + WithRoot(t, files, Some(root))
  {
    hide WithRoot;
    assert (roots + [root])[..|roots|] == roots;
  }

  lemma NoneGrouped<R>(t: Tsc<R>, files: seq<File>)
    ensures Grouped(t, files, []) == []
  {
  }

  predicate RootIn<R>(t: Tsc<R>, f: File, roots: seq<string>) {
    t.root(f).Some? && t.root(f).value in roots
  }

  lemma {:induction false} GroupOneMore<R>(t: Tsc<R>, files: seq<File>, f: File, roots: seq<string>)
    requires Distinct(roots)
    ensures Gains(Grouped(t, files, roots), Grouped(t, files + [f], roots), f, RootIn(t, f, roots))
  {
    if roots == [] {
      NoneGrouped(t, files);
      NoneGrouped(t, files + [f]);
      hide Grouped, Distinct;
    } else {
      hide *;
      var init, root := roots[..|roots| - 1], roots[|roots| - 1];
      LastIsNew(roots);
      GroupOneMore(t, files, f, init);
      WithRootAppends(t, files, f, Some(root));
      RootInMore(t, f, init, root);
      GainsConcat(
        Grouped(t, files, init), Grouped(t, files + [f], init), RootIn(t, f, init),
        WithRoot(t, files, Some(root)), WithRoot(t, files + [f], Some(root)), t.root(f) == Some(root), f);
      GroupedMore(t, files, init, root);
      GroupedMore(t, files + [f], init, root);
    }
  }

  lemma RootInMore<R>(t: Tsc<R>, f: File, init: seq<string>, root: string)
    requires root !in init
    ensures RootIn(t, f, init + [root]) <==> RootIn(t, f, init) || t.root(f) == Some(root)
    ensures !(RootIn(t, f, init) && t.root(f) == Some(root))
  {
  }

  lemma {:induction false} NothingGrouped<R>(t: Tsc<R>, roots: seq<string>)
    ensures Grouped(t, [], roots) == []
  {
    if roots != [] {
      NothingGrouped(t, roots[..|roots| - 1]);
    }
  }

  /** Grouping by a list of distinct roots that has them all loses and repeats no file. */
  lemma {:induction false} GroupingKeepsFiles<R>(t: Tsc<R>, files: seq<File>, roots: seq<string>)
    requires Distinct(roots)
    requires forall i :: 0 <= i < |files| && t.root(files[i]).Some? ==> t.root(files[i]).value in roots
    ensures multiset(WithRoot(t, files, None)) + multiset(Grouped(t, files, roots)) == multiset(files)
  {
    if files == [] {
      NothingGrouped(t, roots);
    } else {
      hide WithRoot, Grouped, Distinct;
      var init, last := files[..|files| - 1], files[|files| - 1];
      assert files == init + [last];
      GroupingKeepsFiles(t, init, roots);
      assert t.root(files[|files| - 1]).Some? ==> t.root(last).value in roots;
      GroupOneMore(t, init, last, roots);
      WithRootAppends(t, init, last, None);
    }
  }

  /** With some root, or a scoped configuration, every TypeScript file has exactly one row, counting repetitions. */
  lemma OneRowPerFile<R>(t: Tsc<R>, files: seq<File>)
    requires TsFiles(files) != [] && (t.config.Some? || Roots(t, TsFiles(files)) != [])
    ensures multiset(Files(TscRows(t, files))) == multiset(TsFiles(files))
    ensures |TscRows(t, files)| == |TsFiles(files)|
  {
    var ts := TsFiles(files);
    if t.config.Some? {
      FilesOfRows(ts, "", t.scoped(t.config.value));
      hide Files, TsFiles;
    } else {
      assert TscRows(t, files) == OrphanRows<R>(WithRoot(t, ts, None)) + RootRows(t, ts, Roots(t, ts)) by {
        hide TsFiles, WithRoot, Roots, RootRows, OrphanRows;
      }
      hide *;
      RootsHaveAll(t, ts);
      GroupedRows(t, ts, Roots(t, ts));
    }
  }

  lemma GroupedRows<R>(t: Tsc<R>, ts: seq<File>, roots: seq<string>)
    requires Distinct(roots)
    requires forall i :: 0 <= i < |ts| && t.root(ts[i]).Some? ==> t.root(ts[i]).value in roots
    ensures var rows := OrphanRows<R>(WithRoot(t, ts, None)) + RootRows(t, ts, roots);
            multiset(Files(rows)) == multiset(ts) && |rows| == |ts|
  {
    var orphans := WithRoot(t, ts, None);
    assert |OrphanRows<R>(orphans)| == |orphans|;
    hide *;
    GroupingKeepsFiles(t, ts, roots);
    FilesOfRootRows(t, ts, roots);
    FilesOfRows(orphans, "", t.run("", []));
    FilesConcat(OrphanRows<R>(orphans), RootRows(t, ts, roots));
    RootRowsCount(t, ts, roots);
    assert |multiset(ts)| == |ts|;
    assert |multiset(orphans) + multiset(Grouped(t, ts, roots))| == |orphans| + |Grouped(t, ts, roots)|;
  }

  lemma RootsHaveAll<R>(t: Tsc<R>, ts: seq<File>)
    ensures Distinct(Roots(t, ts))
    ensures forall i :: 0 <= i < |ts| && t.root(ts[i]).Some? ==> t.root(ts[i]).value in Roots(t, ts)
  {
    RootsComplete(t, ts);
    hide Roots;
    forall i | 0 <= i < |ts| && t.root(ts[i]).Some? ensures t.root(ts[i]).value in Roots(t, ts) {
      assert t.root(ts[i]) == Some(t.root(ts[i]).value);
    }
  }

  lemma {:induction false} RootRowsCount<R>(t: Tsc<R>, files: seq<File>, roots: seq<string>)
    ensures |RootRows(t, files, roots)| == |Grouped(t, files, roots)|
  {
    if roots != [] {
      RootRowsCount(t, files, roots[..|roots| - 1]);
    }
  }

  /** A row says of a file what the compiler said of all the files of its root, and an orphan has no root. */
  lemma {:induction false} RootRowsAreRight<R>(t: Tsc<R>, files: seq<File>, roots: seq<string>)
    ensures forall row :: row in RootRows(t, files, roots) ==>
              && row.Checked? && row.root in roots && t.root(row.file) == Some(row.root)
              && row.result == t.run(row.root, WithRoot(t, files, Some(row.root)))
  {
    if roots != [] {
      var init, root := roots[..|roots| - 1], roots[|roots| - 1];
      RootRowsAreRight(t, files, init);
      WithRootHas(t, files, Some(root));
      hide WithRoot;
      assert roots == init + [root];
    }
  }

  lemma {:induction false} WithRootHas<R>(t: Tsc<R>, files: seq<File>, root: Option<string>)
    ensures forall f :: f in WithRoot(t, files, root) <==> f in files && t.root(f) == root
  {
    if files != [] {
      WithRootHas(t, files[..|files| - 1], root);
      assert files == files[..|files| - 1] + [files[|files| - 1]];
    }
  }

  // ----- the two together ------------------------------------------------------------------------

  lemma {:induction false} NoTs(files: seq<File>)
    requires forall f :: f in files ==> f.suffix !in {".ts", ".tsx"}
    ensures TsFiles(files) == []
  {
    if files != [] {
      NoTs(files[..|files| - 1]);
    }
  }

  lemma TsAppends(files: seq<File>, f: File)
    ensures f.suffix in {".ts", ".tsx"} ==> TsFiles(files + [f]) == TsFiles(files) + [f]
    ensures f.suffix !in {".ts", ".tsx"} ==> TsFiles(files + [f]) == TsFiles(files)
  {
    assert (files + [f])[..|files|] == files;
  }

  lemma OneTsFile<R>(t: Tsc<R>, js: seq<File>, f: File)
    requires (forall x :: x in js ==> x.suffix == ".js") && f.suffix == ".ts" && t.root(f).Some?
    ensures |TscRows(t, js + [f])| == 1
  {
    NoTs(js);
    TsAppends(js, f);
    hide TscRows, TsFiles;
    assert TsFiles(js + [f]) == [f];
    OneRoot(t, f);
    OneRowPerFile(t, js + [f]);
  }

  lemma OneRoot<R>(t: Tsc<R>, f: File)
    requires t.root(f).Some?
    ensures Roots(t, [f]) != []
  {
    RootsComplete(t, [f]);
    assert t.root([f][0]) == Some(t.root(f).value);
    hide Roots;
  }

  /** A full batch of JavaScript files before one TypeScript file: the single pass gives one row, the batches two,
      whatever the batch size.  So the TypeScript check is not additive and its rows depend on the boundaries. */
  lemma TscDependsOnBatches<R>(t: Tsc<R>, js: seq<File>, f: File)
    requires js != [] && (forall x :: x in js ==> x.suffix == ".js") && f.suffix == ".ts" && t.root(f).Some?
    ensures Batched([js, [f]], js + [f], |js|)
    ensures |TscRows(t, js + [f])| == 1
    ensures |MapBatches((xs: seq<File>) => TscRows(t, xs), [js, [f]])| == 2
  {
    TwoBatches(js, [f], (xs: seq<File>) => TscRows(t, xs));
    NoTs(js);
    assert TscRows(t, js) == [NoFiles];
    hide TscRows;
    OneTsFile(t, js, f);
    OneTsFile(t, [], f);
    assert [] + [f] == [f];
  }

  lemma TwoBatches<T, R>(xs: seq<T>, ys: seq<T>, fn: seq<T> -> seq<R>)
    ensures Flatten([xs, ys]) == xs + ys && MapBatches(fn, [xs, ys]) == fn(xs) + fn(ys)
  {
    assert [xs, ys] == [] + [xs] + [ys];
    FlattenAppends([] + [xs], ys);
    FlattenAppends([], xs);
    MapAppends(fn, [] + [xs], ys);
    MapAppends(fn, [], xs);
  }
}
