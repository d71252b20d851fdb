/** The TypeScript check of scripts/builder_quality_gate.py under batching: exactly when the batched rows name every
    file once, and exactly when they are the rows of a single pass. */
module TscBatches {
  import opened Wrappers
  import opened Sorting
  import opened QualityGate

  /** The check as a function from a list of files to its rows. */
  function Check<R>(t: Tsc<R>): seq<File> -> seq<Row<R>> {
    (files: seq<File>) => TscRows(t, files)
  }

  /** A batch whose rows are one for each of its TypeScript files: it has one, and some root or a scoped
      configuration. */
  predicate Named<R>(t: Tsc<R>, batch: seq<File>) {
    TsFiles(batch) != [] && (t.config.Some? || Roots(t, TsFiles(batch)) != [])
  }

  predicate AllNamed<R>(t: Tsc<R>, batches: seq<seq<File>>) {
    forall k :: 0 <= k < |batches| ==> Named(t, batches[k])
  }

  // ----- every file once -------------------------------------------------------------------------

  /** The batched rows name every TypeScript file exactly once, counting repetitions, and nothing else. */
  ghost predicate NamesEachOnce<R>(t: Tsc<R>, batches: seq<seq<File>>) {
    var rows, ts := MapBatches(Check(t), batches), TsFiles(Flatten(batches));
    multiset(Files(rows)) == multiset(ts) && |rows| == |ts|
  }

  lemma {:induction false} TsConcat(xs: seq<File>, ys: seq<File>)
    ensures TsFiles(xs + ys) == TsFiles(xs) + TsFiles(ys)
  {
    if ys == [] {
      assert xs + ys == xs;
    } else {
      hide TsFiles;
      var init, last := ys[..|ys| - 1], ys[|ys| - 1];
      assert xs + ys == xs + init + [last] && ys == init + [last];
      TsConcat(xs, init);
      TsAppends(xs + init, last);
      TsAppends(init, last);
    }
  }

  /** A batch that is not named gives one row that names no file. */
  lemma UnnamedRow<R>(t: Tsc<R>, batch: seq<File>)
    requires !Named(t, batch)
    ensures |TscRows(t, batch)| == 1 && Files(TscRows(t, batch)) == []
  {
    hide TsFiles, Roots;
    var rows := TscRows(t, batch);
    assert rows[..0] == [];
  }

  /** How many batches are not named. */
  function Unnamed<R>(t: Tsc<R>, batches: seq<seq<File>>): nat {
    if batches == [] then 0
    else Unnamed(t, batches[..|batches| - 1]) + (if Named(t, batches[|batches| - 1]) then 0 else 1)
  }

  lemma {:induction false} UnnamedIsZero<R>(t: Tsc<R>, batches: seq<seq<File>>)
    ensures Unnamed(t, batches) == 0 <==> AllNamed(t, batches)
  {
    hide Named;
    if batches != [] {
      var init := batches[..|batches| - 1];
      UnnamedIsZero(t, init);
      assert forall k :: 0 <= k < |init| ==> init[k] == batches[k];
    }
  }

  /** Each batch that is not named adds a row that names nothing. */
  lemma {:induction false} RowsWithoutFile<R>(t: Tsc<R>, batches: seq<seq<File>>)
    ensures var rows := MapBatches(Check(t), batches);
            |rows| == |Files(rows)| + Unnamed(t, batches) && |rows| >= |batches|
  {
    if batches != [] {
      var init, last := batches[..|batches| - 1], batches[|batches| - 1];
      RowsWithoutFile(t, init);
      FilesConcat(MapBatches(Check(t), init), TscRows(t, last));
      hide Files, TscRows;
      if Named(t, last) {
        OneRowPerFile(t, last);
        SameSize(Files(TscRows(t, last)), TsFiles(last));
      } else {
        UnnamedRow(t, last);
      }
    }
  }

  lemma SameSize<T>(xs: seq<T>, ys: seq<T>)
    requires multiset(xs) == multiset(ys)
    ensures |xs| == |ys|
  {
    assert |multiset(xs)| == |xs| && |multiset(ys)| == |ys|;
  }

  lemma {:induction false} AllNamedNameOnce<R>(t: Tsc<R>, batches: seq<seq<File>>)
    requires AllNamed(t, batches)
    ensures NamesEachOnce(t, batches)
  {
    if batches != [] {
      var init, last := batches[..|batches| - 1], batches[|batches| - 1];
      hide Files, TscRows, TsFiles, Named;
      assert AllNamed(t, init) by {
        assert forall k :: 0 <= k < |init| ==> init[k] == batches[k];
      }
      assert Named(t, last);
      AllNamedNameOnce(t, init);
      NamedOnce(t, last);
      FilesConcat(MapBatches(Check(t), init), TscRows(t, last));
      TsConcat(Flatten(init), last);
    }
  }

  lemma NamedOnce<R>(t: Tsc<R>, batch: seq<File>)
    requires Named(t, batch)
    ensures multiset(Files(TscRows(t, batch))) == multiset(TsFiles(batch))
    ensures |TscRows(t, batch)| == |TsFiles(batch)|
  {
    OneRowPerFile(t, batch);
  }

  /** Exactly when the batched rows name every TypeScript file once: every batch has one, and some root or a scoped
      configuration. */
  lemma NamesEachOnceExactlyWhen<R>(t: Tsc<R>, batches: seq<seq<File>>)
    ensures NamesEachOnce(t, batches) <==> AllNamed(t, batches)
  {
    hide Files, TscRows, TsFiles, Named, MapBatches, Flatten;
    if AllNamed(t, batches) {
      AllNamedNameOnce(t, batches);
    }
    if NamesEachOnce(t, batches) {
      RowsWithoutFile(t, batches);
      UnnamedIsZero(t, batches);
      SameSize(Files(MapBatches(Check(t), batches)), TsFiles(Flatten(batches)));
    }
  }

  // ----- the rows as a map over the files ---------------------------------------------------------

  /** The row of a file that is checked together with `all`. */
  function RowOf<R>(t: Tsc<R>, all: seq<File>, f: File): Row<R> {
    if t.config.Some? then Scoped(f, t.scoped(t.config.value))
    else
      match t.root(f)
      case None => Orphan(f)
      case Some(r) => Checked(f, r, t.run(r, WithRoot(t, all, Some(r))))
  }

  function RowsOf<R>(t: Tsc<R>, all: seq<File>, files: seq<File>): seq<Row<R>> {
    seq(|files|, i requires 0 <= i < |files| => RowOf(t, all, files[i]))
  }

  lemma RowsOfConcat<R>(t: Tsc<R>, all: seq<File>, xs: seq<File>, ys: seq<File>)
    ensures RowsOf(t, all, xs + ys) == RowsOf(t, all, xs) + RowsOf(t, all, ys)
  {
    hide RowOf;
  }

  /** Files in another order give the same rows in another order. */
  lemma {:induction false} RowsOfPermuted<R>(t: Tsc<R>, all: seq<File>, xs: seq<File>, ys: seq<File>)
    requires multiset(xs) == multiset(ys)
    ensures multiset(RowsOf(t, all, xs)) == multiset(RowsOf(t, all, ys))
    decreases |xs|
  {
    hide RowsOf;
    SameSize(xs, ys);
    if xs == [] {
      assert ys == [];
    } else {
      var init, x := xs[..|xs| - 1], xs[|xs| - 1];
      assert xs == init + [x];
      var before, after := SplitAround(init, x, ys);
      RowsOfPermuted(t, all, init, before + after);
      RowsOfConcat(t, all, init, [x]);
      RowsOfConcat(t, all, before + [x], after);
      RowsOfConcat(t, all, before, [x]);
      RowsOfConcat(t, all, before, after);
    }
  }

  lemma SplitAround<T>(init: seq<T>, x: T, ys: seq<T>) returns (before: seq<T>, after: seq<T>)
    requires multiset(init + [x]) == multiset(ys)
    ensures ys == before + [x] + after && multiset(init) == multiset(before + after)
  {
    assert x in multiset(init + [x]);
    var i :| 0 <= i < |ys| && ys[i] == x;
    before, after := ys[..i], ys[i + 1..];
    assert ys == before + [x] + after;
    SameRest(init, before, after, x);
  }

  lemma SameRest<T>(init: seq<T>, before: seq<T>, after: seq<T>, x: T)
    requires multiset(init + [x]) == multiset(before + [x] + after)
    ensures multiset(init) == multiset(before + after)
  {
    forall y ensures multiset(init)[y] == multiset(before + after)[y] {
      assert multiset(init + [x])[y] == multiset(init)[y] + multiset{x}[y];
      assert multiset(before + [x] + after)[y] == multiset(before)[y] + multiset{x}[y] + multiset(after)[y];
    }
  }

  lemma OrphanRowsAre<R>(t: Tsc<R>, all: seq<File>, files: seq<File>)
    requires t.config.None? && forall f :: f in files ==> t.root(f) == None
    ensures OrphanRows<R>(files) == RowsOf(t, all, files)
  {
  }

  lemma CheckedRowsAre<R>(t: Tsc<R>, all: seq<File>, root: string)
    requires t.config.None?
    ensures var mine := WithRoot(t, all, Some(root));
            CheckedRows(mine, root, t.run(root, mine)) == RowsOf(t, all, mine)
  {
    WithRootHas(t, all, Some(root));
    hide WithRoot;
  }

  lemma {:induction false} RootRowsAre<R>(t: Tsc<R>, all: seq<File>, roots: seq<string>)
    requires t.config.None?
    ensures RootRows(t, all, roots) == RowsOf(t, all, Grouped(t, all, roots))
  {
    hide WithRoot, RowsOf, CheckedRows;
    if roots != [] {
      var init, root := roots[..|roots| - 1], roots[|roots| - 1];
      RootRowsAre(t, all, init);
      CheckedRowsAre(t, all, root);
      RowsOfConcat(t, all, Grouped(t, all, init), WithRoot(t, all, Some(root)));
    } else {
      NoRows(t, all);
    }
  }

  lemma NoRows<R>(t: Tsc<R>, all: seq<File>)
    ensures RowsOf(t, all, []) == []
  {
  }

  /** The rows of a named batch are those of its files, in some order. */
  lemma NamedRows<R>(t: Tsc<R>, batch: seq<File>)
    requires Named(t, batch)
    ensures multiset(TscRows(t, batch)) == multiset(RowsOf(t, TsFiles(batch), TsFiles(batch)))
  {
    var ts := TsFiles(batch);
    hide TsFiles;
    if t.config.Some? {
      assert ScopedRows(ts, t.scoped(t.config.value)) == RowsOf(t, ts, ts);
    } else {
      var roots, orphans := Roots(t, ts), WithRoot(t, ts, None);
      assert TscRows(t, batch) == OrphanRows<R>(orphans) + RootRows(t, ts, roots);
      hide *;
      RootsHaveAll(t, ts);
      GroupingKeepsFiles(t, ts, roots);
      WithRootHas(t, ts, None);
      OrphanRowsAre(t, ts, orphans);
      RootRowsAre(t, ts, roots);
      RowsOfConcat(t, ts, orphans, Grouped(t, ts, roots));
      RowsOfPermuted(t, ts, orphans + Grouped(t, ts, roots), ts);
    }
  }

  // ----- the same rows as a single pass -----------------------------------------------------------

  /** No root has TypeScript files in two batches. */
  predicate Unsplit<R>(t: Tsc<R>, batches: seq<seq<File>>) {
    forall i, j, f, g ::
      0 <= i < j < |batches| && f in TsFiles(batches[i]) && g in TsFiles(batches[j]) ==> Apart(t, f, g)
  }

  predicate Apart<R>(t: Tsc<R>, f: File, g: File) {
    t.root(f).Some? ==> t.root(f) != t.root(g)
  }

  lemma {:induction false} WithRootConcat<R>(t: Tsc<R>, xs: seq<File>, ys: seq<File>, root: Option<string>)
    ensures WithRoot(t, xs + ys, root) == WithRoot(t, xs, root) + WithRoot(t, ys, root)
  {
    if ys == [] {
      assert xs + ys == xs;
    } else {
      hide *;
      var init, last := ys[..|ys| - 1], ys[|ys| - 1];
      assert xs + ys == xs + init + [last] && ys == init + [last];
      WithRootConcat(t, xs, init, root);
      WithRootAppends(t, xs + init, last, root);
      WithRootAppends(t, init, last, root);
    }
  }

  lemma {:induction false} FlattenConcat<T>(a: seq<seq<T>>, b: seq<seq<T>>)
    ensures Flatten(a + b) == Flatten(a) + Flatten(b)
  {
    if b == [] {
      assert a + b == a;
    } else {
      hide Flatten;
      var init, last := b[..|b| - 1], b[|b| - 1];
      assert a + b == a + init + [last] && b == init + [last];
      FlattenConcat(a, init);
      FlattenAppends(a + init, last);
      FlattenAppends(init, last);
    }
  }

  /** The files around batch `k`. */
  lemma Around(batches: seq<seq<File>>, k: nat)
    requires k < |batches|
    ensures TsFiles(Flatten(batches))
         == TsFiles(Flatten(batches[..k])) + TsFiles(batches[k]) + TsFiles(Flatten(batches[k + 1..]))
  {
    hide *;
    var a, b, c := batches[..k], batches[k], batches[k + 1..];
    SplitOut(batches, k);
    AroundOne(a, b, c);
  }

  lemma SplitOut<T>(xs: seq<T>, k: nat)
    requires k < |xs|
    ensures xs == xs[..k] + [xs[k]] + xs[k + 1..]
  {
  }

  lemma AroundOne(a: seq<seq<File>>, b: seq<File>, c: seq<seq<File>>)
    ensures TsFiles(Flatten(a + [b] + c)) == TsFiles(Flatten(a)) + TsFiles(b) + TsFiles(Flatten(c))
  {
    hide *;
    FlattenConcat(a + [b], c);
    FlattenAppends(a, b);
    TsConcat(Flatten(a) + b, Flatten(c));
    TsConcat(Flatten(a), b);
  }

  lemma {:induction false} TsFromBatch(batches: seq<seq<File>>, f: File) returns (k: nat)
    requires f in TsFiles(Flatten(batches))
    ensures k < |batches| && f in TsFiles(batches[k])
  {
    k := 0;
    if batches != [] {
      var init, last := batches[..|batches| - 1], batches[|batches| - 1];
      TsConcat(Flatten(init), last);
      if f in TsFiles(last) {
        k := |batches| - 1;
      } else {
        k := TsFromBatch(init, f);
      }
    }
  }

  /** Files of batches none of which has the root. */
  lemma NoneOfRoot<R>(t: Tsc<R>, batches: seq<seq<File>>, r: string)
    requires forall k, f :: 0 <= k < |batches| && f in TsFiles(batches[k]) ==> t.root(f) != Some(r)
    ensures WithRoot(t, TsFiles(Flatten(batches)), Some(r)) == []
  {
    var ts := TsFiles(Flatten(batches));
    WithRootHas(t, ts, Some(r));
    hide WithRoot, TsFiles, Flatten;
    var mine := WithRoot(t, ts, Some(r));
    if mine != [] {
      var f := mine[0];
      assert f in mine;
      var k := TsFromBatch(batches, f);
    }
  }

  /** Unsplit, a root of one batch has no files outside it. */
  lemma RootStaysInBatch<R>(t: Tsc<R>, batches: seq<seq<File>>, k: nat, f: File)
    requires Unsplit(t, batches) && k < |batches| && f in TsFiles(batches[k]) && t.root(f).Some?
    ensures WithRoot(t, TsFiles(Flatten(batches)), t.root(f)) == WithRoot(t, TsFiles(batches[k]), t.root(f))
  {
    hide WithRoot, TsFiles, Flatten;
    var a, b, c := batches[..k], batches[k], batches[k + 1..];
    var r := t.root(f).value;
    assert forall j :: 0 <= j < |a| ==> a[j] == batches[j];
    assert forall j :: 0 <= j < |c| ==> c[j] == batches[k + 1 + j];
    forall j, g | 0 <= j < |a| && g in TsFiles(a[j]) ensures t.root(g) != Some(r) {
      assert Apart(t, g, f);
    }
    forall j, g | 0 <= j < |c| && g in TsFiles(c[j]) ensures t.root(g) != Some(r) {
      assert Apart(t, f, g);
    }
    NoneOfRoot(t, a, r);
    NoneOfRoot(t, c, r);
    Around(batches, k);
    var x, y, z := TsFiles(Flatten(a)), TsFiles(b), TsFiles(Flatten(c));
    WithRootConcat(t, x + y, z, Some(r));
    WithRootConcat(t, x, y, Some(r));
  }

  lemma SameRowsInBatch<R>(t: Tsc<R>, batches: seq<seq<File>>, k: nat)
    requires k < |batches| && (t.config.None? ==> Unsplit(t, batches))
    ensures var mine := TsFiles(batches[k]);
            RowsOf(t, mine, mine) == RowsOf(t, TsFiles(Flatten(batches)), mine)
  {
    var mine, all := TsFiles(batches[k]), TsFiles(Flatten(batches));
    hide TsFiles, Flatten, WithRoot, Unsplit;
    forall i | 0 <= i < |mine| ensures RowOf(t, mine, mine[i]) == RowOf(t, all, mine[i]) {
      if t.config.None? && t.root(mine[i]).Some? {
        RootStaysInBatch(t, batches, k, mine[i]);
      }
    }
  }

  /** The rows of the first `k` batches are those their files have in the whole. */
  lemma {:induction false} BatchedRows<R>(t: Tsc<R>, batches: seq<seq<File>>, k: nat)
    requires AllNamed(t, batches) && (t.config.None? ==> Unsplit(t, batches)) && k <= |batches|
    ensures multiset(MapBatches(Check(t), batches[..k]))
         == multiset(RowsOf(t, TsFiles(Flatten(batches)), TsFiles(Flatten(batches[..k]))))
  {
    var all := TsFiles(Flatten(batches));
    hide *;
    if k == 0 {
      assert batches[..0] == [];
      NothingBatched(t, all);
    } else {
      var init, last := batches[..k - 1], batches[k - 1];
      assert batches[..k] == init + [last];
      BatchedRows(t, batches, k - 1);
      IsNamed(t, batches, k - 1);
      NamedRows(t, last);
      SameRowsInBatch(t, batches, k - 1);
      MapAppends(Check(t), init, last);
      CheckIs(t, last);
      FlattenAppends(init, last);
      TsConcat(Flatten(init), last);
      RowsOfConcat(t, all, TsFiles(Flatten(init)), TsFiles(last));
    }
  }

  lemma NothingBatched<R>(t: Tsc<R>, all: seq<File>)
    ensures MapBatches(Check(t), []) == [] && RowsOf(t, all, TsFiles(Flatten<File>([]))) == []
  {
  }

  lemma IsNamed<R>(t: Tsc<R>, batches: seq<seq<File>>, k: nat)
    requires AllNamed(t, batches) && k < |batches|
    ensures Named(t, batches[k])
  {
    hide Named;
  }

  lemma CheckIs<R>(t: Tsc<R>, files: seq<File>)
    ensures Check(t)(files) == TscRows(t, files)
  {
    hide TscRows;
  }

  /** Named batches make a named whole. */
  lemma WholeIsNamed<R>(t: Tsc<R>, batches: seq<seq<File>>)
    requires batches != [] && AllNamed(t, batches)
    ensures Named(t, Flatten(batches))
  {
    assert Named(t, batches[0]);
    Around(batches, 0);
    var first, whole := TsFiles(batches[0]), TsFiles(Flatten(batches));
    RootsComplete(t, first);
    RootsComplete(t, whole);
    hide TsFiles, Flatten, Roots;
    assert first != [] && forall f :: f in first ==> f in whole;
    if t.config.None? {
      var r := Roots(t, first)[0];
      assert r in Roots(t, first);
      var i :| 0 <= i < |first| && t.root(first[i]) == Some(r);
      assert first[i] in whole;
      var j :| 0 <= j < |whole| && whole[j] == first[i];
      assert t.root(whole[j]) == Some(r);
    }
  }

  /** Named and unsplit batches give the rows of the single pass. */
  lemma UnsplitAgrees<R>(t: Tsc<R>, batches: seq<seq<File>>)
    requires batches != [] && AllNamed(t, batches) && (t.config.None? ==> Unsplit(t, batches))
    ensures multiset(MapBatches(Check(t), batches)) == multiset(TscRows(t, Flatten(batches)))
  {
    hide *;
    assert batches[..|batches|] == batches;
    BatchedRows(t, batches, |batches|);
    WholeIsNamed(t, batches);
    NamedRows(t, Flatten(batches));
  }

  // ----- and only those do ------------------------------------------------------------------------

  /** Whatever the compiler answers, the batched rows are those of the single pass, in some order. */
  ghost predicate AgreesAlways<R(!new)>(t: Tsc<R>, batches: seq<seq<File>>) {
    forall run: (string, seq<File>) -> R :: Agrees(t.(run := run), batches)
  }

  ghost predicate Agrees<R>(t: Tsc<R>, batches: seq<seq<File>>) {
    multiset(MapBatches(Check(t), batches)) == multiset(TscRows(t, Flatten(batches)))
  }

  /** The conditions look at roots and configuration only, not at the compiler. */
  lemma {:induction false} SameRoots<R>(t: Tsc<R>, t': Tsc<R>, files: seq<File>, root: Option<string>)
    requires t.root == t'.root
    ensures Roots(t, files) == Roots(t', files) && WithRoot(t, files, root) == WithRoot(t', files, root)
  {
    if files != [] {
      SameRoots(t, t', files[..|files| - 1], root);
    }
  }

  lemma SameConditions<R>(t: Tsc<R>, t': Tsc<R>, batches: seq<seq<File>>)
    requires t.root == t'.root && t.config == t'.config
    ensures AllNamed(t, batches) == AllNamed(t', batches) && Unsplit(t, batches) == Unsplit(t', batches)
  {
    hide TsFiles, Roots;
    forall k | 0 <= k < |batches| ensures Named(t, batches[k]) == Named(t', batches[k]) {
      SameRoots(t, t', TsFiles(batches[k]), None);
    }
    assert forall f, g :: Apart(t, f, g) == Apart(t', f, g);
    hide Named, Apart;
  }

  /** The same rows name the same files. */
  lemma {:induction false} FilesOfPermuted<R>(xs: seq<Row<R>>, ys: seq<Row<R>>)
    requires multiset(xs) == multiset(ys)
    ensures multiset(Files(xs)) == multiset(Files(ys))
    decreases |xs|
  {
    SameSize(xs, ys);
    if xs == [] {
      assert ys == [];
    } else {
      var init, x := xs[..|xs| - 1], xs[|xs| - 1];
      assert xs == init + [x];
      var before, after := SplitAround(init, x, ys);
      hide Files;
      FilesOfPermuted(init, before + after);
      FilesConcat(init, [x]);
      FilesConcat(before + [x], after);
      FilesConcat(before, [x]);
      FilesConcat(before, after);
    }
  }

  /** Two batches or more that give the rows of the single pass are all named. */
  lemma AgreeingIsNamed<R>(t: Tsc<R>, batches: seq<seq<File>>)
    requires |batches| >= 2 && Agrees(t, batches)
    ensures AllNamed(t, batches) && Named(t, Flatten(batches))
  {
    var rows, single := MapBatches(Check(t), batches), TscRows(t, Flatten(batches));
    hide Files, TscRows, MapBatches, Flatten, TsFiles, Named;
    SameSize(rows, single);
    RowsWithoutFile(t, batches);
    if !Named(t, Flatten(batches)) {
      UnnamedRow(t, Flatten(batches));
      assert false;
    }
    NamedOnce(t, Flatten(batches));
    FilesOfPermuted(rows, single);
    NamesEachOnceExactlyWhen(t, batches);
  }

  /** The compiler that answers `a` for the files of `root` in `all`, and `b` for every other list. */
  function Telling<R>(t: Tsc<R>, all: seq<File>, root: string, a: R, b: R): (string, seq<File>) -> R {
    (r: string, files: seq<File>) => if r == root && files == WithRoot(t, all, Some(root)) then a else b
  }

  /** A split root has fewer files in any batch than in the whole. */
  lemma SplitIsShorter<R>(t: Tsc<R>, batches: seq<seq<File>>, i: nat, j: nat, f: File, g: File, k: nat)
    requires i < j < |batches| && k < |batches| && f in TsFiles(batches[i]) && g in TsFiles(batches[j])
    requires t.root(f).Some? && t.root(f) == t.root(g)
    ensures WithRoot(t, TsFiles(batches[k]), t.root(f)) != WithRoot(t, TsFiles(Flatten(batches)), t.root(f))
  {
    var o, h := if k == i then j else i, if k == i then g else f;
    hide *;
    Around(batches, k);
    var x, y, z := TsFiles(Flatten(batches[..k])), TsFiles(batches[k]), TsFiles(Flatten(batches[k + 1..]));
    if o < k {
      assert batches[..k][o] == batches[o];
      InPrefix(batches[..k], o, h);
    } else {
      assert batches[k + 1..][o - k - 1] == batches[o];
      InPrefix(batches[k + 1..], o - k - 1, h);
    }
    MoreOfRoot(t, x, y, z, h);
  }

  lemma MoreOfRoot<R>(t: Tsc<R>, x: seq<File>, y: seq<File>, z: seq<File>, h: File)
    requires h in x || h in z
    ensures WithRoot(t, y, t.root(h)) != WithRoot(t, x + y + z, t.root(h))
  {
    var root := t.root(h);
    hide WithRoot;
    WithRootConcat(t, x + y, z, root);
    WithRootConcat(t, x, y, root);
    WithRootHas(t, x, root);
    WithRootHas(t, z, root);
    assert h in WithRoot(t, x, root) || h in WithRoot(t, z, root);
  }

  lemma InPrefix(batches: seq<seq<File>>, k: nat, f: File)
    requires k < |batches| && f in TsFiles(batches[k])
    ensures f in TsFiles(Flatten(batches))
  {
    Around(batches, k);
    hide TsFiles, Flatten;
  }

  /** No batched row carries the answer for a whole split root. */
  lemma {:induction false} NoBatchTells<R>(t: Tsc<R>, batches: seq<seq<File>>, all: seq<File>, root: string, a: R,
          k: nat)
    requires t.config.None? && k <= |batches| && AllNamed(t, batches)
    requires forall j, files :: 0 <= j < |batches| && files == WithRoot(t, TsFiles(batches[j]), Some(root)) ==>
               t.run(root, files) != a
    ensures forall row :: row in MapBatches(Check(t), batches[..k]) ==> !Tells(row, root, a)
  {
    hide TsFiles, TscRows, WithRoot, Named;
    if k > 0 {
      NoBatchTells(t, batches, all, root, a, k - 1);
      assert batches[..k] == batches[..k - 1] + [batches[k - 1]];
      MapAppends(Check(t), batches[..k - 1], batches[k - 1]);
      NamedRows(t, batches[k - 1]);
      var ts := TsFiles(batches[k - 1]);
      SameSize(TscRows(t, batches[k - 1]), RowsOf(t, ts, ts));
      forall row | row in TscRows(t, batches[k - 1]) ensures !Tells(row, root, a) {
        assert row in multiset(TscRows(t, batches[k - 1]));
        var n :| 0 <= n < |ts| && RowOf(t, ts, ts[n]) == row;
      }
    }
  }

  predicate Tells<R(==)>(row: Row<R>, root: string, a: R) {
    row.Checked? && row.root == root && row.result == a
  }

  /** The single pass does carry it, for every file of the root. */
  lemma SinglePassTells<R>(t: Tsc<R>, files: seq<File>, f: File, a: R)
    requires t.config.None? && Named(t, files) && f in TsFiles(files) && t.root(f).Some?
    requires t.run(t.root(f).value, WithRoot(t, TsFiles(files), t.root(f))) == a
    ensures Checked(f, t.root(f).value, a) in TscRows(t, files)
  {
    var ts := TsFiles(files);
    NamedRows(t, files);
    hide TsFiles, TscRows, WithRoot, Named;
    var n :| 0 <= n < |ts| && ts[n] == f;
    assert RowsOf(t, ts, ts)[n] == Checked(f, t.root(f).value, a);
    assert Checked(f, t.root(f).value, a) in multiset(RowsOf(t, ts, ts));
  }

  /** For a split root some compiler makes the batched rows differ. */
  lemma SplitDisagrees<R(!new)>(t: Tsc<R>, batches: seq<seq<File>>, i: nat, j: nat, f: File, g: File, a: R, b: R)
    requires a != b && t.config.None? && AllNamed(t, batches) && Named(t, Flatten(batches))
    requires i < j < |batches| && f in TsFiles(batches[i]) && g in TsFiles(batches[j]) && !Apart(t, f, g)
    ensures !AgreesAlways(t, batches)
  {
    hide *;
    var all, r := TsFiles(Flatten(batches)), TheRoot(t, f, g);
    var told := t.(run := Telling(t, all, r, a, b));
    SameConditions(t, told, batches);
    SameNamed(t, told, Flatten(batches));
    InPrefix(batches, i, f);
    TellingTheWhole(t, told, all, r, a, b);
    SinglePassTells(told, Flatten(batches), f, a);
    forall k, files | 0 <= k < |batches| && files == WithRoot(told, TsFiles(batches[k]), Some(r))
      ensures told.run(r, files) != a
    {
      SplitIsShorter(t, batches, i, j, f, g, k);
      TellingAPart(t, told, all, TsFiles(batches[k]), r, a, b);
    }
    assert batches[..|batches|] == batches;
    NoBatchTells(told, batches, all, r, a, |batches|);
    TellsOf(f, r, a);
    RowIsMissing(told, batches, Checked(f, r, a));
    Disagrees(t, told, batches);
  }

  function TheRoot<R>(t: Tsc<R>, f: File, g: File): (r: string)
    requires !Apart(t, f, g)
    ensures t.root(f) == t.root(g) == Some(r)
  {
    t.root(f).value
  }

  lemma TellingTheWhole<R>(t: Tsc<R>, told: Tsc<R>, all: seq<File>, r: string, a: R, b: R)
    requires told == t.(run := Telling(t, all, r, a, b))
    ensures told.run(r, WithRoot(told, all, Some(r))) == a
  {
    SameRoots(t, told, all, Some(r));
    hide WithRoot;
  }

  lemma TellingAPart<R>(t: Tsc<R>, told: Tsc<R>, all: seq<File>, part: seq<File>, r: string, a: R, b: R)
    requires told == t.(run := Telling(t, all, r, a, b)) && a != b
    requires WithRoot(t, part, Some(r)) != WithRoot(t, all, Some(r))
    ensures told.run(r, WithRoot(told, part, Some(r))) != a
  {
    SameRoots(t, told, part, Some(r));
    hide WithRoot;
  }

  lemma TellsOf<R>(f: File, root: string, a: R)
    ensures Tells(Checked(f, root, a), root, a)
  {
  }

  lemma RowIsMissing<R>(t: Tsc<R>, batches: seq<seq<File>>, row: Row<R>)
    requires row in TscRows(t, Flatten(batches)) && row !in MapBatches(Check(t), batches)
    ensures !Agrees(t, batches)
  {
    hide TscRows, Flatten, MapBatches;
    assert row !in multiset(MapBatches(Check(t), batches));
    assert row in multiset(TscRows(t, Flatten(batches)));
  }

  lemma Disagrees<R(!new)>(t: Tsc<R>, told: Tsc<R>, batches: seq<seq<File>>)
    requires told == t.(run := told.run) && !Agrees(told, batches)
    ensures !AgreesAlways(t, batches)
  {
    hide Agrees;
  }

  lemma SameNamed<R>(t: Tsc<R>, t': Tsc<R>, files: seq<File>)
    requires t.root == t'.root && t.config == t'.config
    ensures Named(t, files) == Named(t', files)
  {
    SameRoots(t, t', TsFiles(files), None);
    hide TsFiles, Roots;
  }

  /** A single batch is the single pass. */
  lemma OneBatchAgrees<R>(t: Tsc<R>, batch: seq<File>)
    ensures Agrees(t, [batch])
  {
    hide TscRows;
    assert [batch] == [] + [batch];
    MapAppends(Check(t), [], batch);
    FlattenAppends([], batch);
    assert MapBatches(Check(t), [batch]) == [] + TscRows(t, batch) == TscRows(t, batch);
    assert Flatten([batch]) == [] + batch == batch;
  }

  lemma NoBatchDisagrees<R>(t: Tsc<R>)
    ensures !Agrees(t, [])
  {
    assert TscRows(t, []) == [NoFiles];
    assert NoFiles in multiset(TscRows(t, []));
  }

  /** Exactly when batching is invisible whatever the compiler answers: there is one batch; or every batch has a
      TypeScript file, and a scoped configuration is used or every batch has a root and no root's files are split. */
  lemma AgreesAlwaysExactlyWhen<R(!new)>(t: Tsc<R>, batches: seq<seq<File>>, a: R, b: R)
    requires a != b
    ensures AgreesAlways(t, batches) <==>
              || |batches| == 1
              || (batches != [] && AllNamed(t, batches) && (t.config.None? ==> Unsplit(t, batches)))
  {
    hide Agrees, AllNamed, Unsplit;
    assert t.(run := t.run) == t;
    if |batches| == 1 {
      forall run: (string, seq<File>) -> R ensures Agrees(t.(run := run), batches) {
        OneBatchAgrees(t.(run := run), batches[0]);
        assert batches == [batches[0]];
      }
    } else if batches == [] {
      NoBatchDisagrees(t);
    } else if AllNamed(t, batches) && (t.config.None? ==> Unsplit(t, batches)) {
      forall run: (string, seq<File>) -> R ensures Agrees(t.(run := run), batches) {
        SameConditions(t, t.(run := run), batches);
        UnsplitAlwaysAgrees(t.(run := run), batches);
      }
    } else if AgreesAlways(t, batches) {
      AgreeingIsUnsplit(t, batches, a, b);
    }
  }

  lemma UnsplitAlwaysAgrees<R>(t: Tsc<R>, batches: seq<seq<File>>)
    requires batches != [] && AllNamed(t, batches) && (t.config.None? ==> Unsplit(t, batches))
    ensures Agrees(t, batches)
  {
    UnsplitAgrees(t, batches);
    hide MapBatches, TscRows, Flatten;
  }

  lemma AgreeingIsUnsplit<R(!new)>(t: Tsc<R>, batches: seq<seq<File>>, a: R, b: R)
    requires a != b && |batches| >= 2 && AgreesAlways(t, batches)
    ensures AllNamed(t, batches) && (t.config.None? ==> Unsplit(t, batches))
  {
    hide Agrees, AllNamed, Apart, Named;
    assert t.(run := t.run) == t;
    AgreeingIsNamed(t, batches);
    if t.config.None? && !Unsplit(t, batches) {
      var i, j, f, g :|
        0 <= i < j < |batches| && f in TsFiles(batches[i]) && g in TsFiles(batches[j]) && !Apart(t, f, g);
      SplitDisagrees(t, batches, i, j, f, g, a, b);
    }
  }

  // ----- the order of the rows --------------------------------------------------------------------

  /** `at` are the places of the files with that root, ascending, and `mine` the files there. */
  ghost predicate AreOfRoot<R>(t: Tsc<R>, ts: seq<File>, root: Option<string>, at: seq<nat>, mine: seq<File>) {
    && |at| == |mine| && (forall i, j :: 0 <= i < j < |at| ==> at[i] < at[j])
    && (forall n: nat :: n in at <==> n < |ts| && t.root(ts[n]) == root)
    && (forall i :: 0 <= i < |at| ==> at[i] < |ts| && mine[i] == ts[at[i]])
  }

  lemma {:induction false} RootAt<R>(t: Tsc<R>, ts: seq<File>, root: Option<string>) returns (at: seq<nat>)
    ensures AreOfRoot(t, ts, root, at, WithRoot(t, ts, root))
  {
    hide *;
    at := [];
    if ts == [] {
      NothingOfRoot(t, root);
    } else {
      var init, last := ts[..|ts| - 1], ts[|ts| - 1];
      assert ts == init + [last];
      at := RootAt(t, init, root);
      WithRootAppends(t, init, last, root);
      if t.root(last) == root {
        OneMoreOfRoot(t, init, last, root, at, WithRoot(t, init, root));
        at := at + [|init|];
      } else {
        OneMoreOther(t, init, last, root, at, WithRoot(t, init, root));
      }
    }
  }

  lemma NothingOfRoot<R>(t: Tsc<R>, root: Option<string>)
    ensures AreOfRoot(t, [], root, [], WithRoot(t, [], root))
  {
  }

  lemma OneMoreOfRoot<R>(t: Tsc<R>, ts: seq<File>, f: File, root: Option<string>, at: seq<nat>, mine: seq<File>)
    requires AreOfRoot(t, ts, root, at, mine) && t.root(f) == root
    ensures AreOfRoot(t, ts + [f], root, at + [|ts|], mine + [f])
  {
    var n, more, all := |ts|, at + [|ts|], ts + [f];
    assert more[|at|] == n && all[n] == f;
    forall k: nat ensures k in more <==> k in at || k == n {}
    forall i | 0 <= i < |at| ensures at[i] < n && all[at[i]] == ts[at[i]] {
      assert at[i] in at;
    }
  }

  lemma OneMoreOther<R>(t: Tsc<R>, ts: seq<File>, f: File, root: Option<string>, at: seq<nat>, mine: seq<File>)
    requires AreOfRoot(t, ts, root, at, mine) && t.root(f) != root
    ensures AreOfRoot(t, ts + [f], root, at, mine)
  {
    assert (ts + [f])[|ts|] == f;
    forall i | 0 <= i < |at| ensures (ts + [f])[at[i]] == ts[at[i]] {
      assert at[i] in at;
    }
  }

  /** Root `p` occurs before root `q` does. */
  ghost predicate RootBefore<R>(t: Tsc<R>, ts: seq<File>, p: string, q: string) {
    exists i :: 0 <= i < |ts| && t.root(ts[i]) == Some(p) && RootNotUpTo(t, ts, q, i)
  }

  predicate RootNotUpTo<R>(t: Tsc<R>, ts: seq<File>, q: string, i: int) {
    forall j :: 0 <= j <= i && j < |ts| ==> t.root(ts[j]) != Some(q)
  }

  lemma {:induction false} RootsAreSeen<R>(t: Tsc<R>, ts: seq<File>)
    ensures forall i, j :: 0 <= i < j < |Roots(t, ts)| ==> RootBefore(t, ts, Roots(t, ts)[i], Roots(t, ts)[j])
  {
    if ts != [] {
      var init, last := ts[..|ts| - 1], ts[|ts| - 1];
      assert ts == init + [last];
      RootsAreSeen(t, init);
      RootsComplete(t, init);
      RootsAppend(t, init, last);
      hide Roots, RootBefore;
      var before, after := Roots(t, init), Roots(t, ts);
      forall i, j | 0 <= i < j < |after| ensures RootBefore(t, ts, after[i], after[j]) {
        if j < |before| {
          BeforeStays(t, init, last, before[i], before[j]);
        } else {
          assert before[i] in before;
          NewRootIsLater(t, init, last, before[i], after[j]);
        }
      }
    }
  }

  lemma RootsAppend<R>(t: Tsc<R>, ts: seq<File>, f: File)
    ensures Roots(t, ts + [f])
         == if t.root(f).Some? && t.root(f).value !in Roots(t, ts) then Roots(t, ts) + [t.root(f).value]
            else Roots(t, ts)
  {
    assert (ts + [f])[..|ts|] == ts;
  }

  lemma BeforeStays<R>(t: Tsc<R>, ts: seq<File>, f: File, p: string, q: string)
    requires RootBefore(t, ts, p, q)
    ensures RootBefore(t, ts + [f], p, q)
  {
    var i :| 0 <= i < |ts| && t.root(ts[i]) == Some(p) && RootNotUpTo(t, ts, q, i);
    assert (ts + [f])[i] == ts[i] && RootNotUpTo(t, ts + [f], q, i);
  }

  lemma NewRootIsLater<R>(t: Tsc<R>, ts: seq<File>, f: File, p: string, q: string)
    requires exists i :: 0 <= i < |ts| && t.root(ts[i]) == Some(p)
    requires forall i :: 0 <= i < |ts| ==> t.root(ts[i]) != Some(q)
    ensures RootBefore(t, ts + [f], p, q)
  {
    var i :| 0 <= i < |ts| && t.root(ts[i]) == Some(p);
    assert t.root((ts + [f])[i]) == Some(p) && RootNotUpTo(t, ts + [f], q, i);
  }

  /** File number `n` is reported before file number `m`: without a root before all that have one, by first
      appearance of their roots, and within a root, or without one, in the order given. */
  ghost predicate ComesFirst<R>(t: Tsc<R>, ts: seq<File>, n: nat, m: nat)
    requires n < |ts| && m < |ts|
  {
    var p, q := t.root(ts[n]), t.root(ts[m]);
    if p == q then n < m
    else if p.None? || q.None? then p.None?
    else RootBefore(t, ts, p.value, q.value)
  }

  /** The row is that of file `f`, and says what the compiler says of all the files of its root, in order. */
  ghost predicate IsRowOfFile<R>(t: Tsc<R>, ts: seq<File>, f: File, row: Row<R>) {
    match t.root(f)
    case None => row == Orphan(f)
    case Some(root) =>
      exists at: seq<nat>, mine: seq<File> ::
        AreOfRoot(t, ts, Some(root), at, mine) && row == Checked(f, root, t.run(root, mine))
  }

  /** Row by row the files at `at`, each before the next. */
  ghost predicate AreInOrder<R>(t: Tsc<R>, ts: seq<File>, rows: seq<Row<R>>, at: seq<nat>) {
    && |at| == |rows| && (forall i :: 0 <= i < |at| ==> at[i] < |ts|)
    && (forall i :: 0 <= i < |rows| ==> IsRowOfFile(t, ts, ts[at[i]], rows[i]))
    && (forall i, j :: 0 <= i < j < |at| ==> ComesFirst(t, ts, at[i], at[j]))
  }

  lemma OrphansInOrder<R>(t: Tsc<R>, ts: seq<File>) returns (at: seq<nat>)
    ensures AreInOrder(t, ts, OrphanRows<R>(WithRoot(t, ts, None)), at)
    ensures forall n: nat :: n in at <==> n < |ts| && t.root(ts[n]) == None
  {
    at := RootAt(t, ts, None);
    hide WithRoot, RootBefore;
    forall i | 0 <= i < |at| ensures at[i] < |ts| && t.root(ts[at[i]]) == None {
      assert at[i] in at;
    }
  }

  lemma RootInOrder<R>(t: Tsc<R>, ts: seq<File>, root: string) returns (at: seq<nat>)
    ensures var mine := WithRoot(t, ts, Some(root));
            AreInOrder(t, ts, CheckedRows(mine, root, t.run(root, mine)), at)
    ensures forall n: nat :: n in at <==> n < |ts| && t.root(ts[n]) == Some(root)
  {
    at := RootAt(t, ts, Some(root));
    var mine := WithRoot(t, ts, Some(root));
    var rows := CheckedRows(mine, root, t.run(root, mine));
    hide WithRoot, RootBefore;
    forall i | 0 <= i < |at| ensures at[i] < |ts| && t.root(ts[at[i]]) == Some(root) {
      assert at[i] in at;
    }
    forall i | 0 <= i < |rows| ensures IsRowOfFile(t, ts, ts[at[i]], rows[i]) {
      assert rows[i] == Checked(ts[at[i]], root, t.run(root, mine));
    }
    hide AreOfRoot, IsRowOfFile;
  }

  lemma OrderAppends<R>(t: Tsc<R>, ts: seq<File>, rows: seq<Row<R>>, at: seq<nat>, rows': seq<Row<R>>, at': seq<nat>)
    requires AreInOrder(t, ts, rows, at) && AreInOrder(t, ts, rows', at')
    requires forall n: nat, m: nat :: n in at && m in at' && n < |ts| && m < |ts| ==> ComesFirst(t, ts, n, m)
    ensures AreInOrder(t, ts, rows + rows', at + at')
  {
    hide ComesFirst, IsRowOfFile;
    var all := at + at';
    forall i, j | 0 <= i < j < |all| ensures ComesFirst(t, ts, all[i], all[j]) {
      if i < |at| && j >= |at| {
        assert at[i] in at && at'[j - |at|] in at';
      }
    }
  }

  /** The files of the first `k` roots, and those without one. */
  ghost predicate UpToRoot<R>(t: Tsc<R>, f: File, roots: seq<string>) {
    t.root(f).Some? ==> t.root(f).value in roots
  }

  lemma {:induction false} RootsInOrder<R>(t: Tsc<R>, ts: seq<File>, roots: seq<string>) returns (at: seq<nat>)
    requires Distinct(roots) && forall i, j :: 0 <= i < j < |roots| ==> RootBefore(t, ts, roots[i], roots[j])
    ensures AreInOrder(t, ts, OrphanRows<R>(WithRoot(t, ts, None)) + RootRows(t, ts, roots), at)
    ensures forall n: nat :: n in at <==> n < |ts| && UpToRoot(t, ts[n], roots)
  {
    if roots == [] {
      at := OrphansInOrder(t, ts);
      assert OrphanRows<R>(WithRoot(t, ts, None)) + RootRows(t, ts, roots) == OrphanRows<R>(WithRoot(t, ts, None));
      hide AreInOrder, WithRoot;
    } else {
      var init, root := roots[..|roots| - 1], roots[|roots| - 1];
      hide *;
      LastIsNew(roots);
      RootsBeforeLast(t, ts, roots);
      var before := RootsInOrder(t, ts, init);
      var mine := RootInOrder(t, ts, root);
      var rows := CheckedRows(WithRoot(t, ts, Some(root)), root, t.run(root, WithRoot(t, ts, Some(root))));
      EarlierRootsFirst(t, ts, init, root, before, mine);
      OrderAppends(t, ts, OrphanRows<R>(WithRoot(t, ts, None)) + RootRows(t, ts, init), before, rows, mine);
      RootRowsAppend(t, ts, roots);
      at := before + mine;
      MoreRoots(t, ts, init, root, before, mine);
    }
  }

  lemma RootsBeforeLast<R>(t: Tsc<R>, ts: seq<File>, roots: seq<string>)
    requires roots != [] && forall i, j :: 0 <= i < j < |roots| ==> RootBefore(t, ts, roots[i], roots[j])
    ensures var init, last := roots[..|roots| - 1], roots[|roots| - 1];
            && (forall i, j :: 0 <= i < j < |init| ==> RootBefore(t, ts, init[i], init[j]))
            && forall p :: p in init ==> RootBefore(t, ts, p, last)
  {
    hide RootBefore;
  }

  lemma EarlierRootsFirst<R>(t: Tsc<R>, ts: seq<File>, init: seq<string>, root: string, before: seq<nat>,
          mine: seq<nat>)
    requires root !in init && forall p :: p in init ==> RootBefore(t, ts, p, root)
    requires forall n: nat :: n in before <==> n < |ts| && UpToRoot(t, ts[n], init)
    requires forall n: nat :: n in mine <==> n < |ts| && t.root(ts[n]) == Some(root)
    ensures forall n: nat, m: nat :: n in before && m in mine && n < |ts| && m < |ts| ==> ComesFirst(t, ts, n, m)
  {
    hide RootBefore;
  }

  lemma RootRowsAppend<R>(t: Tsc<R>, ts: seq<File>, roots: seq<string>)
    requires roots != []
    ensures var init, root := roots[..|roots| - 1], roots[|roots| - 1];
            var mine := WithRoot(t, ts, Some(root));
            var orphans := OrphanRows<R>(WithRoot(t, ts, None));
            orphans + RootRows(t, ts, roots)
            == orphans + RootRows(t, ts, init) + CheckedRows(mine, root, t.run(root, mine))
  {
    hide WithRoot, CheckedRows, OrphanRows;
  }

  lemma MoreRoots<R>(t: Tsc<R>, ts: seq<File>, init: seq<string>, root: string, before: seq<nat>, mine: seq<nat>)
    requires forall n: nat :: n in before <==> n < |ts| && UpToRoot(t, ts[n], init)
    requires forall n: nat :: n in mine <==> n < |ts| && t.root(ts[n]) == Some(root)
    ensures forall n: nat :: n in before + mine <==> n < |ts| && UpToRoot(t, ts[n], init + [root])
  {
  }

  /** Without a scoped configuration and with some root: every TypeScript file has one row, which says what the
      compiler says of all the files of its root; files without a root come first, roots follow as they first appear,
      and files of one root in the order given. */
  lemma RowsAreInOrder<R>(t: Tsc<R>, files: seq<File>) returns (at: seq<nat>)
    requires Named(t, files) && t.config.None?
    ensures AreInOrder(t, TsFiles(files), TscRows(t, files), at)
    ensures forall n: nat :: n in at <==> n < |TsFiles(files)|
  {
    var ts := TsFiles(files);
    var roots := Roots(t, ts);
    assert TscRows(t, files) == OrphanRows<R>(WithRoot(t, ts, None)) + RootRows(t, ts, roots) by {
      hide TsFiles, Roots, WithRoot, RootRows, OrphanRows;
    }
    RootsHaveAll(t, ts);
    RootsAreSeen(t, ts);
    hide TsFiles, Roots, WithRoot, RootRows, OrphanRows, TscRows, AreInOrder, RootBefore;
    at := RootsInOrder(t, ts, roots);
  }
}
