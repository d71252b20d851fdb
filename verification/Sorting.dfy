/** Python's `sorted` with an integer key: a stable insertion sort. */
module Sorting {
  function InsertBy<T>(xs: seq<T>, x: T, key: T -> int): seq<T> {
    if xs == [] || key(xs[|xs| - 1]) <= key(x) then xs + [x]
    else InsertBy(xs[..|xs| - 1], x, key) + [xs[|xs| - 1]]
  }

  function SortBy<T>(xs: seq<T>, key: T -> int): seq<T> {
    if xs == [] then [] else InsertBy(SortBy(xs[..|xs| - 1], key), xs[|xs| - 1], key)
  }

  ghost predicate SortedBy<T>(xs: seq<T>, key: T -> int) {
    forall i, j :: 0 <= i < j < |xs| ==> key(xs[i]) <= key(xs[j])
  }

  /** The elements of `xs` with key `k`, in order. */
  function WithKey<T>(xs: seq<T>, key: T -> int, k: int): seq<T> {
    if xs == [] then []
    else WithKey(xs[..|xs| - 1], key, k) + (if key(xs[|xs| - 1]) == k then [xs[|xs| - 1]] else [])
  }

  lemma {:induction false} InsertByPermutes<T>(xs: seq<T>, x: T, key: T -> int)
    ensures multiset(InsertBy(xs, x, key)) == multiset(xs) + multiset{x}
  {
    if xs != [] && key(xs[|xs| - 1]) > key(x) {
      assert xs == xs[..|xs| - 1] + [xs[|xs| - 1]];
      InsertByPermutes(xs[..|xs| - 1], x, key);
    }
  }

  lemma {:induction false} InsertBySorts<T>(xs: seq<T>, x: T, key: T -> int)
    requires SortedBy(xs, key)
    ensures SortedBy(InsertBy(xs, x, key), key)
    ensures forall y :: y in InsertBy(xs, x, key) ==> y in xs || y == x
  {
    if xs != [] && key(xs[|xs| - 1]) > key(x) {
      var init, last := xs[..|xs| - 1], xs[|xs| - 1];
      InsertBySorts(init, x, key);
      var r := InsertBy(init, x, key);
      forall y | y in r ensures key(y) <= key(last) {
        if y != x {
          var j :| 0 <= j < |init| && init[j] == y;
        }
      }
    }
  }

  lemma SameElements<T>(xs: seq<T>, ys: seq<T>)
    requires multiset(xs) == multiset(ys)
    ensures |xs| == |ys| && forall y :: y in xs <==> y in ys
  {
    assert |multiset(xs)| == |multiset(ys)|;
    assert forall y :: y in xs <==> y in multiset(xs);
    assert forall y :: y in ys <==> y in multiset(ys);
  }

  /** Sorting permutes, orders, and keeps elements with equal keys in their old order. */
  lemma {:induction false} SortByCorrect<T>(xs: seq<T>, key: T -> int)
    ensures SortedBy(SortBy(xs, key), key)
    ensures multiset(SortBy(xs, key)) == multiset(xs)
    ensures forall y :: y in SortBy(xs, key) <==> y in xs
    ensures |SortBy(xs, key)| == |xs|
  {
    if xs != [] {
      var init, last := xs[..|xs| - 1], xs[|xs| - 1];
      SortByCorrect(init, key);
      InsertBySorts(SortBy(init, key), last, key);
      InsertByPermutes(SortBy(init, key), last, key);
      assert xs == init + [last];
    }
    SameElements(SortBy(xs, key), xs);
  }

  lemma {:induction false} InsertByStable<T>(xs: seq<T>, x: T, key: T -> int, k: int)
    requires SortedBy(xs, key)
    ensures WithKey(InsertBy(xs, x, key), key, k) == WithKey(xs, key, k) + (if key(x) == k then [x] else [])
  {
    hide WithKey;
    if xs == [] || key(xs[|xs| - 1]) <= key(x) {
      WithKeyAppends(xs, x, key, k);
    } else {
      var init, last := xs[..|xs| - 1], xs[|xs| - 1];
      assert xs == init + [last];
      InsertByStable(init, x, key, k);
      WithKeyAppends(init, last, key, k);
      WithKeyAppends(InsertBy(init, x, key), last, key, k);
    }
  }

  lemma WithKeyAppends<T>(xs: seq<T>, x: T, key: T -> int, k: int)
    ensures WithKey(xs + [x], key, k) == WithKey(xs, key, k) + (if key(x) == k then [x] else [])
  {
    assert (xs + [x])[..|xs|] == xs;
  }

  lemma {:induction false} SortByStable<T>(xs: seq<T>, key: T -> int, k: int)
    ensures WithKey(SortBy(xs, key), key, k) == WithKey(xs, key, k)
  {
    if xs != [] {
      SortByCorrect(xs[..|xs| - 1], key);
      SortByStable(xs[..|xs| - 1], key, k);
      InsertByStable(SortBy(xs[..|xs| - 1], key), xs[|xs| - 1], key, k);
    }
  }

  ghost predicate Distinct<T>(xs: seq<T>) {
    forall i, j :: 0 <= i < j < |xs| ==> xs[i] != xs[j]
  }

  lemma LastIsNew<T>(xs: seq<T>)
    requires Distinct(xs) && xs != []
    ensures var init, last := xs[..|xs| - 1], xs[|xs| - 1];
            Distinct(init) && last !in init && xs == init + [last]
  {
    var init := xs[..|xs| - 1];
    assert forall i :: 0 <= i < |init| ==> init[i] == xs[i];
  }

  lemma {:induction false} DistinctCounts<T>(xs: seq<T>, x: T)
    requires Distinct(xs)
    ensures multiset(xs)[x] <= 1
  {
    if xs != [] {
      LastIsNew(xs);
      hide Distinct;
      DistinctCounts(xs[..|xs| - 1], x);
    }
  }

  lemma CountTwice<T>(xs: seq<T>, i: nat, j: nat)
    requires i < j < |xs| && xs[i] == xs[j]
    ensures multiset(xs)[xs[i]] >= 2
  {
    assert xs == xs[..j] + xs[j..];
    assert xs[..j][i] == xs[i] && xs[j..][0] == xs[i];
    assert xs[i] in xs[..j] && xs[i] in xs[j..];
  }

  lemma SortByDistinct<T>(xs: seq<T>, key: T -> int)
    requires Distinct(xs)
    ensures Distinct(SortBy(xs, key))
  {
    var ys := SortBy(xs, key);
    SortByCorrect(xs, key);
    hide SortBy;
    forall i, j | 0 <= i < j < |ys| ensures ys[i] != ys[j] {
      DistinctCounts(xs, ys[i]);
      if ys[i] == ys[j] { CountTwice(ys, i, j); }
    }
  }

  lemma SortOne<T>(x: T, key: T -> int)
    ensures SortBy([x], key) == [x]
  {
    assert [x][..0] == [];
    assert SortBy([x][..0], key) == [];
    assert [] + [x] == [x];
  }
}
