/** Python's `list.sort(key=..., reverse=True)` on real-valued keys, as the
    search results are ranked: a stable sort into descending key order. */
module Ranking {

  import opened Common
  import opened PyText

  predicate Descending<T>(s: seq<T>, key: T -> real) {
    forall i, j :: 0 <= i < j < |s| ==> key(s[i]) >= key(s[j])
  }

  /** Puts `x` in front of the first element whose key is not greater, so
      that `x` stays ahead of the equal elements that came after it. */
  function Insert<T>(x: T, s: seq<T>, key: T -> real): (r: seq<T>)
    ensures multiset(r) == multiset(s) + multiset{x}
    ensures |r| == |s| + 1
    decreases |s|
  {
    if s == [] || key(s[0]) <= key(x) then [x] + s
    else
      assert s == [s[0]] + s[1..];
      [s[0]] + Insert(x, s[1..], key)
  }

  lemma {:induction false} InsertDescending<T>(x: T, s: seq<T>, key: T -> real)
    requires Descending(s, key)
    ensures Descending(Insert(x, s, key), key)
    decreases |s|
  {
    if s != [] && key(s[0]) > key(x) {
      var rest := Insert(x, s[1..], key);
      InsertDescending(x, s[1..], key);
      forall j | 0 <= j < |rest|
        ensures key(s[0]) >= key(rest[j])
      {
        assert rest[j] in multiset(rest);
        assert rest[j] in multiset(s[1..]) || rest[j] == x;
        if rest[j] != x {
          var k :| 0 <= k < |s[1..]| && s[1..][k] == rest[j];
          assert s[k + 1] == rest[j];
        }
      }
    }
  }

  /** The stable descending sort. */
  function SortDesc<T>(xs: seq<T>, key: T -> real): (r: seq<T>)
    ensures multiset(r) == multiset(xs) && |r| == |xs|
  {
    if xs == [] then []
    else
      assert xs == [xs[0]] + xs[1..];
      Insert(xs[0], SortDesc(xs[1..], key), key)
  }

  /** The sort puts its elements in descending key order. */
  lemma {:induction false} SortDescSorted<T>(xs: seq<T>, key: T -> real)
    ensures Descending(SortDesc(xs, key), key)
  {
    if xs != [] {
      SortDescSorted(xs[1..], key);
      InsertDescending(xs[0], SortDesc(xs[1..], key), key);
    }
  }

  /** The elements whose key is exactly `v`. */
  function KeyIs<T>(key: T -> real, v: real): T -> bool {
    x => key(x) == v
  }

  /** Insertion lands `x` ahead of the elements of its own key and behind
      only elements of greater keys, so among one key it comes first. */
  lemma {:induction false} InsertKeepsTies<T>(x: T, s: seq<T>, key: T -> real, v: real)
    ensures Filter(Insert(x, s, key), KeyIs(key, v))
      == (if key(x) == v then [x] else []) + Filter(s, KeyIs(key, v))
    decreases |s|
  {
    var p := KeyIs(key, v);
    if s == [] || key(s[0]) <= key(x) {
      FilterCons(x, s, p);
    } else {
      var rest := Insert(x, s[1..], key);
      InsertKeepsTies(x, s[1..], key, v);
      FilterCons(s[0], rest, p);
      FilterCons(s[0], s[1..], p);
      assert [s[0]] + s[1..] == s;
    }
  }

  lemma FilterCons<T>(a: T, t: seq<T>, p: T -> bool)
    ensures Filter([a] + t, p) == (if p(a) then [a] else []) + Filter(t, p)
  {
    assert ([a] + t)[1..] == t;
  }

  /** The sort is stable: the elements of any one key come out in the order
      they went in, as Python's `sorted` guarantees. */
  lemma {:induction false} SortDescStable<T>(xs: seq<T>, key: T -> real, v: real)
    ensures Filter(SortDesc(xs, key), KeyIs(key, v)) == Filter(xs, KeyIs(key, v))
  {
    if xs != [] {
      SortDescStable(xs[1..], key, v);
      InsertKeepsTies(xs[0], SortDesc(xs[1..], key), key, v);
    }
  }

  /** `sorted(xs, key=..., reverse=True)[:k]`: the best `k` elements, in
      descending order, each taken from `xs`. */
  lemma TopSorted<T>(xs: seq<T>, key: T -> real, k: int)
    ensures var r := SliceTo(SortDesc(xs, key), k);
      Descending(r, key)
      && (k >= 0 ==> |r| <= k)
      && (forall x :: x in r ==> x in xs)
  {
    var s := SortDesc(xs, key);
    SortDescSorted(xs, key);
    var r := SliceTo(s, k);
    forall x | x in r
      ensures x in xs
    {
      assert x in multiset(s);
    }
  }

  /** The cut keeps the best: every element of `xs` left out of
      `sorted(xs, ...)[:k]` scores no higher than any element kept. */
  lemma TopIsBest<T>(xs: seq<T>, key: T -> real, k: int)
    ensures var r := SliceTo(SortDesc(xs, key), k);
      forall x, y :: x in multiset(xs) - multiset(r) && y in r ==> key(y) >= key(x)
  {
    var s := SortDesc(xs, key);
    SortDescSorted(xs, key);
    var r := SliceTo(s, k);
    var rest := s[|r|..];
    assert s == r + rest;
    assert multiset(xs) == multiset(r) + multiset(rest);
    forall x, y | x in multiset(xs) - multiset(r) && y in r
      ensures key(y) >= key(x)
    {
      assert x in multiset(rest);
      var j :| 0 <= j < |rest| && rest[j] == x;
      var i :| 0 <= i < |r| && r[i] == y;
      assert s[i] == y && s[|r| + j] == x;
    }
  }

  /** The filter of a list keeps the elements satisfying `p`, in order. */
  function Filter<T>(xs: seq<T>, p: T -> bool): (r: seq<T>)
    ensures |r| <= |xs|
    ensures forall i :: 0 <= i < |r| ==> r[i] in xs && p(r[i])
    ensures forall i :: 0 <= i < |xs| && p(xs[i]) ==> xs[i] in r
  {
    if xs == [] then []
    else (if p(xs[0]) then [xs[0]] else []) + Filter(xs[1..], p)
  }

  lemma FilterSnoc<T>(xs: seq<T>, x: T, p: T -> bool)
    ensures Filter(xs + [x], p) == Filter(xs, p) + (if p(x) then [x] else [])
  {
    if xs != [] {
      assert (xs + [x])[1..] == xs[1..] + [x];
      FilterSnoc(xs[1..], x, p);
    } else {
      assert [x][1..] == [];
    }
  }

  /** A sequence without repetitions counts each element at most once. */
  lemma {:induction false} MultisetOfDistinct<T>(xs: seq<T>)
    requires Distinct(xs)
    ensures forall x :: multiset(xs)[x] <= 1
  {
    if xs != [] {
      var init := xs[..|xs| - 1];
      assert xs == init + [xs[|xs| - 1]];
      MultisetOfDistinct(init);
      assert xs[|xs| - 1] !in multiset(init);
    }
  }

  /** A sequence whose multiset counts each element at most once has no
      repetitions. */
  lemma DistinctFromMultiset<T>(xs: seq<T>)
    requires forall x :: multiset(xs)[x] <= 1
    ensures Distinct(xs)
  {
    forall i, j | 0 <= i < j < |xs|
      ensures xs[i] != xs[j]
    {
      var x := xs[i];
      assert xs == xs[..j] + xs[j..];
      assert x in multiset(xs[..j]);
      assert multiset(xs)[x] == multiset(xs[..j])[x] + multiset(xs[j..])[x];
      assert xs[j] in multiset(xs[j..]);
    }
  }

  /** Sorting keeps a sequence without repetitions free of them, and keeps
      its elements. */
  lemma SortKeepsDistinct<T>(xs: seq<T>, key: T -> real)
    requires Distinct(xs)
    ensures Distinct(SortDesc(xs, key))
    ensures forall x :: x in SortDesc(xs, key) <==> x in xs
  {
    var s := SortDesc(xs, key);
    MultisetOfDistinct(xs);
    DistinctFromMultiset(s);
    forall x
      ensures x in s <==> x in xs
    {
      assert x in s <==> x in multiset(s);
      assert x in xs <==> x in multiset(xs);
    }
  }
}
