/** Sorting by a strict order, and the uniqueness of the sorted list. */
module Ordering {

  ghost predicate StrictOrder<T(!new)>(before: (T, T) -> bool) {
    && (forall a :: !before(a, a))
    && (forall a, b, c :: before(a, b) && before(b, c) ==> before(a, c))
  }

  /** Any two different elements of the list are comparable. */
  ghost predicate Comparable<T(!new)>(before: (T, T) -> bool, xs: seq<T>) {
    forall a, b :: a in xs && b in xs && a != b ==> before(a, b) || before(b, a)
  }

  ghost predicate Distinct<T>(xs: seq<T>) {
    forall i, j :: 0 <= i < j < |xs| ==> xs[i] != xs[j]
  }

  ghost predicate Ascending<T>(before: (T, T) -> bool, xs: seq<T>) {
    forall i, j :: 0 <= i < j < |xs| ==> before(xs[i], xs[j])
  }

  /** Python's `sorted`: a stable insertion sort. */
  function SortBy<T>(before: (T, T) -> bool, xs: seq<T>): (r: seq<T>)
    ensures multiset(r) == multiset(xs)
    ensures |r| == |xs|
  {
    if xs == [] then []
    else
      var n := |xs| - 1;
      assert xs == xs[..n] + [xs[n]];
      Insert(before, xs[n], SortBy(before, xs[..n]))
  }

  function Insert<T>(before: (T, T) -> bool, x: T, xs: seq<T>): (r: seq<T>)
    ensures multiset(r) == multiset(xs) + multiset{x}
    ensures |r| == |xs| + 1
  {
    if xs == [] then [x]
    else
      var n := |xs| - 1;
      assert xs == xs[..n] + [xs[n]];
      if before(x, xs[n]) then Insert(before, x, xs[..n]) + [xs[n]] else xs + [x]
  }

  lemma SameMembers<T>(xs: seq<T>, ys: seq<T>, x: T)
    requires multiset(xs) == multiset(ys)
    ensures x in xs <==> x in ys
  {
    assert x in xs <==> x in multiset(xs);
    assert x in ys <==> x in multiset(ys);
  }

  lemma {:induction false} InsertAscending<T(!new)>(before: (T, T) -> bool, x: T, xs: seq<T>)
    requires StrictOrder(before) && Ascending(before, xs)
    requires forall y :: y in xs ==> before(x, y) || before(y, x)
    ensures Ascending(before, Insert(before, x, xs))
  {
    if xs != [] {
      var n := |xs| - 1;
      if before(x, xs[n]) {
        InsertAscending(before, x, xs[..n]);
        var r := Insert(before, x, xs[..n]);
        forall i | 0 <= i < |r| ensures before(r[i], xs[n]) {
          assert r[i] in multiset(r);
          assert r[i] in multiset(xs[..n]) + multiset{x};
          if r[i] != x {
            assert r[i] in multiset(xs[..n]);
            assert r[i] in xs[..n];
          }
        }
      }
    }
  }

  lemma {:induction false} SortByAscending<T(!new)>(before: (T, T) -> bool, xs: seq<T>)
    requires StrictOrder(before) && Comparable(before, xs) && Distinct(xs)
    ensures Ascending(before, SortBy(before, xs))
  {
    if xs != [] {
      var n := |xs| - 1;
      SortByAscending(before, xs[..n]);
      var r := SortBy(before, xs[..n]);
      forall y | y in r ensures before(xs[n], y) || before(y, xs[n]) {
        SameMembers(r, xs[..n], y);
      }
      InsertAscending(before, xs[n], r);
    }
  }

  lemma AscendingLast<T(!new)>(before: (T, T) -> bool, xs: seq<T>, ys: seq<T>)
    requires StrictOrder(before) && xs != []
    requires Ascending(before, xs) && Ascending(before, ys)
    requires multiset(xs) == multiset(ys)
    ensures |xs| == |ys| && xs[|xs| - 1] == ys[|xs| - 1]
  {
    assert |xs| == |multiset(xs)| == |multiset(ys)| == |ys|;
    var n := |xs| - 1;
    SameMembers(xs, ys, xs[n]);
    SameMembers(xs, ys, ys[n]);
    var i :| 0 <= i < |ys| && ys[i] == xs[n];
    var j :| 0 <= j < |xs| && xs[j] == ys[n];
    assert !(i < n && j < n);
  }

  lemma WithoutLast<T>(xs: seq<T>)
    requires xs != []
    ensures xs == xs[..|xs| - 1] + [xs[|xs| - 1]]
    ensures multiset(xs[..|xs| - 1]) == multiset(xs) - multiset{xs[|xs| - 1]}
  {
  }

  /** The last element of one list has a place in any permutation of it, and without it the two are
      still permutations of each other. */
  lemma Matched<T>(xs: seq<T>, ys: seq<T>) returns (j: nat)
    requires xs != [] && multiset(xs) == multiset(ys)
    ensures |xs| == |ys| && j < |ys| && ys[j] == xs[|xs| - 1]
    ensures multiset(xs[..|xs| - 1]) == multiset(ys[..j] + ys[j + 1..])
    ensures ys == ys[..j] + ([ys[j]] + ys[j + 1..])
  {
    assert |xs| == |multiset(xs)| == |multiset(ys)| == |ys|;
    SameMembers(xs, ys, xs[|xs| - 1]);
    j :| 0 <= j < |ys| && ys[j] == xs[|xs| - 1];
    WithoutLast(xs);
    assert ys == ys[..j] + ([ys[j]] + ys[j + 1..]);
    assert multiset(ys) == multiset(ys[..j]) + multiset([ys[j]] + ys[j + 1..]);
  }

  /** What is computed element by element from permuted lists is permuted. */
  lemma {:induction false} ImagesPermuted<T, U>(xs: seq<T>, ys: seq<T>, us: seq<U>, vs: seq<U>)
    requires |us| == |xs| && |vs| == |ys| && multiset(xs) == multiset(ys)
    requires forall i, j :: 0 <= i < |xs| && 0 <= j < |ys| && xs[i] == ys[j] ==> us[i] == vs[j]
    ensures multiset(us) == multiset(vs)
  {
    if xs == [] {
      assert |ys| == |multiset(ys)| == |multiset(xs)|;
    } else {
      var j := Matched(xs, ys);
      var last := |xs| - 1;
      ImagesPermuted(xs[..last], ys[..j] + ys[j + 1..], us[..last], vs[..j] + vs[j + 1..]);
      assert us == us[..last] + [us[last]];
      assert vs == vs[..j] + ([vs[j]] + vs[j + 1..]);
      assert multiset(vs) == multiset(vs[..j]) + multiset([vs[j]] + vs[j + 1..]);
    }
  }

  /** Two ascending lists of the same elements are the same list. */
  lemma {:induction false} AscendingUnique<T(!new)>(before: (T, T) -> bool, xs: seq<T>, ys: seq<T>)
    requires StrictOrder(before)
    requires Ascending(before, xs) && Ascending(before, ys)
    requires multiset(xs) == multiset(ys)
    ensures xs == ys
  {
    assert |xs| == |multiset(xs)| == |multiset(ys)| == |ys|;
    if xs != [] {
      var n := |xs| - 1;
      AscendingLast(before, xs, ys);
      WithoutLast(xs);
      WithoutLast(ys);
      AscendingUnique(before, xs[..n], ys[..n]);
    }
  }

  /** Sorting forgets the order its input came in. */
  lemma SortByCanonical<T(!new)>(before: (T, T) -> bool, xs: seq<T>, ys: seq<T>)
    requires StrictOrder(before) && Comparable(before, xs) && Distinct(xs)
    requires multiset(xs) == multiset(ys)
    ensures SortBy(before, xs) == SortBy(before, ys)
  {
    assert |xs| == |multiset(xs)| == |multiset(ys)| == |ys|;
    forall a | a in ys ensures a in xs { SameMembers(xs, ys, a); }
    DistinctPermutation(xs, ys);
    SortByAscending(before, xs);
    SortByAscending(before, ys);
    AscendingUnique(before, SortBy(before, xs), SortBy(before, ys));
  }

  lemma {:induction false} DistinctCounts<T(!new)>(xs: seq<T>)
    ensures Distinct(xs) <==> forall x :: multiset(xs)[x] <= 1
  {
    if xs != [] {
      var n := |xs| - 1;
      assert xs == xs[..n] + [xs[n]];
      DistinctCounts(xs[..n]);
      if Distinct(xs) {
        assert xs[n] !in xs[..n];
        assert multiset(xs[..n])[xs[n]] == 0;
      }
      if forall x :: multiset(xs)[x] <= 1 {
        assert forall x :: multiset(xs[..n])[x] <= multiset(xs)[x];
        assert multiset(xs[..n])[xs[n]] == 0;
        assert xs[n] !in xs[..n];
      }
    }
  }

  lemma DistinctPermutation<T(!new)>(xs: seq<T>, ys: seq<T>)
    requires Distinct(xs) && multiset(xs) == multiset(ys)
    ensures Distinct(ys)
  {
    DistinctCounts(xs);
    DistinctCounts(ys);
  }

  // ---------------------------------------------------------------- sorting with ties

  /** No element comes before an earlier one. */
  ghost predicate Sorted<T>(before: (T, T) -> bool, xs: seq<T>) {
    forall i, j :: 0 <= i < j < |xs| ==> !before(xs[j], xs[i])
  }

  /** The order of a sort key: elements may tie. */
  ghost predicate KeyOrder<T(!new)>(before: (T, T) -> bool) {
    && (forall a, b :: before(a, b) ==> !before(b, a))
    && (forall a, b, c :: !before(a, b) && !before(b, c) ==> !before(a, c))
  }

  lemma {:induction false} InsertSorted<T(!new)>(before: (T, T) -> bool, x: T, xs: seq<T>)
    requires KeyOrder(before) && Sorted(before, xs)
    ensures Sorted(before, Insert(before, x, xs))
  {
    if xs != [] {
      var n := |xs| - 1;
      if before(x, xs[n]) {
        InsertSorted(before, x, xs[..n]);
        var r := Insert(before, x, xs[..n]);
        forall i | 0 <= i < |r| ensures !before(xs[n], r[i]) {
          assert r[i] in multiset(r);
          if r[i] != x {
            assert r[i] in multiset(xs[..n]);
            assert r[i] in xs[..n];
          }
        }
      }
    }
  }

  lemma {:induction false} SortBySorted<T(!new)>(before: (T, T) -> bool, xs: seq<T>)
    requires KeyOrder(before)
    ensures Sorted(before, SortBy(before, xs))
  {
    if xs != [] {
      SortBySorted(before, xs[..|xs| - 1]);
      InsertSorted(before, xs[|xs| - 1], SortBy(before, xs[..|xs| - 1]));
    }
  }
}
