/**
 * `Array.prototype.sort` as the router uses it.
 *
 * With a comparator `(x, y) => rank(y) - rank(x)` the engine sorts stably
 * (required since ECMAScript 2019), so the result is unique: descending by
 * rank, ties in their original order. `SortDesc` is that result, computed by
 * insertion. Without a comparator strings are sorted by code units; `SortStrings`
 * is that order on duplicate-free lists.
 */
module Sorting {
  import opened Js

  ghost predicate SortedDesc<T>(xs: seq<T>, rank: T -> int) {
    forall i, j :: 0 <= i < j < |xs| ==> rank(xs[i]) >= rank(xs[j])
  }

  /** `a` may stand before `b`: higher `r1`, or equal `r1` and at least the same `r2`. */
  ghost predicate LexAbove<T>(a: T, b: T, r1: T -> int, r2: T -> int) {
    r1(a) > r1(b) || (r1(a) == r1(b) && r2(a) >= r2(b))
  }

  /** Ordered by `r1` descending and, among equal `r1`, by `r2` descending. */
  ghost predicate LexSortedDesc<T>(xs: seq<T>, r1: T -> int, r2: T -> int) {
    forall i, j :: 0 <= i < j < |xs| ==> LexAbove(xs[i], xs[j], r1, r2)
  }

  /** The elements of rank `k`, in order. */
  function Ties<T>(xs: seq<T>, rank: T -> int, k: int): seq<T> {
    if xs == [] then []
    else (if rank(xs[0]) == k then [xs[0]] else []) + Ties(xs[1..], rank, k)
  }

  /** Places `x` after every element whose rank is at least its own. */
  function Insert<T>(xs: seq<T>, x: T, rank: T -> int): seq<T> {
    if xs == [] then [x]
    else if rank(x) > rank(xs[0]) then [x] + xs
    else [xs[0]] + Insert(xs[1..], x, rank)
  }

  /** The stable descending sort of `xs` by `rank`. */
  function SortDesc<T>(xs: seq<T>, rank: T -> int): seq<T> {
    if xs == [] then []
    else Insert(SortDesc(xs[..|xs| - 1], rank), xs[|xs| - 1], rank)
  }

  lemma {:induction false} InsertPermutation<T>(xs: seq<T>, x: T, rank: T -> int)
    ensures multiset(Insert(xs, x, rank)) == multiset(xs) + multiset{x}
    ensures |Insert(xs, x, rank)| == |xs| + 1
  {
    if xs != [] && rank(x) <= rank(xs[0]) {
      InsertPermutation(xs[1..], x, rank);
      assert xs == [xs[0]] + xs[1..];
    }
  }

  /** The sort only reorders. */
  lemma {:induction false} SortDescPermutation<T>(xs: seq<T>, rank: T -> int)
    ensures multiset(SortDesc(xs, rank)) == multiset(xs)
    ensures |SortDesc(xs, rank)| == |xs|
  {
    if xs != [] {
      var init, last := xs[..|xs| - 1], xs[|xs| - 1];
      SortDescPermutation(init, rank);
      InsertPermutation(SortDesc(init, rank), last, rank);
      assert xs == init + [last];
    }
  }

  /** What `Insert` returns holds `x` and the elements of `xs`, nothing else. */
  lemma InsertMembers<T>(xs: seq<T>, x: T, rank: T -> int)
    ensures forall e :: e in Insert(xs, x, rank) ==> e == x || e in xs
  {
    InsertPermutation(xs, x, rank);
    forall e | e in Insert(xs, x, rank) ensures e == x || e in xs {
      assert e in multiset(Insert(xs, x, rank));
    }
  }

  lemma ConsSorted<T>(h: T, tail: seq<T>, rank: T -> int)
    requires SortedDesc(tail, rank)
    requires forall e :: e in tail ==> rank(h) >= rank(e)
    ensures SortedDesc([h] + tail, rank)
  {
    var ys := [h] + tail;
    forall i, j | 0 <= i < j < |ys| ensures rank(ys[i]) >= rank(ys[j]) {
      assert ys[j] == tail[j - 1];
      if i > 0 {
        assert ys[i] == tail[i - 1];
      }
    }
  }

  lemma {:induction false} InsertSorted<T>(xs: seq<T>, x: T, rank: T -> int)
    requires SortedDesc(xs, rank)
    ensures SortedDesc(Insert(xs, x, rank), rank)
  {
    if xs != [] && rank(x) <= rank(xs[0]) {
      var tail := Insert(xs[1..], x, rank);
      InsertSorted(xs[1..], x, rank);
      InsertMembers(xs[1..], x, rank);
      forall e | e in tail ensures rank(xs[0]) >= rank(e) {
        if e != x {
          var i :| 0 <= i < |xs[1..]| && xs[1..][i] == e;
          assert xs[1 + i] == e;
        }
      }
      ConsSorted(xs[0], tail, rank);
    }
  }

  /** The sort orders by rank, highest first. */
  lemma {:induction false} SortDescSorted<T>(xs: seq<T>, rank: T -> int)
    ensures SortedDesc(SortDesc(xs, rank), rank)
  {
    if xs != [] {
      SortDescSorted(xs[..|xs| - 1], rank);
      InsertSorted(SortDesc(xs[..|xs| - 1], rank), xs[|xs| - 1], rank);
    }
  }

  lemma {:induction false} TiesAppend<T>(xs: seq<T>, ys: seq<T>, rank: T -> int, k: int)
    ensures Ties(xs + ys, rank, k) == Ties(xs, rank, k) + Ties(ys, rank, k)
  {
    if xs == [] {
      assert xs + ys == ys;
    } else {
      var h, t := xs[0], xs[1..];
      TiesAppend(t, ys, rank, k);
      assert xs == [h] + t && xs + ys == [h] + (t + ys);
      TiesCons(h, t, rank, k);
      TiesCons(h, t + ys, rank, k);
      var own := if rank(h) == k then [h] else [];
      assert own + (Ties(t, rank, k) + Ties(ys, rank, k)) == (own + Ties(t, rank, k)) + Ties(ys, rank, k);
    }
  }

  /** The ties of a list with a given head. */
  lemma TiesCons<T>(h: T, t: seq<T>, rank: T -> int, k: int)
    ensures Ties([h] + t, rank, k) == (if rank(h) == k then [h] else []) + Ties(t, rank, k)
  {
    assert ([h] + t)[1..] == t;
  }

  lemma SortedTail<T>(xs: seq<T>, rank: T -> int)
    requires xs != [] && SortedDesc(xs, rank)
    ensures SortedDesc(xs[1..], rank)
  {
    forall i, j | 0 <= i < j < |xs[1..]| ensures rank(xs[1..][i]) >= rank(xs[1..][j]) {
      assert xs[1..][i] == xs[i + 1] && xs[1..][j] == xs[j + 1];
    }
  }

  lemma {:induction false} InsertTies<T>(xs: seq<T>, x: T, rank: T -> int, k: int)
    requires SortedDesc(xs, rank)
    ensures Ties(Insert(xs, x, rank), rank, k)
         == Ties(xs, rank, k) + (if rank(x) == k then [x] else [])
  {
    if xs == [] {
      TiesCons(x, [], rank, k);
      assert [x] + [] == [x];
    } else if rank(x) > rank(xs[0]) {
      InsertTiesFront(xs, x, rank, k);
    } else {
      SortedTail(xs, rank);
      InsertTies(xs[1..], x, rank, k);
      InsertTiesBehind(xs, x, rank, k);
    }
  }

  /** `x` goes in front of a sorted list whose head ranks below it. */
  lemma InsertTiesFront<T>(xs: seq<T>, x: T, rank: T -> int, k: int)
    requires SortedDesc(xs, rank) && xs != [] && rank(x) > rank(xs[0])
    ensures Ties(Insert(xs, x, rank), rank, k)
         == Ties(xs, rank, k) + (if rank(x) == k then [x] else [])
  {
    assert Insert(xs, x, rank) == [x] + xs;
    TiesCons(x, xs, rank, k);
    if rank(x) == k {
      NoTiesBelow(xs, rank, k);
    }
  }

  /** `x` goes behind the head: the head's tie, then those of the insertion into the tail. */
  lemma InsertTiesBehind<T>(xs: seq<T>, x: T, rank: T -> int, k: int)
    requires xs != [] && rank(x) <= rank(xs[0])
    requires Ties(Insert(xs[1..], x, rank), rank, k)
          == Ties(xs[1..], rank, k) + (if rank(x) == k then [x] else [])
    ensures Ties(Insert(xs, x, rank), rank, k)
         == Ties(xs, rank, k) + (if rank(x) == k then [x] else [])
  {
    var h, t := xs[0], xs[1..];
    var own := if rank(x) == k then [x] else [];
    var head := if rank(h) == k then [h] else [];
    var rest := Insert(t, x, rank);
    assert Insert(xs, x, rank) == [h] + rest;
    TiesCons(h, rest, rank, k);
    TiesCons(h, t, rank, k);
    assert [h] + t == xs;
    var a, b := Ties(t, rank, k), Ties(rest, rank, k);
    assert b == a + own;
    assert head + (a + own) == (head + a) + own;
  }

  lemma {:induction false} NoTiesBelow<T>(xs: seq<T>, rank: T -> int, k: int)
    requires SortedDesc(xs, rank)
    requires xs != [] && rank(xs[0]) < k
    ensures Ties(xs, rank, k) == []
  {
    if |xs| > 1 {
      NoTiesBelow(xs[1..], rank, k);
    }
  }

  /** Stability: the elements of each rank keep their original order. */
  lemma {:induction false} SortDescStable<T>(xs: seq<T>, rank: T -> int, k: int)
    ensures Ties(SortDesc(xs, rank), rank, k) == Ties(xs, rank, k)
  {
    if xs != [] {
      var init, last := xs[..|xs| - 1], xs[|xs| - 1];
      var own := if rank(last) == k then [last] else [];
      assert Ties(xs, rank, k) == Ties(init, rank, k) + own by {
        assert xs == init + [last];
        TiesAppend(init, [last], rank, k);
        assert [last][1..] == [];
      }
      assert Ties(SortDesc(xs, rank), rank, k) == Ties(SortDesc(init, rank), rank, k) + own by {
        SortDescSorted(init, rank);
        InsertTies(SortDesc(init, rank), last, rank, k);
      }
      SortDescStable(init, rank, k);
    }
  }

  lemma ConsLexSorted<T>(h: T, tail: seq<T>, r1: T -> int, r2: T -> int)
    requires LexSortedDesc(tail, r1, r2)
    requires forall e :: e in tail ==> LexAbove(h, e, r1, r2)
    ensures LexSortedDesc([h] + tail, r1, r2)
  {
    var ys := [h] + tail;
    forall i, j | 0 <= i < j < |ys| ensures LexAbove(ys[i], ys[j], r1, r2) {
      assert ys[j] == tail[j - 1];
      if i > 0 {
        assert ys[i] == tail[i - 1];
      }
    }
  }

  lemma {:induction false} InsertLex<T>(xs: seq<T>, x: T, r1: T -> int, r2: T -> int)
    requires LexSortedDesc(xs, r1, r2)
    requires forall e :: e in xs ==> r2(e) >= r2(x)
    ensures LexSortedDesc(Insert(xs, x, r1), r1, r2)
  {
    if xs != [] && r1(x) <= r1(xs[0]) {
      var tail := Insert(xs[1..], x, r1);
      assert forall e :: e in xs[1..] ==> e in xs;
      InsertLex(xs[1..], x, r1, r2);
      InsertMembers(xs[1..], x, r1);
      forall e | e in tail ensures LexAbove(xs[0], e, r1, r2) {
        if e != x {
          var i :| 0 <= i < |xs[1..]| && xs[1..][i] == e;
          assert xs[1 + i] == e;
        }
      }
      ConsLexSorted(xs[0], tail, r1, r2);
    }
  }

  /**
   * Sorting a list already ordered by `r2` stably by `r1` orders it by `r1`
   * and then by `r2`: the two chained sorts of `findAll`.
   */
  lemma {:induction false} SortAfterSortIsLex<T>(xs: seq<T>, r1: T -> int, r2: T -> int)
    requires SortedDesc(xs, r2)
    ensures LexSortedDesc(SortDesc(xs, r1), r1, r2)
  {
    if xs != [] {
      var init, last := xs[..|xs| - 1], xs[|xs| - 1];
      SortAfterSortIsLex(init, r1, r2);
      SortDescPermutation(init, r1);
      forall e | e in SortDesc(init, r1) ensures r2(e) >= r2(last) {
        assert e in multiset(SortDesc(init, r1));
        assert e in multiset(init);
        var i :| 0 <= i < |init| && init[i] == e;
        assert xs[i] == e;
      }
      InsertLex(SortDesc(init, r1), last, r1, r2);
    }
  }

  /** Strictly ascending in code-unit order. */
  ghost predicate StrictlyAscending(xs: seq<string>) {
    forall i, j :: 0 <= i < j < |xs| ==> StrLess(xs[i], xs[j])
  }

  function InsertString(xs: seq<string>, x: string): seq<string> {
    if xs == [] then [x]
    else if StrLess(x, xs[0]) then [x] + xs
    else [xs[0]] + InsertString(xs[1..], x)
  }

  /** `xs.sort()` with no comparator. */
  function SortStrings(xs: seq<string>): seq<string> {
    if xs == [] then [] else InsertString(SortStrings(xs[1..]), xs[0])
  }

  /** Each element is below the next one. */
  ghost predicate AscendingAdjacent(xs: seq<string>) {
    forall i :: 0 < i < |xs| ==> StrLess(xs[i - 1], xs[i])
  }

  lemma ConsAdjacent(h: string, tail: seq<string>)
    requires AscendingAdjacent(tail)
    requires tail != [] ==> StrLess(h, tail[0])
    ensures AscendingAdjacent([h] + tail)
  {
    var ys := [h] + tail;
    forall i | 0 < i < |ys| ensures StrLess(ys[i - 1], ys[i]) {
      assert ys[i] == tail[i - 1];
      if i > 1 {
        assert ys[i - 1] == tail[i - 2];
      }
    }
  }

  /** `InsertString` starts with `x` or with the head of `xs`. */
  lemma InsertStringHead(xs: seq<string>, x: string)
    ensures InsertString(xs, x) != []
    ensures InsertString(xs, x)[0] == x || (xs != [] && InsertString(xs, x)[0] == xs[0])
  {
  }

  lemma AdjacentTail(xs: seq<string>)
    requires xs != [] && AscendingAdjacent(xs)
    ensures AscendingAdjacent(xs[1..])
  {
    forall i | 0 < i < |xs[1..]| ensures StrLess(xs[1..][i - 1], xs[1..][i]) {
      assert xs[1..][i - 1] == xs[i] && xs[1..][i] == xs[i + 1];
    }
  }

  /** Keeping the head in front of the inserted tail keeps the order. */
  lemma InsertStringBehind(xs: seq<string>, x: string, tail: seq<string>)
    requires xs != [] && !StrLess(x, xs[0]) && x !in xs && AscendingAdjacent(xs)
    requires tail == InsertString(xs[1..], x) && AscendingAdjacent(tail)
    ensures AscendingAdjacent([xs[0]] + tail)
  {
    InsertStringHead(xs[1..], x);
    assert StrLess(xs[0], tail[0]) by {
      StrLessTotal(x, xs[0]);
      if tail[0] != x {
        assert tail[0] == xs[1];
      }
    }
    ConsAdjacent(xs[0], tail);
  }

  lemma InsertStringCount(xs: seq<string>, x: string, tail: seq<string>)
    requires xs != [] && multiset(tail) == multiset(xs[1..]) + multiset{x}
    ensures multiset([xs[0]] + tail) == multiset(xs) + multiset{x}
  {
    assert xs == [xs[0]] + xs[1..];
  }

  lemma {:induction false} InsertStringFacts(xs: seq<string>, x: string)
    requires AscendingAdjacent(xs) && x !in xs
    ensures AscendingAdjacent(InsertString(xs, x))
    ensures multiset(InsertString(xs, x)) == multiset(xs) + multiset{x}
  {
    if xs == [] {
    } else if StrLess(x, xs[0]) {
      ConsAdjacent(x, xs);
    } else {
      var tail := InsertString(xs[1..], x);
      AdjacentTail(xs);
      InsertStringFacts(xs[1..], x);
      InsertStringBehind(xs, x, tail);
      InsertStringCount(xs, x, tail);
    }
  }

  /** Sorting a duplicate-free list yields each element below the next one. */
  lemma {:induction false} SortStringsFacts(xs: seq<string>)
    requires forall i, j :: 0 <= i < j < |xs| ==> xs[i] != xs[j]
    ensures AscendingAdjacent(SortStrings(xs))
    ensures multiset(SortStrings(xs)) == multiset(xs)
  {
    if xs != [] {
      var sorted := SortStrings(xs[1..]);
      SortStringsFacts(xs[1..]);
      assert xs[0] !in sorted by {
        assert xs[0] !in xs[1..];
        assert xs[0] !in multiset(sorted);
      }
      InsertStringFacts(sorted, xs[0]);
      assert multiset(xs) == multiset{xs[0]} + multiset(xs[1..]) by {
        assert xs == [xs[0]] + xs[1..];
      }
    }
  }

  /** By transitivity, each element is below every later one. */
  lemma {:induction false} AdjacentPairwise(xs: seq<string>)
    requires AscendingAdjacent(xs)
    ensures StrictlyAscending(xs)
  {
    if xs != [] {
      var tail := xs[1..];
      assert AscendingAdjacent(tail) by {
        forall i | 0 < i < |tail| ensures StrLess(tail[i - 1], tail[i]) {
          assert tail[i - 1] == xs[i] && tail[i] == xs[i + 1];
        }
      }
      AdjacentPairwise(tail);
      forall i, j | 0 <= i < j < |xs| ensures StrLess(xs[i], xs[j]) {
        if i > 0 {
          assert xs[i] == tail[i - 1] && xs[j] == tail[j - 1];
        } else if j > 1 {
          assert StrLess(xs[0], xs[1]);
          assert xs[1] == tail[0] && xs[j] == tail[j - 1];
          StrLessTransitive(xs[0], xs[1], xs[j]);
        }
      }
    }
  }

  /** The sorted list has exactly the elements of a duplicate-free input. */
  lemma SortStringsMembers(xs: seq<string>)
    requires forall i, j :: 0 <= i < j < |xs| ==> xs[i] != xs[j]
    ensures StrictlyAscending(SortStrings(xs))
    ensures |SortStrings(xs)| == |xs|
    ensures forall m :: m in SortStrings(xs) <==> m in xs
  {
    SortStringsFacts(xs);
    AdjacentPairwise(SortStrings(xs));
    assert |multiset(SortStrings(xs))| == |multiset(xs)|;
    forall m ensures m in SortStrings(xs) <==> m in xs {
      assert m in SortStrings(xs) <==> m in multiset(SortStrings(xs));
      assert m in xs <==> m in multiset(xs);
    }
  }
}
