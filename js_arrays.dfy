/**
 * The array operations the record logic is built from, as functions on
 * sequences: `find`, `filter`, numeric `sort`, summing `reduce`, and the
 * first-seen order in which an object accumulates its keys.
 */
module JsArrays {
  import opened JsValues

  /** `i` is the index that `s.find(p)` stops at. */
  predicate IsFirstMatch<T>(s: seq<T>, p: T -> bool, i: int) {
    0 <= i < |s| && p(s[i]) && forall j | 0 <= j < i :: !p(s[j])
  }

  /** `s.find(p)`: the first element satisfying `p`, or nothing. */
  function Find<T>(s: seq<T>, p: T -> bool): (r: Option<T>)
    ensures r.None? <==> forall i | 0 <= i < |s| :: !p(s[i])
    ensures forall i | IsFirstMatch(s, p, i) :: r == Some(s[i])
    ensures r.Some? ==> exists i :: IsFirstMatch(s, p, i) && r.value == s[i]
  {
    if s == [] then None
    else if p(s[0]) then
      assert IsFirstMatch(s, p, 0);
      Some(s[0])
    else
      var r := Find(s[1..], p);
      assert forall i | IsFirstMatch(s, p, i) :: IsFirstMatch(s[1..], p, i - 1);
      assert forall i | IsFirstMatch(s[1..], p, i) :: IsFirstMatch(s, p, i + 1);
      r
  }

  /** `find` depends only on which elements pass the test. */
  lemma {:induction false} FindSameTest<T>(s: seq<T>, p: T -> bool, q: T -> bool)
    requires forall i | 0 <= i < |s| :: p(s[i]) == q(s[i])
    ensures Find(s, p) == Find(s, q)
  {
    if s != [] && !p(s[0]) {
      FindSameTest(s[1..], p, q);
    }
  }

  /** `sub` is `s` with some elements removed and the rest kept in order. */
  predicate IsSubsequence<T(==)>(sub: seq<T>, s: seq<T>)
    decreases |s|
  {
    if sub == [] then true
    else if s == [] then false
    else (sub[0] == s[0] && IsSubsequence(sub[1..], s[1..])) || IsSubsequence(sub, s[1..])
  }

  /** `s.filter(p)` */
  function Filter<T(==)>(s: seq<T>, p: T -> bool): (r: seq<T>)
    ensures |r| <= |s|
    ensures IsSubsequence(r, s)
    ensures forall i | 0 <= i < |r| :: p(r[i])
    ensures forall x | x in s && p(x) :: multiset(r)[x] == multiset(s)[x]
    ensures forall x | x in r :: x in s && p(x)
  {
    if s == [] then []
    else
      var rest := Filter(s[1..], p);
      assert s == [s[0]] + s[1..];
      if p(s[0]) then
        assert ([s[0]] + rest)[1..] == rest;
        [s[0]] + rest
      else
        rest
  }

  /** `filter` takes the first element, if it passes, in front of the filtered rest. */
  lemma FilterCons<T>(s: seq<T>, p: T -> bool)
    requires s != []
    ensures Filter(s, p) == (if p(s[0]) then [s[0]] else []) + Filter(s[1..], p)
  {
  }

  /** The positions of `s` whose element passes `p`. */
  function PassingIndices<T>(s: seq<T>, p: T -> bool): set<int> {
    set i | 0 <= i < |s| && p(s[i])
  }

  /** `filter(p).length` is the number of positions whose element passes `p`. */
  lemma FilterLength<T>(s: seq<T>, p: T -> bool)
    ensures |Filter(s, p)| == |PassingIndices(s, p)|
  {
    FilterLengthFrom(s, p, 0);
    assert s[0..] == s;
    assert PassingIndicesFrom(s, p, 0) == PassingIndices(s, p);
  }

  /** The positions from `k` on whose element passes `p`. */
  function PassingIndicesFrom<T>(s: seq<T>, p: T -> bool, k: int): set<int> {
    set i | 0 <= i < |s| && k <= i && p(s[i])
  }

  lemma {:induction false} FilterLengthFrom<T>(s: seq<T>, p: T -> bool, k: int)
    requires 0 <= k <= |s|
    ensures |Filter(s[k..], p)| == |PassingIndicesFrom(s, p, k)|
    decreases |s| - k
  {
    if k < |s| {
      FilterLengthFrom(s, p, k + 1);
      FilterCons(s[k..], p);
      assert s[k..][0] == s[k] && s[k..][1..] == s[k + 1..];
      var head: set<int> := if p(s[k]) then {k} else {};
      assert PassingIndicesFrom(s, p, k) == head + PassingIndicesFrom(s, p, k + 1);
      assert k !in PassingIndicesFrom(s, p, k + 1);
    } else {
      assert PassingIndicesFrom(s, p, k) == {};
    }
  }

  /** `filter` depends only on which elements pass the test. */
  lemma {:induction false} FilterSameTest<T>(s: seq<T>, p: T -> bool, q: T -> bool)
    requires forall i | 0 <= i < |s| :: p(s[i]) == q(s[i])
    ensures Filter(s, p) == Filter(s, q)
  {
    if s != [] {
      FilterSameTest(s[1..], p, q);
    }
  }

  /** A test every element passes keeps the whole array. */
  lemma {:induction false} FilterAll<T>(s: seq<T>, p: T -> bool)
    requires forall i | 0 <= i < |s| :: p(s[i])
    ensures Filter(s, p) == s
  {
    if s != [] {
      FilterAll(s[1..], p);
      assert s == [s[0]] + s[1..];
    }
  }

  /** A test no element passes keeps nothing. */
  lemma FilterNone<T>(s: seq<T>, p: T -> bool)
    requires forall i | 0 <= i < |s| :: !p(s[i])
    ensures Filter(s, p) == []
  {
  }

  /** Splitting by a test and its negation keeps the sum. */
  lemma {:induction false} FilterSplitSum<T>(s: seq<T>, p: T -> bool, q: T -> bool, f: T -> int)
    requires forall i | 0 <= i < |s| :: q(s[i]) == !p(s[i])
    ensures SumBy(Filter(s, p), f) + SumBy(Filter(s, q), f) == SumBy(s, f)
  {
    if s != [] {
      FilterSplitSum(s[1..], p, q, f);
      var rp := Filter(s[1..], p);
      var rq := Filter(s[1..], q);
      if p(s[0]) {
        assert ([s[0]] + rp)[1..] == rp;
      } else {
        assert ([s[0]] + rq)[1..] == rq;
      }
    }
  }

  /** Splitting by a test and its negation loses no element. */
  lemma FilterSplitMultiset<T>(s: seq<T>, p: T -> bool, q: T -> bool)
    requires forall i | 0 <= i < |s| :: q(s[i]) == !p(s[i])
    ensures multiset(Filter(s, p)) + multiset(Filter(s, q)) == multiset(s)
  {
    var rp := Filter(s, p);
    var rq := Filter(s, q);
    forall x ensures multiset(rp)[x] + multiset(rq)[x] == multiset(s)[x] {
      if x in s {
        var i :| 0 <= i < |s| && s[i] == x;
        if p(x) {
          assert x !in rq;
        } else {
          assert x !in rp;
        }
      } else {
        assert x !in rp && x !in rq;
      }
    }
  }

  /** Two tests that no element passes together keep at most `|s|` elements between them. */
  lemma {:induction false} DisjointFilters<T>(s: seq<T>, p: T -> bool, q: T -> bool)
    requires forall i | 0 <= i < |s| :: !(p(s[i]) && q(s[i]))
    ensures |Filter(s, p)| + |Filter(s, q)| <= |s|
  {
    if s != [] {
      DisjointFilters(s[1..], p, q);
    }
  }

  /** `s.reduce((sum, x) => sum + f(x), 0)` */
  function SumBy<T>(s: seq<T>, f: T -> int): int {
    if s == [] then 0 else f(s[0]) + SumBy(s[1..], f)
  }

  lemma {:induction false} SumByConcat<T>(a: seq<T>, b: seq<T>, f: T -> int)
    ensures SumBy(a + b, f) == SumBy(a, f) + SumBy(b, f)
  {
    if a == [] {
      assert a + b == b;
    } else {
      assert (a + b)[1..] == a[1..] + b;
      SumByConcat(a[1..], b, f);
    }
  }

  lemma {:induction false} SumByBounds<T>(s: seq<T>, f: T -> int, lo: int, hi: int)
    requires forall i | 0 <= i < |s| :: lo <= f(s[i]) <= hi
    ensures lo * |s| <= SumBy(s, f) <= hi * |s|
  {
    if s != [] {
      SumByBounds(s[1..], f, lo, hi);
    }
  }

  predicate SortedBy<T>(s: seq<T>, key: T -> int) {
    forall i, j | 0 <= i < j < |s| :: key(s[i]) <= key(s[j])
  }

  /** Puts `x` into the sorted `s` in front of the first element whose key is not smaller. */
  function InsertBy<T>(x: T, s: seq<T>, key: T -> int): (r: seq<T>)
    requires SortedBy(s, key)
    ensures SortedBy(r, key)
    ensures multiset(r) == multiset{x} + multiset(s)
    ensures |r| == |s| + 1
  {
    if s == [] || key(x) <= key(s[0]) then [x] + s
    else
      var rest := InsertBy(x, s[1..], key);
      assert s == [s[0]] + s[1..];
      forall i | 0 <= i < |rest| ensures key(s[0]) <= key(rest[i]) {
        assert rest[i] in multiset(rest);
        if rest[i] != x {
          assert rest[i] in multiset(s[1..]);
        }
      }
      [s[0]] + rest
  }

  /** `s.sort((a, b) => key(a) - key(b))`, as an insertion sort on a fresh copy. */
  function SortBy<T>(s: seq<T>, key: T -> int): (r: seq<T>)
    ensures SortedBy(r, key)
    ensures multiset(r) == multiset(s)
    ensures |r| == |s|
  {
    if s == [] then []
    else
      assert s == [s[0]] + s[1..];
      InsertBy(s[0], SortBy(s[1..], key), key)
  }

  /** Sorting an already sorted sequence leaves it as it is. */
  lemma {:induction false} SortBySorted<T>(s: seq<T>, key: T -> int)
    requires SortedBy(s, key)
    ensures SortBy(s, key) == s
  {
    if s != [] {
      assert SortedBy(s[1..], key);
      SortBySorted(s[1..], key);
      assert s == [s[0]] + s[1..];
    }
  }

  /** Sorting does not change a sum over the elements. */
  lemma {:induction false} InsertBySum<T>(x: T, s: seq<T>, key: T -> int, f: T -> int)
    requires SortedBy(s, key)
    ensures SumBy(InsertBy(x, s, key), f) == f(x) + SumBy(s, f)
  {
    if s != [] && key(x) > key(s[0]) {
      InsertBySum(x, s[1..], key, f);
      assert ([s[0]] + InsertBy(x, s[1..], key))[1..] == InsertBy(x, s[1..], key);
    } else {
      assert ([x] + s)[1..] == s;
    }
  }

  lemma {:induction false} SortBySum<T>(s: seq<T>, key: T -> int, f: T -> int)
    ensures SumBy(SortBy(s, key), f) == SumBy(s, f)
  {
    if s != [] {
      SortBySum(s[1..], key, f);
      InsertBySum(s[0], SortBy(s[1..], key), key, f);
    }
  }

  /** No value occurs twice in `s`. */
  predicate Distinct<T(==)>(s: seq<T>) {
    forall i, j | 0 <= i < j < |s| :: s[i] != s[j]
  }

  /**
   * The keys an object acquires when it is given `s[0]`, `s[1]`, ... in turn:
   * each value once, in the order of its first occurrence.
   */
  function FirstSeen<T(==)>(s: seq<T>): (r: seq<T>)
    ensures forall x | x in r :: x in s
    ensures forall x | x in s :: x in r
    ensures Distinct(r)
    ensures |r| <= |s|
  {
    if s == [] then []
    else
      var p := FirstSeen(s[..|s| - 1]);
      var x := s[|s| - 1];
      assert s == s[..|s| - 1] + [x];
      if x in p then p else p + [x]
  }

  /** In `FirstSeen(s)`, every key before `r[j]` already occurs in `s` before any occurrence of `r[j]`. */
  lemma {:induction false} FirstSeenFollowsFirstOccurrence<T>(s: seq<T>)
    ensures forall i, j, k | 0 <= i < j < |FirstSeen(s)| && 0 <= k < |s| && s[k] == FirstSeen(s)[j] ::
              FirstSeen(s)[i] in s[..k]
  {
    if s != [] {
      var p := s[..|s| - 1];
      var x := s[|s| - 1];
      assert s == p + [x];
      FirstSeenFollowsFirstOccurrence(p);
      var rp := FirstSeen(p);
      var r := FirstSeen(s);
      assert forall k | 0 <= k < |p| :: s[..k] == p[..k];
      assert s[..|p|] == p;
      forall i, j, k | 0 <= i < j < |r| && 0 <= k < |s| && s[k] == r[j] ensures r[i] in s[..k] {
        assert r[i] == rp[i] && rp[i] in rp;
        if k < |p| {
          assert p[k] == s[k];
          if j == |rp| {
            assert false;
          } else {
            assert r[j] == rp[j] && p[k] == rp[j];
            assert rp[i] in p[..k];
          }
        } else {
          assert s[..k] == p;
        }
      }
    }
  }

  /** How many times `x` occurs in `s`. */
  function Occurrences<T(==)>(s: seq<T>, x: T): (n: nat)
    ensures n <= |s|
    ensures n > 0 <==> x in s
  {
    if s == [] then 0
    else
      assert s == s[..|s| - 1] + [s[|s| - 1]];
      Occurrences(s[..|s| - 1], x) + (if s[|s| - 1] == x then 1 else 0)
  }

  /** `new Set(s)`: the values occurring in `s`. */
  function SetOf<T(==)>(s: seq<T>): (r: set<T>)
    ensures forall x | x in r :: x in s
    ensures forall x | x in s :: x in r
  {
    set x | x in s
  }

  /** `new Set(s).size` is at most `s.length`, and 0 only for the empty array. */
  lemma {:induction false} SetOfSize<T>(s: seq<T>)
    ensures |SetOf(s)| <= |s|
    ensures |SetOf(s)| == 0 <==> s == []
  {
    if s != [] {
      SetOfSize(s[1..]);
      assert SetOf(s) == {s[0]} + SetOf(s[1..]);
      assert s[0] in SetOf(s);
    }
  }

  /** Mapping a finite set cannot make it larger. */
  lemma {:induction false} ImageSize<X, Y>(a: set<X>, g: X -> Y)
    ensures |(set x | x in a :: g(x))| <= |a|
  {
    if a != {} {
      var x :| x in a;
      var rest := a - {x};
      ImageSize(rest, g);
      var img := set y | y in a :: g(y);
      var imgRest := set y | y in rest :: g(y);
      assert img == imgRest + {g(x)};
    }
  }

  /** A set each of whose elements is the image of an element of `b` is no larger than `b`. */
  lemma CoveredSize<X, Y>(a: set<Y>, b: set<X>, g: X -> Y)
    requires forall y | y in a :: exists x | x in b :: g(x) == y
    ensures |a| <= |b|
  {
    var image := set x | x in b :: g(x);
    ImageSize(b, g);
    SubsetSize(a, image);
  }

  lemma {:induction false} SubsetSize<T>(a: set<T>, b: set<T>)
    requires a <= b
    ensures |a| <= |b|
  {
    if a != {} {
      var x :| x in a;
      SubsetSize(a - {x}, b - {x});
    }
  }

  lemma FirstSeenSnoc<T>(p: seq<T>, x: T)
    ensures FirstSeen(p + [x]) == if x in FirstSeen(p) then FirstSeen(p) else FirstSeen(p) + [x]
  {
    assert (p + [x])[..|p|] == p;
  }

  lemma OccurrencesSnoc<T>(p: seq<T>, x: T, k: T)
    ensures Occurrences(p + [x], k) == Occurrences(p, k) + (if x == k then 1 else 0)
  {
    assert (p + [x])[..|p|] == p;
  }
}
