/** The array operations the stores and the statistics are built from:
    `filter`, `findIndex`, a stable `sort` by a numeric key, and sums. */
module Sequences {

  /** `s.filter(keep)`: the elements `keep` accepts, in their order. */
  function Filter<T>(s: seq<T>, keep: T -> bool): (r: seq<T>)
    ensures |r| <= |s|
    ensures forall i :: 0 <= i < |r| ==> r[i] in s && keep(r[i])
    ensures forall i :: 0 <= i < |s| && keep(s[i]) ==> s[i] in r
  {
    if |s| == 0 then []
    else if keep(s[0]) then [s[0]] + Filter(s[1..], keep)
    else Filter(s[1..], keep)
  }

  /** A non-empty list is its front followed by its last element. */
  lemma SplitLast<T>(s: seq<T>)
    requires |s| > 0
    ensures s == s[..|s| - 1] + [s[|s| - 1]]
  {
  }

  /** Filtering keeps order: it works piece by piece. */
  lemma {:induction false} FilterAppend<T>(s: seq<T>, t: seq<T>, keep: T -> bool)
    ensures Filter(s + t, keep) == Filter(s, keep) + Filter(t, keep)
  {
    if |s| > 0 {
      assert (s + t)[1..] == s[1..] + t;
      FilterAppend(s[1..], t, keep);
    } else {
      assert s + t == t;
    }
  }

  /** Filtering an already filtered list changes nothing. */
  lemma {:induction false} FilterIdempotent<T>(s: seq<T>, keep: T -> bool)
    ensures Filter(Filter(s, keep), keep) == Filter(s, keep)
  {
    if |s| > 0 {
      FilterIdempotent(s[1..], keep);
    }
  }

  /** A filter that accepts everything returns the list itself. */
  lemma {:induction false} FilterAll<T>(s: seq<T>, keep: T -> bool)
    requires forall i :: 0 <= i < |s| ==> keep(s[i])
    ensures Filter(s, keep) == s
  {
    if |s| > 0 {
      FilterAll(s[1..], keep);
    }
  }

  lemma {:induction false} FilterMultiset<T>(s: seq<T>, keep: T -> bool)
    ensures multiset(Filter(s, keep)) <= multiset(s)
  {
    if |s| > 0 {
      FilterMultiset(s[1..], keep);
      assert s == [s[0]] + s[1..];
    }
  }

  /** `s.findIndex(p)`: the first index whose element `p` accepts, or -1. */
  function FindIndex<T>(s: seq<T>, p: T -> bool): (i: int)
    ensures -1 <= i < |s|
    ensures i == -1 <==> forall k :: 0 <= k < |s| ==> !p(s[k])
    ensures 0 <= i ==> p(s[i]) && forall k :: 0 <= k < i ==> !p(s[k])
  {
    if |s| == 0 then -1
    else if p(s[0]) then 0
    else
      var j := FindIndex(s[1..], p);
      if j == -1 then -1 else j + 1
  }

  /** The sum of `f` over the elements. */
  function SumBy<T>(s: seq<T>, f: T -> int): int {
    if |s| == 0 then 0 else f(s[0]) + SumBy(s[1..], f)
  }

  /** Counting the elements `p` accepts. */
  function Count<T>(s: seq<T>, p: T -> bool): (n: nat)
    ensures n <= |s|
    ensures n == 0 <==> forall k :: 0 <= k < |s| ==> !p(s[k])
  {
    if |s| == 0 then 0 else (if p(s[0]) then 1 else 0) + Count(s[1..], p)
  }

  /** The count is the length of the filtered list. */
  lemma {:induction false} CountFilter<T>(s: seq<T>, p: T -> bool)
    ensures Count(s, p) == |Filter(s, p)|
  {
    if |s| > 0 {
      CountFilter(s[1..], p);
    }
  }

  lemma {:induction false} CountAppend<T>(s: seq<T>, t: seq<T>, p: T -> bool)
    ensures Count(s + t, p) == Count(s, p) + Count(t, p)
  {
    if |s| > 0 {
      assert (s + t)[1..] == s[1..] + t;
      CountAppend(s[1..], t, p);
    } else {
      assert s + t == t;
    }
  }

  lemma {:induction false} SumAppend<T>(s: seq<T>, t: seq<T>, f: T -> int)
    ensures SumBy(s + t, f) == SumBy(s, f) + SumBy(t, f)
  {
    if |s| > 0 {
      assert (s + t)[1..] == s[1..] + t;
      SumAppend(s[1..], t, f);
    } else {
      assert s + t == t;
    }
  }

  /** Replacing one element changes the sum by the difference. */
  lemma {:induction false} SumUpdate<T>(s: seq<T>, j: nat, x: T, f: T -> int)
    requires j < |s|
    ensures SumBy(s[j := x], f) == SumBy(s, f) - f(s[j]) + f(x)
  {
    if j > 0 {
      assert s[j := x][1..] == s[1..][j - 1 := x];
      SumUpdate(s[1..], j - 1, x, f);
    }
  }

  // ---------------------------------------------------------------------------
  // sorting

  /** Largest key first; elements with equal keys keep their order. */
  predicate Descending<T>(s: seq<T>, key: T -> int) {
    forall i, j :: 0 <= i < j < |s| ==> key(s[i]) >= key(s[j])
  }

  /** Puts `x` before the first element whose key is not larger. */
  function InsertDescending<T>(x: T, s: seq<T>, key: T -> int): (r: seq<T>)
    ensures |r| == |s| + 1
    ensures multiset(r) == multiset(s) + multiset{x}
  {
    if |s| == 0 then [x]
    else if key(s[0]) > key(x) then
      assert s == [s[0]] + s[1..];
      [s[0]] + InsertDescending(x, s[1..], key)
    else [x] + s
  }

  /** `[...s].sort((a, b) => key(b) - key(a))`: JavaScript's sort is stable,
      and so is this insertion sort, which places each element before the
      later ones with the same key. */
  function SortDescending<T>(s: seq<T>, key: T -> int): (r: seq<T>)
    ensures |r| == |s|
    ensures multiset(r) == multiset(s)
  {
    if |s| == 0 then []
    else
      assert s == [s[0]] + s[1..];
      InsertDescending(s[0], SortDescending(s[1..], key), key)
  }

  lemma {:induction false} InsertKeepsOrder<T>(x: T, s: seq<T>, key: T -> int)
    requires Descending(s, key)
    ensures Descending(InsertDescending(x, s, key), key)
  {
    if |s| > 0 && key(s[0]) > key(x) {
      InsertKeepsOrder(x, s[1..], key);
      var t := InsertDescending(x, s[1..], key);
      assert forall k :: 0 <= k < |t| ==> t[k] in multiset(s[1..]) + multiset{x};
      forall k | 0 <= k < |t| ensures key(s[0]) >= key(t[k]) {
        assert t[k] in multiset(s[1..]) + multiset{x};
        if t[k] != x {
          assert t[k] in s[1..];
        }
      }
    }
  }

  /** The sort's result is in descending key order. */
  lemma {:induction false} SortIsDescending<T>(s: seq<T>, key: T -> int)
    ensures Descending(SortDescending(s, key), key)
  {
    if |s| > 0 {
      SortIsDescending(s[1..], key);
      InsertKeepsOrder(s[0], SortDescending(s[1..], key), key);
    }
  }

  /** The sorted list has the same elements, and the first one carries the
      largest key. */
  lemma SortedHead<T>(s: seq<T>, key: T -> int)
    requires |s| > 0
    ensures var r := SortDescending(s, key);
      r[0] in s && forall i :: 0 <= i < |s| ==> key(r[0]) >= key(s[i])
  {
    var r := SortDescending(s, key);
    SortIsDescending(s, key);
    assert r[0] in multiset(s);
    forall i | 0 <= i < |s| ensures key(r[0]) >= key(s[i]) {
      assert s[i] in multiset(r);
      var k :| 0 <= k < |r| && r[k] == s[i];
    }
  }

  /** In a descending list the last key is the smallest. */
  lemma LastIsLeast<T>(r: seq<T>, key: T -> int)
    requires |r| > 0 && Descending(r, key)
    ensures forall k :: 0 <= k < |r| ==> key(r[|r| - 1]) <= key(r[k])
  {
  }

  /** After the sort the last element has the smallest key. */
  lemma SortedLast<T>(s: seq<T>, key: T -> int)
    requires |s| > 0
    ensures var r := SortDescending(s, key);
      r[|r| - 1] in s && forall i :: 0 <= i < |s| ==> key(r[|r| - 1]) <= key(s[i])
  {
    var r := SortDescending(s, key);
    SortIsDescending(s, key);
    LastIsLeast(r, key);
    SortMembers(s, key);
    forall i | 0 <= i < |s| ensures key(r[|r| - 1]) <= key(s[i]) {
      var k :| 0 <= k < |r| && r[k] == s[i];
    }
  }

  /** Sorting keeps exactly the elements it was given. */
  lemma SortMembers<T>(s: seq<T>, key: T -> int)
    ensures var r := SortDescending(s, key);
      && (forall i :: 0 <= i < |r| ==> r[i] in s)
      && (forall i :: 0 <= i < |s| ==> s[i] in r)
  {
    var r := SortDescending(s, key);
    forall i | 0 <= i < |r| ensures r[i] in s {
      assert r[i] in multiset(s);
    }
    forall i | 0 <= i < |s| ensures s[i] in r {
      assert s[i] in multiset(r);
    }
  }

  /** The elements whose key is `v`. */
  function KeyEquals<T>(key: T -> int, v: int): T -> bool {
    x => key(x) == v
  }

  /** The elements both filters accept. */
  function Both<T>(a: T -> bool, b: T -> bool): T -> bool {
    x => a(x) && b(x)
  }

  /** Inserting `x` in front of the smaller keys keeps, for every key, the
      order of `[x] + s`: `x` goes before the elements that share its key. */
  lemma {:induction false} InsertStable<T>(x: T, s: seq<T>, key: T -> int, v: int)
    ensures Filter(InsertDescending(x, s, key), KeyEquals(key, v)) == Filter([x] + s, KeyEquals(key, v))
  {
    var same := KeyEquals(key, v);
    if |s| > 0 && key(s[0]) > key(x) {
      var t := InsertDescending(x, s[1..], key);
      InsertStable(x, s[1..], key, v);
      assert ([s[0]] + t)[1..] == t;
      assert ([x] + s[1..])[1..] == s[1..];
      assert ([x] + s)[1..] == s;
      assert !(same(x) && same(s[0]));
    }
  }

  /** The sort is stable: the elements of each key come out in the order
      they went in. */
  lemma {:induction false} SortStable<T>(s: seq<T>, key: T -> int)
    ensures forall v :: Filter(SortDescending(s, key), KeyEquals(key, v)) == Filter(s, KeyEquals(key, v))
  {
    if |s| > 0 {
      var t := SortDescending(s[1..], key);
      SortStable(s[1..], key);
      forall v ensures Filter(SortDescending(s, key), KeyEquals(key, v)) == Filter(s, KeyEquals(key, v)) {
        InsertStable(s[0], t, key, v);
        assert ([s[0]] + t)[1..] == t;
      }
    }
  }

  /** `s.filter(keep).sort((a, b) => key(b) - key(a))`: exactly the elements
      `keep` accepts, as many times as they occur, largest key first, and
      those with equal keys in the order of `s`. */
  function FilterSorted<T>(s: seq<T>, keep: T -> bool, key: T -> int): (r: seq<T>)
    ensures forall i :: 0 <= i < |r| ==> r[i] in s && keep(r[i])
    ensures forall i :: 0 <= i < |s| && keep(s[i]) ==> s[i] in r
    ensures |r| == Count(s, keep)
    ensures multiset(r) == multiset(Filter(s, keep))
    ensures Descending(r, key)
    ensures forall v :: Filter(r, KeyEquals(key, v)) == Filter(Filter(s, keep), KeyEquals(key, v))
  {
    var kept := Filter(s, keep);
    SortIsDescending(kept, key);
    SortMembers(kept, key);
    SortStable(kept, key);
    CountFilter(s, keep);
    SortDescending(kept, key)
  }

  /** Filtering twice is filtering once by both tests. */
  lemma {:induction false} FilterFilter<T>(s: seq<T>, a: T -> bool, b: T -> bool)
    ensures Filter(Filter(s, a), b) == Filter(s, Both(a, b))
  {
    if |s| > 0 {
      FilterFilter(s[1..], a, b);
      if a(s[0]) {
        assert ([s[0]] + Filter(s[1..], a))[1..] == Filter(s[1..], a);
      }
    }
  }

  /** The first element a filter keeps is the first accepted one of `s`. */
  lemma {:induction false} FilterFirst<T>(s: seq<T>, keep: T -> bool)
    ensures |Filter(s, keep)| > 0 ==>
      exists i :: (0 <= i < |s| && s[i] == Filter(s, keep)[0] && keep(s[i])
                   && forall j :: 0 <= j < i ==> !keep(s[j]))
  {
    if |s| > 0 && !keep(s[0]) {
      FilterFirst(s[1..], keep);
      if |Filter(s, keep)| > 0 {
        var i :| 0 <= i < |s[1..]| && s[1..][i] == Filter(s[1..], keep)[0] && keep(s[1..][i])
          && forall j :: 0 <= j < i ==> !keep(s[1..][j]);
        assert s[i + 1] == s[1..][i];
        assert forall j :: 1 <= j < i + 1 ==> s[j] == s[1..][j - 1];
      }
    }
  }

  /** The first element of the filtered and sorted list is the first kept
      element of `s` whose key is the largest. */
  lemma FilterSortedFirst<T>(s: seq<T>, keep: T -> bool, key: T -> int)
    ensures var r := FilterSorted(s, keep, key);
      |r| > 0 ==>
        exists i :: (0 <= i < |s| && s[i] == r[0] && keep(s[i])
                     && forall j :: 0 <= j < i && keep(s[j]) ==> key(s[j]) < key(r[0]))
  {
    var r := FilterSorted(s, keep, key);
    if |r| > 0 {
      var same := KeyEquals(key, key(r[0]));
      assert Filter(r, same)[0] == r[0];
      FilterFilter(s, keep, same);
      FilterFirst(s, Both(keep, same));
      FilterSortedHead(s, keep, key);
      var i :| 0 <= i < |s| && s[i] == Filter(s, Both(keep, same))[0] && Both(keep, same)(s[i])
        && forall j :: 0 <= j < i ==> !Both(keep, same)(s[j]);
      assert s[i] == r[0];
    }
  }

  /** The filtered and sorted list is empty exactly when nothing is kept;
      otherwise its first element is a kept one with the largest key. */
  lemma FilterSortedHead<T>(s: seq<T>, keep: T -> bool, key: T -> int)
    ensures var r := FilterSorted(s, keep, key);
      && (|r| == 0 <==> forall i :: 0 <= i < |s| ==> !keep(s[i]))
      && (|r| > 0 ==> r[0] in s && keep(r[0]))
      && (|r| > 0 ==> forall i :: 0 <= i < |s| && keep(s[i]) ==> key(s[i]) <= key(r[0]))
  {
    var r := FilterSorted(s, keep, key);
    forall i | 0 <= i < |s| && keep(s[i])
      ensures |r| > 0 && key(s[i]) <= key(r[0])
    {
      var k :| 0 <= k < |r| && r[k] == s[i];
    }
  }

  /** Sorting does not change a sum. */
  lemma {:induction false} SortSum<T>(s: seq<T>, key: T -> int, f: T -> int)
    ensures SumBy(SortDescending(s, key), f) == SumBy(s, f)
  {
    if |s| > 0 {
      SortSum(s[1..], key, f);
      InsertSum(s[0], SortDescending(s[1..], key), key, f);
    }
  }

  lemma {:induction false} InsertSum<T>(x: T, s: seq<T>, key: T -> int, f: T -> int)
    ensures SumBy(InsertDescending(x, s, key), f) == f(x) + SumBy(s, f)
  {
    if |s| > 0 && key(s[0]) > key(x) {
      InsertSum(x, s[1..], key, f);
    }
  }

  /** No two elements share a value of `f`. */
  predicate DistinctBy<T>(s: seq<T>, f: T -> string) {
    forall i, j :: 0 <= i < j < |s| ==> f(s[i]) != f(s[j])
  }

  lemma {:induction false} InsertDistinct<T>(x: T, s: seq<T>, key: T -> int, f: T -> string)
    requires DistinctBy(s, f)
    requires forall k :: 0 <= k < |s| ==> f(s[k]) != f(x)
    ensures DistinctBy(InsertDescending(x, s, key), f)
  {
    if |s| > 0 && key(s[0]) > key(x) {
      InsertDistinct(x, s[1..], key, f);
      var t := InsertDescending(x, s[1..], key);
      forall k | 0 <= k < |t| ensures f(s[0]) != f(t[k]) {
        assert t[k] in multiset(s[1..]) + multiset{x};
        if t[k] != x {
          assert t[k] in s[1..];
        }
      }
    }
  }

  /** Sorting keeps values of `f` distinct. */
  lemma {:induction false} SortDistinct<T>(s: seq<T>, key: T -> int, f: T -> string)
    requires DistinctBy(s, f)
    ensures DistinctBy(SortDescending(s, key), f)
  {
    if |s| > 0 {
      assert DistinctBy(s[1..], f);
      SortDistinct(s[1..], key, f);
      var r := SortDescending(s[1..], key);
      forall k | 0 <= k < |r| ensures f(r[k]) != f(s[0]) {
        assert r[k] in multiset(s[1..]);
        var m :| 0 <= m < |s[1..]| && s[1..][m] == r[k];
        assert s[m + 1] == r[k];
      }
      InsertDistinct(s[0], r, key, f);
    }
  }

  /** Two tests that agree on every element count the same. */
  lemma {:induction false} CountSame<T>(s: seq<T>, p: T -> bool, q: T -> bool)
    requires forall i :: 0 <= i < |s| ==> p(s[i]) == q(s[i])
    ensures Count(s, p) == Count(s, q)
  {
    if |s| > 0 {
      CountSame(s[1..], p, q);
    }
  }

  /** Counting one element further along the list. */
  lemma CountStep<T>(s: seq<T>, i: nat, p: T -> bool)
    requires i < |s|
    ensures Count(s[..i + 1], p) == Count(s[..i], p) + (if p(s[i]) then 1 else 0)
  {
    assert s[..i + 1] == s[..i] + [s[i]];
    CountAppend(s[..i], [s[i]], p);
  }

  /** A test every element passes counts them all. */
  lemma {:induction false} CountAll<T>(s: seq<T>, p: T -> bool)
    requires forall i :: 0 <= i < |s| ==> p(s[i])
    ensures Count(s, p) == |s|
  {
    if |s| > 0 {
      CountAll(s[1..], p);
    }
  }

  /** Tests that never hold together count apart: their counts add up to
      the count of either. */
  lemma {:induction false} CountEither<T>(s: seq<T>, p: T -> bool, q: T -> bool, either: T -> bool)
    requires forall i :: 0 <= i < |s| ==> !(p(s[i]) && q(s[i])) && (either(s[i]) == (p(s[i]) || q(s[i])))
    ensures Count(s, p) + Count(s, q) == Count(s, either)
  {
    if |s| > 0 {
      CountEither(s[1..], p, q, either);
    }
  }

  // ---------------------------------------------------------------------------
  // extremes and real sums

  /** The largest value of `f` over a non-empty list. */
  function MaxBy<T>(s: seq<T>, f: T -> int): (m: int)
    requires |s| > 0
    ensures exists i :: 0 <= i < |s| && f(s[i]) == m
    ensures forall i :: 0 <= i < |s| ==> f(s[i]) <= m
  {
    if |s| == 1 then f(s[0])
    else
      var t := MaxBy(s[1..], f);
      assert forall i :: 1 <= i < |s| ==> s[i] == s[1..][i - 1];
      if f(s[0]) >= t then f(s[0]) else t
  }

  /** The smallest value of `f` over a non-empty list. */
  function MinBy<T>(s: seq<T>, f: T -> int): (m: int)
    requires |s| > 0
    ensures exists i :: 0 <= i < |s| && f(s[i]) == m
    ensures forall i :: 0 <= i < |s| ==> m <= f(s[i])
  {
    if |s| == 1 then f(s[0])
    else
      var t := MinBy(s[1..], f);
      assert forall i :: 1 <= i < |s| ==> s[i] == s[1..][i - 1];
      if f(s[0]) <= t then f(s[0]) else t
  }

  /** `s.reduce((sum, x) => sum + f(x), 0)` over real numbers. */
  function SumRealBy<T>(s: seq<T>, f: T -> real): real {
    if |s| == 0 then 0.0 else f(s[0]) + SumRealBy(s[1..], f)
  }

  /** A sum of values that are never negative is not negative, and it is
      zero for the empty list. */
  lemma {:induction false} SumRealNonNegative<T>(s: seq<T>, f: T -> real)
    requires forall i :: 0 <= i < |s| ==> f(s[i]) >= 0.0
    ensures SumRealBy(s, f) >= 0.0
  {
    if |s| > 0 {
      SumRealNonNegative(s[1..], f);
    }
  }

  lemma {:induction false} SumNonNegative<T>(s: seq<T>, f: T -> int)
    requires forall i :: 0 <= i < |s| ==> f(s[i]) >= 0
    ensures SumBy(s, f) >= 0
  {
    if |s| > 0 {
      SumNonNegative(s[1..], f);
    }
  }

  lemma {:induction false} SumRealAppend<T>(s: seq<T>, t: seq<T>, f: T -> real)
    ensures SumRealBy(s + t, f) == SumRealBy(s, f) + SumRealBy(t, f)
  {
    if |s| > 0 {
      assert (s + t)[1..] == s[1..] + t;
      SumRealAppend(s[1..], t, f);
    } else {
      assert s + t == t;
    }
  }

  /** The total weight of the accepted elements, one element at a time. */
  lemma FilterSumSnoc<T>(s: seq<T>, x: T, keep: T -> bool, w: T -> real)
    ensures SumRealBy(Filter(s + [x], keep), w) == SumRealBy(Filter(s, keep), w) + if keep(x) then w(x) else 0.0
  {
    FilterAppend(s, [x], keep);
    SumRealAppend(Filter(s, keep), Filter([x], keep), w);
    assert SumRealBy(Filter([x], keep), w) == if keep(x) then w(x) else 0.0;
  }

  /** A sum of zeros is zero. */
  lemma {:induction false} SumRealZero<T>(s: seq<T>, f: T -> real)
    requires forall i :: 0 <= i < |s| ==> f(s[i]) == 0.0
    ensures SumRealBy(s, f) == 0.0
  {
    if |s| > 0 {
      SumRealZero(s[1..], f);
    }
  }

  /** `f` read as a real number. */
  function AsReal<T(!new)>(f: T -> int): (g: T -> real)
    ensures forall x :: g(x) == f(x) as real
  {
    x => f(x) as real
  }

  /** Summing the integers as reals gives their integer sum. */
  lemma {:induction false} SumAsReal<T(!new)>(s: seq<T>, f: T -> int)
    ensures SumRealBy(s, AsReal(f)) == SumBy(s, f) as real
  {
    if |s| > 0 {
      SumAsReal(s[1..], f);
    }
  }

  /** One for the elements `p` accepts, zero for the others. */
  function Indicator<T(!new)>(p: T -> bool): (g: T -> real)
    ensures forall x :: g(x) == if p(x) then 1.0 else 0.0
  {
    x => if p(x) then 1.0 else 0.0
  }

  /** Summing the indicator counts the accepted elements. */
  lemma {:induction false} SumIndicator<T(!new)>(s: seq<T>, p: T -> bool)
    ensures SumRealBy(s, Indicator(p)) == Count(s, p) as real
  {
    if |s| > 0 {
      SumIndicator(s[1..], p);
    }
  }
}
