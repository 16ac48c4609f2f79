/** Generic operations on the arrays the services keep: Swift's `filter`,
    `firstIndex(where:)`, `removeAll(where:)`, the `max() ?? 0` + 1 id
    scheme, and `sort(by:)`. */
module Seqs {
  import opened Wrappers
  import opened Text

  // --------------------------------------------------------------- filter

  lemma PrefixAll<T>(s: seq<T>)
    ensures s[..|s|] == s
  {
  }

  lemma SnocAssoc<T>(a: seq<T>, b: seq<T>, x: T)
    ensures a + b + [x] == a + (b + [x])
  {
  }

  /** No element occurs twice. */
  predicate Distinct<T(==)>(s: seq<T>) {
    forall i, j :: 0 <= i < j < |s| ==> s[i] != s[j]
  }

  /** The elements of `s` satisfying `p`, in their original order. */
  function Filter<T>(s: seq<T>, p: T -> bool): (r: seq<T>)
    ensures |r| <= |s|
    ensures forall i :: 0 <= i < |r| ==> r[i] in s && p(r[i])
    ensures forall i :: 0 <= i < |s| && p(s[i]) ==> s[i] in r
  {
    if s == [] then []
    else
      (if p(s[0]) then [s[0]] else []) + Filter(s[1..], p)
  }

  /** Filtering keeps the order: it distributes over concatenation. */
  lemma {:induction false} FilterConcat<T>(a: seq<T>, b: seq<T>, p: T -> bool)
    ensures Filter(a + b, p) == Filter(a, p) + Filter(b, p)
    decreases |a|
  {
    if a == [] {
      assert a + b == b;
    } else {
      assert (a + b)[1..] == a[1..] + b;
      FilterConcat(a[1..], b, p);
    }
  }

  /** Filtering keeps the relative order of the elements it keeps. */
  lemma {:induction false} FilterSorted<T>(s: seq<T>, p: T -> bool, lt: (T, T) -> bool)
    requires SortedBy(s, lt)
    ensures SortedBy(Filter(s, p), lt)
    decreases |s|
  {
    if s != [] {
      FilterSorted(s[1..], p, lt);
      var rest := Filter(s[1..], p);
      if p(s[0]) {
        var r := [s[0]] + rest;
        forall i, j | 0 <= i < j < |r| ensures !lt(r[j], r[i]) {
          if i == 0 {
            var m :| 0 <= m < |s[1..]| && s[1..][m] == r[j];
            assert s[m + 1] == r[j];
          }
        }
      }
    }
  }

  /** `r` is `s` with some elements left out, the others in their order. */
  ghost predicate SubsequenceOf<T>(r: seq<T>, s: seq<T>)
    decreases |s|
  {
    if r == [] then true
    else if s == [] then false
    else (r[0] == s[0] && SubsequenceOf(r[1..], s[1..])) || SubsequenceOf(r, s[1..])
  }

  lemma {:induction false} SubsequenceOfSelf<T>(s: seq<T>)
    ensures SubsequenceOf(s, s)
    decreases |s|
  {
    if s != [] {
      SubsequenceOfSelf(s[1..]);
    }
  }

  /** Filtering keeps the relative order of the elements it keeps. */
  lemma {:induction false} FilterSubsequence<T>(s: seq<T>, p: T -> bool)
    ensures SubsequenceOf(Filter(s, p), s)
    decreases |s|
  {
    if s != [] {
      FilterSubsequence(s[1..], p);
      if p(s[0]) {
        var r := Filter(s, p);
        assert r[0] == s[0] && r[1..] == Filter(s[1..], p);
      } else {
        assert Filter(s, p) == Filter(s[1..], p);
      }
    }
  }

  /** Filtering by a predicate every element satisfies changes nothing. */
  lemma {:induction false} FilterAll<T>(s: seq<T>, p: T -> bool)
    requires forall i :: 0 <= i < |s| ==> p(s[i])
    ensures Filter(s, p) == s
    decreases |s|
  {
    if s != [] {
      FilterAll(s[1..], p);
    }
  }

  /** Swift's `removeAll(where:)`: every element satisfying `p` goes, the
      others stay in order. */
  function RemoveAll<T>(s: seq<T>, p: T -> bool): (r: seq<T>)
    ensures forall i :: 0 <= i < |r| ==> r[i] in s && !p(r[i])
    ensures forall i :: 0 <= i < |s| && !p(s[i]) ==> s[i] in r
  {
    Filter(s, x => !p(x))
  }

  /** Removing keeps the order of the elements that stay. */
  lemma RemoveAllKeepsOrder<T>(s: seq<T>, p: T -> bool)
    ensures SubsequenceOf(RemoveAll(s, p), s)
  {
    FilterSubsequence(s, x => !p(x));
  }

  /** Removing the elements satisfying `p` does not touch those satisfying
      a disjoint `q`. */
  lemma {:induction false} FilterOfRemoveAll<T>(s: seq<T>, p: T -> bool, q: T -> bool)
    requires forall x :: q(x) ==> !p(x)
    ensures Filter(RemoveAll(s, p), q) == Filter(s, q)
    decreases |s|
  {
    if s != [] {
      FilterOfRemoveAll(s[1..], p, q);
      var r := RemoveAll(s, p);
      if p(s[0]) {
        assert r == RemoveAll(s[1..], p);
      } else {
        assert r == [s[0]] + RemoveAll(s[1..], p);
        assert r[1..] == RemoveAll(s[1..], p);
      }
    }
  }

  /** Nothing satisfying `p` is left after removing it. */
  lemma {:induction false} FilterOfRemoveAllSame<T>(s: seq<T>, p: T -> bool)
    ensures Filter(RemoveAll(s, p), p) == []
    decreases |s|
  {
    if s != [] {
      FilterOfRemoveAllSame(s[1..], p);
      var r := RemoveAll(s, p);
      if p(s[0]) {
        assert r == RemoveAll(s[1..], p);
      } else {
        assert r == [s[0]] + RemoveAll(s[1..], p);
        assert r[1..] == RemoveAll(s[1..], p);
      }
    }
  }

  /** How many elements satisfy `p` (`filter { … }.count`). */
  function Count<T>(s: seq<T>, p: T -> bool): (n: nat)
    ensures n <= |s|
    ensures n == 0 <==> forall i :: 0 <= i < |s| ==> !p(s[i])
  {
    var f := Filter(s, p);
    assert f != [] ==> f[0] in f;
    |f|
  }

  /** Putting `x` in front adds one exactly when `x` satisfies `p`. */
  lemma CountCons<T>(x: T, s: seq<T>, p: T -> bool)
    ensures Count([x] + s, p) == Count(s, p) + (if p(x) then 1 else 0)
  {
    assert ([x] + s)[1..] == s;
  }

  /** Putting `x` at the end adds one exactly when `x` satisfies `p`. */
  lemma CountSnoc<T>(s: seq<T>, x: T, p: T -> bool)
    ensures Count(s + [x], p) == Count(s, p) + (if p(x) then 1 else 0)
  {
    FilterConcat(s, [x], p);
    assert [x][1..] == [];
  }

  /** Overwriting one position changes the count by what leaves and what
      arrives there. */
  lemma {:induction false} CountUpdate<T>(s: seq<T>, i: nat, x: T, p: T -> bool)
    requires i < |s|
    ensures Count(s[i := x], p) == Count(s, p) - (if p(s[i]) then 1 else 0) + (if p(x) then 1 else 0)
    decreases |s|
  {
    var t := s[i := x];
    assert s == [s[0]] + s[1..] && t == [t[0]] + t[1..];
    CountCons(s[0], s[1..], p);
    CountCons(t[0], t[1..], p);
    if i == 0 {
      assert t[1..] == s[1..];
    } else {
      assert t[1..] == s[1..][i - 1 := x];
      CountUpdate(s[1..], i - 1, x, p);
    }
  }

  // ---------------------------------------------------------- kept indices

  /** The indices below `n` that satisfy `p`, in increasing order: the
      positions whose elements a `compactMap` keeps. */
  function Kept(n: nat, p: nat -> bool): (ks: seq<nat>)
    ensures |ks| <= n
    ensures forall a, b :: 0 <= a < b < |ks| ==> ks[a] < ks[b]
    ensures forall k :: 0 <= k < |ks| ==> ks[k] < n && p(ks[k])
    ensures forall i :: 0 <= i < n && p(i) ==> i in ks
    decreases n
  {
    if n == 0 then [] else Kept(n - 1, p) + (if p(n - 1) then [n - 1] else [])
  }

  /** Two tests that agree below `n` keep the same indices. */
  lemma {:induction false} KeptAgree(n: nat, p: nat -> bool, q: nat -> bool)
    requires forall i :: 0 <= i < n ==> p(i) == q(i)
    ensures Kept(n, p) == Kept(n, q)
    decreases n
  {
    if n > 0 {
      KeptAgree(n - 1, p, q);
    }
  }

  /** The test a `compactMap` applies at each position. */
  function Converts<B>(f: nat -> Option<B>): nat -> bool {
    (i: nat) => f(i).Some?
  }

  /** `compactMap` over the positions below `n`: the values `f` gives, in
      the order of their positions, one for each position where it gives
      one. */
  function CompactMap<B>(n: nat, f: nat -> Option<B>): (r: seq<B>)
    ensures var ks := Kept(n, Converts(f));
      |r| == |ks| && forall k :: 0 <= k < |r| ==> f(ks[k]) == Some(r[k])
    decreases n
  {
    if n == 0 then []
    else
      var before := CompactMap(n - 1, f);
      assert Kept(n, Converts(f)) == Kept(n - 1, Converts(f)) + (if f(n - 1).Some? then [n - 1] else []);
      match f(n - 1)
      case None => before
      case Some(b) => before + [b]
  }

  /** No more values than positions, and exactly the values `f` gives. */
  lemma CompactMapMembers<B>(n: nat, f: nat -> Option<B>)
    ensures |CompactMap(n, f)| <= n
    ensures forall b :: b in CompactMap(n, f) <==> exists i :: 0 <= i < n && f(i) == Some(b)
  {
    var r := CompactMap(n, f);
    var ks := Kept(n, Converts(f));
    forall b | b in r ensures exists i :: 0 <= i < n && f(i) == Some(b) {
      var k :| 0 <= k < |r| && r[k] == b;
      assert f(ks[k]) == Some(b);
    }
    forall i | 0 <= i < n && f(i).Some? ensures f(i).value in r {
      assert Converts(f)(i);
      var k :| 0 <= k < |ks| && ks[k] == i;
      assert r[k] == f(i).value;
    }
  }

  // ---------------------------------------------------------- first index

  /** Swift's `firstIndex(where:)`. */
  function FirstIndex<T>(s: seq<T>, p: T -> bool): (r: Option<nat>)
    ensures r.None? <==> forall i :: 0 <= i < |s| ==> !p(s[i])
    ensures r.Some? ==>
      r.value < |s| && p(s[r.value]) && forall i :: 0 <= i < r.value ==> !p(s[i])
  {
    if s == [] then None
    else if p(s[0]) then Some(0)
    else match FirstIndex(s[1..], p)
      case None => None
      case Some(i) => Some(i + 1)
  }

  /** Swift's `first(where:)`. */
  function First<T>(s: seq<T>, p: T -> bool): (r: Option<T>)
    ensures r.None? <==> forall i :: 0 <= i < |s| ==> !p(s[i])
    ensures r.Some? ==> r.value in s && p(r.value)
  {
    match FirstIndex(s, p)
    case None => None
    case Some(i) => Some(s[i])
  }

  /** `if let i = s.firstIndex(where: p) { s[i] = x }`: the first element
      satisfying `p` is replaced by `x`, every other position keeps its
      element; nothing changes when no element satisfies `p`. */
  function ReplaceFirst<T>(s: seq<T>, p: T -> bool, x: T): (r: seq<T>)
    ensures |r| == |s|
    ensures FirstIndex(s, p).None? ==> r == s
    ensures FirstIndex(s, p).Some? ==>
      var i := FirstIndex(s, p).value;
      r[i] == x && forall j :: 0 <= j < |s| && j != i ==> r[j] == s[j]
  {
    match FirstIndex(s, p)
    case None => s
    case Some(i) => s[i := x]
  }

  // ------------------------------------------------------------ fresh ids

  /** `ids.max() ?? 0`. */
  function MaxOr0(ids: seq<int>): (m: int)
    ensures forall i :: i in ids ==> i <= m
    ensures ids == [] ==> m == 0
    ensures ids != [] ==> m in ids
  {
    if ids == [] then 0
    else if |ids| == 1 then ids[0]
    else
      assert ids == [ids[0]] + ids[1..];
      var rest := MaxOr0(ids[1..]);
      if ids[0] >= rest then ids[0] else rest
  }

  /** `(ids.max() ?? 0) + 1`: larger than every id in use, hence fresh. */
  function NextId(ids: seq<int>): (n: int)
    ensures forall i :: i in ids ==> i < n
    ensures n !in ids
    ensures ids == [] ==> n == 1
    ensures ids != [] ==> n - 1 in ids
  {
    MaxOr0(ids) + 1
  }

  // -------------------------------------------------------------- sorting

  /** No element is strictly before an element to its left. */
  predicate SortedBy<T>(s: seq<T>, lt: (T, T) -> bool) {
    forall i, j :: 0 <= i < j < |s| ==> !lt(s[j], s[i])
  }

  /** Puts `x` after every element of `s` it is not strictly before. */
  function Insert<T>(x: T, s: seq<T>, lt: (T, T) -> bool): (r: seq<T>)
    ensures multiset(r) == multiset(s) + multiset{x}
    ensures |r| == |s| + 1
  {
    if s == [] || lt(x, s[0]) then [x] + s
    else
      assert s == [s[0]] + s[1..];
      [s[0]] + Insert(x, s[1..], lt)
  }

  lemma {:induction false} InsertSorted<T(!new)>(x: T, s: seq<T>, lt: (T, T) -> bool)
    requires StrictOrder(lt)
    requires SortedBy(s, lt)
    ensures SortedBy(Insert(x, s, lt), lt)
    decreases |s|
  {
    if s == [] {
    } else if lt(x, s[0]) {
      var r := [x] + s;
      forall i, j | 0 <= i < j < |r| ensures !lt(r[j], r[i]) {
        if i == 0 {
          // r[j] is s[0] or comes after it, and x is strictly before s[0]
          if j == 1 { assert !lt(s[0], s[0]); } else { assert !lt(s[j - 1], s[0]); }
        }
      }
    } else {
      InsertSorted(x, s[1..], lt);
      var t := Insert(x, s[1..], lt);
      var r := [s[0]] + t;
      forall i, j | 0 <= i < j < |r| ensures !lt(r[j], r[i]) {
        if i == 0 {
          assert r[j] in multiset(t);
          assert r[j] == x || r[j] in multiset(s[1..]);
          if r[j] != x {
            var k :| 1 <= k < |s| && s[k] == r[j];
          }
        }
      }
    }
  }

  /** A stable insertion sort: Swift's `sort(by: lt)` and Python's `sorted`. */
  function SortBy<T>(s: seq<T>, lt: (T, T) -> bool): (r: seq<T>)
    ensures multiset(r) == multiset(s)
    ensures |r| == |s|
  {
    if s == [] then []
    else
      assert s == s[..|s| - 1] + [s[|s| - 1]];
      Insert(s[|s| - 1], SortBy(s[..|s| - 1], lt), lt)
  }

  /** The sort's output is ordered by `lt`. */
  lemma {:induction false} SortBySorted<T(!new)>(s: seq<T>, lt: (T, T) -> bool)
    requires StrictOrder(lt)
    ensures SortedBy(SortBy(s, lt), lt)
    decreases |s|
  {
    if s != [] {
      SortBySorted(s[..|s| - 1], lt);
      InsertSorted(s[|s| - 1], SortBy(s[..|s| - 1], lt), lt);
    }
  }

  /** Sorting keeps exactly the same elements. */
  lemma SortBySameElements<T>(s: seq<T>, lt: (T, T) -> bool)
    ensures forall i :: 0 <= i < |s| ==> s[i] in SortBy(s, lt)
    ensures forall i :: 0 <= i < |s| ==> SortBy(s, lt)[i] in s
  {
    var r := SortBy(s, lt);
    forall i | 0 <= i < |s| ensures s[i] in r && r[i] in s {
      assert s[i] in multiset(s);
      assert r[i] in multiset(r);
    }
  }
}
