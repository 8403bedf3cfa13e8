/**
 * Sequence operations the ORM queries are built from: `findFirst`/`findUnique`
 * (first row satisfying a filter), `where` (filter), `orderBy` (sort by a key),
 * `take`, `_sum` and `.length` of a filtered list.
 */
module Seqs {
  import opened Common

  /** Position of the first element satisfying `p`. */
  function IndexWhere<T>(s: seq<T>, p: T -> bool): (r: Option<nat>)
    ensures r.Some? ==> r.value < |s| && p(s[r.value]) && forall j :: 0 <= j < r.value ==> !p(s[j])
    ensures r.None? ==> forall j :: 0 <= j < |s| ==> !p(s[j])
  {
    if |s| == 0 then None
    else if p(s[0]) then Some(0)
    else match IndexWhere(s[1..], p)
      case None => None
      case Some(i) => Some(i + 1)
  }

  /** The first element satisfying `p`, as `findFirst` returns it. */
  function FirstWhere<T>(s: seq<T>, p: T -> bool): (r: Option<T>)
    ensures r.Some? ==> r.value in s && p(r.value)
    ensures r.None? <==> forall j :: 0 <= j < |s| ==> !p(s[j])
  {
    match IndexWhere(s, p)
    case None => None
    case Some(i) => Some(s[i])
  }

  /** The elements satisfying `p`, in their original order. */
  function Filter<T>(s: seq<T>, p: T -> bool): (r: seq<T>)
    ensures |r| <= |s|
    ensures forall i :: 0 <= i < |r| ==> r[i] in s && p(r[i])
    ensures forall j :: 0 <= j < |s| && p(s[j]) ==> s[j] in r
  {
    if |s| == 0 then [] else (if p(s[0]) then [s[0]] else []) + Filter(s[1..], p)
  }

  /** Where in `s` each element `Filter` keeps comes from: increasing positions, so filtering keeps the input order. */
  lemma {:induction false} FilterKeepsOrder<T>(s: seq<T>, p: T -> bool) returns (idx: seq<nat>)
    ensures |idx| == |Filter(s, p)|
    ensures forall i :: 0 <= i < |idx| ==> idx[i] < |s| && s[idx[i]] == Filter(s, p)[i]
    ensures forall i, j :: 0 <= i < j < |idx| ==> idx[i] < idx[j]
  {
    if |s| == 0 {
      return [];
    }
    var rest := FilterKeepsOrder(s[1..], p);
    var f := Filter(s[1..], p);
    var shifted := ShiftPositions(s, f, rest);
    if p(s[0]) {
      assert Filter(s, p) == [s[0]] + f;
      idx := ConsPosition(s, f, shifted);
    } else {
      assert Filter(s, p) == f;
      idx := shifted;
    }
  }

  /** Positions in the tail of `s`, moved to positions in `s`. */
  lemma ShiftPositions<T>(s: seq<T>, f: seq<T>, rest: seq<nat>) returns (shifted: seq<nat>)
    requires |s| > 0 && |rest| == |f|
    requires forall k :: 0 <= k < |rest| ==> rest[k] < |s| - 1 && s[1..][rest[k]] == f[k]
    requires forall i, j :: 0 <= i < j < |rest| ==> rest[i] < rest[j]
    ensures |shifted| == |f|
    ensures forall k :: 0 <= k < |shifted| ==> 1 <= shifted[k] < |s| && s[shifted[k]] == f[k]
    ensures forall i, j :: 0 <= i < j < |shifted| ==> shifted[i] < shifted[j]
  {
    shifted := seq(|rest|, k requires 0 <= k < |rest| => rest[k] + 1);
  }

  /** Position 0 put in front of positions past it. */
  lemma ConsPosition<T>(s: seq<T>, f: seq<T>, shifted: seq<nat>) returns (idx: seq<nat>)
    requires |s| > 0 && |shifted| == |f|
    requires forall k :: 0 <= k < |shifted| ==> 1 <= shifted[k] < |s| && s[shifted[k]] == f[k]
    requires forall i, j :: 0 <= i < j < |shifted| ==> shifted[i] < shifted[j]
    ensures |idx| == |f| + 1
    ensures forall i :: 0 <= i < |idx| ==> idx[i] < |s| && s[idx[i]] == ([s[0]] + f)[i]
    ensures forall i, j :: 0 <= i < j < |idx| ==> idx[i] < idx[j]
  {
    idx := [0] + shifted;
  }

  lemma {:induction false} FilterAppend<T>(s: seq<T>, x: T, p: T -> bool)
    ensures Filter(s + [x], p) == Filter(s, p) + (if p(x) then [x] else [])
  {
    if |s| == 0 {
      assert s + [x] == [x];
    } else {
      assert (s + [x])[1..] == s[1..] + [x];
      FilterAppend(s[1..], x, p);
    }
  }

  /** Filtering with a predicate that holds of every element keeps the sequence. */
  lemma {:induction false} FilterAll<T>(s: seq<T>, p: T -> bool)
    requires forall j :: 0 <= j < |s| ==> p(s[j])
    ensures Filter(s, p) == s
  {
    if |s| > 0 {
      FilterAll(s[1..], p);
    }
  }

  /** Filtering with a predicate that holds of no element leaves nothing. */
  lemma FilterNone<T>(s: seq<T>, p: T -> bool)
    requires forall j :: 0 <= j < |s| ==> !p(s[j])
    ensures Filter(s, p) == []
  {
    var r := Filter(s, p);
    if |r| > 0 {
      var k :| 0 <= k < |s| && s[k] == r[0];
      assert false;
    }
  }

  /** Number of elements satisfying `p`. */
  function CountWhere<T>(s: seq<T>, p: T -> bool): nat {
    |Filter(s, p)|
  }

  lemma CountAppend<T>(s: seq<T>, x: T, p: T -> bool)
    ensures CountWhere(s + [x], p) == CountWhere(s, p) + (if p(x) then 1 else 0)
  {
    FilterAppend(s, x, p);
  }

  /** Sum of `f` over the elements satisfying `p`; 0 when there are none (`_sum` over a `where`, `|| 0`). */
  function SumWhere<T>(s: seq<T>, p: T -> bool, f: T -> int): int {
    if |s| == 0 then 0 else (if p(s[0]) then f(s[0]) else 0) + SumWhere(s[1..], p, f)
  }

  /** One more element adds its value when it satisfies `p`, and nothing otherwise. */
  lemma {:induction false} SumWhereAppend<T>(s: seq<T>, x: T, p: T -> bool, f: T -> int)
    ensures SumWhere(s + [x], p, f) == SumWhere(s, p, f) + (if p(x) then f(x) else 0)
  {
    if |s| == 0 {
      assert s + [x] == [x];
    } else {
      assert (s + [x])[1..] == s[1..] + [x];
      SumWhereAppend(s[1..], x, p, f);
    }
  }

  function MapSeq<T, U>(s: seq<T>, f: T -> U): (r: seq<U>)
    ensures |r| == |s| && forall i :: 0 <= i < |s| ==> r[i] == f(s[i])
  {
    seq(|s|, i requires 0 <= i < |s| => f(s[i]))
  }

  function Min(a: int, b: int): int {
    if a <= b then a else b
  }

  /** The first `n` elements (`take: n`). */
  function Take<T>(s: seq<T>, n: nat): (r: seq<T>)
    ensures |r| == Min(n, |s|) && r == s[..|r|]
  {
    if n <= |s| then s[..n] else s
  }

  /** Every element's key is at least that of every later element (`orderBy: desc`). */
  predicate SortedBy<T>(s: seq<T>, key: T -> int) {
    forall i, j :: 0 <= i < j < |s| ==> key(s[i]) >= key(s[j])
  }

  function InsertBy<T>(x: T, s: seq<T>, key: T -> int): (r: seq<T>)
    requires SortedBy(s, key)
    ensures SortedBy(r, key) && multiset(r) == multiset(s) + multiset{x}
  {
    if |s| == 0 then [x]
    else if key(x) >= key(s[0]) then [x] + s
    else
      var rest := InsertBy(x, s[1..], key);
      assert s == [s[0]] + s[1..];
      HeadAbove(s[0], s[1..], x, rest, key);
      [s[0]] + rest
  }

  /** A key at least every key of `s` and of `x` stays on top of any rearrangement of `s` with `x`. */
  lemma HeadAbove<T>(h: T, s: seq<T>, x: T, rest: seq<T>, key: T -> int)
    requires forall j :: 0 <= j < |s| ==> key(h) >= key(s[j])
    requires key(h) >= key(x) && multiset(rest) == multiset(s) + multiset{x}
    ensures SortedBy(rest, key) ==> SortedBy([h] + rest, key)
  {
    forall k | 0 <= k < |rest|
      ensures key(h) >= key(rest[k])
    {
      assert rest[k] in multiset(rest);
      if rest[k] != x {
        assert rest[k] in multiset(s);
        var j :| 0 <= j < |s| && s[j] == rest[k];
      }
    }
  }

  /** The sequence ordered by descending key (insertion sort). */
  function SortBy<T>(s: seq<T>, key: T -> int): (r: seq<T>)
    ensures SortedBy(r, key) && multiset(r) == multiset(s) && |r| == |s|
  {
    if |s| == 0 then []
    else
      assert s == [s[0]] + s[1..];
      InsertBy(s[0], SortBy(s[1..], key), key)
  }

  lemma SortByMembers<T>(s: seq<T>, key: T -> int)
    ensures forall i :: 0 <= i < |SortBy(s, key)| ==> SortBy(s, key)[i] in s
    ensures forall j :: 0 <= j < |s| ==> s[j] in SortBy(s, key)
  {
    var r := SortBy(s, key);
    forall i | 0 <= i < |r| ensures r[i] in s {
      assert r[i] in multiset(r);
    }
    forall j | 0 <= j < |s| ensures s[j] in r {
      assert s[j] in multiset(s);
    }
  }

  /** The elements of `s` satisfying `p`, ordered by descending key (`where` then `orderBy: desc`). */
  function SortedFilter<T>(s: seq<T>, p: T -> bool, key: T -> int): (r: seq<T>)
    ensures SortedBy(r, key) && multiset(r) == multiset(Filter(s, p))
    ensures forall i :: 0 <= i < |r| ==> r[i] in s && p(r[i])
    ensures forall j :: 0 <= j < |s| && p(s[j]) ==> s[j] in r
  {
    SortedFilterMembers(s, p, key);
    SortBy(Filter(s, p), key)
  }

  lemma SortedFilterMembers<T>(s: seq<T>, p: T -> bool, key: T -> int)
    ensures forall i :: 0 <= i < |SortBy(Filter(s, p), key)| ==>
      SortBy(Filter(s, p), key)[i] in s && p(SortBy(Filter(s, p), key)[i])
    ensures forall j :: 0 <= j < |s| && p(s[j]) ==> s[j] in SortBy(Filter(s, p), key)
  {
    var f := Filter(s, p);
    var r := SortBy(f, key);
    SortByMembers(f, key);
    forall i | 0 <= i < |r| ensures r[i] in s && p(r[i]) {
      var k :| 0 <= k < |f| && f[k] == r[i];
    }
  }

  /**
   * The `n` elements satisfying `p` with the greatest keys, greatest first
   * (`where`, `orderBy: desc`, `take: n`).
   */
  function Latest<T>(s: seq<T>, p: T -> bool, key: T -> int, n: nat): (r: seq<T>)
    ensures |r| == Min(n, CountWhere(s, p))
    ensures SortedBy(r, key)
    ensures multiset(r) <= multiset(Filter(s, p))
    ensures forall i :: 0 <= i < |r| ==> r[i] in s && p(r[i])
  {
    var sorted := SortedFilter(s, p, key);
    SameMultisetSameLength(sorted, Filter(s, p));
    TakePrefix(sorted, key, n);
    Take(sorted, n)
  }

  lemma SameMultisetSameLength<T>(a: seq<T>, b: seq<T>)
    requires multiset(a) == multiset(b)
    ensures |a| == |b|
  {
    assert |a| == |multiset(a)|;
  }

  /** A sub-multiset as large as the whole is the whole. */
  lemma SubMultisetSameLength<T>(a: seq<T>, b: seq<T>)
    requires multiset(a) <= multiset(b) && |a| == |b|
    ensures multiset(a) == multiset(b)
  {
    var rest := multiset(b) - multiset(a);
    assert multiset(b) == multiset(a) + rest;
    assert |rest| == 0;
  }

  /** What `take` keeps of a sorted list: a sorted sub-multiset whose elements are those of the list. */
  lemma TakePrefix<T>(s: seq<T>, key: T -> int, n: nat)
    requires SortedBy(s, key)
    ensures SortedBy(Take(s, n), key)
    ensures multiset(Take(s, n)) <= multiset(s)
    ensures forall i :: 0 <= i < |Take(s, n)| ==> Take(s, n)[i] in s
  {
    var r := Take(s, n);
    assert s == r + s[|r|..];
    assert multiset(s) == multiset(r) + multiset(s[|r|..]);
    assert forall i :: 0 <= i < |r| ==> r[i] == s[i];
  }

  /** An element `take` drops from a sorted list has a key no greater than any it keeps, and `n` were kept. */
  lemma TakeSortedNewest<T>(s: seq<T>, key: T -> int, n: nat, x: T)
    requires SortedBy(s, key) && x in s && x !in Take(s, n)
    ensures |Take(s, n)| == n
    ensures forall i :: 0 <= i < n ==> key(Take(s, n)[i]) >= key(x)
  {
    var r := Take(s, n);
    var j :| 0 <= j < |s| && s[j] == x;
    forall i | 0 <= i < n
      ensures key(r[i]) >= key(x)
    {
      assert r[i] == s[i];
    }
  }

  /** The `n` elements with the greatest keys, greatest first (`orderBy: desc`, then the first `n`). */
  function TopBy<T>(s: seq<T>, key: T -> int, n: nat): (r: seq<T>)
    ensures |r| == Min(n, |s|)
    ensures SortedBy(r, key)
    ensures multiset(r) <= multiset(s)
    ensures forall i :: 0 <= i < |r| ==> r[i] in s
  {
    var sorted := SortBy(s, key);
    TakePrefix(sorted, key, n);
    SortByMembers(s, key);
    Take(sorted, n)
  }

  /** An element `TopBy` leaves out has a key no greater than any it keeps, and `n` are kept. */
  lemma TopByNewest<T>(s: seq<T>, key: T -> int, n: nat, x: T)
    requires x in s && x !in TopBy(s, key, n)
    ensures |TopBy(s, key, n)| == n
    ensures forall i :: 0 <= i < n ==> key(TopBy(s, key, n)[i]) >= key(x)
  {
    SortByMembers(s, key);
    TakeSortedNewest(SortBy(s, key), key, n, x);
  }

  /** An element satisfying `p` that `Latest` leaves out is no newer than any it shows, and `n` are shown. */
  lemma LatestNewest<T>(s: seq<T>, p: T -> bool, key: T -> int, n: nat, x: T)
    requires x in s && p(x) && x !in Latest(s, p, key, n)
    ensures |Latest(s, p, key, n)| == n
    ensures forall i :: 0 <= i < n ==> key(Latest(s, p, key, n)[i]) >= key(x)
  {
    var j :| 0 <= j < |s| && s[j] == x;
    var sorted := SortedFilter(s, p, key);
    assert x in sorted;
    assert Latest(s, p, key, n) == Take(sorted, n);
    TakeSortedNewest(sorted, key, n, x);
  }

}
