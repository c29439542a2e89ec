/**
 * Array pipelines used throughout the dashboard: `Array.prototype.filter`,
 * a stable descending `sort` by a numeric key, and `slice(0, n)`.
 */
module Sequences {

  /** r is obtained from s by deleting elements, keeping the order of the rest. */
  predicate IsSubsequence<T(==)>(r: seq<T>, s: seq<T>)
    decreases |s|
  {
    if r == [] then true
    else if s == [] then false
    else (r[0] == s[0] && IsSubsequence(r[1..], s[1..])) || IsSubsequence(r, s[1..])
  }

  lemma {:induction false} SubsequenceOfSelf<T>(s: seq<T>)
    ensures IsSubsequence(s, s)
  {
    if s != [] {
      SubsequenceOfSelf(s[1..]);
    }
  }

  /** `s.filter(p)`: the elements satisfying p, in their original order. */
  function Keep<T(==, !new)>(s: seq<T>, p: T -> bool): (r: seq<T>)
    ensures |r| <= |s|
    ensures forall x :: x in r <==> x in s && p(x)
    ensures IsSubsequence(r, s)
    ensures (forall i :: 0 <= i < |s| ==> p(s[i])) ==> r == s
    ensures forall x :: multiset(r)[x] == if p(x) then multiset(s)[x] else 0
  {
    if s == [] then []
    else
      var rest := Keep(s[1..], p);
      assert forall x :: x in s <==> x == s[0] || x in s[1..];
      assert s == [s[0]] + s[1..];
      if p(s[0]) then [s[0]] + rest else rest
  }

  /** Filtering with two predicates that agree everywhere gives the same result. */
  lemma {:induction false} KeepCongruent<T(!new)>(s: seq<T>, p: T -> bool, q: T -> bool)
    requires forall x :: p(x) == q(x)
    ensures Keep(s, p) == Keep(s, q)
  {
    if s != [] {
      KeepCongruent(s[1..], p, q);
    }
  }

  /** Every element of r has a key at least as large as every later one. */
  ghost predicate NonIncreasing<T>(r: seq<T>, key: T -> real) {
    forall i, j :: 0 <= i < j < |r| ==> key(r[i]) >= key(r[j])
  }

  /**
   * Inserts x into a non-increasing sequence after every element whose key is at
   * least key(x), so that of two equal keys the one inserted first stays first.
   */
  function InsertDesc<T>(sorted: seq<T>, x: T, key: T -> real): (r: seq<T>)
    requires NonIncreasing(sorted, key)
    ensures |r| == |sorted| + 1
    ensures multiset(r) == multiset(sorted) + multiset{x}
    ensures NonIncreasing(r, key)
  {
    if sorted == [] then [x]
    else if key(sorted[0]) >= key(x) then
      var rest := InsertDesc(sorted[1..], x, key);
      assert sorted == [sorted[0]] + sorted[1..];
      HeadDominatesInsert(sorted, x, rest, key);
      ConsNonIncreasing(sorted[0], rest, key);
      [sorted[0]] + rest
    else
      ConsNonIncreasing(x, sorted, key);
      [x] + sorted
  }

  /** The head of a sorted sequence is no smaller than anything of its tail with x inserted, when it is no smaller than x. */
  lemma HeadDominatesInsert<T>(sorted: seq<T>, x: T, rest: seq<T>, key: T -> real)
    requires sorted != [] && NonIncreasing(sorted, key) && key(sorted[0]) >= key(x)
    requires multiset(rest) == multiset(sorted[1..]) + multiset{x}
    ensures forall i :: 0 <= i < |rest| ==> key(sorted[0]) >= key(rest[i])
  {
    forall i | 0 <= i < |rest| ensures key(sorted[0]) >= key(rest[i]) {
      assert rest[i] in multiset(rest);
      if rest[i] != x {
        assert rest[i] in multiset(sorted[1..]);
        var j :| 0 <= j < |sorted[1..]| && sorted[1..][j] == rest[i];
        assert sorted[j + 1] == rest[i];
      }
    }
  }

  /** Putting an element no smaller than any other in front keeps the order. */
  lemma ConsNonIncreasing<T>(h: T, t: seq<T>, key: T -> real)
    requires NonIncreasing(t, key)
    requires forall i :: 0 <= i < |t| ==> key(h) >= key(t[i])
    ensures NonIncreasing([h] + t, key)
  {
    var r := [h] + t;
    forall i, j | 0 <= i < j < |r| ensures key(r[i]) >= key(r[j]) {
      assert r[j] == t[j - 1];
      if i > 0 {
        assert r[i] == t[i - 1];
      }
    }
  }

  /**
   * `s.sort((a, b) => key(b) - key(a))`: a stable sort into non-increasing key
   * order (JavaScript's sort has been stable since ES2019).
   */
  function SortDesc<T>(s: seq<T>, key: T -> real): (r: seq<T>)
    ensures |r| == |s|
    ensures multiset(r) == multiset(s)
    ensures NonIncreasing(r, key)
  {
    if s == [] then []
    else
      var init := s[..|s| - 1];
      assert s == init + [s[|s| - 1]];
      InsertDesc(SortDesc(init, key), s[|s| - 1], key)
  }

  /** `s.slice(0, n)` */
  function Take<T>(s: seq<T>, n: nat): (r: seq<T>)
    ensures |r| == if n <= |s| then n else |s|
    ensures r == s[..|r|]
  {
    if n <= |s| then s[..n] else s
  }

  /**
   * The first n of a sorted sequence are its n largest: every element left out
   * has a key no larger than the last one kept.
   */
  lemma TakeOfSortedIsTop<T>(s: seq<T>, n: nat, key: T -> real)
    requires 0 < n
    ensures multiset(Take(SortDesc(s, key), n)) <= multiset(s)
    ensures s != [] ==>
              forall x :: x in multiset(s) - multiset(Take(SortDesc(s, key), n)) ==>
                key(x) <= key(SortDesc(s, key)[|Take(SortDesc(s, key), n)| - 1])
  {
    if s != [] {
      TopOfSorted(s, SortDesc(s, key), n, key);
    }
  }

  lemma TopOfSorted<T>(s: seq<T>, sorted: seq<T>, n: nat, key: T -> real)
    requires 0 < n && sorted != []
    requires multiset(sorted) == multiset(s) && NonIncreasing(sorted, key)
    ensures multiset(Take(sorted, n)) <= multiset(s)
    ensures forall x :: x in multiset(s) - multiset(Take(sorted, n)) ==> key(x) <= key(sorted[|Take(sorted, n)| - 1])
  {
    var top := Take(sorted, n);
    var rest := sorted[|top|..];
    SplitMultiset(sorted, |top|);
    LaterNoLarger(sorted, |top|, key);
    forall x | x in multiset(s) - multiset(top) ensures key(x) <= key(sorted[|top| - 1]) {
      assert x in multiset(rest);
    }
  }

  /** Cutting a sequence in two splits its multiset. */
  lemma SplitMultiset<T>(s: seq<T>, k: nat)
    requires k <= |s|
    ensures multiset(s) == multiset(s[..k]) + multiset(s[k..])
  {
    assert s == s[..k] + s[k..];
  }

  /** In a non-increasing sequence nothing after position k - 1 has a larger key. */
  lemma LaterNoLarger<T>(sorted: seq<T>, k: nat, key: T -> real)
    requires 0 < k <= |sorted| && NonIncreasing(sorted, key)
    ensures forall x :: x in multiset(sorted[k..]) ==> key(x) <= key(sorted[k - 1])
  {
    forall x | x in multiset(sorted[k..]) ensures key(x) <= key(sorted[k - 1]) {
      var j :| 0 <= j < |sorted[k..]| && sorted[k..][j] == x;
      assert sorted[k + j] == x;
    }
  }
}
