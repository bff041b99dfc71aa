/** Python's stable `list.sort(key=...)` when the keys are ranks drawn from a
    small range `0..n-1`: the result is the elements of rank 0 in their
    original order, then those of rank 1, and so on. */
module Ranks {
  import opened Seqs

  /** `[x for x in s if rank(x) == k]`, defined from the back. */
  function OfRank<T>(s: seq<T>, rank: T -> nat, k: nat): seq<T>
    decreases |s|
  {
    if s == [] then []
    else OfRank(s[..|s| - 1], rank, k) + (if rank(s[|s| - 1]) == k then [s[|s| - 1]] else [])
  }

  function HasRank<T>(rank: T -> nat, k: nat): T -> bool
  {
    x => rank(x) == k
  }

  /** OfRank is the list comprehension Filter with the rank test. */
  lemma {:induction false} OfRankFilter<T>(s: seq<T>, rank: T -> nat, k: nat)
    ensures OfRank(s, rank, k) == Filter(s, HasRank(rank, k))
    decreases |s|
  {
    if s != [] {
      OfRankFilter(s[..|s| - 1], rank, k);
    }
  }

  lemma {:induction false} OfRankAppend<T>(a: seq<T>, b: seq<T>, rank: T -> nat, k: nat)
    ensures OfRank(a + b, rank, k) == OfRank(a, rank, k) + OfRank(b, rank, k)
    decreases |b|
  {
    if b == [] {
      assert a + b == a;
    } else {
      var b', x := b[..|b| - 1], b[|b| - 1];
      assert b == b' + [x];
      assert (a + b)[..|a + b| - 1] == a + b';
      OfRankAppend(a, b', rank, k);
    }
  }

  lemma {:induction false} OfRankAll<T>(s: seq<T>, rank: T -> nat, k: nat)
    requires forall i :: 0 <= i < |s| ==> rank(s[i]) == k
    ensures OfRank(s, rank, k) == s
    decreases |s|
  {
    if s != [] {
      OfRankAll(s[..|s| - 1], rank, k);
    }
  }

  lemma {:induction false} OfRankNone<T>(s: seq<T>, rank: T -> nat, k: nat)
    requires forall i :: 0 <= i < |s| ==> rank(s[i]) != k
    ensures OfRank(s, rank, k) == []
    decreases |s|
  {
    if s != [] {
      OfRankNone(s[..|s| - 1], rank, k);
    }
  }

  /** OfRank keeps every copy of an element of rank `k` and nothing else. */
  lemma {:induction false} OfRankCount<T>(s: seq<T>, rank: T -> nat, k: nat, x: T)
    ensures multiset(OfRank(s, rank, k))[x] == if rank(x) == k then multiset(s)[x] else 0
    decreases |s|
  {
    if s != [] {
      var init, y := s[..|s| - 1], s[|s| - 1];
      assert s == init + [y];
      OfRankCount(init, rank, k, x);
    }
  }

  /** Selecting one rank from the elements of rank `k`. */
  lemma OfRankOfRank<T>(s: seq<T>, rank: T -> nat, k: nat, m: nat)
    ensures OfRank(OfRank(s, rank, k), rank, m) == if m == k then OfRank(s, rank, k) else []
  {
    var a := OfRank(s, rank, k);
    forall i | 0 <= i < |a|
      ensures rank(a[i]) == k
    {
      OfRankCount(s, rank, k, a[i]);
      assert a[i] in multiset(a);
    }
    if m == k {
      OfRankAll(a, rank, m);
    } else {
      OfRankNone(a, rank, m);
    }
  }

  /** The elements of ranks `k` up to `n - 1`, rank by rank. */
  function Buckets<T>(s: seq<T>, rank: T -> nat, k: nat, n: nat): seq<T>
    decreases n - k
  {
    if k >= n then [] else OfRank(s, rank, k) + Buckets(s, rank, k + 1, n)
  }

  /** `sorted(s, key=rank)` for ranks below `n`. */
  function StableSortBy<T>(s: seq<T>, rank: T -> nat, n: nat): seq<T>
  {
    Buckets(s, rank, 0, n)
  }

  /** The rank of the element at index `i`. */
  function RankAt<T>(s: seq<T>, rank: T -> nat, i: int): nat
    requires 0 <= i < |s|
  {
    rank(s[i])
  }

  /** Ranks never decrease along `s`. */
  ghost predicate SortedByRank<T>(s: seq<T>, rank: T -> nat)
  {
    forall i, j :: 0 <= i < j < |s| ==> RankAt(s, rank, i) <= RankAt(s, rank, j)
  }

  lemma {:induction false} BucketsCount<T>(s: seq<T>, rank: T -> nat, k: nat, n: nat, x: T)
    ensures multiset(Buckets(s, rank, k, n))[x] == if k <= rank(x) < n then multiset(s)[x] else 0
    decreases n - k
  {
    if k < n {
      OfRankCount(s, rank, k, x);
      BucketsCount(s, rank, k + 1, n, x);
    }
  }

  lemma {:induction false} BucketsSorted<T>(s: seq<T>, rank: T -> nat, k: nat, n: nat)
    ensures SortedByRank(Buckets(s, rank, k, n), rank)
    ensures forall i :: 0 <= i < |Buckets(s, rank, k, n)| ==> k <= RankAt(Buckets(s, rank, k, n), rank, i)
    decreases n - k
  {
    if k < n {
      var a := OfRank(s, rank, k);
      var b := Buckets(s, rank, k + 1, n);
      BucketsSorted(s, rank, k + 1, n);
      forall i | 0 <= i < |a|
        ensures rank(a[i]) == k
      {
        OfRankCount(s, rank, k, a[i]);
        assert a[i] in multiset(a);
      }
      forall i, j | 0 <= i < j < |a + b|
        ensures RankAt(a + b, rank, i) <= RankAt(a + b, rank, j)
      {
        if j < |a| {
          assert (a + b)[i] == a[i] && (a + b)[j] == a[j];
        } else if i < |a| {
          assert (a + b)[i] == a[i] && (a + b)[j] == b[j - |a|];
          assert k + 1 <= RankAt(b, rank, j - |a|);
        } else {
          assert (a + b)[i] == b[i - |a|] && (a + b)[j] == b[j - |a|];
          assert RankAt(b, rank, i - |a|) <= RankAt(b, rank, j - |a|);
        }
      }
      forall i | 0 <= i < |a + b|
        ensures k <= RankAt(a + b, rank, i)
      {
        if i < |a| {
          assert (a + b)[i] == a[i];
        } else {
          assert (a + b)[i] == b[i - |a|];
          assert k + 1 <= RankAt(b, rank, i - |a|);
        }
      }
    }
  }

  lemma {:induction false} BucketsStable<T>(s: seq<T>, rank: T -> nat, k: nat, n: nat, m: nat)
    ensures OfRank(Buckets(s, rank, k, n), rank, m) == if k <= m < n then OfRank(s, rank, m) else []
    decreases n - k
  {
    if k < n {
      var a := OfRank(s, rank, k);
      OfRankAppend(a, Buckets(s, rank, k + 1, n), rank, m);
      BucketsStable(s, rank, k + 1, n, m);
      OfRankOfRank(s, rank, k, m);
    }
  }

  /** The stable sort is a sort: ranks never decrease, and it holds the
      elements of the input, each as often, when every rank is below `n`. */
  lemma StableSortSorts<T>(s: seq<T>, rank: T -> nat, n: nat)
    requires forall x :: x in s ==> rank(x) < n
    ensures SortedByRank(StableSortBy(s, rank, n), rank)
    ensures multiset(StableSortBy(s, rank, n)) == multiset(s)
  {
    BucketsSorted(s, rank, 0, n);
    var b := Buckets(s, rank, 0, n);
    forall x
      ensures multiset(b)[x] == multiset(s)[x]
    {
      BucketsCount(s, rank, 0, n, x);
      if x in s {
        assert multiset(s)[x] > 0;
      }
    }
    SameCounts(b, s);
  }

  /** The sort is stable: the elements of each rank keep their order. */
  lemma StableSortKeepsOrder<T>(s: seq<T>, rank: T -> nat, n: nat, m: nat)
    requires m < n
    ensures OfRank(StableSortBy(s, rank, n), rank, m) == OfRank(s, rank, m)
  {
    BucketsStable(s, rank, 0, n, m);
  }

  /** How many leading elements have rank `k`. */
  function RankPrefix<T>(s: seq<T>, rank: T -> nat, k: nat): (m: nat)
    ensures m <= |s|
    ensures forall i :: 0 <= i < m ==> rank(s[i]) == k
    ensures m == |s| || rank(s[m]) != k
    decreases |s|
  {
    if s == [] || rank(s[0]) != k then 0 else 1 + RankPrefix(s[1..], rank, k)
  }

  /** Buckets depend only on the elements of each rank. */
  lemma {:induction false} BucketsAgree<T>(x: seq<T>, y: seq<T>, rank: T -> nat, k: nat, n: nat)
    requires forall j :: k <= j < n ==> OfRank(x, rank, j) == OfRank(y, rank, j)
    ensures Buckets(x, rank, k, n) == Buckets(y, rank, k, n)
    decreases n - k
  {
    if k < n {
      BucketsAgree(x, y, rank, k + 1, n);
    }
  }

  /** Past a leading run of rank `k` in a sorted sequence whose ranks lie in
      `k..n-1`, the rest is sorted and its ranks lie in `k+1..n-1`. */
  lemma SortedSuffix<T>(r: seq<T>, rank: T -> nat, k: nat, n: nat, m: nat)
    requires SortedByRank(r, rank)
    requires forall i :: 0 <= i < |r| ==> k <= rank(r[i]) < n
    requires m <= |r| && (m == |r| || rank(r[m]) != k)
    ensures SortedByRank(r[m..], rank)
    ensures forall i :: m <= i < |r| ==> k + 1 <= rank(r[i]) < n
  {
    var q := r[m..];
    forall i, j | 0 <= i < j < |q|
      ensures RankAt(q, rank, i) <= RankAt(q, rank, j)
    {
      assert q[i] == r[m + i] && q[j] == r[m + j];
      assert RankAt(r, rank, m + i) <= RankAt(r, rank, m + j);
    }
    forall i | m <= i < |r|
      ensures k + 1 <= rank(r[i]) < n
    {
      if i > m {
        assert RankAt(r, rank, m) <= RankAt(r, rank, i);
      }
    }
  }

  /** Splitting after a leading run of rank `k` followed only by higher
      ranks: the run is the rank-`k` selection, and every higher rank is
      found in the rest only. */
  lemma RunSplit<T>(r: seq<T>, rank: T -> nat, k: nat, n: nat, m: nat)
    requires m <= |r|
    requires forall i :: 0 <= i < m ==> rank(r[i]) == k
    requires forall i :: m <= i < |r| ==> k + 1 <= rank(r[i])
    ensures OfRank(r, rank, k) == r[..m]
    ensures forall j :: k + 1 <= j < n ==> OfRank(r, rank, j) == OfRank(r[m..], rank, j)
  {
    var p, q := r[..m], r[m..];
    assert r == p + q;
    OfRankAppend(p, q, rank, k);
    OfRankAll(p, rank, k);
    OfRankNone(q, rank, k);
    forall j | k + 1 <= j < n
      ensures OfRank(r, rank, j) == OfRank(q, rank, j)
    {
      OfRankAppend(p, q, rank, j);
      OfRankNone(p, rank, j);
    }
  }

  /** One rank of SortedBuckets: the leading run of rank `k` is the first
      bucket, and the rest is sorted with higher ranks only. */
  lemma SortedStep<T>(r: seq<T>, rank: T -> nat, k: nat, n: nat, m: nat)
    requires k < n
    requires SortedByRank(r, rank)
    requires forall i :: 0 <= i < |r| ==> k <= rank(r[i]) < n
    requires m <= |r|
    requires forall i :: 0 <= i < m ==> rank(r[i]) == k
    requires m == |r| || rank(r[m]) != k
    ensures Buckets(r, rank, k, n) == r[..m] + Buckets(r[m..], rank, k + 1, n)
    ensures SortedByRank(r[m..], rank)
    ensures forall i :: 0 <= i < |r[m..]| ==> k + 1 <= rank(r[m..][i]) < n
  {
    SortedSuffix(r, rank, k, n, m);
    RunSplit(r, rank, k, n, m);
    BucketsAgree(r, r[m..], rank, k + 1, n);
  }

  /** A sequence already sorted by rank is its own buckets. */
  lemma {:induction false} SortedBuckets<T>(r: seq<T>, rank: T -> nat, k: nat, n: nat)
    requires SortedByRank(r, rank)
    requires forall i :: 0 <= i < |r| ==> k <= rank(r[i]) < n
    ensures Buckets(r, rank, k, n) == r
    decreases n - k
  {
    if r == [] {
      if k < n {
        SortedBuckets(r, rank, k + 1, n);
      }
    } else {
      var m := RankPrefix(r, rank, k);
      SortedStep(r, rank, k, n, m);
      SortedBuckets(r[m..], rank, k + 1, n);
      assert r == r[..m] + r[m..];
    }
  }

  /** A stable sort by rank has one possible result: a sequence sorted by
      rank whose elements of each rank are those of the input, in the
      input's order, is the stable sort of the input. */
  lemma StableSortUnique<T>(s: seq<T>, r: seq<T>, rank: T -> nat, n: nat)
    requires forall i :: 0 <= i < |r| ==> rank(r[i]) < n
    requires SortedByRank(r, rank)
    requires forall k :: 0 <= k < n ==> OfRank(r, rank, k) == OfRank(s, rank, k)
    ensures r == StableSortBy(s, rank, n)
  {
    SortedBuckets(r, rank, 0, n);
    BucketsAgree(r, s, rank, 0, n);
  }
}
