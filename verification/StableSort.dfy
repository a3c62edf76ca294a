/** Sorting by a key: the adjacent-swap insertion sort of the oracle, and why
    any stable sort by the same key returns the same sequence. */
module StableSort {
  import opened Ordering

  ghost predicate SortedBy<X, K(!new)>(s: seq<X>, key: X -> K, less: (K, K) -> bool)
  {
    forall i, j :: 0 <= i < j < |s| ==> !less(key(s[j]), key(s[i]))
  }

  /** The elements of one key, in order. */
  function Bucket<X, K(==)>(s: seq<X>, key: X -> K, k: K): seq<X>
  {
    if s == [] then []
    else Bucket(s[..|s| - 1], key, k) + (if key(s[|s| - 1]) == k then [s[|s| - 1]] else [])
  }

  /** Equal keys kept their relative order, and nothing was added or lost. */
  ghost predicate SameBuckets<X, K(!new)>(s: seq<X>, t: seq<X>, key: X -> K)
  {
    forall k :: Bucket(s, key, k) == Bucket(t, key, k)
  }

  ghost predicate StableSortOf<X, K(!new)>(out: seq<X>, s: seq<X>, key: X -> K, less: (K, K) -> bool)
  {
    SortedBy(out, key, less) && SameBuckets(out, s, key)
  }

  lemma {:induction false} BucketConcat<X, K>(s: seq<X>, t: seq<X>, key: X -> K, k: K)
    ensures Bucket(s + t, key, k) == Bucket(s, key, k) + Bucket(t, key, k)
  {
    if t == [] {
      assert s + t == s;
    } else {
      BucketConcat(s, t[..|t| - 1], key, k);
      assert (s + t)[..|s + t| - 1] == s + t[..|t| - 1];
    }
  }

  lemma {:induction false} BucketHead<X, K>(s: seq<X>, key: X -> K, k: K)
    requires s != []
    ensures Bucket(s, key, k) == (if key(s[0]) == k then [s[0]] else []) + Bucket(s[1..], key, k)
  {
    assert s == s[..1] + s[1..] && s[..1] == [s[0]];
    BucketConcat(s[..1], s[1..], key, k);
    assert s[..1][..0] == [];
  }

  lemma {:induction false} BucketMembers<X, K>(s: seq<X>, key: X -> K, k: K)
    ensures forall x :: x in Bucket(s, key, k) <==> x in s && key(x) == k
  {
    if s != [] {
      BucketMembers(s[..|s| - 1], key, k);
      assert s == s[..|s| - 1] + [s[|s| - 1]];
    }
  }

  /** Exchanging two neighbours of different keys keeps every bucket. */
  lemma SwapKeepsBuckets<X, K(!new)>(s: seq<X>, j: nat, key: X -> K)
    requires 0 < j < |s| && key(s[j]) != key(s[j - 1])
    ensures SameBuckets(s[j := s[j - 1]][j - 1 := s[j]], s, key)
  {
    var t := s[j := s[j - 1]][j - 1 := s[j]];
    forall k ensures Bucket(t, key, k) == Bucket(s, key, k) {
      var (x, y) := (s[j - 1], s[j]);
      var (front, tail) := (s[..j - 1], s[j + 1..]);
      assert s == front + ([x, y] + tail) && t == front + ([y, x] + tail);
      BucketConcat(front, [x, y] + tail, key, k);
      BucketConcat(front, [y, x] + tail, key, k);
      BucketConcat([x, y], tail, key, k);
      BucketConcat([y, x], tail, key, k);
      BucketOfTwo(x, y, key, k);
      BucketOfTwo(y, x, key, k);
    }
  }

  lemma BucketOfTwo<X, K>(x: X, y: X, key: X -> K, k: K)
    ensures Bucket([x, y], key, k) == (if key(x) == k then [x] else []) + (if key(y) == k then [y] else [])
  {
    assert [x, y] == [x] + [y] && [x][..0] == [] && [y][..0] == [];
    BucketConcat([x], [y], key, k);
  }

  /** The insertion sort by adjacent swaps on a strictly smaller key. */
  method InsertionSort<X, K(!new)>(s: seq<X>, key: X -> K, less: (K, K) -> bool) returns (out: seq<X>)
    requires StrictTotal(less)
    ensures StableSortOf(out, s, key, less)
    ensures |out| == |s|
  {
    var a := new X[|s|](i requires 0 <= i < |s| => s[i]);
    assert a[..] == s;
    var i := 1;
    while i < a.Length
      invariant 1 <= i && SameBuckets(a[..], s, key)
      invariant SortedBy(if i <= a.Length then a[..i] else a[..], key, less)
    {
      var j := i;
      while j > 0 && less(key(a[j]), key(a[j - 1]))
        invariant 0 <= j <= i
        invariant SameBuckets(a[..], s, key)
        invariant forall p, q :: 0 <= p < q <= i && q != j ==> !less(key(a[q]), key(a[p]))
      {
        SwapKeepsBuckets(a[..], j, key);
        ghost var was := a[..];
        a[j], a[j - 1] := a[j - 1], a[j];
        assert a[..] == was[j := was[j - 1]][j - 1 := was[j]];
        j := j - 1;
      }
      i := i + 1;
    }
    assert a[..a.Length] == a[..];
    return a[..];
  }

  lemma {:induction false} TailBuckets<X, K>(s: seq<X>, t: seq<X>, key: X -> K, c: K)
    requires s != [] && t != [] && s[0] == t[0] && Bucket(s, key, c) == Bucket(t, key, c)
    ensures Bucket(s[1..], key, c) == Bucket(t[1..], key, c)
  {
    BucketHead(s, key, c);
    BucketHead(t, key, c);
    SameTails(if key(s[0]) == c then [s[0]] else [], Bucket(s[1..], key, c), Bucket(t[1..], key, c));
  }

  lemma SameTails<X>(lead: seq<X>, a: seq<X>, b: seq<X>)
    requires lead + a == lead + b
    ensures a == b
  {
    assert a == (lead + a)[|lead|..] && b == (lead + b)[|lead|..];
  }

  /** Stable sorts start with the same element. */
  lemma SameFirst<X, K(!new)>(out: seq<X>, other: seq<X>, key: X -> K, less: (K, K) -> bool)
    requires StrictTotal(less) && SortedBy(out, key, less) && SortedBy(other, key, less)
    requires SameBuckets(out, other, key) && out != [] && other != []
    ensures out[0] == other[0]
  {
    var k, l := key(out[0]), key(other[0]);
    BucketMembers(out, key, l);
    BucketMembers(other, key, l);
    BucketMembers(out, key, k);
    BucketMembers(other, key, k);
    assert other[0] in Bucket(out, key, l);
    assert out[0] in Bucket(other, key, k);
    assert !less(l, k) && !less(k, l);
    BucketHead(out, key, k);
    BucketHead(other, key, k);
    assert out[0] == Bucket(out, key, k)[0] == Bucket(other, key, k)[0] == other[0];
  }

  /** A stable sort by a key has one answer. */
  lemma {:induction false} StableSortIsUnique<X, K(!new)>(out: seq<X>, other: seq<X>, key: X -> K, less: (K, K) -> bool)
    requires StrictTotal(less) && SortedBy(out, key, less) && SortedBy(other, key, less)
    requires SameBuckets(out, other, key)
    ensures out == other
  {
    if out == [] {
      BucketsOfNothing(other, key);
    } else if other == [] {
      BucketsOfNothing(out, key);
    } else {
      SameFirst(out, other, key, less);
      forall c ensures Bucket(out[1..], key, c) == Bucket(other[1..], key, c) {
        TailBuckets(out, other, key, c);
      }
      StableSortIsUnique(out[1..], other[1..], key, less);
      assert out == [out[0]] + out[1..] && other == [other[0]] + other[1..];
    }
  }

  lemma BucketsOfNothing<X, K(!new)>(s: seq<X>, key: X -> K)
    requires SameBuckets(s, [], key) || SameBuckets([], s, key)
    ensures s == []
  {
    if s != [] {
      BucketMembers(s, key, key(s[0]));
    }
  }

  lemma {:induction false} BucketHoldsItsElements<X, K>(s: seq<X>, key: X -> K, x: X)
    ensures multiset(s)[x] == multiset(Bucket(s, key, key(x)))[x]
  {
    if s != [] {
      BucketHoldsItsElements(s[..|s| - 1], key, x);
      assert s == s[..|s| - 1] + [s[|s| - 1]];
    }
  }

  lemma SameBucketsIsPermutation<X, K(!new)>(s: seq<X>, t: seq<X>, key: X -> K)
    requires SameBuckets(s, t, key)
    ensures multiset(s) == multiset(t)
  {
    forall x ensures multiset(s)[x] == multiset(t)[x] {
      BucketHoldsItsElements(s, key, x);
      BucketHoldsItsElements(t, key, x);
    }
  }
}
