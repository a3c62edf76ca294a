/** Strict orders, and why sorting a map's keys gives one answer whatever
    order the map was walked in. */
module Ordering {

  ghost predicate StrictTotal<T(!new)>(less: (T, T) -> bool) {
    && (forall a :: !less(a, a))
    && (forall a, b, c :: less(a, b) && less(b, c) ==> less(a, c))
    && (forall a, b :: a != b ==> less(a, b) || less(b, a))
  }

  ghost predicate Asymmetric<T(!new)>(less: (T, T) -> bool) {
    forall a, b :: !(less(a, b) && less(b, a))
  }

  ghost predicate Increasing<T(!new)>(s: seq<T>, less: (T, T) -> bool) {
    forall i, j :: 0 <= i < j < |s| ==> less(s[i], s[j])
  }

  function Elements<T>(s: seq<T>): set<T> { set x | x in s }

  lemma InitAndLast<T>(s: seq<T>)
    requires s != []
    ensures s == s[..|s| - 1] + [s[|s| - 1]]
  {
  }

  /** Only one increasing sequence lists a given set. */
  lemma {:induction false} IncreasingIsUnique<T(!new)>(s: seq<T>, t: seq<T>, less: (T, T) -> bool)
    requires Asymmetric(less) && Increasing(s, less) && Increasing(t, less)
    requires Elements(s) == Elements(t)
    ensures s == t
  {
    if s == [] {
      assert forall i :: 0 <= i < |t| ==> t[i] in Elements(t);
    } else {
      assert s[0] in Elements(t);
      assert t != [];
      assert t[0] in Elements(s);
      assert s[0] == t[0];
      forall x ensures x in Elements(s[1..]) <==> x in Elements(t[1..]) {
        assert s == [s[0]] + s[1..] && t == [t[0]] + t[1..];
        assert x in Elements(s[1..]) <==> x in Elements(s) && x != s[0];
        assert x in Elements(t[1..]) <==> x in Elements(t) && x != t[0];
      }
      IncreasingIsUnique(s[1..], t[1..], less);
    }
  }

  ghost predicate Distinct<T(!new)>(s: seq<T>) { forall i, j :: 0 <= i < j < |s| ==> s[i] != s[j] }

  lemma {:induction false} DistinctSize<T(!new)>(s: seq<T>)
    requires Distinct(s)
    ensures |Elements(s)| == |s|
  {
    if s != [] {
      var n := |s| - 1;
      DistinctSize(s[..n]);
      assert s == s[..n] + [s[n]];
      assert Elements(s) == Elements(s[..n]) + {s[n]};
    }
  }

  lemma {:induction false} DistinctIsCountedOnce<T(!new)>(s: seq<T>)
    ensures Distinct(s) <==> forall x :: multiset(s)[x] <= 1
  {
    if s != [] {
      var n := |s| - 1;
      DistinctIsCountedOnce(s[..n]);
      assert s == s[..n] + [s[n]];
      assert multiset(s) == multiset(s[..n]) + multiset{s[n]};
      assert Distinct(s) <==> Distinct(s[..n]) && s[n] !in s[..n] by {
        assert forall i :: 0 <= i < n ==> s[..n][i] == s[i];
      }
      assert s[n] in s[..n] <==> s[n] in multiset(s[..n]);
      if forall x :: multiset(s)[x] <= 1 {
        assert forall x :: multiset(s[..n])[x] <= multiset(s)[x];
      }
    }
  }

  lemma PermutationOfDistinct<T(!new)>(s: seq<T>, t: seq<T>)
    requires multiset(s) == multiset(t) && Distinct(t)
    ensures Distinct(s) && Elements(s) == Elements(t)
  {
    DistinctIsCountedOnce(s);
    DistinctIsCountedOnce(t);
    SamePermutationElements(s, t);
  }

  lemma SamePermutationElements<T>(s: seq<T>, t: seq<T>)
    requires multiset(s) == multiset(t)
    ensures |s| == |t| && forall x :: x in s <==> x in t
    ensures Elements(s) == Elements(t)
  {
    forall x ensures x in s <==> x in t {
      assert x in s <==> x in multiset(s);
      assert x in t <==> x in multiset(t);
    }
    assert |s| == |multiset(s)| && |t| == |multiset(t)|;
  }

  /** Where the last element of `s` sits in a permutation of `s`. */
  lemma WithoutLast<X(!new)>(s: seq<X>, t: seq<X>) returns (j: nat)
    requires s != [] && multiset(s) == multiset(t)
    ensures j < |t| && t[j] == s[|s| - 1]
    ensures multiset(s[..|s| - 1]) == multiset(t[..j] + t[j + 1..])
  {
    var x := s[|s| - 1];
    SamePermutationElements(s, t);
    assert x in t;
    j :| 0 <= j < |t| && t[j] == x;
    RemoveAt(t, j);
    RemoveAt(s, |s| - 1);
    assert s[..|s| - 1] + s[|s|..] == s[..|s| - 1];
  }

  lemma RemoveAt<X>(s: seq<X>, j: nat)
    requires j < |s|
    ensures multiset(s[..j] + s[j + 1..]) == multiset(s) - multiset{s[j]}
  {
    assert s == s[..j] + [s[j]] + s[j + 1..];
    assert multiset(s) == multiset(s[..j] + s[j + 1..]) + multiset{s[j]};
  }

  /** What stands twice in `s` stands twice in a permutation of `s`. */
  lemma RepeatIsFound<T>(s: seq<T>, t: seq<T>, i: nat, j: nat) returns (m: nat, n: nat)
    requires multiset(s) == multiset(t) && i < j < |s| && s[i] == s[j]
    ensures m < n < |t| && t[m] == t[n] == s[i]
  {
    var x := s[i];
    RemoveAt(s, j);
    assert (s[..j] + s[j + 1..])[i] == x;
    assert x in multiset(s[..j] + s[j + 1..]);
    SamePermutationElements(s, t);
    assert x in s && x in t;
    m :| 0 <= m < |t| && t[m] == x;
    RemoveAt(t, m);
    var rest := t[..m] + t[m + 1..];
    assert x in rest;
    n :| 0 <= n < |rest| && rest[n] == x;
    if n < m {
      m, n := n, m;
    } else {
      n := n + 1;
    }
  }

  /** Go's `<` on strings. */
  predicate StringLess(a: string, b: string)
  {
    if b == "" then false
    else if a == "" then true
    else if a[0] != b[0] then a[0] < b[0]
    else StringLess(a[1..], b[1..])
  }

  lemma {:induction false} StringLessTransitive(a: string, b: string, c: string)
    requires StringLess(a, b) && StringLess(b, c)
    ensures StringLess(a, c)
  {
    if a != "" && a[0] == b[0] && b[0] == c[0] {
      StringLessTransitive(a[1..], b[1..], c[1..]);
    }
  }

  lemma {:induction false} StringLessTotal(a: string, b: string)
    ensures a != b ==> StringLess(a, b) || StringLess(b, a)
    ensures !StringLess(a, a)
    ensures !(StringLess(a, b) && StringLess(b, a))
  {
    if a != "" {
      if b != "" && a[0] == b[0] {
        StringLessTotal(a[1..], b[1..]);
        assert a == [a[0]] + a[1..] && b == [b[0]] + b[1..];
      }
      StringLessTotal(a[1..], a[1..]);
    }
  }

  lemma StringLessIsStrictTotal()
    ensures StrictTotal(StringLess)
  {
    forall a, b ensures !StringLess(a, a) && (a != b ==> StringLess(a, b) || StringLess(b, a)) {
      StringLessTotal(a, b);
    }
    forall a, b, c | StringLess(a, b) && StringLess(b, c) ensures StringLess(a, c) {
      StringLessTransitive(a, b, c);
    }
  }

  /** The strings agree up to position `k`, where the first ends or has the smaller character. */
  ghost predicate DiffersAt(a: string, b: string, k: nat)
  {
    k <= |a| && k < |b| && a[..k] == b[..k] && (k == |a| || a[k] < b[k])
  }

  lemma SamePrefixSameFirst(a: string, b: string, k: nat)
    requires 0 < k <= |a| && k <= |b| && a[..k] == b[..k]
    ensures a[0] == b[0]
  {
    assert a[..k][0] == a[0] && b[..k][0] == b[0];
  }

  /** One string is smaller than another exactly when it is smaller where they first differ. */
  lemma {:induction false} StringLessIffFirstDifference(a: string, b: string)
    ensures StringLess(a, b) <==> exists k: nat :: DiffersAt(a, b, k)
  {
    if a == "" || b == "" {
      assert b != "" ==> DiffersAt(a, b, 0);
    } else if a[0] != b[0] {
      assert a[0] < b[0] ==> DiffersAt(a, b, 0);
      forall k: nat | DiffersAt(a, b, k) ensures k == 0 {
        if k > 0 { SamePrefixSameFirst(a, b, k); }
      }
    } else {
      StringLessIffFirstDifference(a[1..], b[1..]);
      assert a == [a[0]] + a[1..] && b == [b[0]] + b[1..];
      if k: nat :| DiffersAt(a[1..], b[1..], k) {
        assert a[..k + 1] == [a[0]] + a[1..][..k] && b[..k + 1] == [b[0]] + b[1..][..k];
        assert DiffersAt(a, b, k + 1);
      }
      if k: nat :| DiffersAt(a, b, k) {
        assert a[1..][..k - 1] == a[..k][1..] && b[1..][..k - 1] == b[..k][1..];
        assert DiffersAt(a[1..], b[1..], k - 1);
      }
    }
  }

  /** Insertion point search: `x` placed in its position of an increasing sequence. */
  function Insert<T(!new)>(s: seq<T>, x: T, less: (T, T) -> bool): (r: seq<T>)
    ensures multiset(r) == multiset(s) + multiset{x}
  {
    if s == [] then [x]
    else if less(x, s[0]) then
      assert [x] + s == [x] + s;
      [x] + s
    else
      assert s == [s[0]] + s[1..];
      [s[0]] + Insert(s[1..], x, less)
  }

  lemma {:induction false} InsertKeepsIncreasing<T(!new)>(s: seq<T>, x: T, less: (T, T) -> bool)
    requires StrictTotal(less) && Increasing(s, less) && x !in s
    ensures Increasing(Insert(s, x, less), less)
  {
    if s != [] && !less(x, s[0]) {
      InsertKeepsIncreasing(s[1..], x, less);
      var r := Insert(s[1..], x, less);
      forall j | 0 <= j < |r| ensures less(s[0], r[j]) {
        assert r[j] in multiset(r);
        assert r[j] == x || r[j] in s[1..];
      }
    }
  }

  lemma {:induction false} ElementsOfInsert<T(!new)>(s: seq<T>, x: T, less: (T, T) -> bool)
    ensures Elements(Insert(s, x, less)) == Elements(s) + {x}
  {
    var r := Insert(s, x, less);
    forall y ensures y in r <==> y in s || y == x {
      assert y in r <==> y in multiset(r);
      assert y in s <==> y in multiset(s);
    }
  }

  /** `oracleSortedKeys`: the keys of a map, walked in any order, then sorted. */
  method SortedKeys(keys: set<string>, less: (string, string) -> bool) returns (out: seq<string>)
    requires StrictTotal(less)
    ensures Increasing(out, less) && Elements(out) == keys
  {
    out := [];
    var todo := keys;
    while todo != {}
      invariant todo <= keys && Increasing(out, less) && Elements(out) == keys - todo
      decreases todo
    {
      var k :| k in todo;
      assert k !in Elements(out);
      InsertKeepsIncreasing(out, k, less);
      ElementsOfInsert(out, k, less);
      out := Insert(out, k, less);
      todo := todo - {k};
    }
  }

  /** Every finite set has its increasing list. */
  lemma {:induction false} SortedList<T(!new)>(keys: set<T>, less: (T, T) -> bool) returns (out: seq<T>)
    requires StrictTotal(less)
    ensures Increasing(out, less) && Elements(out) == keys
  {
    out := [];
    if keys != {} {
      var k :| k in keys;
      var rest := SortedList(keys - {k}, less);
      assert k !in Elements(rest);
      InsertKeepsIncreasing(rest, k, less);
      ElementsOfInsert(rest, k, less);
      out := Insert(rest, k, less);
    }
  }

  /** Compare by `f` first and, where that ties, by `less`. */
  function ByThen<K, A(==)>(f: K -> A, lessA: (A, A) -> bool, less: (K, K) -> bool): (K, K) -> bool
  {
    (a, b) => if f(a) != f(b) then lessA(f(a), f(b)) else less(a, b)
  }

  lemma ByThenIsStrictTotal<K(!new), A(!new)>(f: K -> A, lessA: (A, A) -> bool, less: (K, K) -> bool)
    requires StrictTotal(lessA) && StrictTotal(less)
    ensures StrictTotal(ByThen(f, lessA, less))
  {
    var l := ByThen(f, lessA, less);
    forall a, b ensures !l(a, a) && (a != b ==> l(a, b) || l(b, a)) {
    }
    forall a, b, c | l(a, b) && l(b, c) ensures l(a, c) {
      assert f(a) != f(b) && f(b) != f(c) ==> lessA(f(a), f(c));
    }
  }
}
