/** Grouping and totalling, once for every report: what a loop that folds rows
    into a map of buckets computes, and what no regrouping or reordering of the
    rows can change. */
module Aggregation {
  import opened Ordering

  /** A value type with an accumulation that has a neutral element. */
  datatype Monoid<!T(!new)> = Monoid(zero: T, op: (T, T) -> T)

  /** The laws at one triple; naming them keeps the prover from chasing
      associativity on its own. */
  ghost predicate Laws<T(!new)>(m: Monoid<T>, a: T, b: T, c: T)
  {
    && m.op(a, m.zero) == a
    && m.op(a, b) == m.op(b, a)
    && m.op(m.op(a, b), c) == m.op(a, m.op(b, c))
  }

  ghost predicate Commutative<T(!new)>(m: Monoid<T>) { forall a, b, c :: Laws(m, a, b, c) }

  lemma Swap<T(!new)>(m: Monoid<T>, a: T, b: T, c: T)
    requires Commutative(m)
    ensures m.op(m.op(a, b), c) == m.op(m.op(a, c), b) == m.op(a, m.op(b, c)) == m.op(b, m.op(a, c))
    ensures m.op(a, m.zero) == a == m.op(m.zero, a)
  {
    assert Laws(m, a, b, c) && Laws(m, a, c, b) && Laws(m, b, c, c) && Laws(m, b, a, c) && Laws(m, a, m.zero, c);
    assert Laws(m, b, c, a) && Laws(m, m.zero, a, a);
  }

  const INT_SUM: Monoid<int> := Monoid(0, (a, b) => a + b)

  function Total<X, T(!new)>(s: seq<X>, f: X -> T, m: Monoid<T>): T
  {
    if s == [] then m.zero else m.op(Total(s[..|s| - 1], f, m), f(s[|s| - 1]))
  }

  function At<K, T(!new)>(g: map<K, T>, k: K, m: Monoid<T>): T { if k in g then g[k] else m.zero }

  /** The buckets a loop over `s` builds, each row added to the bucket of its key. */
  function Groups<X, K, T(!new)>(s: seq<X>, key: X -> K, f: X -> T, m: Monoid<T>): map<K, T>
  {
    if s == [] then map[]
    else
      var (g, x) := (Groups(s[..|s| - 1], key, f, m), s[|s| - 1]);
      g[key(x) := m.op(At(g, key(x), m), f(x))]
  }

  /** The buckets `ks` added up, in no particular order. */
  ghost function SumOver<K, T(!new)>(g: map<K, T>, ks: set<K>, m: Monoid<T>): T
    requires ks <= g.Keys
  {
    if ks == {} then m.zero
    else var k :| k in ks; m.op(g[k], SumOver(g, ks - {k}, m))
  }

  lemma {:induction false} SumPick<K, T(!new)>(g: map<K, T>, ks: set<K>, k: K, m: Monoid<T>)
    requires ks <= g.Keys && k in ks && Commutative(m)
    ensures SumOver(g, ks, m) == m.op(g[k], SumOver(g, ks - {k}, m))
  {
    var j :| j in ks && SumOver(g, ks, m) == m.op(g[j], SumOver(g, ks - {j}, m));
    if j != k {
      SumPick(g, ks - {j}, k, m);
      SumPick(g, ks - {k}, j, m);
      assert ks - {j} - {k} == ks - {k} - {j};
      Swap(m, g[j], g[k], SumOver(g, ks - {j} - {k}, m));
    }
  }

  lemma {:induction false} SumSame<K, T(!new)>(g: map<K, T>, h: map<K, T>, ks: set<K>, m: Monoid<T>)
    requires ks <= g.Keys && ks <= h.Keys && Commutative(m)
    requires forall k :: k in ks ==> g[k] == h[k]
    ensures SumOver(g, ks, m) == SumOver(h, ks, m)
  {
    if ks != {} {
      var k :| k in ks;
      SumPick(g, ks, k, m);
      SumPick(h, ks, k, m);
      SumSame(g, h, ks - {k}, m);
    }
  }

  // ----- regrouping -------------------------------------------------------

  /** Rows of one fine bucket never part ways in the coarse grouping. */
  ghost predicate Coarser<X(!new), K, L>(s: seq<X>, fine: X -> K, coarse: X -> L)
  {
    forall x, y :: x in s && y in s && fine(x) == fine(y) ==> coarse(x) == coarse(y)
  }

  /** The fine buckets that end up in coarse bucket `l`. */
  ghost function Constituents<X(!new), K, L>(s: seq<X>, fine: X -> K, coarse: X -> L, l: L): set<K>
  {
    set i | 0 <= i < |s| && coarse(s[i]) == l :: fine(s[i])
  }

  lemma {:induction false} KeysOfGroups<X(!new), K, T(!new)>(s: seq<X>, key: X -> K, f: X -> T, m: Monoid<T>)
    ensures Groups(s, key, f, m).Keys == KeySet(s, key)
  {
    if s != [] {
      KeysOfGroups(s[..|s| - 1], key, f, m);
      assert forall i :: 0 <= i < |s| - 1 ==> s[..|s| - 1][i] == s[i];
    }
  }

  /** A coarse bucket is the sum of its fine constituents. */
  lemma {:induction false} Regroup<X(!new), K(!new), L, T(!new)>(s: seq<X>, fine: X -> K, coarse: X -> L, l: L,
                                                                 f: X -> T, m: Monoid<T>)
    requires Commutative(m) && Coarser(s, fine, coarse)
    ensures Constituents(s, fine, coarse, l) <= Groups(s, fine, f, m).Keys
    ensures At(Groups(s, coarse, f, m), l, m) == SumOver(Groups(s, fine, f, m), Constituents(s, fine, coarse, l), m)
  {
    KeysOfGroups(s, fine, f, m);
    if s != [] {
      var n := |s| - 1;
      var init, x := s[..n], s[n];
      var g, cs := Groups(init, fine, f, m), Constituents(init, fine, coarse, l);
      assert forall y :: y in init ==> y in s;
      Regroup(init, fine, coarse, l, f, m);
      RegroupStep(s, fine, coarse, l, f, m);
    }
  }

  lemma {:induction false} RegroupStep<X(!new), K(!new), L, T(!new)>(s: seq<X>, fine: X -> K, coarse: X -> L, l: L,
                                                                     f: X -> T, m: Monoid<T>)
    requires s != [] && Commutative(m) && Coarser(s, fine, coarse)
    requires Constituents(s, fine, coarse, l) <= Groups(s, fine, f, m).Keys
    requires Constituents(s[..|s| - 1], fine, coarse, l) <= Groups(s[..|s| - 1], fine, f, m).Keys
    requires At(Groups(s[..|s| - 1], coarse, f, m), l, m)
             == SumOver(Groups(s[..|s| - 1], fine, f, m), Constituents(s[..|s| - 1], fine, coarse, l), m)
    ensures At(Groups(s, coarse, f, m), l, m) == SumOver(Groups(s, fine, f, m), Constituents(s, fine, coarse, l), m)
  {
    var n := |s| - 1;
    var init, x, k := s[..n], s[n], fine(s[n]);
    var g, cs := Groups(init, fine, f, m), Constituents(init, fine, coarse, l);
    var g', cs' := Groups(s, fine, f, m), Constituents(s, fine, coarse, l);
    assert forall i :: 0 <= i < n ==> init[i] == s[i];
    KeysOfGroups(init, fine, f, m);
    assert cs' == if coarse(x) == l then cs + {k} else cs;
    if coarse(x) == l {
      if k in cs {
        SumPick(g, cs, k, m);
      } else {
        assert cs' - {k} == cs;
        assert k !in g;
      }
      SumPick(g', cs', k, m);
      assert cs' - {k} == cs - {k};
      SumSame(g, g', cs - {k}, m);
      Swap(m, At(g, k, m), f(x), SumOver(g, cs - {k}, m));
      Swap(m, SumOver(g, cs, m), f(x), f(x));
      assert k !in cs ==> cs - {k} == cs;
    } else {
      assert k !in cs;
      SumSame(g, g', cs, m);
    }
  }

  /** Conservation: the buckets together hold exactly the rows' total. */
  lemma {:induction false} GroupsConserveTotal<X(!new), K(!new), T(!new)>(s: seq<X>, key: X -> K, f: X -> T,
                                                                          m: Monoid<T>)
    requires Commutative(m)
    ensures SumOver(Groups(s, key, f, m), Groups(s, key, f, m).Keys, m) == Total(s, f, m)
  {
    var one: X -> () := _ => ();
    KeysOfGroups(s, key, f, m);
    Regroup(s, key, one, (), f, m);
    assert Constituents(s, key, one, ()) == Groups(s, key, f, m).Keys;
    OneGroup(s, one, f, m);
  }

  lemma {:induction false} OneGroup<X(!new), T(!new)>(s: seq<X>, one: X -> (), f: X -> T, m: Monoid<T>)
    ensures At(Groups(s, one, f, m), (), m) == Total(s, f, m)
  {
    if s != [] {
      OneGroup(s[..|s| - 1], one, f, m);
      assert one(s[|s| - 1]) == ();
    }
  }

  lemma {:induction false} CoarserHasNoMoreGroups<X(!new), K(!new), L(!new), T(!new)>(s: seq<X>, fine: X -> K,
                                                                                      coarse: X -> L, f: X -> T,
                                                                                      m: Monoid<T>)
    requires Coarser(s, fine, coarse)
    ensures |Groups(s, coarse, f, m)| <= |Groups(s, fine, f, m)|
  {
    KeysOfGroups(s, fine, f, m);
    KeysOfGroups(s, coarse, f, m);
    CoarserHasNoMoreKeys(s, fine, coarse);
    assert |Groups(s, coarse, f, m)| == |Groups(s, coarse, f, m).Keys|;
    assert |Groups(s, fine, f, m)| == |Groups(s, fine, f, m).Keys|;
  }

  ghost function KeySet<X, K>(s: seq<X>, key: X -> K): set<K> { set i | 0 <= i < |s| :: key(s[i]) }

  lemma {:induction false} CoarserHasNoMoreKeys<X(!new), K(!new), L(!new)>(s: seq<X>, fine: X -> K, coarse: X -> L)
    requires Coarser(s, fine, coarse)
    ensures |KeySet(s, coarse)| <= |KeySet(s, fine)|
  {
    if s != [] {
      var n := |s| - 1;
      assert forall y :: y in s[..n] ==> y in s;
      CoarserHasNoMoreKeys(s[..n], fine, coarse);
      KeySetStep(s, fine);
      KeySetStep(s, coarse);
      if fine(s[n]) in KeySet(s[..n], fine) {
        var i :| 0 <= i < n && fine(s[..n][i]) == fine(s[n]);
        assert coarse(s[..n][i]) == coarse(s[n]);
      }
    }
  }

  lemma KeySetStep<X, K>(s: seq<X>, key: X -> K)
    requires s != []
    ensures KeySet(s, key) == KeySet(s[..|s| - 1], key) + {key(s[|s| - 1])}
  {
    assert forall i :: 0 <= i < |s| - 1 ==> s[..|s| - 1][i] == s[i];
  }

  // ----- reordering -------------------------------------------------------

  lemma {:induction false} TotalConcat<X, T(!new)>(s: seq<X>, t: seq<X>, f: X -> T, m: Monoid<T>)
    requires Commutative(m)
    ensures Total(s + t, f, m) == m.op(Total(s, f, m), Total(t, f, m))
  {
    Swap(m, Total(s, f, m), m.zero, m.zero);
    if t == [] {
      assert s + t == s;
    } else {
      TotalConcat(s, t[..|t| - 1], f, m);
      assert (s + t)[..|s + t| - 1] == s + t[..|t| - 1];
      Swap(m, Total(s, f, m), Total(t[..|t| - 1], f, m), f(t[|t| - 1]));
    }
  }

  lemma {:induction false} TotalWithout<X, T(!new)>(t: seq<X>, j: nat, f: X -> T, m: Monoid<T>)
    requires Commutative(m) && j < |t|
    ensures Total(t, f, m) == m.op(Total(t[..j] + t[j + 1..], f, m), f(t[j]))
  {
    var a, b := t[..j], t[j + 1..];
    assert t == (a + [t[j]]) + b && (a + [t[j]])[..j] == a;
    TotalConcat(a + [t[j]], b, f, m);
    TotalConcat(a, b, f, m);
    Swap(m, Total(a, f, m), f(t[j]), Total(b, f, m));
  }

  lemma {:induction false} TotalOfPermutation<X(!new), T(!new)>(s: seq<X>, t: seq<X>, f: X -> T, m: Monoid<T>)
    requires Commutative(m) && multiset(s) == multiset(t)
    ensures Total(s, f, m) == Total(t, f, m)
    decreases |s|
  {
    SamePermutationElements(s, t);
    if s != [] {
      var j := WithoutLast(s, t);
      TotalOfPermutation(s[..|s| - 1], t[..j] + t[j + 1..], f, m);
      TotalWithout(t, j, f, m);
    }
  }

  /** Only the rows of key `k` count. */
  function Restricted<X, K(==), T(!new)>(key: X -> K, f: X -> T, k: K, m: Monoid<T>): X -> T
  {
    x => if key(x) == k then f(x) else m.zero
  }

  lemma {:induction false} GroupIsRestrictedTotal<X(!new), K, T(!new)>(s: seq<X>, key: X -> K, f: X -> T, k: K,
                                                                       m: Monoid<T>)
    requires Commutative(m)
    ensures At(Groups(s, key, f, m), k, m) == Total(s, Restricted(key, f, k, m), m)
  {
    if s != [] {
      var init, x := s[..|s| - 1], s[|s| - 1];
      GroupIsRestrictedTotal(init, key, f, k, m);
      Swap(m, At(Groups(init, key, f, m), k, m), m.zero, m.zero);
    }
  }

  /** The buckets do not depend on the order the rows came in. */
  lemma {:induction false} GroupsOfPermutation<X(!new), K(!new), T(!new)>(s: seq<X>, t: seq<X>, key: X -> K, f: X -> T,
                                                                          m: Monoid<T>)
    requires Commutative(m) && multiset(s) == multiset(t)
    ensures Groups(s, key, f, m) == Groups(t, key, f, m)
  {
    var gs, gt := Groups(s, key, f, m), Groups(t, key, f, m);
    SamePermutationElements(s, t);
    KeysOfGroups(s, key, f, m);
    KeysOfGroups(t, key, f, m);
    forall k ensures k in gs <==> k in gt {
      if i :| 0 <= i < |s| && key(s[i]) == k { assert s[i] in t; }
      if i :| 0 <= i < |t| && key(t[i]) == k { assert t[i] in s; }
    }
    forall k | k in gs ensures gs[k] == gt[k] {
      GroupIsRestrictedTotal(s, key, f, k, m);
      GroupIsRestrictedTotal(t, key, f, k, m);
      TotalOfPermutation(s, t, Restricted(key, f, k, m), m);
    }
  }
}
