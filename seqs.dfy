/** Generic sequence helpers shared by the backend log store and the client pages. */
module Seqs {

  /** Order-preserving filter (Rust's `iter().filter().collect()`, JavaScript's `Array.filter`). */
  function Filter<T>(p: T -> bool, s: seq<T>): (r: seq<T>)
    ensures |r| <= |s|
    ensures forall i :: 0 <= i < |r| ==> p(r[i])
  {
    if s == [] then []
    else if p(s[0]) then [s[0]] + Filter(p, s[1..])
    else Filter(p, s[1..])
  }

  /** `a` is obtained from `b` by deleting elements, without reordering what is left. */
  predicate IsSubsequence<T(==)>(a: seq<T>, b: seq<T>)
  {
    if a == [] then true
    else if b == [] then false
    else if a[0] == b[0] then IsSubsequence(a[1..], b[1..])
    else IsSubsequence(a, b[1..])
  }

  lemma {:induction false} SubsequenceReflexive<T>(s: seq<T>)
    ensures IsSubsequence(s, s)
  {
    if s != [] {
      SubsequenceReflexive(s[1..]);
    }
  }

  /** The filter keeps an element exactly when it is in the input and passes the predicate. */
  lemma {:induction false} FilterMembership<T>(p: T -> bool, s: seq<T>, x: T)
    ensures x in Filter(p, s) <==> x in s && p(x)
  {
    if s != [] {
      FilterMembership(p, s[1..], x);
      assert s == [s[0]] + s[1..];
    }
  }

  /** Every passing element keeps all its occurrences; every failing one loses all of them. */
  lemma {:induction false} FilterMultiplicity<T>(p: T -> bool, s: seq<T>, x: T)
    ensures multiset(Filter(p, s))[x] == if p(x) then multiset(s)[x] else 0
  {
    if s != [] {
      FilterMultiplicity(p, s[1..], x);
      assert s == [s[0]] + s[1..];
      assert multiset(s) == multiset{s[0]} + multiset(s[1..]);
    }
  }

  /** The filter only deletes: what is kept appears in the input order. */
  lemma {:induction false} FilterSubsequence<T>(p: T -> bool, s: seq<T>)
    ensures IsSubsequence(Filter(p, s), s)
  {
    if s != [] {
      FilterSubsequence(p, s[1..]);
      if !p(s[0]) {
        var r := Filter(p, s[1..]);
        assert r != [] ==> p(r[0]);
      }
    }
  }

  lemma {:induction false} FilterAppend<T>(p: T -> bool, a: seq<T>, b: seq<T>)
    ensures Filter(p, a + b) == Filter(p, a) + Filter(p, b)
  {
    if a != [] {
      FilterAppend(p, a[1..], b);
      assert (a + b)[1..] == a[1..] + b;
    } else {
      assert a + b == b;
    }
  }

  /** Filtering a prefix gives a prefix of the filtered whole. */
  lemma {:induction false} FilterPrefix<T>(p: T -> bool, a: seq<T>, b: seq<T>)
    requires a <= b
    ensures Filter(p, a) <= Filter(p, b)
  {
    assert b == a + b[|a|..];
    FilterAppend(p, a, b[|a|..]);
  }

  /** A filter whose every input element passes returns its input. */
  lemma {:induction false} FilterKeepsAll<T>(p: T -> bool, s: seq<T>)
    requires forall i :: 0 <= i < |s| ==> p(s[i])
    ensures Filter(p, s) == s
  {
    if s != [] {
      FilterKeepsAll(p, s[1..]);
    }
  }

  /** Filtering twice with the same predicate is filtering once. */
  lemma {:induction false} FilterIdempotent<T>(p: T -> bool, s: seq<T>)
    ensures Filter(p, Filter(p, s)) == Filter(p, s)
  {
    FilterKeepsAll(p, Filter(p, s));
  }

  /** The keys of `m` that hold `v`, among those in `done`. */
  function KeysHolding<K, V(==)>(m: map<K, V>, done: set<K>, v: V): set<K>
  {
    set k | k in m && k in done && m[k] == v
  }

  /** In a map that files every value under its own key, a stored value is held by its key alone. */
  lemma KeysHoldingKeyed<K, V>(m: map<K, V>, key: V -> K, v: V)
    requires forall k :: k in m ==> key(m[k]) == k
    requires v in m.Values
    ensures KeysHolding(m, m.Keys, v) == {key(v)}
  {
    var k0 :| k0 in m && m[k0] == v;
    assert key(v) == k0;
  }

  /**
   * The values of a map in an unspecified order (HashMap's `values().cloned().collect()`):
   * each key contributes its value exactly once, so a value appears as often as keys hold it.
   */
  method MapValues<K, V(==)>(m: map<K, V>) returns (vs: seq<V>)
    ensures |vs| == |m|
    ensures forall i :: 0 <= i < |vs| ==> vs[i] in m.Values
    ensures forall k :: k in m ==> m[k] in vs
    ensures forall v :: multiset(vs)[v] == |KeysHolding(m, m.Keys, v)|
  {
    vs := [];
    var remaining := m.Keys;
    while remaining != {}
      invariant remaining <= m.Keys
      invariant |vs| + |remaining| == |m|
      invariant forall i :: 0 <= i < |vs| ==> vs[i] in m.Values
      invariant forall k :: k in m && k !in remaining ==> m[k] in vs
      invariant forall v :: multiset(vs)[v] == |KeysHolding(m, m.Keys - remaining, v)|
      decreases |remaining|
    {
      var k :| k in remaining;
      ghost var before := m.Keys - remaining;
      vs := vs + [m[k]];
      remaining := remaining - {k};
      forall v
        ensures multiset(vs)[v] == |KeysHolding(m, m.Keys - remaining, v)|
      {
        assert m.Keys - remaining == before + {k};
        if m[k] == v {
          assert KeysHolding(m, before + {k}, v) == KeysHolding(m, before, v) + {k};
        } else {
          assert KeysHolding(m, before + {k}, v) == KeysHolding(m, before, v);
        }
      }
    }
    assert m.Keys - remaining == m.Keys;
  }
}
