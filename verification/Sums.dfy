/** Sums over the values of a finite map, and over a sequence. */
module Sums {
  function At<K>(m: map<K, nat>, k: K): nat {
    if k in m then m[k] else 0
  }

  ghost function Total<K>(m: map<K, nat>): nat
    decreases m.Keys
  {
    if m == map[] then 0
    else
      var k :| k in m;
      m[k] + Total(m - {k})
  }

  /** The sum does not depend on which key is taken out first. */
  lemma {:induction false} TotalDrop<K>(m: map<K, nat>, k: K)
    ensures Total(m) == At(m, k) + Total(m - {k})
    decreases m.Keys
  {
    if k in m {
      var j :| j in m && Total(m) == m[j] + Total(m - {j});
      if j != k {
        TotalDrop(m - {j}, k);
        TotalDrop(m - {k}, j);
        assert m - {j} - {k} == m - {k} - {j};
      }
    } else {
      assert m - {k} == m;
    }
  }

  lemma TotalPut<K>(m: map<K, nat>, k: K, v: nat)
    ensures Total(m[k := v]) == Total(m) - At(m, k) + v
  {
    TotalDrop(m, k);
    TotalDrop(m[k := v], k);
    assert m[k := v] - {k} == m - {k};
  }

  /** Two maps that agree outside two keys differ by what those keys hold. */
  lemma TotalOffTwo<K>(m: map<K, nat>, n: map<K, nat>, a: K, b: K)
    requires a != b
    requires m - {a, b} == n - {a, b}
    ensures Total(n) - At(n, a) - At(n, b) == Total(m) - At(m, a) - At(m, b)
  {
    TotalDrop(m, a);
    TotalDrop(m - {a}, b);
    TotalDrop(n, a);
    TotalDrop(n - {a}, b);
    assert m - {a} - {b} == m - {a, b};
    assert n - {a} - {b} == n - {a, b};
  }

  /** No two entries together exceed the whole. */
  lemma TwoWithinTotal<K>(m: map<K, nat>, a: K, b: K)
    requires a != b
    ensures At(m, a) + At(m, b) <= Total(m)
  {
    TotalDrop(m, a);
    TotalDrop(m - {a}, b);
  }

  lemma OneMoreTimes(n: nat, x: nat)
    ensures (n + 1) * x == n * x + x
  {
  }

  lemma {:induction false} TotalConstant<K>(m: map<K, nat>, c: nat)
    requires forall k :: k in m ==> m[k] == c
    ensures Total(m) == |m| * c
    decreases m.Keys
  {
    if m != map[] {
      var k :| k in m;
      TotalDrop(m, k);
      TotalConstant(m - {k}, c);
      assert (m - {k}).Keys == m.Keys - {k};
      var n := |m - {k}|;
      assert |m| == n + 1;
      assert (n + 1) * c == n * c + c;
    }
  }

  /** The entries at some keys. */
  function Within<K>(m: map<K, nat>, s: set<K>): map<K, nat> {
    map k | k in m && k in s :: m[k]
  }

  /** The entries at some keys and the entries elsewhere make the whole. */
  lemma {:induction false} TotalSplit<K>(m: map<K, nat>, s: set<K>)
    ensures Total(m) == Total(Within(m, s)) + Total(m - s)
    decreases m.Keys
  {
    if k :| k in m && k in s {
      TotalDrop(m, k);
      TotalDrop(Within(m, s), k);
      TotalSplit(m - {k}, s);
      assert Within(m - {k}, s) == Within(m, s) - {k};
      assert m - {k} - s == m - s;
    } else {
      assert Within(m, s) == map[];
      assert m - s == m;
    }
  }

  function SeqTotal(s: seq<nat>): nat {
    if s == [] then 0 else SeqTotal(s[..|s| - 1]) + s[|s| - 1]
  }

  ghost predicate Distinct<K>(s: seq<K>) {
    forall i, j :: 0 <= i < j < |s| ==> s[i] != s[j]
  }

  /** Keys listed once each: the listed values sum to no more than the map, and to all of it
      when every key is listed. */
  lemma {:induction false} ListedTotal<K>(m: map<K, nat>, ks: seq<K>, vs: seq<nat>)
    requires Distinct(ks) && |vs| == |ks|
    requires forall i :: 0 <= i < |ks| ==> ks[i] in m && vs[i] == m[ks[i]]
    ensures SeqTotal(vs) + Total(m - set k | k in ks) == Total(m)
    decreases |ks|
  {
    if ks == [] {
      assert m - (set k | k in ks) == m;
    } else {
      var n := |ks| - 1;
      var rest := m - {ks[n]};
      TotalDrop(m, ks[n]);
      ListedTotal(rest, ks[..n], vs[..n]);
      assert ks == ks[..n] + [ks[n]];
      assert rest - (set k | k in ks[..n]) == m - (set k | k in ks);
    }
  }

  lemma {:induction false} DistinctSize<K>(ks: seq<K>)
    requires Distinct(ks)
    ensures |set k | k in ks| == |ks|
    decreases |ks|
  {
    if ks == [] {
      assert (set k | k in ks) == {};
    } else {
      var n := |ks| - 1;
      DistinctSize(ks[..n]);
      assert ks == ks[..n] + [ks[n]];
      assert (set k | k in ks) == (set k | k in ks[..n]) + {ks[n]};
    }
  }

  lemma {:induction false} SubsetSize<K>(a: set<K>, b: set<K>)
    requires a <= b
    ensures |a| <= |b|
    ensures |a| == |b| ==> a == b
  {
    assert b == a + (b - a);
    assert |b| == |a| + |b - a|;
  }

  /** As many distinct keys as a finite set has members are all of its members. */
  lemma Pigeonhole<K>(ks: seq<K>, s: set<K>)
    requires Distinct(ks) && |ks| == |s|
    requires forall i :: 0 <= i < |ks| ==> ks[i] in s
    ensures (set k | k in ks) == s
  {
    DistinctSize(ks);
    SubsetSize((set k | k in ks), s);
  }
}
