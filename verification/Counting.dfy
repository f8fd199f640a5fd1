/** Counting the entries of a map that satisfy a predicate, and how one update moves the count. */
module Counting {

  function Where<K, V>(m: map<K, V>, p: V -> bool): set<K> {
    set k | k in m && p(m[k])
  }

  function Count<K, V>(m: map<K, V>, p: V -> bool): nat {
    |Where(m, p)|
  }

  function Bit(b: bool): nat { if b then 1 else 0 }

  /** The entries other than `k` that satisfy `p`. */
  ghost function Others<K, V>(m: map<K, V>, k: K, p: V -> bool): set<K> {
    set j | j in m && j != k && p(m[j])
  }

  lemma CountSplit<K, V>(m: map<K, V>, k: K, p: V -> bool)
    ensures Count(m, p) == |Others(m, k, p)| + Bit(k in m && p(m[k]))
  {
    if k in m && p(m[k]) {
      assert Where(m, p) == Others(m, k, p) + {k};
    } else {
      assert Where(m, p) == Others(m, k, p);
    }
  }

  lemma CountUpdate<K, V>(m: map<K, V>, k: K, v: V, p: V -> bool)
    ensures Count(m[k := v], p) == Count(m, p) - Bit(k in m && p(m[k])) + Bit(p(v))
  {
    CountSplit(m, k, p);
    CountSplit(m[k := v], k, p);
    assert Others(m[k := v], k, p) == Others(m, k, p);
  }

  /** If whatever satisfies `p` satisfies `q`, there are no more of the former; and strictly
      fewer when some entry satisfies only `q`. */
  lemma CountSubset<K, V>(m: map<K, V>, p: V -> bool, q: V -> bool)
    requires forall k :: k in m && p(m[k]) ==> q(m[k])
    ensures Count(m, p) <= Count(m, q)
    ensures (exists k :: k in m && q(m[k]) && !p(m[k])) ==> Count(m, p) < Count(m, q)
  {
    SubsetSize(Where(m, p), Where(m, q));
    if k :| k in m && q(m[k]) && !p(m[k]) {
      SubsetSize(Where(m, p), Where(m, q) - {k});
    }
  }

  lemma CountDifference<K, V>(m: map<K, V>, p: V -> bool, q: V -> bool, r: V -> bool)
    requires forall k :: k in m ==> (p(m[k]) ==> q(m[k])) && (r(m[k]) <==> q(m[k]) && !p(m[k]))
    ensures Count(m, q) == Count(m, p) + Count(m, r)
  {
    assert Where(m, q) == Where(m, p) + Where(m, r);
  }

  lemma CountAlike<K, V>(m: map<K, V>, m': map<K, V>, p: V -> bool)
    requires m'.Keys == m.Keys && forall k :: k in m ==> p(m'[k]) == p(m[k])
    ensures Count(m', p) == Count(m, p)
  {
    assert forall k :: k in m <==> k in m.Keys;
    assert Where(m', p) == Where(m, p);
  }

  lemma CountWitness<K, V>(m: map<K, V>, p: V -> bool) returns (k: K)
    requires Count(m, p) > 0
    ensures k in m && p(m[k])
  {
    k :| k in Where(m, p);
  }

  lemma CountPositive<K, V>(m: map<K, V>, k: K, p: V -> bool)
    requires k in m && p(m[k])
    ensures Count(m, p) > 0
  {
    assert k in Where(m, p);
  }

  lemma CountNone<K, V>(m: map<K, V>, p: V -> bool)
    requires forall k :: k in m ==> !p(m[k])
    ensures Count(m, p) == 0
  {
    assert Where(m, p) == {};
  }

  lemma Pick<T>(s: set<T>) returns (x: T)
    requires s != {}
    ensures x in s
  {
    x :| x in s;
  }

  lemma SubsetSize<K>(a: set<K>, b: set<K>)
    requires a <= b
    ensures |a| <= |b|
  {
    assert b == a + (b - a);
  }

  // ----- sums -----

  ghost function Sum<K, V>(m: map<K, V>, f: V -> int): int
    decreases |m.Keys|
  {
    if m == map[] then 0
    else
      var k :| k in m;
      assert (m - {k}).Keys == m.Keys - {k};
      f(m[k]) + Sum(m - {k}, f)
  }

  lemma {:induction false} SumSplit<K, V>(m: map<K, V>, k: K, f: V -> int)
    requires k in m
    ensures Sum(m, f) == f(m[k]) + Sum(m - {k}, f)
    decreases |m.Keys|
  {
    var j :| j in m && Sum(m, f) == f(m[j]) + Sum(m - {j}, f);
    if j != k {
      assert (m - {j}).Keys == m.Keys - {j} && (m - {k}).Keys == m.Keys - {k};
      SumSplit(m - {j}, k, f);
      SumSplit(m - {k}, j, f);
      assert m - {j} - {k} == m - {k} - {j};
    }
  }

  lemma SumUpdate<K, V>(m: map<K, V>, k: K, v: V, f: V -> int)
    requires k in m
    ensures Sum(m[k := v], f) == Sum(m, f) - f(m[k]) + f(v)
  {
    SumSplit(m, k, f);
    SumSplit(m[k := v], k, f);
    assert m[k := v] - {k} == m - {k};
  }

  lemma {:induction false} SumNonNegative<K, V>(m: map<K, V>, f: V -> int)
    requires forall k :: k in m ==> 0 <= f(m[k])
    ensures 0 <= Sum(m, f)
    decreases |m.Keys|
  {
    if k :| k in m {
      assert (m - {k}).Keys == m.Keys - {k};
      SumSplit(m, k, f);
      SumNonNegative(m - {k}, f);
    }
  }
}
