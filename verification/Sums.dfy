/** Totals over the records of a storage map. */
module Sums {

  ghost function Total<K, V>(m: map<K, V>, f: (K, V) -> int): int
    decreases |m|
  {
    if m == map[] then 0
    else
      var k :| k in m;
      f(k, m[k]) + Total(m - {k}, f)
  }

  /** The amount that key k contributes. */
  ghost function Part<K, V>(m: map<K, V>, f: (K, V) -> int, k: K): int {
    if k in m then f(k, m[k]) else 0
  }

  /** The total does not depend on the order in which records are visited. */
  lemma {:induction false} TotalSplit<K, V>(m: map<K, V>, f: (K, V) -> int, k: K)
    ensures Total(m, f) == Part(m, f, k) + Total(m - {k}, f)
    decreases |m|
  {
    if k !in m {
      assert m - {k} == m;
    } else {
      var j :| j in m && Total(m, f) == f(j, m[j]) + Total(m - {j}, f);
      if j != k {
        TotalSplit(m - {j}, f, k);
        TotalSplit(m - {k}, f, j);
        assert m - {j} - {k} == m - {k} - {j};
      }
    }
  }

  lemma TotalSet<K, V>(m: map<K, V>, f: (K, V) -> int, k: K, v: V)
    ensures Total(m[k := v], f) == Total(m, f) - Part(m, f, k) + f(k, v)
  {
    TotalSplit(m, f, k);
    TotalSplit(m[k := v], f, k);
    assert m[k := v] - {k} == m - {k};
  }

  lemma TotalDrop<K, V>(m: map<K, V>, f: (K, V) -> int, k: K)
    ensures Total(m - {k}, f) == Total(m, f) - Part(m, f, k)
  {
    TotalSplit(m, f, k);
  }

  /** Two maps with the same keys, compared record by record. */
  lemma {:induction false} TotalMono<K, V, W>(m: map<K, V>, f: (K, V) -> int, n: map<K, W>, g: (K, W) -> int)
    requires m.Keys == n.Keys
    requires forall k :: k in m ==> f(k, m[k]) <= g(k, n[k])
    ensures Total(m, f) <= Total(n, g)
    decreases |m|
  {
    if m == map[] {
      assert n == map[];
    } else {
      var k :| k in m;
      TotalSplit(m, f, k);
      TotalSplit(n, g, k);
      assert (m - {k}).Keys == (n - {k}).Keys;
      TotalMono(m - {k}, f, n - {k}, g);
    }
  }

  lemma TotalSame<K, V, W>(m: map<K, V>, f: (K, V) -> int, n: map<K, W>, g: (K, W) -> int)
    requires m.Keys == n.Keys
    requires forall k :: k in m ==> f(k, m[k]) == g(k, n[k])
    ensures Total(m, f) == Total(n, g)
  {
    TotalMono(m, f, n, g);
    TotalMono(n, g, m, f);
  }

  lemma {:induction false} TotalNonNeg<K, V>(m: map<K, V>, f: (K, V) -> int)
    requires forall k :: k in m ==> f(k, m[k]) >= 0
    ensures Total(m, f) >= 0
    ensures forall k :: k in m ==> f(k, m[k]) <= Total(m, f)
    decreases |m|
  {
    forall k | k in m
      ensures 0 <= f(k, m[k]) <= Total(m, f)
    {
      TotalSplit(m, f, k);
      TotalNonNeg(m - {k}, f);
    }
  }

  /** Totals are linear in the summed amounts. */
  lemma {:induction false} TotalLinear<K, V>(m: map<K, V>, f: (K, V) -> int, g: (K, V) -> int, c: int, h: (K, V) -> int)
    requires forall k :: k in m ==> h(k, m[k]) == f(k, m[k]) + c * g(k, m[k])
    ensures Total(m, h) == Total(m, f) + c * Total(m, g)
    decreases |m|
  {
    if m == map[] {
    } else {
      var k :| k in m;
      TotalLinear(m - {k}, f, g, c, h);
      TotalSplit(m, f, k);
      TotalSplit(m, g, k);
      TotalSplit(m, h, k);
      Distribute(c, g(k, m[k]), Total(m - {k}, g));
    }
  }

  lemma {:induction false} TotalScaledMono<K, V>(m: map<K, V>, a: int, f: (K, V) -> int, b: int, g: (K, V) -> int)
    requires forall k :: k in m ==> a * f(k, m[k]) <= b * g(k, m[k])
    ensures a * Total(m, f) <= b * Total(m, g)
    decreases |m|
  {
    if m == map[] {
    } else {
      var k :| k in m;
      TotalScaledMono(m - {k}, a, f, b, g);
      TotalSplit(m, f, k);
      TotalSplit(m, g, k);
      Distribute(a, f(k, m[k]), Total(m - {k}, f));
      Distribute(b, g(k, m[k]), Total(m - {k}, g));
    }
  }

  lemma Distribute(c: int, a: int, b: int)
    ensures c * (a + b) == c * a + c * b
  {
  }

  /** The sum of the amounts that the listed keys contribute. */
  ghost function ListSum<K, V>(keys: seq<K>, m: map<K, V>, f: (K, V) -> int): int {
    if keys == [] then 0 else Part(m, f, keys[0]) + ListSum(keys[1..], m, f)
  }

  lemma {:induction false} ListSumDrop<K, V>(keys: seq<K>, m: map<K, V>, f: (K, V) -> int, k: K)
    requires k !in keys
    ensures ListSum(keys, m - {k}, f) == ListSum(keys, m, f)
  {
    if keys != [] {
      ListSumDrop(keys[1..], m, f, k);
    }
  }

  lemma {:induction false} ListSumNonNeg<K, V>(keys: seq<K>, m: map<K, V>, f: (K, V) -> int)
    requires forall k :: k in m ==> f(k, m[k]) >= 0
    ensures ListSum(keys, m, f) >= 0
  {
    if keys != [] {
      ListSumNonNeg(keys[1..], m, f);
    }
  }

  /** A total may be computed from any list that has every contributing key once. */
  lemma {:induction false} TotalIsListed<K, V>(keys: seq<K>, m: map<K, V>, f: (K, V) -> int)
    requires forall i, j :: 0 <= i < j < |keys| ==> keys[i] != keys[j]
    requires forall k :: k in m && k !in keys ==> f(k, m[k]) == 0
    ensures Total(m, f) == ListSum(keys, m, f)
  {
    if keys == [] {
      TotalScaledMono(m, 1, f, 0, f);
      TotalScaledMono(m, 0, f, 1, f);
    } else {
      TotalSplit(m, f, keys[0]);
      TotalIsListed(keys[1..], m - {keys[0]}, f);
      ListSumDrop(keys[1..], m, f, keys[0]);
    }
  }
}
