/** Sums over the values of a map. */
module MapSums {
  ghost function Sum<K, V>(m: map<K, V>, amount: V -> int): int
    decreases |m|
  {
    if m == map[] then 0
    else
      var k :| k in m;
      amount(m[k]) + Sum(m - {k}, amount)
  }

  /** Any key can be taken out first. */
  lemma {:induction false} SumTake<K, V>(m: map<K, V>, amount: V -> int, k: K)
    requires k in m
    ensures Sum(m, amount) == amount(m[k]) + Sum(m - {k}, amount)
    decreases |m|
  {
    var j :| j in m && Sum(m, amount) == amount(m[j]) + Sum(m - {j}, amount);
    if j != k {
      assert k in m - {j} && j in m - {k};
      SumTake(m - {j}, amount, k);
      SumTake(m - {k}, amount, j);
      assert m - {j} - {k} == m - {k} - {j};
    }
  }

  /** Storing a value adds its amount and takes away that of the value it replaces. */
  lemma SumPut<K, V>(m: map<K, V>, amount: V -> int, k: K, v: V)
    ensures Sum(m[k := v], amount) == Sum(m, amount) + amount(v) - if k in m then amount(m[k]) else 0
  {
    var m' := m[k := v];
    SumTake(m', amount, k);
    assert m' - {k} == m - {k};
    if k in m {
      SumTake(m, amount, k);
    } else {
      assert m - {k} == m;
    }
  }

  lemma {:induction false} SumSame<K, V>(m: map<K, V>, n: map<K, V>, amount: V -> int)
    requires m.Keys == n.Keys && forall k :: k in m ==> amount(m[k]) == amount(n[k])
    ensures Sum(m, amount) == Sum(n, amount)
    decreases |m|
  {
    if m != map[] {
      var k :| k in m;
      SumTake(m, amount, k);
      SumTake(n, amount, k);
      SumSame(m - {k}, n - {k}, amount);
    } else {
      assert n == map[];
    }
  }

  lemma {:induction false} SumSplit<K, V>(m: map<K, V>, a: V -> int, b: V -> int, c: V -> int)
    requires forall k :: k in m ==> c(m[k]) == a(m[k]) + b(m[k])
    ensures Sum(m, c) == Sum(m, a) + Sum(m, b)
    decreases |m|
  {
    if m != map[] {
      var k :| k in m;
      SumTake(m, a, k);
      SumTake(m, b, k);
      SumTake(m, c, k);
      SumSplit(m - {k}, a, b, c);
    }
  }

  lemma {:induction false} SumAgrees<K, V>(m: map<K, V>, a: V -> int, b: V -> int)
    requires forall k :: k in m ==> a(m[k]) == b(m[k])
    ensures Sum(m, a) == Sum(m, b)
    decreases |m|
  {
    if m != map[] {
      var k :| k in m;
      SumTake(m, a, k);
      SumTake(m, b, k);
      SumAgrees(m - {k}, a, b);
    }
  }

  /** What one map has more than another, key by key, is the difference of their sums. */
  lemma {:induction false} SumApart<K, V>(m: map<K, V>, n: map<K, V>, a: V -> int, b: V -> int)
    requires m.Keys == n.Keys && forall k :: k in m ==> a(m[k]) == a(n[k]) + b(m[k])
    ensures Sum(m, a) == Sum(n, a) + Sum(m, b)
    decreases |m|
  {
    if m != map[] {
      var k :| k in m;
      SumTake(m, a, k);
      SumTake(n, a, k);
      SumTake(m, b, k);
      SumApart(m - {k}, n - {k}, a, b);
    } else {
      assert n == map[];
    }
  }

  lemma {:induction false} SumZero<K, V>(m: map<K, V>, a: V -> int)
    requires forall k :: k in m ==> a(m[k]) == 0
    ensures Sum(m, a) == 0
    decreases |m|
  {
    if m != map[] {
      var k :| k in m;
      SumTake(m, a, k);
      SumZero(m - {k}, a);
    }
  }

  lemma {:induction false} SumAtLeast<K, V>(m: map<K, V>, a: V -> int)
    requires forall k :: k in m ==> a(m[k]) >= 0
    ensures Sum(m, a) >= 0 && forall k :: k in m ==> Sum(m, a) >= a(m[k])
    decreases |m|
  {
    if m != map[] {
      var k :| k in m;
      SumTake(m, a, k);
      SumAtLeast(m - {k}, a);
      forall j | j in m && j != k ensures Sum(m, a) >= a(m[j]) {
        assert j in m - {k};
      }
    }
  }
}
