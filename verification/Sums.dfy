/** Sums of real numbers over finite maps, independent of the order in which entries are visited. */
module Sums {

  ghost function Pick<K>(m: map<K, real>): (k: K)
    requires m != map[]
    ensures k in m
  {
    var k :| k in m; k
  }

  ghost function Sum<K>(m: map<K, real>): real
    decreases |m|
  {
    if m == map[] then 0.0 else var k := Pick(m); m[k] + Sum(m - {k})
  }

  /** The entries of `m` whose key lies in `s`. */
  ghost function Restrict<K>(m: map<K, real>, s: set<K>): map<K, real> {
    map k | k in m && k in s :: m[k]
  }

  /** Any entry may be taken out first. */
  lemma {:induction false} SumRemove<K>(m: map<K, real>, k: K)
    requires k in m
    ensures Sum(m) == m[k] + Sum(m - {k})
    decreases |m|
  {
    var j := Pick(m);
    if j != k {
      SumRemove(m - {j}, k);
      SumRemove(m - {k}, j);
      assert m - {j} - {k} == m - {k} - {j};
    }
  }

  lemma SumInsert<K>(m: map<K, real>, k: K, v: real)
    requires k !in m
    ensures Sum(m[k := v]) == Sum(m) + v
  {
    SumRemove(m[k := v], k);
    assert m[k := v] - {k} == m;
  }

  lemma SumUpdate<K>(m: map<K, real>, k: K, v: real)
    requires k in m
    ensures Sum(m[k := v]) == Sum(m) - m[k] + v
  {
    SumRemove(m, k);
    SumInsert(m - {k}, k, v);
    assert (m - {k})[k := v] == m[k := v];
  }

  lemma SumOne<K>(k: K, v: real)
    ensures Sum(map[k := v]) == v
  {
    SumInsert(map[], k, v);
    assert map[k := v] == map[][k := v];
  }

  /** Moving one entry moves the sum by as much. */
  lemma SumMoves<K>(m: map<K, real>, m': map<K, real>, k: K, delta: real)
    requires k in m && m.Keys == m'.Keys
    requires forall j <- m :: m'[j] == m[j] + if j == k then delta else 0.0
    ensures Sum(m') == Sum(m) + delta
  {
    SumUpdate(m, k, m[k] + delta);
    assert m' == m[k := m[k] + delta];
  }

  /** A sum splits along any set of keys. */
  lemma {:induction false} SumSplit<K>(m: map<K, real>, s: set<K>)
    ensures Sum(m) == Sum(Restrict(m, s)) + Sum(m - s)
    decreases |m|
  {
    if m == map[] {
      assert Restrict(m, s) == map[] && m - s == map[];
    } else {
      var k := Pick(m);
      SumSplit(m - {k}, s);
      if k in s {
        SumRemove(Restrict(m, s), k);
        assert Restrict(m, s) - {k} == Restrict(m - {k}, s);
        assert m - {k} - s == m - s;
      } else {
        SumRemove(m - s, k);
        assert m - s - {k} == m - {k} - s;
        assert Restrict(m - {k}, s) == Restrict(m, s);
      }
    }
  }

  /** The entries of `m` that fall into one group. */
  ghost function Within<K, G>(m: map<K, real>, group: map<K, G>, g: G): map<K, real>
    requires m.Keys <= group.Keys
  {
    map k | k in m && group[k] == g :: m[k]
  }

  /** A group of one entry. */
  lemma SumWithinOne<K, G>(m: map<K, real>, group: map<K, G>, g: G, k: K)
    requires m.Keys <= group.Keys && k in m && group[k] == g
    requires forall i <- m :: group[i] == g ==> i == k
    ensures Sum(Within(m, group, g)) == m[k]
  {
    SumOne(k, m[k]);
    assert Within(m, group, g) == map[k := m[k]];
  }

  ghost function Without<K, G>(m: map<K, real>, group: map<K, G>, g: G): map<K, real>
    requires m.Keys <= group.Keys
  {
    map k | k in m && group[k] != g :: m[k]
  }

  lemma SumWithout<K, G>(m: map<K, real>, group: map<K, G>, g: G)
    requires m.Keys <= group.Keys
    ensures Sum(m) == Sum(Within(m, group, g)) + Sum(Without(m, group, g))
  {
    var inside := Within(m, group, g).Keys;
    SumSplit(m, inside);
    assert Restrict(m, inside) == Within(m, group, g);
    assert m - inside == Without(m, group, g);
  }

  lemma WithinWithout<K, G>(m: map<K, real>, group: map<K, G>, g: G, h: G)
    requires m.Keys <= group.Keys && g != h
    ensures Within(Without(m, group, g), group, h) == Within(m, group, h)
  {
  }

  /** Summing group by group gives the total. */
  lemma {:induction false} SumGroups<K, G>(m: map<K, real>, group: map<K, G>, totals: map<G, real>)
    requires m.Keys <= group.Keys
    requires forall k <- m :: group[k] in totals
    requires forall g <- totals :: totals[g] == Sum(Within(m, group, g))
    ensures Sum(totals) == Sum(m)
    decreases |totals|
  {
    if totals == map[] {
      assert m == map[];
    } else {
      var g := Pick(totals);
      SumWithout(m, group, g);
      forall h | h in totals - {g} ensures totals[h] == Sum(Within(Without(m, group, g), group, h)) {
        WithinWithout(m, group, g, h);
      }
      SumGroups(Without(m, group, g), group, totals - {g});
    }
  }

  lemma {:induction false} SumZero<K>(m: map<K, real>)
    requires forall k <- m :: m[k] == 0.0
    ensures Sum(m) == 0.0
    decreases |m|
  {
    if m != map[] {
      SumZero(m - {Pick(m)});
    }
  }

  /** In a merge, the entries of the second map replace those of the first. */
  lemma SumMerge<K>(m: map<K, real>, n: map<K, real>)
    ensures Sum(m + n) == Sum(m) - Sum(Restrict(m, n.Keys)) + Sum(n)
  {
    SumSplit(m, n.Keys);
    SumSplit(m + n, n.Keys);
    assert Restrict(m + n, n.Keys) == n;
    assert (m + n) - n.Keys == m - n.Keys;
  }

  lemma {:induction false} SumNegate<K>(m: map<K, real>)
    ensures Sum(map k | k in m :: -m[k]) == -Sum(m)
    decreases |m|
  {
    var n := map k | k in m :: -m[k];
    if m == map[] {
      assert n == map[];
    } else {
      var k := Pick(m);
      SumNegate(m - {k});
      SumRemove(n, k);
      assert n - {k} == map j | j in m - {k} :: -(m - {k})[j];
    }
  }

  /** A sum of positive entries is positive, unless there are none. */
  lemma {:induction false} SumPositive<K>(m: map<K, real>)
    requires forall k <- m :: m[k] > 0.0
    ensures Sum(m) >= 0.0
    ensures Sum(m) == 0.0 <==> m == map[]
    decreases |m|
  {
    if m != map[] {
      SumPositive(m - {Pick(m)});
    }
  }

  /** When every entry is the whole sum, the sum is zero, unless there is one entry only. */
  lemma PartsEqualToWhole<K>(m: map<K, real>, j: K, k: K)
    requires j in m && k in m && j != k
    requires forall i <- m :: m[i] == Sum(m)
    ensures Sum(m) == 0.0
  {
    var rest := m - {j};
    SumRemove(m, j);
    assert k in rest && k in map i | i in rest :: -rest[i];
    if Sum(m) > 0.0 {
      SumPositive(rest);
    } else if Sum(m) < 0.0 {
      SumNegate(rest);
      SumPositive(map i | i in rest :: -rest[i]);
    }
  }
}
