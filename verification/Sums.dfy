/** Sums over finite maps: account totals, receipt totals, allocated shares. */
module Sums {
  import opened Floors

  ghost function Sum<K>(m: map<K, nat>): nat
    decreases |m|
  {
    if m == map[] then 0
    else
      var k :| k in m;
      m[k] + Sum(m - {k})
  }

  lemma {:induction false} SumRemove<K>(m: map<K, nat>, k: K)
    requires k in m
    ensures Sum(m) == m[k] + Sum(m - {k})
    decreases |m|
  {
    var j :| j in m && Sum(m) == m[j] + Sum(m - {j});
    if j != k {
      SumRemove(m - {j}, k);
      SumRemove(m - {k}, j);
      assert m - {j} - {k} == m - {k} - {j};
    }
  }

  lemma SumUpdate<K>(m: map<K, nat>, k: K, v: nat)
    ensures Sum(m[k := v]) == Sum(m) - (if k in m then m[k] else 0) + v
  {
    SumRemove(m[k := v], k);
    if k in m {
      SumRemove(m, k);
      assert m[k := v] - {k} == m - {k};
    } else {
      assert m[k := v] - {k} == m;
    }
  }

  lemma SumElement<K>(m: map<K, nat>, k: K)
    requires k in m
    ensures m[k] <= Sum(m)
  {
    SumRemove(m, k);
  }

  lemma {:induction false} SumLe<K>(m: map<K, nat>, n: map<K, nat>)
    requires m.Keys == n.Keys
    requires forall k :: k in m ==> m[k] <= n[k]
    ensures Sum(m) <= Sum(n)
    decreases |m|
  {
    if m == map[] {
      assert n == map[];
    } else {
      var k :| k in m;
      SumRemove(m, k);
      SumRemove(n, k);
      SumLe(m - {k}, n - {k});
    }
  }

  lemma {:induction false} SumAdd<K>(m: map<K, nat>, n: map<K, nat>, t: map<K, nat>)
    requires m.Keys == n.Keys == t.Keys
    requires forall k :: k in t ==> t[k] == m[k] + n[k]
    ensures Sum(t) == Sum(m) + Sum(n)
    decreases |m|
  {
    if m == map[] {
      assert n == map[] && t == map[];
    } else {
      var k :| k in m;
      SumRemove(m, k);
      SumRemove(n, k);
      SumRemove(t, k);
      SumAdd(m - {k}, n - {k}, t - {k});
    }
  }

  lemma {:induction false} SumUnion<K>(m: map<K, nat>, n: map<K, nat>)
    requires m.Keys !! n.Keys
    ensures Sum(m + n) == Sum(m) + Sum(n)
    decreases |m|
  {
    if m == map[] {
      assert m + n == n;
    } else {
      var k :| k in m;
      var m' := m - {k};
      SumRemove(m, k);
      SumUnion(m', n);
      SumUpdate(m' + n, k, m[k]);
      UnionUpdate(m, n, k);
    }
  }

  lemma UnionUpdate<K>(m: map<K, nat>, n: map<K, nat>, k: K)
    requires k in m && k !in n
    ensures k !in (m - {k}) + n
    ensures ((m - {k}) + n)[k := m[k]] == m + n
  {
  }

  lemma SumOfPart<K>(m: map<K, nat>, n: map<K, nat>)
    requires m.Keys <= n.Keys && forall k :: k in m ==> m[k] == n[k]
    ensures Sum(m) <= Sum(n)
  {
    var rest := n - m.Keys;
    assert m + rest == n;
    SumUnion(m, rest);
  }

  /** A part of a map leaves room in the sum for any entry it does not have. */
  lemma RoomForOneMore<K>(m: map<K, nat>, n: map<K, nat>, k: K)
    requires m.Keys <= n.Keys && k in n && k !in m
    requires forall j :: j in m ==> m[j] == n[j]
    ensures Sum(m) + n[k] <= Sum(n)
  {
    SumUpdate(m, k, n[k]);
    SumOfPart(m[k := n[k]], n);
  }

  /** A proper part of a map misses one of its keys. */
  lemma PartMissesKey<K, V>(m: map<K, V>, n: map<K, V>)
    requires m.Keys <= n.Keys && (forall k :: k in m ==> m[k] == n[k]) && m != n
    ensures exists k :: k in n && k !in m
    ensures |m| < |n|
  {
    if m.Keys == n.Keys {
      SameMap(m, n);
    }
    var k :| k in n && k !in m;
    SubsetSize(m.Keys, n.Keys - {k});
  }

  lemma SameMap<K, V>(m: map<K, V>, n: map<K, V>)
    requires m.Keys == n.Keys && forall k :: k in m ==> m[k] == n[k]
    ensures m == n
  {
  }

  lemma SubsetSize<K>(a: set<K>, b: set<K>)
    requires a <= b
    ensures |a| <= |b|
  {
    assert b == a + (b - a);
  }

  lemma {:induction false} SumConstant<K>(m: map<K, nat>, c: nat)
    requires forall k :: k in m ==> m[k] == c
    ensures Sum(m) == |m| * c
    decreases |m|
  {
    if m != map[] {
      var k :| k in m;
      SumRemove(m, k);
      SumConstant(m - {k}, c);
      CardinalityRemove(m, k);
      assert |m| * c == (|m| - 1) * c + c;
    }
  }

  lemma CardinalityRemove<K>(m: map<K, nat>, k: K)
    requires k in m
    ensures |m - {k}| == |m| - 1
  {
    assert (m - {k}).Keys == m.Keys - {k};
    assert |(m - {k}).Keys| == |m.Keys| - 1;
  }

  /** Each entry's floored share of `pool` at the rate `pool / total`. */
  ghost function Scaled<K>(m: map<K, nat>, pool: nat, total: nat): (s: map<K, nat>)
    requires 0 < total
    ensures s.Keys == m.Keys
  {
    map k | k in m :: ProRata(m[k], pool, total)
  }

  /** `shares` is at most `n` floored units below the scaled `sum`, and never above it. */
  ghost predicate LosesLess(shares: nat, sum: nat, n: nat, p: nat, b: nat)
    requires 0 < b
  {
    shares * b <= sum * p <= shares * b + n * (b - 1)
  }

  /** Flooring every entry loses less than one unit per entry, and never gains. */
  lemma {:induction false} ScaledSumBounds<K>(m: map<K, nat>, p: nat, b: nat)
    requires 0 < b
    ensures LosesLess(Sum(Scaled(m, p, b)), Sum(m), |m|, p, b)
    decreases |m|
  {
    hide ProRata, LosesLess, Sum;
    if m == map[] {
      NothingLost(p, b);
      SumsOfNothing(m);
      SumsOfNothing(Scaled(m, p, b));
    } else {
      var k :| k in m;
      ScaledSumBounds(m - {k}, p, b);
      ScaledRemove(m, k, p, b);
      SumRemove(m, k);
      CardinalityRemove(m, k);
      ShareBounds(m[k], p, b);
      AddBounds(m[k], Sum(m - {k}), ProRata(m[k], p, b), Sum(Scaled(m - {k}, p, b)), |m| - 1, p, b);
    }
  }

  lemma NothingLost(p: nat, b: nat)
    requires 0 < b
    ensures LosesLess(0, 0, 0, p, b)
  {
  }

  lemma SumsOfNothing<K>(m: map<K, nat>)
    requires m == map[]
    ensures Sum(m) == 0 && |m| == 0
  {
  }

  lemma ScaledRemove<K>(m: map<K, nat>, k: K, p: nat, b: nat)
    requires 0 < b && k in m
    ensures Sum(Scaled(m, p, b)) == ProRata(m[k], p, b) + Sum(Scaled(m - {k}, p, b))
  {
    hide ProRata, Sum;
    var s := Scaled(m, p, b);
    assert s - {k} == Scaled(m - {k}, p, b);
    SumRemove(s, k);
  }

  lemma AddBounds(x: nat, rest: nat, share: nat, shares: nat, n: nat, p: nat, b: nat)
    requires 0 < b
    requires share * b <= x * p < (share + 1) * b
    requires LosesLess(shares, rest, n, p, b)
    ensures LosesLess(share + shares, x + rest, n + 1, p, b)
  {
    assert (x + rest) * p == x * p + rest * p;
    assert (share + 1) * b == share * b + b;
    assert (share + shares) * b == share * b + shares * b;
    assert (n + 1) * (b - 1) == n * (b - 1) + (b - 1);
  }

  /** Scaling a whole to a pool gives out at most the pool, and all but `|m| - 1` units of it. */
  lemma ScaledSumOfWhole<K>(m: map<K, nat>, p: nat)
    requires 0 < Sum(m)
    ensures Sum(Scaled(m, p, Sum(m))) <= p < Sum(Scaled(m, p, Sum(m))) + |m|
  {
    var b := Sum(m);
    var q := Sum(Scaled(m, p, b));
    ScaledSumBounds(m, p, b);
    assert m != map[];
    WholeBounds(q, |m|, p, b);
  }

  lemma WholeBounds(q: nat, n: nat, p: nat, b: nat)
    requires 0 < b && 0 < n
    requires q * b <= b * p <= q * b + n * (b - 1)
    ensures q <= p < q + n
  {
    RateStep(q, p, b);
    if q + n <= p {
      MulLe(q + n, p, b);
      Expand(q, n, b);
    }
  }

  lemma Expand(q: nat, n: nat, b: nat)
    ensures (q + n) * b == q * b + n * (b - 1) + n
  {
  }

  /** Splitting one entry into many never increases the floored total. */
  lemma ScaledSplit<K>(parts: map<K, nat>, p: nat, b: nat)
    requires 0 < b
    ensures Sum(Scaled(parts, p, b)) <= ProRata(Sum(parts), p, b)
  {
    ScaledSumBounds(parts, p, b);
    LargestShare(Sum(parts), p, b, Sum(Scaled(parts, p, b)));
  }
}
