/** Sums of naturals over finite maps. */
module Sums {
  import opened Collections

  predicate Same<T(==)>(a: T, b: T) {
    a == b
  }

  function Get<K(==)>(m: map<K, nat>, k: K): nat {
    if k in m then m[k] else 0
  }

  ghost function Without<K, V>(m: map<K, V>, k: K): (r: map<K, V>)
    ensures r.Keys == m.Keys - {k}
    ensures k in m ==> |r| == |m| - 1
    ensures forall x :: x in r ==> r[x] == m[x]
  {
    var r := map x | x in m && x != k :: m[x];
    assert k in m ==> m.Keys == r.Keys + {k};
    assert |m.Keys| == |m| && |r.Keys| == |r|;
    r
  }

  /** Some key of a non-empty map. */
  ghost function Pick<K(!new), V>(m: map<K, V>): (k: K)
    requires |m| > 0
    ensures k in m
  {
    var k :| k in m.Keys;
    k
  }

  ghost function Sum<K(!new)>(m: map<K, nat>): nat
    decreases |m|
  {
    if |m| == 0 then 0 else m[Pick(m)] + Sum(Without(m, Pick(m)))
  }

  /** Any key may be the one taken out first. */
  lemma {:induction false} SumTake<K(!new)>(m: map<K, nat>, k: K)
    requires k in m
    ensures Sum(m) == m[k] + Sum(Without(m, k))
    decreases |m|
  {
    var j := Pick(m);
    if j != k {
      SumTake(Without(m, j), k);
      SumTake(Without(m, k), j);
      assert Without(Without(m, j), k) == Without(Without(m, k), j);
    }
  }

  /** A key counts for its value, or for nothing when absent. */
  lemma SumSplit<K(!new)>(m: map<K, nat>, k: K)
    ensures Sum(m) == Get(m, k) + Sum(Without(m, k))
  {
    if k in m {
      SumTake(m, k);
    } else {
      assert Without(m, k) == m;
    }
  }

  lemma SumUpdate<K(!new)>(m: map<K, nat>, k: K, v: nat)
    ensures Sum(m[k := v]) == Sum(m) - Get(m, k) + v
    ensures Get(m, k) <= Sum(m)
  {
    hide Sum;
    SumSplit(m, k);
    SumSplit(m[k := v], k);
    assert Without(m[k := v], k) == Without(m, k);
  }

  lemma {:induction false} SumMonotone<K(!new)>(a: map<K, nat>, b: map<K, nat>)
    requires a.Keys <= b.Keys
    requires forall k :: k in a ==> a[k] <= b[k]
    ensures Sum(a) <= Sum(b)
    decreases |b|
  {
    hide Sum, Without;
    if |b| == 0 {
      NothingBelow(a, b);
    } else {
      var k := Pick(b);
      SumSplit(a, k);
      SumSplit(b, k);
      SumMonotone(Without(a, k), Without(b, k));
    }
  }

  lemma NothingBelow<K(!new)>(a: map<K, nat>, b: map<K, nat>)
    requires a.Keys <= b.Keys && |b| == 0
    ensures Sum(a) == Sum(b) == 0
  {
    assert a == map[];
  }

  lemma {:induction false} SumAdd<K(!new)>(a: map<K, nat>, b: map<K, nat>, c: map<K, nat>)
    requires a.Keys == b.Keys == c.Keys
    requires forall k :: k in a ==> c[k] == a[k] + b[k]
    ensures Sum(c) == Sum(a) + Sum(b)
    decreases |a|
  {
    if |a| == 0 {
      assert a == map[] && b == map[] && c == map[];
    } else {
      var k := Pick(a);
      SumTake(a, k);
      SumTake(b, k);
      SumTake(c, k);
      SumAdd(Without(a, k), Without(b, k), Without(c, k));
    }
  }

  lemma {:induction false} SumZero<K(!new)>(m: map<K, nat>)
    ensures Sum(m) == 0 <==> forall k :: k in m ==> m[k] == 0
    decreases |m|
  {
    if |m| == 0 {
    } else {
      var k := Pick(m);
      SumTake(m, k);
      SumZero(Without(m, k));
      assert forall x :: x in m ==> x == k || x in Without(m, k);
    }
  }

  // ---------- raising some values of a map ----------

  /** The map with each listed value written where it differs. */
  function RaiseAll<K(==)>(m: map<K, nat>, keys: seq<K>, values: seq<nat>): map<K, nat>
    requires |keys| == |values|
  {
    if |keys| == 0 then m
    else
      var n := |keys| - 1;
      var before := RaiseAll(m, keys[..n], values[..n]);
      if values[n] != Get(m, keys[n]) then before[keys[n] := values[n]] else before
  }

  /** How much the listed values exceed those of the map, in all. */
  function Excess<K(==)>(m: map<K, nat>, keys: seq<K>, values: seq<nat>): int
    requires |keys| == |values|
  {
    if |keys| == 0 then 0
    else
      var n := |keys| - 1;
      Excess(m, keys[..n], values[..n]) + values[n] - Get(m, keys[n])
  }

  predicate NoneLower<K(==)>(m: map<K, nat>, keys: seq<K>, values: seq<nat>)
    requires |keys| == |values|
  {
    forall i :: 0 <= i < |keys| ==> Get(m, keys[i]) <= values[i]
  }

  lemma {:induction false} RaisedValues<K>(m: map<K, nat>, keys: seq<K>, values: seq<nat>)
    requires |keys| == |values| && Distinct(keys)
    ensures m.Keys <= RaiseAll(m, keys, values).Keys
    ensures forall k :: k !in keys ==> Get(RaiseAll(m, keys, values), k) == Get(m, k)
    ensures forall i :: 0 <= i < |keys| ==> Get(RaiseAll(m, keys, values), keys[i]) == values[i]
  {
    if |keys| > 0 {
      hide RaiseAll, Get;
      var n := |keys| - 1;
      var first, before := keys[..n], values[..n];
      PrefixStep(keys, n);
      assert keys[..n + 1] == keys;
      RaisedValues(m, first, before);
      RaiseLast(m, keys, values, n);
      var all := RaiseAll(m, keys, values);
      forall i | 0 <= i < |keys| ensures Get(all, keys[i]) == values[i] {
        if i < n {
          assert first[i] == keys[i] && before[i] == values[i];
        }
      }
      forall k | k !in keys ensures Get(all, k) == Get(m, k) {
        assert k !in first && k != keys[n];
      }
    }
  }

  /** The last value is written last, and leaves every other key alone. */
  lemma RaiseLast<K>(m: map<K, nat>, keys: seq<K>, values: seq<nat>, n: nat)
    requires |keys| == |values| == n + 1 && keys[n] !in keys[..n]
    requires Get(RaiseAll(m, keys[..n], values[..n]), keys[n]) == Get(m, keys[n])
    ensures Get(RaiseAll(m, keys, values), keys[n]) == values[n]
    ensures RaiseAll(m, keys[..n], values[..n]).Keys <= RaiseAll(m, keys, values).Keys
    ensures forall k :: k != keys[n] ==> Get(RaiseAll(m, keys, values), k) == Get(RaiseAll(m, keys[..n], values[..n]), k)
  {
  }

  lemma {:induction false} RaisedSum<K(!new)>(m: map<K, nat>, keys: seq<K>, values: seq<nat>)
    requires |keys| == |values| && Distinct(keys)
    ensures Sum(RaiseAll(m, keys, values)) == Sum(m) + Excess(m, keys, values)
  {
    hide Sum;
    if |keys| > 0 {
      var n := |keys| - 1;
      PrefixStep(keys, n);
      assert keys[..n + 1] == keys;
      RaisedSum(m, keys[..n], values[..n]);
      RaisedValues(m, keys[..n], values[..n]);
      SumUpdate(RaiseAll(m, keys[..n], values[..n]), keys[n], values[n]);
    }
  }

  /** Where nothing goes down, nothing in excess means nothing changes. */
  lemma {:induction false} ExcessFacts<K>(m: map<K, nat>, keys: seq<K>, values: seq<nat>)
    requires |keys| == |values| && NoneLower(m, keys, values)
    ensures Excess(m, keys, values) >= 0
    ensures Excess(m, keys, values) == 0 <==> forall i :: 0 <= i < |keys| ==> values[i] == Get(m, keys[i])
  {
    if |keys| > 0 {
      var n := |keys| - 1;
      ExcessFacts(m, keys[..n], values[..n]);
    }
  }
}
