/** Generic lookups and distinctness over sequences. */
module Collections {
  import opened Options
  import opened Amounts

  predicate Distinct<T(==)>(s: seq<T>) {
    forall i, j :: 0 <= i < j < |s| ==> s[i] != s[j]
  }

  function Elements<T>(s: seq<T>): set<T> {
    set x | x in s
  }

  /** Index of the first occurrence of `x`. */
  function Find<T(==)>(s: seq<T>, x: T): (r: Option<nat>)
    ensures r.Some? ==> r.value < |s| && s[r.value] == x
    ensures r.None? <==> x !in s
  {
    if |s| == 0 then None
    else if s[0] == x then Some(0)
    else
      var r := Find(s[1..], x);
      assert s == [s[0]] + s[1..];
      if r.Some? then Some(r.value + 1) else None
  }

  lemma FindDistinct<T>(s: seq<T>, i: nat)
    requires Distinct(s) && i < |s|
    ensures Find(s, s[i]) == Some(i)
  {
  }

  /** The map holds the first `n` keys with their values. */
  ghost predicate MapsPrefix<K, V>(m: map<K, V>, keys: seq<K>, values: seq<V>, n: nat)
    requires n <= |keys| == |values|
  {
    |m| == n && m.Keys == Elements(keys[..n]) && forall i :: 0 <= i < n ==> keys[i] in m && m[keys[i]] == values[i]
  }

  lemma MapsNext<K, V>(m: map<K, V>, keys: seq<K>, values: seq<V>, n: nat)
    requires n < |keys| == |values| && Distinct(keys) && MapsPrefix(m, keys, values, n)
    ensures MapsPrefix(m[keys[n] := values[n]], keys, values, n + 1)
  {
    hide Distinct, Elements;
    PrefixStep(keys, n);
    NotBefore(keys, n);
    InsertFresh(m, keys[n], values[n]);
  }

  lemma InsertFresh<K, V>(m: map<K, V>, k: K, v: V)
    requires k !in m
    ensures |m[k := v]| == |m| + 1 && m[k := v].Keys == m.Keys + {k}
  {
    assert m[k := v].Keys == m.Keys + {k};
  }

  lemma MapsAll<K, V>(m: map<K, V>, keys: seq<K>, values: seq<V>)
    requires |keys| == |values| && MapsPrefix(m, keys, values, |keys|)
    ensures forall k :: k in m <==> k in keys
  {
    assert keys[..|keys|] == keys;
  }

  /** `new Map(keys.map((k, i) => [k, values[i]]))` for distinct keys. */
  method MapOf<K(==), V>(keys: seq<K>, values: seq<V>) returns (m: map<K, V>)
    requires |keys| == |values| && Distinct(keys)
    ensures |m| == |keys|
    ensures forall k :: k in m <==> k in keys
    ensures forall i :: 0 <= i < |keys| ==> m[keys[i]] == values[i]
  {
    hide Distinct, Elements;
    m := map[];
    EmptyPrefix(keys);
    for n := 0 to |keys|
      invariant MapsPrefix(m, keys, values, n)
    {
      MapsNext(m, keys, values, n);
      m := m[keys[n] := values[n]];
    }
    MapsAll(m, keys, values);
  }

  lemma NotBefore<T>(s: seq<T>, n: nat)
    requires Distinct(s) && n < |s|
    ensures s[n] !in s[..n] && forall i :: 0 <= i < n ==> s[i] != s[n]
  {
  }

  lemma PrefixStep<T>(s: seq<T>, n: nat)
    requires n < |s|
    ensures s[..n + 1] == s[..n] + [s[n]]
    ensures s[..|s|] == s
    ensures Distinct(s[..n]) && s[n] !in s[..n] <==> Distinct(s[..n + 1])
    ensures s[n] in s[..n] ==> !Distinct(s)
    ensures Elements(s[..n + 1]) == Elements(s[..n]) + {s[n]}
    ensures s[n] in Elements(s[..n]) <==> s[n] in s[..n]
  {
    if s[n] in s[..n] {
      var i :| 0 <= i < n && s[..n][i] == s[n];
      assert s[..n + 1][i] == s[..n + 1][n];
    }
    if Distinct(s[..n + 1]) {
      assert forall i :: 0 <= i < n ==> s[..n][i] == s[..n + 1][i];
    }
  }

  lemma EmptyPrefix<T>(s: seq<T>)
    ensures Elements(s[..0]) == {} && Distinct(s[..0])
  {
  }

  lemma TakeOut<K, V>(m: map<K, V>, taken: set<K>, k: K)
    ensures (m - taken) - {k} == m - (taken + {k})
  {
  }

  lemma RemoveOne<K, V>(m: map<K, V>, k: K)
    ensures k in m ==> |m| == |m - {k}| + 1
  {
    if k in m {
      var r := m - {k};
      assert m.Keys == r.Keys + {k};
      assert |m.Keys| == |r.Keys| + 1;
    }
  }

  lemma InsertSize<K, V>(m: map<K, V>, k: K, v: V)
    ensures |m| <= |m[k := v]| <= |m| + 1
    ensures m[k := v].Keys == m.Keys + {k}
  {
    if k in m {
      assert m[k := v].Keys == m.Keys;
    }
  }

  lemma {:induction false} DistinctCount<T>(s: seq<T>)
    requires Distinct(s)
    ensures |Elements(s)| == |s|
  {
    if |s| > 0 {
      var n := |s| - 1;
      PrefixStep(s, n);
      assert s[..n + 1] == s;
      DistinctCount(s[..n]);
    }
  }

  lemma {:induction false} ElementsAtMost<T>(s: seq<T>)
    ensures |Elements(s)| <= |s|
  {
    if |s| > 0 {
      var n := |s| - 1;
      PrefixStep(s, n);
      assert s[..n + 1] == s;
      ElementsAtMost(s[..n]);
    }
  }

  lemma FullSubset<T>(a: set<T>, b: set<T>)
    requires a <= b && |a| >= |b|
    ensures a == b
  {
    if x :| x in b && x !in a {
      assert a <= b - {x};
      SubsetSize(a, b - {x});
    }
  }

  lemma {:induction false} SubsetSize<T>(a: set<T>, b: set<T>)
    requires a <= b
    ensures |a| <= |b|
  {
    if x :| x in a {
      SubsetSize(a - {x}, b - {x});
    }
  }
}
