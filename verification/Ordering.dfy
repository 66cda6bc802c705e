/** The order of finance rows, and the first rows of a set of them. */
module Ordering {

  /** Text is compared code point by code point. */
  predicate Before(a: string, b: string) {
    if |b| == 0 then false
    else if |a| == 0 then true
    else a[0] < b[0] || (a[0] == b[0] && Before(a[1..], b[1..]))
  }

  lemma {:induction false} BeforeTotal(a: string, b: string)
    ensures a == b || Before(a, b) || Before(b, a)
    ensures !(Before(a, b) && Before(b, a)) && !Before(a, a)
  {
    if |a| > 0 && |b| > 0 {
      BeforeTotal(a[1..], b[1..]);
      assert a == [a[0]] + a[1..] && b == [b[0]] + b[1..];
    }
    if |a| > 0 {
      BeforeIrreflexive(a);
    }
  }

  lemma {:induction false} BeforeIrreflexive(a: string)
    ensures !Before(a, a)
  {
    if |a| > 0 {
      BeforeIrreflexive(a[1..]);
    }
  }

  lemma {:induction false} BeforeTransitive(a: string, b: string, c: string)
    requires Before(a, b) && Before(b, c)
    ensures Before(a, c)
  {
    if |a| > 0 && a[0] == b[0] == c[0] {
      BeforeTransitive(a[1..], b[1..], c[1..]);
    }
  }

  /** A finance entry of one account: its event time, its id, and the size of its printed form. */
  datatype Row = Row(time: int, account: string, id: string, size: nat)

  /** By time, then account, then id. */
  predicate Less(a: Row, b: Row) {
    || a.time < b.time
    || (a.time == b.time && Before(a.account, b.account))
    || (a.time == b.time && a.account == b.account && Before(a.id, b.id))
  }

  /** An id names one row of its account. */
  predicate DistinctIds(s: set<Row>) {
    forall a, b :: a in s && b in s && a.account == b.account && a.id == b.id ==> a == b
  }

  lemma LessTransitive(a: Row, b: Row, c: Row)
    requires Less(a, b) && Less(b, c)
    ensures Less(a, c)
  {
    hide Before;
    if a.time == b.time == c.time {
      if Before(a.account, b.account) && Before(b.account, c.account) {
        BeforeTransitive(a.account, b.account, c.account);
      } else if a.account == b.account && b.account == c.account {
        BeforeTransitive(a.id, b.id, c.id);
      }
    }
  }

  lemma LessTotal(s: set<Row>, a: Row, b: Row)
    requires DistinctIds(s) && a in s && b in s
    ensures a == b || Less(a, b) || Less(b, a)
    ensures !(Less(a, b) && Less(b, a)) && !Less(a, a)
  {
    hide Before;
    BeforeTotal(a.account, b.account);
    BeforeTotal(a.id, b.id);
    BeforeTotal(a.account, a.account);
    BeforeTotal(a.id, a.id);
  }

  // ---------- the first rows of a set ----------

  predicate Sorted(q: seq<Row>) {
    forall i, j :: 0 <= i < j < |q| ==> Less(q[i], q[j])
  }

  predicate AllLess(q: seq<Row>, r: Row) {
    forall i :: 0 <= i < |q| ==> Less(q[i], r)
  }

  /** The listed rows are rows of `s`, in order, and every other row of `s` comes after all of them. */
  predicate Leads(q: seq<Row>, s: set<Row>) {
    && Sorted(q)
    && (forall i :: 0 <= i < |q| ==> q[i] in s)
    && (forall r :: r in s && r !in q ==> AllLess(q, r))
  }

  /** The first `n` rows of `s`, or all of them. */
  predicate FirstRows(q: seq<Row>, s: set<Row>, n: nat) {
    Leads(q, s) && |q| == if n < |s| then n else |s|
  }

  function RowsOf(q: seq<Row>): set<Row> {
    set r | r in q
  }

  lemma {:induction false} SortedSize(s: set<Row>, q: seq<Row>)
    requires DistinctIds(s) && Sorted(q) && (forall i :: 0 <= i < |q| ==> q[i] in s)
    ensures |RowsOf(q)| == |q| && RowsOf(q) <= s && |q| <= |s|
  {
    hide Less;
    if |q| > 0 {
      var n := |q| - 1;
      SortedSize(s, q[..n]);
      assert q == q[..n] + [q[n]];
      assert RowsOf(q) == RowsOf(q[..n]) + {q[n]};
      if q[n] in q[..n] {
        LessTotal(s, q[n], q[n]);
      }
    }
    assert RowsOf(q) <= s;
    SubsetAtMost(RowsOf(q), s);
  }

  lemma SubsetAtMost<T>(a: set<T>, b: set<T>)
    requires a <= b
    ensures |a| <= |b|
    ensures |a| == |b| ==> a == b
  {
    assert b == a + (b - a);
  }

  /** Of two leading lists of one set, the shorter is a prefix of the longer. */
  lemma {:induction false} LeadsUnique(p: seq<Row>, q: seq<Row>, s: set<Row>)
    requires DistinctIds(s) && Leads(p, s) && Leads(q, s) && |p| <= |q|
    ensures p == q[..|p|]
  {
    hide Less;
    if |p| > 0 {
      var n := |p| - 1;
      LeadsPrefix(p, s, n);
      LeadsUnique(p[..n], q, s);
      if p[n] != q[n] {
        LessTotal(s, p[n], q[n]);
        NotBoth(p, q, s, n);
        NotBoth(q, p, s, n);
      }
    }
  }

  /** At the first place where two leading lists differ, neither row comes before the other. */
  lemma NotBoth(p: seq<Row>, q: seq<Row>, s: set<Row>, n: nat)
    requires DistinctIds(s) && Leads(p, s) && Leads(q, s) && n < |p| && n < |q| && p[..n] == q[..n] && p[n] != q[n]
    ensures !Less(p[n], q[n])
  {
    hide Less;
    LessTotal(s, p[n], q[n]);
    LessTotal(s, p[n], p[n]);
    assert forall k :: 0 <= k < n ==> q[k] == q[..n][k] == p[..n][k] == p[k];
    assert p[n] !in q ==> AllLess(q, p[n]);
  }

  lemma LeadsPrefix(q: seq<Row>, s: set<Row>, n: nat)
    requires Leads(q, s) && n <= |q|
    ensures Leads(q[..n], s)
  {
    hide Less;
    assert forall k :: 0 <= k < n ==> q[k] == q[..n][k];
    forall r | r in s && r !in q[..n] ensures AllLess(q[..n], r) {
      if r in q {
        var k :| 0 <= k < |q| && q[k] == r;
      }
    }
  }

  lemma LeadsAll(q: seq<Row>, s: set<Row>)
    requires DistinctIds(s) && Leads(q, s) && |q| == |s|
    ensures RowsOf(q) == s
  {
    hide Less;
    SortedSize(s, q);
    SubsetAtMost(RowsOf(q), s);
  }

  /** What follows the first rows leads what is left. */
  lemma LeadsAppend(p: seq<Row>, q: seq<Row>, s: set<Row>, rest: set<Row>)
    requires DistinctIds(s) && Leads(p, s) && rest == s - RowsOf(p) && Leads(q, rest)
    ensures Leads(p + q, s)
  {
    hide Less;
    var all := p + q;
    forall i, j | 0 <= i < j < |all| ensures Less(all[i], all[j]) {
      if i < |p| <= j {
        assert q[j - |p|] in rest;
        assert AllLess(p, q[j - |p|]);
      }
    }
    forall r | r in s && r !in all ensures AllLess(all, r) {
      assert r !in p && r in rest && r !in q;
      assert AllLess(p, r) && AllLess(q, r);
    }
  }

  // ---------- the first rows of a union ----------

  /** The first rows of a union are among the first rows of its parts. */
  lemma LeadsFromParts(u: set<Row>, t: set<Row>, q: seq<Row>, m: nat)
    requires DistinctIds(u) && t <= u && FirstRows(q, t, |t|)
    requires forall r :: r in u && r !in t ==> Cut(t, m, r)
    ensures var n := if m < |q| then m else |q|; Leads(q[..n], u) && (n == |u| <==> u == RowsOf(q[..n]))
    ensures m < |u| ==> m <= |q|
    ensures m >= |u| ==> t == u
  {
    hide Less;
    var n := if m < |q| then m else |q|;
    assert DistinctIds(t);
    LeadsPrefix(q, t, n);
    forall r | r in u && r !in q[..n] ensures AllLess(q[..n], r) {
      if r !in t {
        var p :| MLess(p, t, m, r);
        TopAreLess(t, q, n, p, r, m);
      }
    }
    SortedSize(u, q[..n]);
    SubsetAtMost(RowsOf(q[..n]), u);
    SubsetAtMost(t, u);
    if t != u {
      var r :| r in u && r !in t;
      var p :| MLess(p, t, m, r);
      SortedSize(t, p);
      assert RowsOf(p) + {r} <= u;
      SubsetAtMost(RowsOf(p) + {r}, u);
    }
  }

  /** `m` rows of `t` in order, all before `r`. */
  ghost predicate MLess(p: seq<Row>, t: set<Row>, m: nat, r: Row) {
    |p| == m && Sorted(p) && (forall i :: 0 <= i < m ==> p[i] in t) && AllLess(p, r)
  }

  /** The row was cut off behind `m` others. */
  ghost predicate Cut(t: set<Row>, m: nat, r: Row) {
    exists p :: MLess(p, t, m, r)
  }

  /** If at least `n` rows of `t` come before `r`, then so do the first `n`. */
  lemma TopAreLess(t: set<Row>, q: seq<Row>, n: nat, p: seq<Row>, r: Row, m: nat)
    requires DistinctIds(t) && Leads(q, t) && n <= |q| && n <= m && MLess(p, t, m, r)
    ensures AllLess(q[..n], r)
  {
    hide Less;
    forall i | 0 <= i < n ensures Less(q[i], r) {
      var late := LateRow(t, q, i, p);
      if q[i] != p[late] {
        LessTransitive(q[i], p[late], r);
      }
    }
  }

  /** Among more than `i` distinct rows of `t`, one is not before the `i`-th row of `t`. */
  lemma LateRow(t: set<Row>, q: seq<Row>, i: nat, p: seq<Row>) returns (k: nat)
    requires DistinctIds(t) && Leads(q, t) && i < |q| && i < |p| && Sorted(p) && (forall j :: 0 <= j < |p| ==> p[j] in t)
    ensures k < |p| && (q[i] == p[k] || Less(q[i], p[k]))
  {
    hide Less;
    if forall j :: 0 <= j < |p| ==> p[j] in q[..i] {
      SortedSize(t, p);
      LeadsPrefix(q, t, i);
      SortedSize(t, q[..i]);
      assert RowsOf(p) <= RowsOf(q[..i]);
      SubsetAtMost(RowsOf(p), RowsOf(q[..i]));
      assert false;
    }
    k :| 0 <= k < |p| && p[k] !in q[..i];
    LeadsPrefix(q, t, i + 1);
    if p[k] in q[..i + 1] {
      assert q[..i + 1] == q[..i] + [q[i]];
    } else {
      assert AllLess(q[..i + 1], p[k]);
      assert q[..i + 1][i] == q[i];
    }
  }
}
