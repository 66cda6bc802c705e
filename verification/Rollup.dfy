/** Finance totals by environment beside their account details: the details partition the totals. */
module Rollup {
  import opened Options

  /** What an account's ledger attributes: per strategy instance (or none), currency and component. */
  datatype Leg = Leg(instance: Option<string>, currency: string, component: string)

  datatype Total = Total(environment: string, currency: string, component: string)

  datatype Detail = Detail(account: string, environment: string, instance: Option<string>, currency: string, component: string)

  /** What the amount type can hold. */
  const MONEY_LIMIT: real := 79228162514264337593543950335.0

  predicate Representable(x: real) {
    -MONEY_LIMIT <= x <= MONEY_LIMIT
  }

  function Amount<K(==)>(m: map<K, real>, k: K): real {
    if k in m then m[k] else 0.0
  }

  // ---------- sums of details ----------

  function TotalOf(d: Detail): Total {
    Total(d.environment, d.currency, d.component)
  }

  ghost function Pick<K(!new), V>(m: map<K, V>): (k: K)
    requires m != map[]
    ensures k in m
  {
    var k :| k in m;
    k
  }

  function Share(d: Detail, amount: real, t: Total): real {
    if TotalOf(d) == t then amount else 0.0
  }

  /** The sum of the details that belong to a total. */
  ghost function Shares(details: map<Detail, real>, t: Total): real
    decreases |details|
  {
    if details == map[] then 0.0
    else
      var d := Pick(details);
      Share(d, details[d], t) + Shares(details - {d}, t)
  }

  lemma {:induction false} SharesTake(details: map<Detail, real>, t: Total, d: Detail)
    requires d in details
    ensures Shares(details, t) == Share(d, details[d], t) + Shares(details - {d}, t)
    decreases |details|
  {
    hide Share;
    var p := Pick(details);
    if p != d {
      SharesTake(details - {p}, t, d);
      SharesTake(details - {d}, t, p);
      assert details - {p} - {d} == details - {d} - {p};
    }
  }

  lemma SharesInsert(details: map<Detail, real>, t: Total, d: Detail, amount: real)
    requires d !in details
    ensures Shares(details[d := amount], t) == Shares(details, t) + Share(d, amount, t)
  {
    hide Share;
    SharesTake(details[d := amount], t, d);
    assert details[d := amount] - {d} == details;
  }

  /** Every total is the sum of its details. */
  ghost predicate Partitioned(totals: map<Total, real>, details: map<Detail, real>) {
    forall t {:trigger Shares(details, t)} :: Amount(totals, t) == Shares(details, t)
  }

  function DetailOf(account: string, environment: string, leg: Leg): Detail {
    Detail(account, environment, leg.instance, leg.currency, leg.component)
  }

  lemma PartitionedInsert(totals: map<Total, real>, details: map<Detail, real>, d: Detail, amount: real)
    requires Partitioned(totals, details) && d !in details
    ensures Partitioned(totals[TotalOf(d) := Amount(totals, TotalOf(d)) + amount], details[d := amount])
  {
    hide Shares;
    var after := totals[TotalOf(d) := Amount(totals, TotalOf(d)) + amount];
    forall t ensures Amount(after, t) == Shares(details[d := amount], t) {
      SharesInsert(details, t, d, amount);
      assert Amount(totals, t) == Shares(details, t);
    }
  }

  /** The details so far: those there were, and one for each leg that is no longer among the rest. */
  ghost predicate Listed(account: string, environment: string, scoped: map<Leg, real>, rest: map<Leg, real>,
                         details: map<Detail, real>, listed: map<Detail, real>) {
    && rest.Keys <= scoped.Keys && (forall leg :: leg in rest ==> rest[leg] == scoped[leg])
    && (forall d :: d in listed <==>
          (d in details || (d.account == account && d.environment == environment && Leg(d.instance, d.currency, d.component) in scoped.Keys - rest.Keys)))
    && (forall d :: d in details ==> listed[d] == details[d])
    && (forall leg :: leg in scoped.Keys - rest.Keys ==> listed[DetailOf(account, environment, leg)] == scoped[leg])
  }

  lemma SumIsShares(totals: map<Total, real>, details: map<Detail, real>, t: Total, sum: real)
    requires Partitioned(totals, details) && t in totals && totals[t] == sum
    ensures Shares(details, t) == sum
  {
    hide Shares;
    assert Amount(totals, t) == Shares(details, t);
  }

  lemma ListedStart(account: string, environment: string, scoped: map<Leg, real>, details: map<Detail, real>)
    ensures Listed(account, environment, scoped, scoped, details, details)
  {
  }

  lemma ListedNext(account: string, environment: string, scoped: map<Leg, real>, rest: map<Leg, real>,
                   details: map<Detail, real>, listed: map<Detail, real>, leg: Leg)
    requires Listed(account, environment, scoped, rest, details, listed) && leg in rest
    requires forall d :: d in details ==> d.account != account
    ensures DetailOf(account, environment, leg) !in listed
    ensures Listed(account, environment, scoped, rest - {leg}, details, listed[DetailOf(account, environment, leg) := rest[leg]])
  {
  }

  lemma ListedAll(account: string, environment: string, scoped: map<Leg, real>, details: map<Detail, real>, listed: map<Detail, real>)
    requires Listed(account, environment, scoped, map[], details, listed)
    ensures forall d :: d in listed <==> d in details || (d.account == account && d.environment == environment && Leg(d.instance, d.currency, d.component) in scoped)
    ensures forall d :: d in details ==> listed[d] == details[d]
    ensures forall leg :: leg in scoped ==> DetailOf(account, environment, leg) in listed && listed[DetailOf(account, environment, leg)] == scoped[leg]
  {
  }

  /** Adds one account's legs to the totals and lists each as a detail; `None` when a total can no longer be represented. */
  method Accumulate(account: string, environment: string, scoped: map<Leg, real>, totals: map<Total, real>, details: map<Detail, real>)
    returns (result: Option<(map<Total, real>, map<Detail, real>)>)
    requires Partitioned(totals, details)
    requires forall d :: d in details ==> d.account != account
    ensures result.Some? ==> Partitioned(result.value.0, result.value.1)
    ensures result.Some? ==> forall d :: d in result.value.1 <==> d in details || (d.account == account && d.environment == environment && Leg(d.instance, d.currency, d.component) in scoped)
    ensures result.Some? ==> forall d :: d in details ==> result.value.1[d] == details[d]
    ensures result.Some? ==> forall leg :: leg in scoped ==> DetailOf(account, environment, leg) in result.value.1 && result.value.1[DetailOf(account, environment, leg)] == scoped[leg]
    ensures result.None? ==> exists rest, more, t :: Listed(account, environment, scoped, rest, details, more) && !Representable(Shares(more, t))
    ensures (forall t :: t in totals ==> Representable(totals[t])) && result.Some? ==> forall t :: t in result.value.0 ==> Representable(result.value.0[t])
  {
    hide Partitioned, Representable, Listed, DetailOf;
    var sums, listed := totals, details;
    var rest := scoped;
    ListedStart(account, environment, scoped, details);
    while rest != map[]
      invariant Partitioned(sums, listed)
      invariant Listed(account, environment, scoped, rest, details, listed)
      invariant (forall t :: t in totals ==> Representable(totals[t])) ==> forall t :: t in sums ==> Representable(sums[t])
      decreases |rest|
    {
      var leg :| leg in rest;
      var d, amount := DetailOf(account, environment, leg), rest[leg];
      var sum := Amount(sums, TotalOf(d)) + amount;
      ListedNext(account, environment, scoped, rest, details, listed, leg);
      PartitionedInsert(sums, listed, d, amount);
      if !Representable(sum) {
        SumIsShares(sums[TotalOf(d) := sum], listed[d := amount], TotalOf(d), sum);
        return None;
      }
      sums := sums[TotalOf(d) := sum];
      listed := listed[d := amount];
      rest := rest - {leg};
    }
    ListedAll(account, environment, scoped, details, listed);
    result := Some((sums, listed));
  }
}
