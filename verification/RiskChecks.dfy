/** The read-only passes of the risk book, each a loop over a record or a list, and what each computes. */
module RiskChecks {
  import opened Options
  import opened Amounts
  import opened RiskKeys
  import opened Collections
  import opened Governance
  import opened Sums
  import opened RiskBook

  lemma TakeKey(m: map<string, nat>, k: string)
    requires k in m
    ensures Sum(m) == m[k] + Sum(m - {k})
  {
    SumTake(m, k);
    assert Without(m, k) == m - {k};
  }

  /** The reduction over the accounts of a stored book, every one of them readable. */
  method CheckAccounts(accounts: map<string, nat>) returns (readable: bool, sum: nat)
    ensures readable <==> forall a :: a in accounts ==> Parseable(accounts[a])
    ensures readable ==> sum == Sum(accounts)
  {
    hide Sum, Parseable;
    var rest := accounts;
    sum := 0;
    while rest != map[]
      invariant rest.Keys <= accounts.Keys && forall a :: a in rest ==> rest[a] == accounts[a]
      invariant forall a :: a in accounts && a !in rest ==> Parseable(accounts[a])
      invariant sum + Sum(rest) == Sum(accounts)
      decreases |rest|
    {
      var a :| a in rest;
      if !Parseable(rest[a]) {
        return false, 0;
      }
      TakeKey(rest, a);
      sum := sum + rest[a];
      rest := rest - {a};
    }
    SumZero(rest);
    readable := true;
  }

  method CheckMeta(m: Meta) returns (ok: bool)
    ensures ok <==> ValidMeta(m)
  {
    hide Sum, Parseable;
    var readable, sum := CheckAccounts(m.accounts);
    ok :=
      && SafeInt(m.sourceAsOf) && m.sourceAsOf >= 0
      && SafeInt(m.sequence) && m.sequence >= 0
      && Parseable(m.occupiedUsdt) && Parseable(m.occupiedUsd) && Parseable(m.consumedUsd) && Parseable(m.campaignUsd)
      && m.campaignUsd > 0 && |m.accounts| <= 32
      && readable && sum == m.occupiedUsdt;
  }

  // ---------- a census ----------

  ghost predicate RowsFitSoFar(rows: seq<Row>, n: nat, limits: map<string, string>, result: map<string, nat>) {
    && n <= |rows|
    && Distinct(RowAccounts(rows)[..n])
    && result.Keys == Elements(RowAccounts(rows)[..n])
    && result == External(rows[..n])
    && forall i :: 0 <= i < n ==> rows[i].account in limits && Units(rows[i].occupied).Some? && Units(rows[i].loss).Some?
  }

  lemma FitNone(rows: seq<Row>, limits: map<string, string>)
    ensures RowsFitSoFar(rows, 0, limits, map[])
  {
    assert rows[..0] == [];
  }

  lemma FitStep(rows: seq<Row>, n: nat, limits: map<string, string>, result: map<string, nat>)
    requires n < |rows| && RowsFitSoFar(rows, n, limits, result)
    ensures var r := rows[n];
            if r.account in limits && r.account !in result && Units(r.occupied).Some? && Units(r.loss).Some?
            then RowsFitSoFar(rows, n + 1, limits, result[r.account := Units(r.occupied).value])
            else !Distinct(RowAccounts(rows)) || r.account !in limits || Units(r.occupied).None? || Units(r.loss).None?
  {
    hide Units, Distinct;
    PrefixStep(RowAccounts(rows), n);
    assert rows[..n + 1][..n] == rows[..n];
  }

  lemma FitAll(c: Census, limits: map<string, string>, result: map<string, nat>)
    requires RowsFitSoFar(c.rows, |c.rows|, limits, result)
    requires Elements(c.accounts) == limits.Keys && |c.accounts| == |limits| && |c.rows| == |limits|
    ensures CompleteCensus(c, limits) && result == External(c.rows)
  {
    hide Units, Distinct;
    assert RowAccounts(c.rows)[..|c.rows|] == RowAccounts(c.rows);
    assert c.rows[..|c.rows|] == c.rows;
  }

  /** One pass over the rows with the map built so far, refusing an unlisted, repeated or unreadable row. */
  method CheckCensus(c: Census, policy: RiskPolicy, now: int, causal: bool) returns (result: Option<map<string, nat>>)
    ensures result == CensusRisk(c, policy, now, causal)
  {
    hide Units, Distinct, External, RowsFitSoFar, Hex;
    var limits := policy.accountLimits;
    if !FreshCensus(c, now, causal) || Elements(c.accounts) != limits.Keys || |c.accounts| != |limits| || |c.rows| != |limits| {
      return None;
    }
    var external: map<string, nat> := map[];
    FitNone(c.rows, limits);
    for n := 0 to |c.rows|
      invariant RowsFitSoFar(c.rows, n, limits, external)
    {
      var row := c.rows[n];
      var value := Units(row.occupied);
      FitStep(c.rows, n, limits, external);
      if row.account !in limits || row.account in external || value.None? || Units(row.loss).None? {
        return None;
      }
      external := external[row.account := value.value];
    }
    FitAll(c, limits, external);
    result := Some(external);
  }

  // ---------- the budget of a policy ----------

  datatype Bounds = Bounds(global: nat, accounts: map<string, nat>)

  ghost predicate CapInOrder(policy: RiskPolicy, a: string, ceiling: nat) {
    a in policy.accountLimits && RealAccountText(a) && Positive(policy.accountLimits[a]) && Units(policy.accountLimits[a]).value <= ceiling
  }

  ghost predicate BoundsSoFar(policy: RiskPolicy, ceiling: nat, rest: map<string, string>, accounts: map<string, nat>) {
    && rest.Keys + accounts.Keys == policy.accountLimits.Keys
    && (forall a :: a in rest ==> rest[a] == policy.accountLimits[a])
    && (forall a :: a in accounts ==> CapInOrder(policy, a, ceiling) && LimitOf(policy, a) == Some(accounts[a]))
  }

  lemma BoundsStep(policy: RiskPolicy, ceiling: nat, rest: map<string, string>, accounts: map<string, nat>, a: string)
    requires BoundsSoFar(policy, ceiling, rest, accounts) && a in rest
    ensures var value := Units(rest[a]);
            if !RealAccountText(a) || value.None? || value.value == 0 || value.value > ceiling then !CapInOrder(policy, a, ceiling) && a in policy.accountLimits
            else BoundsSoFar(policy, ceiling, rest - {a}, accounts[a := value.value])
  {
    hide Units, RealAccountText;
  }

  lemma BoundsDone(policy: RiskPolicy, ceiling: nat, accounts: map<string, nat>)
    requires BoundsSoFar(policy, ceiling, map[], accounts)
    ensures accounts.Keys == policy.accountLimits.Keys
    ensures forall a :: a in policy.accountLimits ==> CapInOrder(policy, a, ceiling) && LimitOf(policy, a) == Some(accounts[a])
    ensures |policy.accountLimits| > 0 <==> accounts != map[]
  {
    hide CapInOrder, LimitOf;
    var none: map<string, string> := map[];
    assert none.Keys == {};
    assert {} + accounts.Keys == accounts.Keys;
    NoLimits(policy.accountLimits, accounts);
  }

  lemma BudgetedCaps(policy: RiskPolicy, ceiling: nat)
    requires Units(policy.ceiling) == Some(ceiling)
    ensures Budgeted(policy) ==> forall a :: a in policy.accountLimits ==> CapInOrder(policy, a, ceiling)
    ensures && (forall a :: a in policy.accountLimits ==> CapInOrder(policy, a, ceiling)) && |policy.accountLimits| > 0
            && SafeInt(policy.revision) && policy.revision >= 1 && Positive(policy.globalLimit) && Positive(policy.ceiling)
            && Units(policy.globalLimit).value <= ceiling
            ==> Budgeted(policy)
  {
    hide Units, RealAccountText;
  }

  /** The caps of a policy read back, if every one of them is in order. */
  method Budget(policy: RiskPolicy) returns (bounds: Option<Bounds>)
    ensures bounds.Some? <==> Budgeted(policy)
    ensures bounds.Some? ==> Some(bounds.value.global) == Units(policy.globalLimit)
    ensures bounds.Some? ==> bounds.value.accounts.Keys == policy.accountLimits.Keys
    ensures bounds.Some? ==> forall a :: a in policy.accountLimits ==> LimitOf(policy, a) == Some(bounds.value.accounts[a])
  {
    hide Units, RealAccountText, LimitOf, CapInOrder, BoundsSoFar;
    var global, ceiling := Units(policy.globalLimit), Units(policy.ceiling);
    if !SafeInt(policy.revision) || policy.revision < 1 || global.None? || ceiling.None?
       || global.value == 0 || ceiling.value == 0 || global.value > ceiling.value {
      return None;
    }
    BudgetedCaps(policy, ceiling.value);
    hide Budgeted;
    var accounts := ReadCaps(policy, ceiling.value);
    if accounts.None? || accounts.value == map[] {
      return None;
    }
    bounds := Some(Bounds(global.value, accounts.value));
  }

  method ReadCaps(policy: RiskPolicy, ceiling: nat) returns (result: Option<map<string, nat>>)
    ensures result.None? ==> exists a :: a in policy.accountLimits && !CapInOrder(policy, a, ceiling)
    ensures result.Some? ==> result.value.Keys == policy.accountLimits.Keys && (|policy.accountLimits| > 0 <==> result.value != map[])
    ensures result.Some? ==> forall a :: a in policy.accountLimits ==> CapInOrder(policy, a, ceiling) && LimitOf(policy, a) == Some(result.value[a])
  {
    hide Units, RealAccountText, LimitOf, CapInOrder;
    var accounts: map<string, nat> := map[];
    var rest := policy.accountLimits;
    assert BoundsSoFar(policy, ceiling, rest, accounts);
    hide BoundsSoFar;
    while rest != map[]
      invariant BoundsSoFar(policy, ceiling, rest, accounts)
      decreases |rest|
    {
      var a :| a in rest;
      var value := Units(rest[a]);
      BoundsStep(policy, ceiling, rest, accounts, a);
      if !RealAccountText(a) || value.None? || value.value == 0 || value.value > ceiling {
        return None;
      }
      accounts := accounts[a := value.value];
      rest := rest - {a};
    }
    BoundsDone(policy, ceiling, accounts);
    result := Some(accounts);
  }

  lemma NoLimits(limits: map<string, string>, accounts: map<string, nat>)
    requires limits.Keys == accounts.Keys
    ensures |limits| > 0 <==> accounts != map[]
  {
    assert |limits.Keys| == |limits| && |accounts.Keys| == |accounts|;
  }

  // ---------- occupancy ----------

  ghost predicate LaidSoFar(external: map<string, nat>, accounts: map<string, nat>, rest: map<string, nat>, occupied: map<string, nat>) {
    && rest.Keys <= accounts.Keys && (forall a :: a in rest ==> rest[a] == accounts[a])
    && occupied.Keys == external.Keys + (accounts.Keys - rest.Keys)
    && (forall a :: a in occupied ==> occupied[a] == Get(external, a) + if a in rest then 0 else Get(accounts, a))
    && (forall a :: a in accounts && a !in rest ==> a in external || accounts[a] == 0)
  }

  lemma LaidStep(external: map<string, nat>, accounts: map<string, nat>, rest: map<string, nat>, occupied: map<string, nat>, a: string)
    requires LaidSoFar(external, accounts, rest, occupied) && a in rest
    ensures if a !in occupied && rest[a] > 0 then Unregistered(external, accounts)
            else LaidSoFar(external, accounts, rest - {a}, occupied[a := Get(occupied, a) + rest[a]])
  {
    var after, left := occupied[a := Get(occupied, a) + rest[a]], rest - {a};
    assert after.Keys == occupied.Keys + {a};
    assert accounts.Keys - left.Keys == (accounts.Keys - rest.Keys) + {a};
  }

  lemma LaidAll(external: map<string, nat>, accounts: map<string, nat>, rest: map<string, nat>, occupied: map<string, nat>)
    requires LaidSoFar(external, accounts, rest, occupied) && rest == map[]
    ensures !Unregistered(external, accounts) && occupied == Overlay(external, accounts)
  {
  }

  /** The book's own occupancy laid over the census; `None` when some of it belongs to an account the census does not list. */
  method LayOver(external: map<string, nat>, accounts: map<string, nat>) returns (result: Option<map<string, nat>>)
    ensures result == if Unregistered(external, accounts) then None else Some(Overlay(external, accounts))
  {
    var occupied: map<string, nat> := external;
    var rest := accounts;
    assert LaidSoFar(external, accounts, rest, occupied);
    hide *;
    while rest != map[]
      invariant LaidSoFar(external, accounts, rest, occupied)
      decreases |rest|
    {
      var a :| a in rest;
      LaidStep(external, accounts, rest, occupied, a);
      if a !in occupied && rest[a] > 0 {
        return None;
      }
      occupied := occupied[a := Get(occupied, a) + rest[a]];
      rest := rest - {a};
    }
    LaidAll(external, accounts, rest, occupied);
    result := Some(occupied);
  }

  /** Total occupancy, unless some account is above its cap; an account without one is not looked at. */
  method TotalUnderLimits(occupied: map<string, nat>, policy: RiskPolicy, limits: map<string, nat>) returns (total: Option<nat>)
    requires limits.Keys == policy.accountLimits.Keys
    requires forall a :: a in policy.accountLimits ==> LimitOf(policy, a) == Some(limits[a])
    ensures total == if OverLimit(occupied, policy) then None else Some(Sum(occupied))
  {
    hide Sum, Units;
    var sum: nat := 0;
    var rest := occupied;
    while rest != map[]
      invariant rest.Keys <= occupied.Keys && forall a :: a in rest ==> rest[a] == occupied[a]
      invariant forall a :: a in occupied && a !in rest ==> LimitOf(policy, a).Some? ==> occupied[a] <= LimitOf(policy, a).value
      invariant sum + Sum(rest) == Sum(occupied)
      decreases |rest|
    {
      var a :| a in rest;
      if a in limits && rest[a] > limits[a] {
        assert OverLimit(occupied, policy);
        return None;
      }
      TakeKey(rest, a);
      sum := sum + rest[a];
      rest := rest - {a};
    }
    SumZero(rest);
    total := Some(sum);
  }

  /** Total occupancy, unless some account has no readable cap or is above it. */
  method TotalUnderPolicy(occupied: map<string, nat>, policy: RiskPolicy) returns (total: Option<nat>)
    ensures total == if PostOver(occupied, policy) then None else Some(Sum(occupied))
  {
    hide Sum, Units;
    var sum: nat := 0;
    var rest := occupied;
    while rest != map[]
      invariant rest.Keys <= occupied.Keys && forall a :: a in rest ==> rest[a] == occupied[a]
      invariant forall a :: a in occupied && a !in rest ==> LimitOf(policy, a).Some? && occupied[a] <= LimitOf(policy, a).value
      invariant sum + Sum(rest) == Sum(occupied)
      decreases |rest|
    {
      var a :| a in rest;
      var limit := LimitOf(policy, a);
      if limit.None? || rest[a] > limit.value {
        assert PostOver(occupied, policy);
        return None;
      }
      TakeKey(rest, a);
      sum := sum + rest[a];
      rest := rest - {a};
    }
    SumZero(rest);
    total := Some(sum);
  }
}
