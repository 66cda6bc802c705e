/** Which stored policies can be reserved against at all. */
module Budgets {
  import opened Options
  import opened Amounts
  import opened RiskKeys
  import opened Collections
  import opened Governance
  import opened GovernanceStore
  import opened RiskBook
  import opened Commands
  import opened Installation
  import opened Runs
  import opened RunTheorems

  predicate CapFits(a: Account, p: Policy) {
    Units(a.limits.maxModelledLoss).GetOr(0) <= Units(p.maxTotalLoss).GetOr(0)
  }

  /** Some real account is registered, and no real account's own cap, whether it trades or not, exceeds the policy's total. */
  ghost predicate Reservable(p: Policy) {
    && (exists i :: 0 <= i < |p.accounts| && p.accounts[i].environment.Real?)
    && forall i :: 0 <= i < |p.accounts| && p.accounts[i].environment.Real? ==> CapFits(p.accounts[i], p)
  }

  lemma RealKeyReads(a: Account)
    requires ValidAccount(a) && a.environment.Real?
    ensures RealAccountText(a.accountKey) && Positive(a.limits.maxModelledLoss)
  {
    hide Units, ValidStrategies, Hex, VenueText;
    RealKeyText(a);
    VenueNotEmpty(a.venue);
    HexLength(a.uid);
    var s, n := a.accountKey, |a.venue|;
    assert s[|s| - 64..] == a.uid && s[..n] == a.venue && s[n..n + 6] == ":real:";
  }

  lemma VenueNotEmpty(s: string)
    requires VenueText(s)
    ensures |s| >= 2
  {
  }

  lemma HexLength(s: string)
    requires Hex(s)
    ensures |s| == 64
  {
  }

  /** The projected cap of a real account is in order exactly when it fits the total. */
  lemma ProjectedCap(p: Policy, i: nat)
    requires ValidPolicy(p) && RealVerified(p.accounts) && i < |p.accounts| && p.accounts[i].environment.Real?
    ensures var key, limits := p.accounts[i].accountKey, AccountLimits(p.accounts);
            && key in limits && RealAccountText(key) && Positive(limits[key])
            && (Units(limits[key]).value <= Units(p.maxTotalLoss).GetOr(0) <==> CapFits(p.accounts[i], p))
  {
    hide Units, ValidAccount, Distinct, AccountLimits, RealAccountText;
    RealKeyReads(p.accounts[i]);
    AccountLimitsValue(p.accounts, i);
  }

  lemma PolicyParts(p: Policy)
    requires ValidPolicy(p)
    ensures forall i :: 0 <= i < |p.accounts| ==> ValidAccount(p.accounts[i])
    ensures Positive(p.maxTotalLoss) && SafeInt(p.revision) && (|p.accounts| > 0 ==> p.revision >= 1)
  {
    hide Units, Distinct, ValidLimits, ValidStrategies, Hex, IdText, VenueText;
    if |p.accounts| > 0 {
      assert ValidAccount(p.accounts[0]);
    }
  }

  /** The reader of the caps accepts what a policy projects to exactly when the policy is reservable. */
  lemma BudgetedExactly(p: Policy)
    requires ValidPolicy(p) && RealVerified(p.accounts)
    ensures Projected(p).Some?
    ensures Budgeted(Projected(p).value) <==> Reservable(p)
  {
    hide Units, ValidPolicy, AccountLimits, RealAccountText, CapFits, RealKeys;
    PolicyParts(p);
    AccountLimitsKeys(p.accounts);
    var limits := AccountLimits(p.accounts);
    KeyOfReal(p.accounts);
    forall i | 0 <= i < |p.accounts| && p.accounts[i].environment.Real?
      ensures var key := p.accounts[i].accountKey;
              && key in limits && RealAccountText(key) && Positive(limits[key])
              && (Units(limits[key]).value <= Units(p.maxTotalLoss).GetOr(0) <==> CapFits(p.accounts[i], p))
    {
      ProjectedCap(p, i);
    }
    LimitsEmpty(limits);
  }

  lemma KeyOfReal(accounts: seq<Account>)
    ensures forall k :: k in RealKeys(accounts) ==> exists i :: 0 <= i < |accounts| && accounts[i].environment.Real? && accounts[i].accountKey == k
    ensures forall i :: 0 <= i < |accounts| && accounts[i].environment.Real? ==> accounts[i].accountKey in RealKeys(accounts)
  {
  }

  lemma LimitsEmpty<K, V>(m: map<K, V>)
    ensures |m| > 0 <==> m.Keys != {}
  {
    assert |m.Keys| == |m|;
  }

  /** Under a policy that is not reservable no reservation is ever answered HELD, neither a first one nor a repeat. */
  lemma HeldNeedsReservable(r: Run, i: nat)
    requires IsRun(r) && i < |r.commands| && r.commands[i].ReserveRisk?
    requires OutputAt(r, i).Risk? && OutputAt(r, i).reply.HeldReply?
    ensures |r.states| > i && r.states[i].access.policy.Some? && Reservable(r.states[i].access.policy.value)
  {
    hide Inv, Step, IsRun, RiskOutcome, Reservable, HeldMeaning, Reserve, ValidPolicy, Budgeted, Authoritative, RealVerified;
    HeldAt(r, i);
    var s, c := r.states[i], r.commands[i];
    HeldBudgeted(s.book, s.access.policy, s.generation, c.policy, c.census, c.order, c.now, c.native);
    HeldIsReserve(s, c);
    ProjectedParts(s.access.policy.value, c.policy);
    BudgetedExactly(s.access.policy.value);
  }

  lemma HeldIsReserve(s: State, c: Command)
    requires c.ReserveRisk?
    ensures RiskOutcome(s, c) == Reserve(s.book, s.access.policy, s.generation, c.policy, c.census, c.order, c.now, c.native)
  {
    hide Reserve;
  }

  lemma HeldBudgeted(b: Book, access: Option<Policy>, generation: int, policy: RiskPolicy, c: Census, o: Order, now: int, native: Option<Evidence>)
    ensures Reserve(b, access, generation, policy, c, o, now, native).reply.HeldReply? ==>
              access.Some? && ValidPolicy(access.value) && Authoritative(access.value, policy) && Budgeted(policy)
  {
    hide ConversionProven, Budgeted, CensusRisk, ValidPolicy, Authoritative, ValidMeta, KeyOf, ChargeCensus, ReserveCharged, Hex, Token, StrategyText,
         InstrumentText, VenueText, Units, AccountKey;
  }

  /** A budgeted snapshot that is authoritative is a budgeted projection. */
  lemma ProjectedParts(p: Policy, snapshot: RiskPolicy)
    requires ValidPolicy(p) && Authoritative(p, snapshot) && Budgeted(snapshot)
    ensures RealVerified(p.accounts) && Projected(p).Some? && Budgeted(Projected(p).value)
  {
    hide Units, ValidPolicy, AccountLimits, RealAccountText, Trading;
  }
}
