/** The central access and limits policy: who may take risk, under which caps, and the risk policy projected from it. */
module Governance {
  import opened Options
  import opened Amounts
  import opened RiskKeys
  import opened Collections

  /** JavaScript's largest safe integer. */
  const MAX_SAFE: int := 0x1f_ffff_ffff_ffff

  predicate SafeInt(n: int) {
    -MAX_SAFE <= n <= MAX_SAFE
  }

  datatype Environment = Real | Demo

  /** `maxEntry` is `None` when an old saved policy lacks the field, `Some(None)` when it is null. */
  datatype Limits = Limits(
    maxModelledLoss: string, maxOrderLoss: string, maxNotional: Option<string>, maxEntry: Option<Option<string>>,
    maxLeverage: Option<string>, maxDailyLoss: Option<string>, maxDrawdown: Option<string>, instruments: seq<string>)

  datatype Strategy = Strategy(
    id: string, enabled: bool, allocatedCapital: string, maxModelledLoss: string,
    maxDailyLoss: Option<string>, maxDrawdown: Option<string>)

  datatype Account = Account(
    id: string, displayName: string, venue: string, environment: Environment, uid: string, identityVerified: bool,
    accountKey: string, enabled: bool, explicitPause: bool, policyRevision: int, limits: Limits, strategies: seq<Strategy>)

  datatype Policy = Policy(
    revision: int, installationId: string, campaignId: string, campaignLimit: string, maxTotalLoss: string,
    accounts: seq<Account>)

  datatype AccountUpdate = AccountUpdate(
    id: string, displayName: string, enabled: bool, explicitPause: bool, limits: Limits, strategies: seq<Strategy>)

  datatype PolicyUpdate = PolicyUpdate(expectedRevision: int, maxTotalLoss: string, accounts: seq<AccountUpdate>)

  /** What the risk book reads of a policy. */
  datatype RiskPolicy = RiskPolicy(
    revision: int, enabled: bool, ceiling: string, globalLimit: string, accountLimits: map<string, string>)

  // ---------- validity ----------

  predicate IdText(s: string) {
    StrategyText(s)
  }

  predicate Positive(s: string) {
    Units(s).Some? && Units(s).value > 0
  }

  predicate OptionalPositive(s: Option<string>) {
    s.Some? ==> Positive(s.value)
  }

  predicate Ratio(s: string) {
    Units(s).Some? && Units(s).value <= UNIT
  }

  predicate OptionalRatio(s: Option<string>) {
    s.Some? ==> Ratio(s.value)
  }

  predicate ValidLimits(x: Limits) {
    && Positive(x.maxModelledLoss) && Positive(x.maxOrderLoss)
    && Units(x.maxOrderLoss).value <= Units(x.maxModelledLoss).value
    && OptionalPositive(x.maxNotional)
    && (x.maxEntry.Some? ==> OptionalPositive(x.maxEntry.value))
    && OptionalPositive(x.maxLeverage) && OptionalPositive(x.maxDailyLoss) && OptionalRatio(x.maxDrawdown)
    && |x.instruments| <= 32
    && (forall i :: 0 <= i < |x.instruments| ==> InstrumentText(x.instruments[i]))
    && Distinct(x.instruments)
  }

  predicate ValidStrategy(s: Strategy) {
    && IdText(s.id)
    && Positive(s.allocatedCapital) && Positive(s.maxModelledLoss)
    && Units(s.maxModelledLoss).value <= Units(s.allocatedCapital).value
    && OptionalPositive(s.maxDailyLoss) && OptionalRatio(s.maxDrawdown)
    && (s.enabled ==> s.maxDailyLoss.Some? && s.maxDrawdown.Some?)
  }

  /** Sum of the caps of the enabled strategies. */
  function EnabledTotal(v: seq<Strategy>): nat {
    if |v| == 0 then 0
    else EnabledTotal(v[..|v| - 1]) + if v[|v| - 1].enabled then Units(v[|v| - 1].maxModelledLoss).GetOr(0) else 0
  }

  function StrategyIds(v: seq<Strategy>): (r: seq<string>)
    ensures |r| == |v| && forall i :: 0 <= i < |v| ==> r[i] == v[i].id
  {
    seq(|v|, i requires 0 <= i < |v| => v[i].id)
  }

  /** At most 32 valid strategies with distinct ids whose enabled caps together fit the account cap. */
  predicate ValidStrategies(v: seq<Strategy>, accountCap: string) {
    && |v| <= 32
    && (forall i :: 0 <= i < |v| ==> ValidStrategy(v[i]))
    && Distinct(StrategyIds(v))
    && EnabledTotal(v) <= Units(accountCap).GetOr(0)
  }

  /** The source's single pass with a set of seen ids and a running total. */
  method CheckStrategies(v: seq<Strategy>, accountCap: string) returns (ok: bool)
    ensures ok <==> ValidStrategies(v, accountCap)
  {
    hide Units, ValidStrategy;
    if |v| > 32 { return false; }
    var seen: set<string> := {};
    var total := 0;
    var ids := StrategyIds(v);
    for n := 0 to |v|
      invariant forall i :: 0 <= i < n ==> ValidStrategy(v[i])
      invariant Distinct(ids[..n])
      invariant seen == Elements(ids[..n])
      invariant total == EnabledTotal(v[..n])
    {
      var s := v[n];
      if !ValidStrategy(s) { return false; }
      if s.id in seen {
        assert ids[n] in ids[..n];
        return false;
      }
      seen := seen + {s.id};
      assert ids[..n + 1] == ids[..n] + [s.id];
      assert v[..n + 1][..n] == v[..n];
      if s.enabled { total := total + Units(s.maxModelledLoss).GetOr(0); }
    }
    assert v[..|v|] == v && ids[..|v|] == ids;
    ok := total <= Units(accountCap).GetOr(0);
  }

  function EnvironmentText(e: Environment): string {
    if e.Real? then "real" else "demo"
  }

  predicate ValidAccount(a: Account) {
    && IdText(a.id)
    && |a.displayName| <= 80
    && VenueText(a.venue)
    && Hex(a.uid)
    && SafeInt(a.policyRevision) && a.policyRevision > 0
    && a.accountKey == a.venue + ":" + EnvironmentText(a.environment) + ":" + a.uid
    && (a.enabled ==> a.identityVerified)
    && ValidLimits(a.limits)
    && ValidStrategies(a.strategies, a.limits.maxModelledLoss)
    && (a.enabled && a.environment.Real? ==>
          && a.limits.maxNotional.Some? && a.limits.maxLeverage.Some?
          && a.limits.maxDailyLoss.Some? && a.limits.maxDrawdown.Some? && |a.limits.instruments| > 0)
  }

  predicate CampaignText(s: string) {
    |s| == 71 && s[..7] == "sha256:" && Hex(s[7..])
  }

  function AccountKeys(accounts: seq<Account>): (r: seq<string>)
    ensures |r| == |accounts| && forall i :: 0 <= i < |r| ==> r[i] == accounts[i].accountKey
  {
    seq(|accounts|, i requires 0 <= i < |accounts| => accounts[i].accountKey)
  }

  function AccountIds(accounts: seq<Account>): (r: seq<string>)
    ensures |r| == |accounts| && forall i :: 0 <= i < |r| ==> r[i] == accounts[i].id
  {
    seq(|accounts|, i requires 0 <= i < |accounts| => accounts[i].id)
  }

  predicate ValidPolicy(p: Policy) {
    && SafeInt(p.revision) && p.revision >= 0
    && |p.installationId| >= 8 && IdText(p.installationId)
    && CampaignText(p.campaignId)
    && Positive(p.campaignLimit) && Positive(p.maxTotalLoss)
    && |p.accounts| <= 32
    && (forall i :: 0 <= i < |p.accounts| ==> ValidAccount(p.accounts[i]))
    && Distinct(AccountKeys(p.accounts))
    && Distinct(AccountIds(p.accounts))
    && (forall i :: 0 <= i < |p.accounts| ==> p.accounts[i].policyRevision <= p.revision)
  }

  predicate AccessEnabled(a: Account) {
    a.identityVerified && a.enabled && !a.explicitPause
  }

  /** What no writer may change about an account. */
  datatype Identity = Identity(id: string, venue: string, environment: Environment, uid: string, accountKey: string, verified: bool)

  function IdentityOf(a: Account): Identity {
    Identity(a.id, a.venue, a.environment, a.uid, a.accountKey, a.identityVerified)
  }

  ghost function Identities(p: Policy): set<Identity> {
    set a | a in p.accounts :: IdentityOf(a)
  }

  // ---------- revising every account at once ----------

  function RowIds(rows: seq<AccountUpdate>): (r: seq<string>)
    ensures |r| == |rows| && forall i :: 0 <= i < |r| ==> r[i] == rows[i].id
  {
    seq(|rows|, i requires 0 <= i < |rows| => rows[i].id)
  }

  /** The account with this id, if any. */
  function ById(accounts: seq<Account>, id: string): Option<Account> {
    var r := Find(AccountIds(accounts), id);
    if r.Some? then Some(accounts[r.value]) else None
  }

  predicate RowFits(row: AccountUpdate, before: Account) {
    && ValidLimits(row.limits)
    && |row.displayName| <= 80
    && (row.enabled ==> before.identityVerified)
    && ValidStrategies(row.strategies, row.limits.maxModelledLoss)
  }

  function Overlaid(row: AccountUpdate, before: Account, revision: int): Account {
    before.(
      enabled := row.enabled, explicitPause := row.explicitPause, policyRevision := revision,
      displayName := row.displayName, limits := row.limits, strategies := row.strategies)
  }

  /** Each account of the previous policy is named by exactly one row, and every row fits the account it names. */
  predicate RowsFit(accounts: seq<Account>, rows: seq<AccountUpdate>) {
    && |rows| == |accounts|
    && Distinct(RowIds(rows))
    && forall i :: 0 <= i < |rows| ==> ById(accounts, rows[i].id).Some? && RowFits(rows[i], ById(accounts, rows[i].id).value)
  }

  function OverlaidAll(accounts: seq<Account>, rows: seq<AccountUpdate>, revision: int): (r: seq<Account>)
    requires RowsFit(accounts, rows)
    ensures |r| == |rows| && forall i :: 0 <= i < |r| ==> r[i] == Overlaid(rows[i], ById(accounts, rows[i].id).value, revision)
  {
    seq(|rows|, i requires 0 <= i < |rows| => Overlaid(rows[i], ById(accounts, rows[i].id).value, revision))
  }

  /** The revised policy: the rows' order, the previous identities and campaign, the next revision. */
  function Revised(previous: Policy, change: PolicyUpdate): Option<Policy> {
    if && ValidPolicy(previous) && SafeInt(change.expectedRevision) && change.expectedRevision == previous.revision
       && SafeInt(previous.revision + 1) && Positive(change.maxTotalLoss) && RowsFit(previous.accounts, change.accounts)
    then
      var next := previous.(
        revision := previous.revision + 1, maxTotalLoss := change.maxTotalLoss,
        accounts := OverlaidAll(previous.accounts, change.accounts, previous.revision + 1));
      if ValidPolicy(next) then Some(next) else None
    else
      None
  }

  /** One row against the account it names, laid over it when it fits. */
  method ApplyRow(row: AccountUpdate, before: Account, revision: int) returns (after: Option<Account>)
    ensures after == if RowFits(row, before) then Some(Overlaid(row, before, revision)) else None
  {
    hide Units, ValidLimits, ValidStrategies;
    var good := CheckStrategies(row.strategies, row.limits.maxModelledLoss);
    if !ValidLimits(row.limits) || |row.displayName| > 80 || (row.enabled && !before.identityVerified) || !good {
      return None;
    }
    after := Some(before.(
        enabled := row.enabled, explicitPause := row.explicitPause, policyRevision := revision,
        displayName := row.displayName, limits := row.limits, strategies := row.strategies));
  }

  /** `new Map(accounts.map(a => [a.id, a]))`. */
  ghost predicate Indexed(accounts: seq<Account>, all: map<string, Account>) {
    && (forall k :: k in all <==> k in AccountIds(accounts))
    && forall i :: 0 <= i < |accounts| ==> all[AccountIds(accounts)[i]] == accounts[i]
  }

  method IndexAccounts(accounts: seq<Account>) returns (all: map<string, Account>)
    requires Distinct(AccountIds(accounts))
    ensures Indexed(accounts, all) && |all| == |accounts|
  {
    hide Distinct;
    all := MapOf(AccountIds(accounts), accounts);
  }

  lemma ByIdIsMapped(accounts: seq<Account>, id: string, all: map<string, Account>)
    requires Indexed(accounts, all)
    ensures ById(accounts, id) == if id in all then Some(all[id]) else None
  {
  }

  /** One turn of the pass: the row must name an account not yet named, and fit it. */
  method TakeRow(accounts: seq<Account>, rows: seq<AccountUpdate>, n: nat, revision: int,
                 ghost all: map<string, Account>, remaining: map<string, Account>)
    returns (after: Option<Account>)
    requires n < |rows|
    requires Indexed(accounts, all)
    requires remaining == all - Elements(RowIds(rows)[..n])
    ensures after.None? ==> !RowsFit(accounts, rows)
    ensures after.Some? ==> LaidOver(accounts, rows[n], revision, after.value) && rows[n].id in remaining
  {
    var row := rows[n];
    PrefixStep(RowIds(rows), n);
    hide *;
    ByIdIsMapped(accounts, row.id, all);
    RowRefused(accounts, rows, n);
    if row.id !in remaining {
      return None;
    }
    after := ApplyRow(row, remaining[row.id], revision);
    if after.Some? {
      RowLaid(accounts, row, revision, after.value);
    }
  }

  /** The first `n` rows have each taken another account out of the map, and are laid over them. */
  ghost predicate Turn(accounts: seq<Account>, rows: seq<AccountUpdate>, n: nat, revision: int,
                       all: map<string, Account>, remaining: map<string, Account>, done: seq<Account>) {
    && n <= |rows| && |remaining| == |rows| - n && remaining == all - Elements(RowIds(rows)[..n])
    && Distinct(RowIds(rows)[..n]) && |done| == n && AllLaidOver(accounts, rows, n, revision, done)
  }

  lemma TurnStarts(accounts: seq<Account>, rows: seq<AccountUpdate>, revision: int, all: map<string, Account>)
    requires |all| == |rows|
    ensures Turn(accounts, rows, 0, revision, all, all, [])
  {
    EmptyPrefix(RowIds(rows));
    assert all - {} == all;
  }

  lemma TurnTaken(accounts: seq<Account>, rows: seq<AccountUpdate>, n: nat, revision: int, all: map<string, Account>,
                  remaining: map<string, Account>, done: seq<Account>, after: Account)
    requires n < |rows| && Turn(accounts, rows, n, revision, all, remaining, done)
    requires LaidOver(accounts, rows[n], revision, after) && rows[n].id in remaining
    ensures Turn(accounts, rows, n + 1, revision, all, remaining - {rows[n].id}, done + [after])
  {
    hide RowIds, Elements, AllLaidOver, LaidOver, Distinct;
    RowIdAt(rows, n);
    PrefixStep(RowIds(rows), n);
    LaidStep(accounts, rows, n, revision, done, after);
    TakeOut(all, Elements(RowIds(rows)[..n]), rows[n].id);
    RemoveOne(remaining, rows[n].id);
  }

  lemma RowIdAt(rows: seq<AccountUpdate>, n: nat)
    requires n < |rows|
    ensures RowIds(rows)[n] == rows[n].id
  {
  }

  lemma TurnParts(accounts: seq<Account>, rows: seq<AccountUpdate>, n: nat, revision: int, all: map<string, Account>,
                  remaining: map<string, Account>, done: seq<Account>)
    requires Turn(accounts, rows, n, revision, all, remaining, done)
    ensures n <= |rows| && |remaining| == |rows| - n && remaining == all - Elements(RowIds(rows)[..n])
    ensures Distinct(RowIds(rows)[..n]) && |done| == n && AllLaidOver(accounts, rows, n, revision, done)
  {
    hide AllLaidOver, Elements, RowIds, Distinct;
  }

  /** The pass over the rows, taking each named account out of a map of those still to be named. */
  method ApplyRows(accounts: seq<Account>, rows: seq<AccountUpdate>, revision: int) returns (result: Option<seq<Account>>)
    requires |rows| == |accounts| && Distinct(AccountIds(accounts))
    ensures result == if RowsFit(accounts, rows) then Some(OverlaidAll(accounts, rows, revision)) else None
  {
    hide *;
    var all := IndexAccounts(accounts);
    var remaining := all;
    var done: seq<Account> := [];
    TurnStarts(accounts, rows, revision, all);
    for n := 0 to |rows|
      invariant Turn(accounts, rows, n, revision, all, remaining, done)
    {
      TurnParts(accounts, rows, n, revision, all, remaining, done);
      var after := TakeRow(accounts, rows, n, revision, all, remaining);
      if after.None? {
        return None;
      }
      TurnTaken(accounts, rows, n, revision, all, remaining, done, after.value);
      done := done + [after.value];
      remaining := remaining - {rows[n].id};
    }
    TurnParts(accounts, rows, |rows|, revision, all, remaining, done);
    AllLaid(accounts, rows, revision, done);
    result := if |remaining| == 0 then Some(done) else None;
  }

  lemma RowRefused(accounts: seq<Account>, rows: seq<AccountUpdate>, n: nat)
    requires n < |rows|
    ensures RowIds(rows)[n] in RowIds(rows)[..n] ==> !RowsFit(accounts, rows)
    ensures ById(accounts, rows[n].id).None? ==> !RowsFit(accounts, rows)
    ensures ById(accounts, rows[n].id).Some? && !RowFits(rows[n], ById(accounts, rows[n].id).value) ==> !RowsFit(accounts, rows)
  {
    hide ById, RowFits;
    PrefixStep(RowIds(rows), n);
  }

  ghost predicate LaidOver(accounts: seq<Account>, row: AccountUpdate, revision: int, after: Account) {
    var before := ById(accounts, row.id);
    before.Some? && RowFits(row, before.value) && after == Overlaid(row, before.value, revision)
  }

  ghost predicate AllLaidOver(accounts: seq<Account>, rows: seq<AccountUpdate>, n: nat, revision: int, done: seq<Account>) {
    n == |done| <= |rows| && forall i :: 0 <= i < n ==> LaidOver(accounts, rows[i], revision, done[i])
  }

  lemma LaidStep(accounts: seq<Account>, rows: seq<AccountUpdate>, n: nat, revision: int, done: seq<Account>, after: Account)
    requires n < |rows| && AllLaidOver(accounts, rows, n, revision, done)
    requires LaidOver(accounts, rows[n], revision, after)
    ensures AllLaidOver(accounts, rows, n + 1, revision, done + [after])
  {
    hide LaidOver;
  }

  lemma RowLaid(accounts: seq<Account>, row: AccountUpdate, revision: int, after: Account)
    requires ById(accounts, row.id).Some? && RowFits(row, ById(accounts, row.id).value)
    requires after == Overlaid(row, ById(accounts, row.id).value, revision)
    ensures LaidOver(accounts, row, revision, after)
  {
  }

  lemma AllLaid(accounts: seq<Account>, rows: seq<AccountUpdate>, revision: int, done: seq<Account>)
    requires |rows| == |accounts| == |done| && Distinct(RowIds(rows)[..|rows|])
    requires AllLaidOver(accounts, rows, |rows|, revision, done)
    ensures RowsFit(accounts, rows) && done == OverlaidAll(accounts, rows, revision)
  {
    assert RowIds(rows)[..|rows|] == RowIds(rows);
    hide RowFits, Overlaid, ById;
  }

  method ReviseGovernance(previous: Policy, change: PolicyUpdate) returns (result: Option<Policy>)
    ensures result == Revised(previous, change)
  {
    hide Units, ValidAccount, Distinct, ById, RowFits;
    if || !ValidPolicy(previous) || !SafeInt(change.expectedRevision) || change.expectedRevision != previous.revision
       || !SafeInt(previous.revision + 1) || !Positive(change.maxTotalLoss)
       || |change.accounts| != |previous.accounts|
    {
      return None;
    }
    var accounts := ApplyRows(previous.accounts, change.accounts, previous.revision + 1);
    if accounts.None? {
      return None;
    }
    var next := previous.(revision := previous.revision + 1, maxTotalLoss := change.maxTotalLoss, accounts := accounts.value);
    result := if ValidPolicy(next) then Some(next) else None;
  }

  // ---------- the risk policy ----------

  /** The cap of every registered real account, enabled or not. */
  function AccountLimits(accounts: seq<Account>): map<string, string> {
    if |accounts| == 0 then map[]
    else
      var last := accounts[|accounts| - 1];
      var before := AccountLimits(accounts[..|accounts| - 1]);
      if last.environment.Real? then before[AccountKey(last.venue, last.uid) := last.limits.maxModelledLoss] else before
  }

  predicate RealVerified(accounts: seq<Account>) {
    forall i :: 0 <= i < |accounts| ==> accounts[i].environment.Real? ==> accounts[i].identityVerified
  }

  predicate Trading(a: Account) {
    a.environment.Real? && AccessEnabled(a)
  }

  function Projected(p: Policy): Option<RiskPolicy> {
    if ValidPolicy(p) && RealVerified(p.accounts) then
      Some(RiskPolicy(p.revision, exists i :: 0 <= i < |p.accounts| && Trading(p.accounts[i]),
                      p.maxTotalLoss, p.maxTotalLoss, AccountLimits(p.accounts)))
    else
      None
  }

  method ProjectRiskPolicy(p: Policy) returns (result: Option<RiskPolicy>)
    ensures result == Projected(p)
  {
    hide Units, ValidPolicy;
    if !ValidPolicy(p) {
      return None;
    }
    var limits: map<string, string> := map[];
    var enabled := false;
    for n := 0 to |p.accounts|
      invariant forall i :: 0 <= i < n ==> p.accounts[i].environment.Real? ==> p.accounts[i].identityVerified
      invariant limits == AccountLimits(p.accounts[..n])
      invariant enabled <==> exists i :: 0 <= i < n && Trading(p.accounts[i])
    {
      var a := p.accounts[n];
      assert p.accounts[..n + 1][..n] == p.accounts[..n];
      if a.environment.Real? {
        // A disabled account still occupies risk; one whose identity is unverified cannot be left out either.
        if !a.identityVerified {
          return None;
        }
        limits := limits[AccountKey(a.venue, a.uid) := a.limits.maxModelledLoss];
        enabled := enabled || AccessEnabled(a);
      }
    }
    assert p.accounts[..|p.accounts|] == p.accounts;
    result := Some(RiskPolicy(p.revision, enabled, p.maxTotalLoss, p.maxTotalLoss, limits));
  }

  /** The keys of the registered real accounts. */
  ghost function RealKeys(accounts: seq<Account>): set<string> {
    set a | a in accounts && a.environment.Real? :: a.accountKey
  }

  lemma RealKeysStep(before: seq<Account>, last: Account)
    ensures RealKeys(before + [last]) == RealKeys(before) + if last.environment.Real? then {last.accountKey} else {}
  {
    var accounts := before + [last];
    assert forall a :: a in accounts <==> a in before || a == last;
  }

  lemma {:induction false} AccountLimitsKeys(accounts: seq<Account>)
    requires forall i :: 0 <= i < |accounts| ==> ValidAccount(accounts[i])
    ensures AccountLimits(accounts).Keys == RealKeys(accounts)
  {
    hide ValidAccount, RealKeys, AccountKey;
    if |accounts| == 0 {
      assert RealKeys(accounts) == {} by { NoRealKeys(accounts); }
    } else {
      var n := |accounts| - 1;
      AccountLimitsKeys(accounts[..n]);
      RealKeyText(accounts[n]);
      RealKeysStep(accounts[..n], accounts[n]);
      assert accounts == accounts[..n] + [accounts[n]];
    }
  }

  lemma NoRealKeys(accounts: seq<Account>)
    requires |accounts| == 0
    ensures RealKeys(accounts) == {}
  {
  }

  lemma {:induction false} AccountLimitsSize(accounts: seq<Account>)
    ensures |AccountLimits(accounts)| <= |accounts|
  {
    if |accounts| > 0 {
      var n := |accounts| - 1;
      AccountLimitsSize(accounts[..n]);
      hide AccountKey;
      InsertSize(AccountLimits(accounts[..n]), AccountKey(accounts[n].venue, accounts[n].uid), accounts[n].limits.maxModelledLoss);
    }
  }

  lemma RealKeyText(a: Account)
    requires ValidAccount(a)
    ensures a.environment.Real? ==> a.accountKey == AccountKey(a.venue, a.uid)
  {
    hide Units, ValidLimits, ValidStrategies, StrategyText, VenueText, Hex;
    assert a.venue + ":" + "real" + ":" + a.uid == AccountKey(a.venue, a.uid);
  }

  /** In a valid policy each real account's own cap is what is projected under its key. */
  lemma {:induction false} AccountLimitsValue(accounts: seq<Account>, i: nat)
    requires i < |accounts|
    requires forall j :: 0 <= j < |accounts| ==> ValidAccount(accounts[j])
    requires Distinct(AccountKeys(accounts))
    requires accounts[i].environment.Real?
    ensures accounts[i].accountKey in AccountLimits(accounts)
    ensures AccountLimits(accounts)[accounts[i].accountKey] == accounts[i].limits.maxModelledLoss
  {
    hide Units, ValidLimits, ValidStrategies, Distinct;
    var n := |accounts| - 1;
    RealKeyText(accounts[n]);
    RealKeyText(accounts[i]);
    if i < n {
      assert AccountKeys(accounts)[..n] == AccountKeys(accounts[..n]);
      DistinctPrefix(AccountKeys(accounts), i, n);
      AccountLimitsValue(accounts[..n], i);
    }
  }

  lemma DistinctPrefix<T>(s: seq<T>, i: nat, n: nat)
    requires Distinct(s) && i < n < |s|
    ensures Distinct(s[..n]) && s[i] != s[n]
  {
  }
}
