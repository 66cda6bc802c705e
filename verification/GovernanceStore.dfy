/** The writers of the central policy. Each is bound to one idempotency key and keeps one outcome for it. */
module GovernanceStore {
  import opened Options
  import opened Amounts
  import opened RiskKeys
  import opened Collections
  import opened Governance

  datatype Request =
    | Revise(key: string, update: PolicyUpdate)
    | Connect(key: string, uid: string, environment: Environment, displayName: string, alias: string, limits: Limits, enabled: bool, credential: string)
    | Pause(key: string, account: string, expected: int, pause: bool)
    | Stop(key: string)
    | SetLimits(key: string, account: string, expected: int, limits: Limits)

  datatype Failure =
    | IdempotencyKeyRequired | IdempotencyConflict | AccessMissingOrCorrupt | InvariantsRejected | RevisionOrLimitsRejected
    | InvalidConnection | AlreadyConnected | RegistryCapacity | InvalidAccountLimits | InvalidPauseRequest | StaleRevision
    | AccountNotFound | RevisionExhausted | InvalidLimitsRequest | InvalidCampaignRequest | CampaignMustDecrease
    | CampaignBelowRisk | InvalidInstallation | AlreadyInitialized

  datatype Answer =
    | Configured(policy: Policy)
    | Connected(account: Account)
    | CampaignLowered(policy: Policy, previous: string, current: string)
    | Failed(failure: Failure)

  /** What a writer makes of the stored policy. */
  datatype Change = Changed(next: Policy, answer: Answer) | Refused(failure: Failure)

  /** The digest of the body is taken to identify it. */
  datatype Receipt<Body> = Receipt(body: Body, answer: Answer)

  // ---------- the policy-to-policy part of each writer ----------

  predicate Names(a: Account, name: string) {
    a.id == name || a.accountKey == name
  }

  predicate Known(p: Policy, name: string) {
    exists i :: 0 <= i < |p.accounts| && Names(p.accounts[i], name)
  }

  function MapAccounts(accounts: seq<Account>, name: string, f: Account -> Account): (r: seq<Account>)
    ensures |r| == |accounts|
    ensures forall i :: 0 <= i < |r| ==> r[i] == if Names(accounts[i], name) then f(accounts[i]) else accounts[i]
  {
    seq(|accounts|, i requires 0 <= i < |accounts| => if Names(accounts[i], name) then f(accounts[i]) else accounts[i])
  }

  function NewAccount(r: Request, revision: int): Account
    requires r.Connect?
  {
    Account(r.alias, r.displayName, "okx", r.environment, r.uid, true, "okx:" + EnvironmentText(r.environment) + ":" + r.uid,
            r.enabled, false, revision, r.limits, [])
  }

  predicate ConnectionWellFormed(r: Request)
    requires r.Connect?
  {
    Hex(r.uid) && 1 <= |r.displayName| <= 80 && IdText(r.alias) && ValidLimits(r.limits)
  }

  function ConnectChange(p: Policy, r: Request): Change
    requires r.Connect?
  {
    var account := NewAccount(r, p.revision + 1);
    if r.alias in AccountIds(p.accounts) || account.accountKey in AccountKeys(p.accounts) then Refused(AlreadyConnected)
    else if |p.accounts| >= 32 || p.revision == MAX_SAFE then Refused(RegistryCapacity)
    else
      var next := p.(revision := p.revision + 1, accounts := p.accounts + [account]);
      if ValidPolicy(next) then Changed(next, Connected(account)) else Refused(InvalidAccountLimits)
  }

  function PauseChange(p: Policy, account: string, expected: int, pause: bool): Change {
    if p.revision != expected || p.revision == MAX_SAFE then Refused(StaleRevision)
    else if !Known(p, account) then Refused(AccountNotFound)
    else
      var next := p.(
        revision := p.revision + 1,
        accounts := MapAccounts(p.accounts, account, (a: Account) => a.(explicitPause := pause, policyRevision := p.revision + 1)));
      Changed(next, Configured(next))
  }

  function StoppedAccounts(accounts: seq<Account>, revision: int): (r: seq<Account>)
    ensures |r| == |accounts|
    ensures forall i :: 0 <= i < |r| ==>
              r[i] == if accounts[i].environment.Real? then accounts[i].(explicitPause := true, policyRevision := revision) else accounts[i]
  {
    seq(|accounts|, i requires 0 <= i < |accounts| =>
      if accounts[i].environment.Real? then accounts[i].(explicitPause := true, policyRevision := revision) else accounts[i])
  }

  function StopChange(p: Policy): Change {
    if !exists i :: 0 <= i < |p.accounts| && Trading(p.accounts[i]) then Changed(p, Configured(p))
    else if p.revision == MAX_SAFE then Refused(RevisionExhausted)
    else
      var next := p.(revision := p.revision + 1, accounts := StoppedAccounts(p.accounts, p.revision + 1));
      Changed(next, Configured(next))
  }

  function LimitsChange(p: Policy, account: string, expected: int, limits: Limits): Change {
    if p.revision != expected then Refused(StaleRevision)
    else if !Known(p, account) then Refused(AccountNotFound)
    else
      var next := p.(
        revision := p.revision + 1,
        accounts := MapAccounts(p.accounts, account, (a: Account) => a.(limits := limits, policyRevision := p.revision + 1)));
      if ValidPolicy(next) then Changed(next, Configured(next)) else Refused(InvalidAccountLimits)
  }

  function ReviseChange(p: Policy, update: PolicyUpdate): Change {
    var revised := Revised(p, update);
    if revised.Some? then Changed(revised.value, Configured(revised.value)) else Refused(RevisionOrLimitsRejected)
  }

  function ChangeOf(p: Policy, r: Request): Change {
    match r
    case Revise(_, update) => ReviseChange(p, update)
    case Connect(_, _, _, _, _, _, _, _) => ConnectChange(p, r)
    case Pause(_, account, expected, pause) => PauseChange(p, account, expected, pause)
    case Stop(_) => StopChange(p)
    case SetLimits(_, account, expected, limits) => LimitsChange(p, account, expected, limits)
  }

  /** What is refused before the transaction. */
  function Malformed(r: Request): Option<Failure> {
    match r
    case Connect(_, _, _, _, _, _, _, _) => if ConnectionWellFormed(r) then None else Some(InvalidConnection)
    case Pause(_, _, expected, _) => if SafeInt(expected) then None else Some(InvalidPauseRequest)
    case SetLimits(_, _, expected, limits) => if SafeInt(expected) && ValidLimits(limits) then None else Some(InvalidLimitsRequest)
    case _ => None
  }

  // ---------- one mutation ----------

  datatype Access = Access(policy: Option<Policy>, operations: map<string, Receipt<Request>>)

  /** The transaction of a well-formed mutation. */
  function MutateTransaction(s: Access, r: Request): (Access, Answer) {
    if r.key in s.operations then
      (s, if s.operations[r.key].body == r then s.operations[r.key].answer else Failed(IdempotencyConflict))
    else if s.policy.None? || !ValidPolicy(s.policy.value) then (s, Failed(AccessMissingOrCorrupt))
    else
      match ChangeOf(s.policy.value, r)
      case Refused(failure) => (s.(operations := s.operations[r.key := Receipt(r, Failed(failure))]), Failed(failure))
      case Changed(next, answer) =>
        if !ValidPolicy(next) then (s, Failed(InvariantsRejected))
        else (Access(Some(next), s.operations[r.key := Receipt(r, answer)]), answer)
  }

  function Mutate(s: Access, r: Request): (Access, Answer) {
    if Malformed(r).Some? then (s, Failed(Malformed(r).value))
    else if !Token(r.key) then (s, Failed(IdempotencyKeyRequired))
    else MutateTransaction(s, r)
  }

  // ---------- what every writer keeps ----------

  ghost predicate AllVerified(p: Policy) {
    forall i :: 0 <= i < |p.accounts| ==> p.accounts[i].identityVerified
  }

  /** A lawful successor: valid, with every identity and the campaign kept, and a higher revision unless it is the same value. */
  ghost predicate Succeeds(p: Policy, q: Policy) {
    && ValidPolicy(q)
    && Identities(p) <= Identities(q)
    && (AllVerified(p) ==> AllVerified(q))
    && q.installationId == p.installationId && q.campaignId == p.campaignId
    && (q == p || q.revision == p.revision + 1)
  }

  /** Accounts position by position the same but for what a writer may change. */
  ghost predicate SameIdentities(a: seq<Account>, b: seq<Account>) {
    |a| == |b| && forall i :: 0 <= i < |a| ==> IdentityOf(a[i]) == IdentityOf(b[i])
  }

  lemma IdentitiesKept(p: Policy, q: Policy)
    requires SameIdentities(p.accounts, q.accounts)
    ensures Identities(p) == Identities(q)
  {
    forall x | x in Identities(p) ensures x in Identities(q) {
      var a :| a in p.accounts && IdentityOf(a) == x;
      var i :| 0 <= i < |p.accounts| && p.accounts[i] == a;
      assert q.accounts[i] in q.accounts;
    }
    forall x | x in Identities(q) ensures x in Identities(p) {
      var a :| a in q.accounts && IdentityOf(a) == x;
      var i :| 0 <= i < |q.accounts| && q.accounts[i] == a;
      assert p.accounts[i] in p.accounts;
    }
  }

  lemma IdentitiesGrow(p: Policy, q: Policy, account: Account)
    requires q.accounts == p.accounts + [account]
    ensures Identities(p) <= Identities(q)
  {
    hide IdentityOf;
    assert forall a :: a in p.accounts ==> a in q.accounts;
  }

  /** The row that names the account at `i` lays over exactly that account. */
  lemma RowOf(accounts: seq<Account>, rows: seq<AccountUpdate>, i: nat) returns (j: nat)
    requires RowsFit(accounts, rows) && Distinct(AccountIds(accounts)) && i < |accounts|
    ensures j < |rows| && ById(accounts, rows[j].id) == Some(accounts[i])
  {
    hide RowFits;
    RowNames(accounts, rows);
    assert AccountIds(accounts)[i] in Elements(AccountIds(accounts));
    j :| 0 <= j < |rows| && RowIds(rows)[j] == AccountIds(accounts)[i];
    FindDistinct(AccountIds(accounts), i);
  }

  lemma IdentitiesOfRows(p: Policy, update: PolicyUpdate, q: Policy)
    requires RowsFit(p.accounts, update.accounts)
    requires q.accounts == OverlaidAll(p.accounts, update.accounts, p.revision + 1)
    requires Distinct(AccountIds(p.accounts))
    ensures Identities(p) <= Identities(q)
  {
    hide RowFits, RowsFit, ById;
    forall x | x in Identities(p) ensures x in Identities(q) {
      var a :| a in p.accounts && IdentityOf(a) == x;
      var i :| 0 <= i < |p.accounts| && p.accounts[i] == a;
      var j := RowOf(p.accounts, update.accounts, i);
      OverlaidIdentity(update.accounts[j], a, p.revision + 1);
      assert q.accounts[j] in q.accounts;
    }
  }

  lemma OverlaidIdentity(row: AccountUpdate, before: Account, revision: int)
    ensures IdentityOf(Overlaid(row, before, revision)) == IdentityOf(before)
  {
  }

  /** As many distinct known ids as there are accounts name every account. */
  lemma RowNames(accounts: seq<Account>, rows: seq<AccountUpdate>)
    requires RowsFit(accounts, rows)
    ensures Elements(RowIds(rows)) == Elements(AccountIds(accounts))
  {
    hide RowFits;
    var named, known := Elements(RowIds(rows)), Elements(AccountIds(accounts));
    assert forall i :: 0 <= i < |rows| ==> RowIds(rows)[i] in AccountIds(accounts);
    assert named <= known;
    DistinctCount(RowIds(rows));
    ElementsAtMost(AccountIds(accounts));
    FullSubset(named, known);
  }

  lemma RowsVerified(accounts: seq<Account>, rows: seq<AccountUpdate>, revision: int)
    requires RowsFit(accounts, rows)
    requires forall i :: 0 <= i < |accounts| ==> accounts[i].identityVerified
    ensures forall i :: 0 <= i < |rows| ==> OverlaidAll(accounts, rows, revision)[i].identityVerified
  {
    hide RowFits;
  }

  lemma ReviseSucceeds(p: Policy, update: PolicyUpdate)
    requires ValidPolicy(p) && Revised(p, update).Some?
    ensures Succeeds(p, Revised(p, update).value)
    ensures Revised(p, update).value.campaignLimit == p.campaignLimit
  {
    hide ValidAccount, RowsFit, Identities, Units;
    IdentitiesOfRows(p, update, Revised(p, update).value);
    if AllVerified(p) {
      RowsVerified(p.accounts, update.accounts, p.revision + 1);
    }
  }

  lemma ConnectSucceeds(p: Policy, r: Request)
    requires ValidPolicy(p) && r.Connect? && ConnectChange(p, r).Changed?
    ensures Succeeds(p, ConnectChange(p, r).next)
    ensures ConnectChange(p, r).next.campaignLimit == p.campaignLimit
  {
    hide ValidAccount, Identities, Units;
    IdentitiesGrow(p, ConnectChange(p, r).next, NewAccount(r, p.revision + 1));
  }

  lemma LimitsSucceeds(p: Policy, account: string, expected: int, limits: Limits)
    requires ValidPolicy(p) && LimitsChange(p, account, expected, limits).Changed?
    ensures Succeeds(p, LimitsChange(p, account, expected, limits).next)
    ensures LimitsChange(p, account, expected, limits).next.campaignLimit == p.campaignLimit
  {
    hide ValidAccount, Identities, Units, Names, Known;
    IdentitiesKept(p, LimitsChange(p, account, expected, limits).next);
  }

  lemma Repolicied(p: Policy, q: Policy)
    requires ValidPolicy(p) && SafeInt(p.revision + 1)
    requires q == p.(revision := p.revision + 1, accounts := q.accounts)
    requires |q.accounts| == |p.accounts|
    requires forall i :: 0 <= i < |p.accounts| ==>
               || q.accounts[i] == p.accounts[i]
               || q.accounts[i] == p.accounts[i].(explicitPause := q.accounts[i].explicitPause, policyRevision := p.revision + 1)
    ensures ValidPolicy(q) && SameIdentities(p.accounts, q.accounts)
  {
    hide Units, ValidLimits, ValidStrategies, StrategyText, Hex, VenueText;
    assert AccountIds(q.accounts) == AccountIds(p.accounts);
    assert AccountKeys(q.accounts) == AccountKeys(p.accounts);
  }

  /** A pause changes nothing but pauses and revisions, so the policy stays valid without being checked again. */
  lemma PauseSucceeds(p: Policy, account: string, expected: int, pause: bool)
    requires ValidPolicy(p) && PauseChange(p, account, expected, pause).Changed?
    ensures Succeeds(p, PauseChange(p, account, expected, pause).next)
    ensures PauseChange(p, account, expected, pause).next.campaignLimit == p.campaignLimit
  {
    hide ValidAccount, Identities, Units, Names, Known, SameIdentities;
    var q := PauseChange(p, account, expected, pause).next;
    Repolicied(p, q);
    IdentitiesKept(p, q);
  }

  lemma StopSucceeds(p: Policy)
    requires ValidPolicy(p) && StopChange(p).Changed?
    ensures Succeeds(p, StopChange(p).next)
    ensures StopChange(p).next.campaignLimit == p.campaignLimit
  {
    hide ValidAccount, Identities, Units, SameIdentities;
    var q := StopChange(p).next;
    if q != p {
      Repolicied(p, q);
      IdentitiesKept(p, q);
    }
  }

  /** Every writer's change of a valid policy is a lawful successor that leaves the campaign limit alone. */
  lemma ChangeSucceeds(p: Policy, r: Request)
    requires ValidPolicy(p) && ChangeOf(p, r).Changed?
    ensures Succeeds(p, ChangeOf(p, r).next) && ChangeOf(p, r).next.campaignLimit == p.campaignLimit
  {
    hide ValidPolicy, Succeeds, PauseChange, StopChange, LimitsChange, ConnectChange, Revised;
    match r
    case Revise(_, update) => ReviseSucceeds(p, update);
    case Connect(_, _, _, _, _, _, _, _) => ConnectSucceeds(p, r);
    case Pause(_, account, expected, pause) => PauseSucceeds(p, account, expected, pause);
    case Stop(_) => StopSucceeds(p);
    case SetLimits(_, account, expected, limits) => LimitsSucceeds(p, account, expected, limits);
  }
}
