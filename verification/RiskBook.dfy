/** The central risk ledger: its stored records, and what each command does to them in one transaction. */
module RiskBook {
  import opened Options
  import opened Amounts
  import opened RiskKeys
  import opened Collections
  import opened Governance
  import opened Sums

  // ---------- records ----------

  datatype EntryState = Held | Posted | Unknown | Open | Released

  datatype Conversion = Conversion(rate: string, digest: string, observedAt: int)

  /** What a reservation asks for, and its entry keeps for good. The environment is always real. */
  datatype Order = Order(
    venue: string, uid: string, run: string, intent: string, strategy: string, instrument: string, plan: string,
    revision: int, lossUsdt: string, lossUsd: string, conversion: Conversion)

  datatype Entry = Entry(
    key: string, order: Order, state: EntryState, createdAt: int, reserveDigest: Option<string>,
    reserveFloor: Option<int>, postedAt: Option<int>, proof: Option<string>)

  /** Aggregates are the values of their stored texts. */
  datatype Meta = Meta(
    sourceAsOf: int, sequence: int, installationId: string, occupiedUsdt: nat, occupiedUsd: nat, consumedUsd: nat,
    campaignUsd: nat, accounts: map<string, nat>)

  datatype AccountRecord = AccountRecord(active: int, usd: nat, usdt: nat)

  /** A permanent refusal to reserve under a key. */
  datatype Fence = Fence(account: string, intent: string, plan: string, digest: string, revision: int)

  datatype Book = Book(
    meta: Option<Meta>, entries: map<string, Entry>, fences: map<string, Fence>, strategies: map<string, nat>,
    records: map<string, AccountRecord>, losses: map<string, nat>)

  const NO_BOOK := Book(None, map[], map[], map[], map[], map[])

  // ---------- evidence ----------

  datatype Row = Row(account: string, occupied: string, loss: string)

  datatype Census = Census(
    accounts: seq<string>, rows: seq<Row>, generatedAt: int, digest: string, content: string, floor: int, complete: bool)

  datatype Evidence = Evidence(generation: int, digest: string, accounts: bool, orders: bool, ledger: bool) {
    predicate Complete() {
      accounts && orders && ledger
    }
  }

  datatype Read = Read(account: string, generation: int, id: string, content: string, started: int, completed: int)

  datatype CausalProof = CausalProof(anchor: string, incarnation: string, elapsed: int, cohort: seq<Read>)

  datatype PostProof = PostProof(
    generation: int, expected: int, census: Census, evidence: Evidence, now: int, causal: CausalProof)

  datatype LedgerState = Filled | Canceled | Rejected | OtherState

  datatype LedgerProof = LedgerProof(
    uid: string, run: string, intent: string, state: LedgerState, digest: string, loss: string, exposure: string)

  datatype TerminalProof = TerminalProof(census: Census, evidence: Evidence, ledger: LedgerProof, now: int)

  datatype UnsentProof = UnsentProof(
    key: string, account: string, intent: string, plan: string, request: string, reason: string, digest: string)

  // ---------- replies ----------

  datatype Reason =
    | UsdConversionUnproven | NativeSourceUnproven | InvalidScopeOrPolicy | CensusUnproven | GovernanceUnavailable
    | SnapshotNotAuthoritative | StaleGeneration | BookMissingOrCorrupt | FencedNoSend | LossRegression
    | IdempotencyConflict | AlreadyPostedOrResolved | CampaignExhausted | AccountNotActive | InstrumentNotAllowed
    | OrderOrStrategyLimit | StrategyAggregateLimit | ExposureUnregistered | AccountOverLimit | InsufficientRisk
    | InvalidUnsentProof | StaleSessionOrSequence | FenceConflict | UnsentMismatch | MissingNativeProof
    | InvalidTransition | TerminalProofUnavailable | TerminalNotFlat | CumulativeLossRegression | InvalidPostFence
    | RevokedOrChanged | GrantInactive | StaleBookSequence | NotHeldExactlyOnce | WindowExpired
    | ReserveSourceMissing | AccountOrInstrumentRevoked | CohortMismatch | PostAccountExceeded | PostPortfolioExceeded
    | InvalidResolutionState

  datatype Reply =
    | Denied(reason: Reason)
    | HeldReply(entry: Entry, sequence: int, occupied: nat)
    | PostAuthorized(bookSequence: int, existing: nat)
    | Updated
    | Thrown

  datatype Outcome = Outcome(book: Book, reply: Reply)

  // ---------- keys and amounts of an entry ----------

  function KeyOf(o: Order): string {
    RiskKey(o.venue, o.uid, o.run, o.intent)
  }

  function AccountOf(e: Entry): string {
    AccountKey(e.order.venue, e.order.uid)
  }

  function StrategyOf(e: Entry): string {
    AccountOf(e) + ":" + e.order.strategy
  }

  function Usdt(e: Entry): nat {
    Units(e.order.lossUsdt).GetOr(0)
  }

  function Usd(e: Entry): nat {
    Units(e.order.lossUsd).GetOr(0)
  }

  // ---------- validity ----------

  predicate ValidOrder(o: Order) {
    && VenueText(o.venue) && Hex(o.uid) && Hex(o.plan) && Token(o.run) && StrategyText(o.strategy)
    && InstrumentText(o.instrument) && Token(o.intent)
    && SafeInt(o.revision) && o.revision > 0
    && Units(o.lossUsd).Some? && Units(o.conversion.rate).Some? && Hex(o.conversion.digest)
    && Units(o.lossUsdt).Some? && Units(o.lossUsdt).value > 0
  }

  /** Every clause of the entry check but the one on the post time. */
  predicate ValidButClock(e: Entry) {
    && ValidOrder(e.order)
    && SafeInt(e.createdAt) && e.createdAt > 0
    && (e.reserveDigest.Some? ==> Hex(e.reserveDigest.value))
    && (e.reserveFloor.Some? ==> SafeInt(e.reserveFloor.value) && e.reserveFloor.value > 0)
    && (e.postedAt.Some? ==> SafeInt(e.postedAt.value))
    && (e.proof.Some? ==> Hex(e.proof.value))
    && e.key == KeyOf(e.order)
  }

  predicate PostedAfterCreation(e: Entry) {
    e.postedAt.Some? ==> e.postedAt.value > e.createdAt
  }

  predicate ValidEntry(e: Entry) {
    ValidButClock(e) && PostedAfterCreation(e)
  }

  ghost predicate ValidMeta(m: Meta) {
    && SafeInt(m.sourceAsOf) && m.sourceAsOf >= 0
    && SafeInt(m.sequence) && m.sequence >= 0
    && Parseable(m.occupiedUsdt) && Parseable(m.occupiedUsd) && Parseable(m.consumedUsd) && Parseable(m.campaignUsd)
    && m.campaignUsd > 0
    && |m.accounts| <= 32
    && (forall a :: a in m.accounts ==> Parseable(m.accounts[a]))
    && Sum(m.accounts) == m.occupiedUsdt
  }

  ghost predicate Readable(b: Book) {
    b.meta.Some? && ValidMeta(b.meta.value)
  }

  // ---------- storage primitives ----------

  /** `n + 1` on doubles. */
  function NextSequence(n: int): int {
    if n <= MAX_SAFE then n + 1 else n
  }

  function Signed(delta: int, usd: nat): int {
    if delta == 0 then 0 else if delta > 0 then usd else 0 - usd
  }

  function StoredRecord(b: Book, a: string): AccountRecord {
    if a in b.records then b.records[a] else AccountRecord(0, 0, 0)
  }

  function ChangedRecord(r: AccountRecord, delta: int, usd: nat): Option<AccountRecord> {
    var active := r.active + (if delta > 0 then 1 else if delta < 0 then -1 else 0);
    if || !SafeInt(r.active) || r.active < 0 || !Parseable(r.usd) || !Parseable(r.usdt)
       || active < 0 || r.usd + Signed(delta, usd) < 0 || r.usdt + delta < 0
    then None
    else Some(AccountRecord(active, r.usd + Signed(delta, usd), r.usdt + delta))
  }

  /** The aggregates of one account after an entry of it changes by `delta`; `None` when the source throws. */
  function NextRecord(b: Book, m: Meta, a: string, delta: int, usd: nat): Option<AccountRecord> {
    if (a !in b.records && a in m.accounts) || StoredRecord(b, a).usdt != Get(m.accounts, a) then None
    else ChangedRecord(StoredRecord(b, a), delta, usd)
  }

  /** Stores an entry with its change of occupancy in all five aggregates; `None` when the source throws and rolls back. */
  function SaveEntry(b: Book, e: Entry, delta: int): (r: Option<Book>)
    requires b.meta.Some?
    ensures r.Some? ==> r.value.meta.Some?
  {
    var m := b.meta.value;
    var a, s := AccountOf(e), StrategyOf(e);
    var record := NextRecord(b, m, a, delta, Usd(e));
    if || record.None? || !Parseable(Get(b.strategies, s)) || Get(b.strategies, s) + delta < 0
       || m.occupiedUsdt + delta < 0 || m.occupiedUsd + Signed(delta, Usd(e)) < 0
    then None
    else
      var m' := m.(
        sequence := NextSequence(m.sequence), occupiedUsdt := m.occupiedUsdt + delta,
        occupiedUsd := m.occupiedUsd + Signed(delta, Usd(e)), accounts := m.accounts[a := Get(m.accounts, a) + delta]);
      Some(b.(
        meta := Some(m'), entries := b.entries[e.key := e], records := b.records[a := record.value],
        strategies := b.strategies[s := Get(b.strategies, s) + delta]))
  }

  /** Reported cumulative loss of a row. */
  function Reported(r: Row): nat {
    Units(r.loss).GetOr(0)
  }

  /** Every row reports at least what is recorded for its account. */
  predicate NoRegression(losses: map<string, nat>, rows: seq<Row>) {
    forall i :: 0 <= i < |rows| ==>
      Parseable(Get(losses, rows[i].account)) && Units(rows[i].loss).Some? && Get(losses, rows[i].account) <= Reported(rows[i])
  }

  function RowAccounts(rows: seq<Row>): (r: seq<string>)
    ensures |r| == |rows| && forall i :: 0 <= i < |r| ==> r[i] == rows[i].account
  {
    seq(|rows|, i requires 0 <= i < |rows| => rows[i].account)
  }

  function RowLosses(rows: seq<Row>): (r: seq<nat>)
    ensures |r| == |rows| && forall i :: 0 <= i < |r| ==> r[i] == Reported(rows[i])
  {
    seq(|rows|, i requires 0 <= i < |rows| => Reported(rows[i]))
  }

  /** Loss reported beyond what is recorded. */
  function Added(losses: map<string, nat>, rows: seq<Row>): int {
    Excess(losses, RowAccounts(rows), RowLosses(rows))
  }

  /** The recorded losses with every changed row written. */
  function Raised(losses: map<string, nat>, rows: seq<Row>): map<string, nat> {
    RaiseAll(losses, RowAccounts(rows), RowLosses(rows))
  }

  /** Records the losses of a census; `None` when one of them went back, and then nothing is written. */
  function ChargeCensus(b: Book, census: Census): (r: Option<Book>)
    requires b.meta.Some?
    ensures r.Some? ==> r.value.meta.Some?
  {
    var added := Added(b.losses, census.rows);
    if !NoRegression(b.losses, census.rows) then None
    else if added > 0 then
      var m := b.meta.value.(sourceAsOf := census.floor, consumedUsd := b.meta.value.consumedUsd + added, sequence := NextSequence(b.meta.value.sequence));
      Some(b.(meta := Some(m), losses := Raised(b.losses, census.rows)))
    else
      Some(b.(meta := Some(b.meta.value.(sourceAsOf := census.floor))))
  }

  // ---------- censuses ----------

  const MAX_CENSUS_AGE: int := 5000

  predicate FreshCensus(c: Census, now: int, causal: bool) {
    && c.complete && Hex(c.digest) && Hex(c.content)
    && SafeInt(c.floor) && c.floor > 0 && c.floor <= c.generatedAt
    && (if causal then c.generatedAt - c.floor <= MAX_CENSUS_AGE
        else c.generatedAt <= now && now - c.generatedAt <= MAX_CENSUS_AGE)
    && SafeInt(now) && SafeInt(c.generatedAt)
  }

  /** The census names every account of the policy exactly once, and reports each exactly once. */
  predicate CompleteCensus(c: Census, limits: map<string, string>) {
    && Elements(c.accounts) == limits.Keys && |c.accounts| == |limits|
    && |c.rows| == |limits|
    && Distinct(RowAccounts(c.rows))
    && forall i :: 0 <= i < |c.rows| ==> c.rows[i].account in limits && Units(c.rows[i].occupied).Some? && Units(c.rows[i].loss).Some?
  }

  function External(rows: seq<Row>): map<string, nat> {
    if |rows| == 0 then map[]
    else External(rows[..|rows| - 1])[rows[|rows| - 1].account := Units(rows[|rows| - 1].occupied).GetOr(0)]
  }

  /** What each account occupies outside the book, if the census proves it. */
  function CensusRisk(c: Census, policy: RiskPolicy, now: int, causal: bool): Option<map<string, nat>> {
    if FreshCensus(c, now, causal) && CompleteCensus(c, policy.accountLimits) then Some(External(c.rows)) else None
  }

  // ---------- occupancy against caps ----------

  /** External occupancy with the book's own on top. */
  function Overlay(external: map<string, nat>, accounts: map<string, nat>): map<string, nat> {
    map a | a in external.Keys + accounts.Keys :: Get(external, a) + Get(accounts, a)
  }

  ghost predicate Unregistered(external: map<string, nat>, accounts: map<string, nat>) {
    exists a :: a in accounts && a !in external && accounts[a] > 0
  }

  function LimitOf(policy: RiskPolicy, a: string): Option<nat> {
    if a in policy.accountLimits then Units(policy.accountLimits[a]) else None
  }

  predicate RealAccountText(s: string) {
    && |s| >= 72 && Hex(s[|s| - 64..]) && s[|s| - 70..|s| - 64] == ":real:" && VenueText(s[..|s| - 70])
  }

  ghost predicate Budgeted(policy: RiskPolicy) {
    && SafeInt(policy.revision) && policy.revision >= 1
    && Positive(policy.globalLimit) && Positive(policy.ceiling)
    && Units(policy.globalLimit).value <= Units(policy.ceiling).value
    && (forall a :: a in policy.accountLimits ==>
          && RealAccountText(a) && Positive(policy.accountLimits[a])
          && Units(policy.accountLimits[a]).value <= Units(policy.ceiling).value)
    && |policy.accountLimits| > 0
  }

  /** The first account of this venue and uid that may trade for real. */
  function FindTrading(accounts: seq<Account>, venue: string, uid: string): (r: Option<Account>)
    ensures r.Some? ==> r.value in accounts && Trading(r.value) && r.value.venue == venue && r.value.uid == uid
  {
    if |accounts| == 0 then None
    else if accounts[0].venue == venue && accounts[0].uid == uid && Trading(accounts[0]) then Some(accounts[0])
    else FindTrading(accounts[1..], venue, uid)
  }

  function FindStrategy(strategies: seq<Strategy>, id: string): (r: Option<Strategy>)
    ensures r.Some? ==> r.value in strategies && r.value.id == id && r.value.enabled
  {
    if |strategies| == 0 then None
    else if strategies[0].id == id && strategies[0].enabled then Some(strategies[0])
    else FindStrategy(strategies[1..], id)
  }

  function StrategyCap(a: Account, id: string): Option<nat> {
    var s := FindStrategy(a.strategies, id);
    Units(if s.Some? then s.value.maxModelledLoss else a.limits.maxModelledLoss)
  }

  // ---------- RESERVE ----------

  predicate ConversionProven(o: Order, now: int) {
    var rate, usd, usdt := Units(o.conversion.rate), Units(o.lossUsd), Units(o.lossUsdt);
    && rate.Some? && rate.value > 0 && usd.Some? && usdt.Some?
    && usd.value == (usdt.value * rate.value + UNIT - 1) / UNIT
    && Hex(o.conversion.digest) && SafeInt(o.conversion.observedAt)
    && o.conversion.observedAt <= now && now - o.conversion.observedAt <= 5000
  }

  ghost predicate InScope(policy: RiskPolicy, o: Order, now: int) {
    && policy.enabled && Budgeted(policy) && o.revision == policy.revision
    && Units(o.lossUsdt).Some? && Units(o.lossUsdt).value > 0
    && Hex(o.uid) && Hex(o.plan) && Token(o.run) && Token(o.intent) && StrategyText(o.strategy)
    && InstrumentText(o.instrument) && VenueText(o.venue)
    && SafeInt(now) && now > 0
    && AccountKey(o.venue, o.uid) in policy.accountLimits
  }

  ghost function ReserveArguments(policy: RiskPolicy, c: Census, o: Order, now: int, native: Option<Evidence>): Option<Reason> {
    if !ConversionProven(o, now) then Some(UsdConversionUnproven)
    else if native.None? || !native.value.Complete() || !SafeInt(native.value.generation) || native.value.generation < 1 || native.value.digest != c.digest then
      Some(NativeSourceUnproven)
    else if !InScope(policy, o, now) then Some(InvalidScopeOrPolicy)
    else if CensusRisk(c, policy, now, false).None? then Some(CensusUnproven)
    else None
  }

  /** The caller's snapshot is what the stored policy projects to now, and real trading is on. */
  ghost predicate Authoritative(p: Policy, snapshot: RiskPolicy) {
    var authority := Projected(p);
    && authority.Some? && authority.value.enabled && authority.value.revision == snapshot.revision
    && authority.value.globalLimit == snapshot.globalLimit && authority.value.ceiling == snapshot.ceiling
    && authority.value.accountLimits == snapshot.accountLimits
  }

  /** A repeated reservation: the same order gets the entry it holds, anything else a refusal. */
  function Replay(b: Book, prior: Entry, o: Order): Reply
    requires b.meta.Some?
  {
    if || !ValidEntry(prior) || prior.order.plan != o.plan || prior.order.lossUsdt != o.lossUsdt || prior.order.lossUsd != o.lossUsd
       || prior.order.conversion != o.conversion || prior.order.revision != o.revision || prior.order.strategy != o.strategy
       || prior.order.instrument != o.instrument
    then Denied(IdempotencyConflict)
    else if prior.state.Held? then HeldReply(prior, b.meta.value.sequence, b.meta.value.occupiedUsdt)
    else Denied(AlreadyPostedOrResolved)
  }

  datatype Verdict = Pass(account: Account, total: nat) | Deny(reason: Reason) | Throw

  /** Whether a new reservation fits the campaign, the account, its strategy and every cap. */
  ghost function Admission(b: Book, p: Policy, policy: RiskPolicy, external: map<string, nat>, o: Order): Verdict
    requires b.meta.Some?
  {
    var m := b.meta.value;
    var usd, usdt := Units(o.lossUsd).GetOr(0), Units(o.lossUsdt).GetOr(0);
    if !Parseable(m.consumedUsd) then Throw
    else if m.consumedUsd + m.occupiedUsd + usd > m.campaignUsd then Deny(CampaignExhausted)
    else
      var account := FindTrading(p.accounts, o.venue, o.uid);
      if account.None? then Deny(AccountNotActive)
      else AccountAdmission(b, account.value, policy, external, o)
  }

  ghost function AccountAdmission(b: Book, account: Account, policy: RiskPolicy, external: map<string, nat>, o: Order): Verdict
    requires b.meta.Some?
  {
    var usdt := Units(o.lossUsdt).GetOr(0);
    var maxOrder, maxStrategy := Units(account.limits.maxOrderLoss), StrategyCap(account, o.strategy);
    var outstanding := Get(b.strategies, AccountKey(o.venue, o.uid) + ":" + o.strategy);
    if o.instrument !in account.limits.instruments then Deny(InstrumentNotAllowed)
    else if maxOrder.None? || maxStrategy.None? || usdt > maxOrder.value || usdt > maxStrategy.value then Deny(OrderOrStrategyLimit)
    else if !Parseable(outstanding) then Throw
    else if outstanding + usdt > maxStrategy.value then Deny(StrategyAggregateLimit)
    else CapAdmission(b, account, policy, external, AccountKey(o.venue, o.uid), usdt)
  }

  ghost predicate OverLimit(occupied: map<string, nat>, policy: RiskPolicy) {
    exists a :: a in occupied && LimitOf(policy, a).Some? && occupied[a] > LimitOf(policy, a).value
  }

  ghost function CapAdmission(b: Book, account: Account, policy: RiskPolicy, external: map<string, nat>, a: string, usdt: nat): Verdict
    requires b.meta.Some?
  {
    var occupied := Overlay(external, b.meta.value.accounts);
    var total := Sum(occupied);
    if Unregistered(external, b.meta.value.accounts) then Deny(ExposureUnregistered)
    else if OverLimit(occupied, policy) then Deny(AccountOverLimit)
    else if || total + usdt > Units(policy.globalLimit).GetOr(0) || Get(occupied, a) + usdt > LimitOf(policy, a).GetOr(0) then
      Deny(InsufficientRisk)
    else Pass(account, total)
  }

  function NewEntry(o: Order, c: Census, now: int): Entry {
    Entry(KeyOf(o), o, Held, now, Some(c.digest), Some(c.floor), None, None)
  }

  /** The part of a reservation after its census has been charged. */
  ghost function ReserveCharged(before: Book, b: Book, p: Policy, policy: RiskPolicy, c: Census, o: Order, now: int): Outcome
    requires b.meta.Some?
  {
    var key := KeyOf(o);
    if key in b.entries then Outcome(b, Replay(b, b.entries[key], o))
    else
      match Admission(b, p, policy, External(c.rows), o)
      case Throw => Outcome(before, Thrown)
      case Deny(reason) => Outcome(b, Denied(reason))
      case Pass(_, total) =>
        var saved := SaveEntry(b, NewEntry(o, c, now), Units(o.lossUsdt).GetOr(0));
        if saved.None? then Outcome(before, Thrown)
        else Outcome(saved.value, HeldReply(NewEntry(o, c, now), saved.value.meta.value.sequence, total + Units(o.lossUsdt).GetOr(0)))
  }

  ghost function ReserveTransaction(b: Book, access: Option<Policy>, generation: int, policy: RiskPolicy, c: Census, o: Order, now: int, session: int): Outcome {
    if access.None? || !ValidPolicy(access.value) then Outcome(b, Denied(GovernanceUnavailable))
    else if !Authoritative(access.value, policy) then Outcome(b, Denied(SnapshotNotAuthoritative))
    else if generation != session then Outcome(b, Denied(StaleGeneration))
    else if !Readable(b) || b.meta.value.installationId != access.value.installationId then Outcome(b, Denied(BookMissingOrCorrupt))
    else if KeyOf(o) in b.fences then Outcome(b, Denied(FencedNoSend))
    else if ChargeCensus(b, c).None? then Outcome(b, Denied(LossRegression))
    else ReserveCharged(b, ChargeCensus(b, c).value, access.value, policy, c, o, now)
  }

  ghost function Reserve(b: Book, access: Option<Policy>, generation: int, policy: RiskPolicy, c: Census, o: Order, now: int, native: Option<Evidence>): Outcome {
    var refusal := ReserveArguments(policy, c, o, now, native);
    if refusal.Some? || native.None? then Outcome(b, Denied(refusal.GetOr(NativeSourceUnproven)))
    else ReserveTransaction(b, access, generation, policy, c, o, now, native.value.generation)
  }

  // ---------- BEGIN_POST ----------

  predicate ValidPostProof(proof: CausalProof, c: Census, key: string) {
    && proof.anchor == key && |key| <= 512
    && |proof.incarnation| == 32 && (forall i :: 0 <= i < 32 ==> IsHexDigit(proof.incarnation[i]))
    && 0 <= proof.elapsed <= 5000
    && |proof.cohort| == |c.accounts|
    && forall i :: 0 <= i < |proof.cohort| ==>
         var r := proof.cohort[i];
         && r.account == c.accounts[i]
         && SafeInt(r.generation) && r.generation > 0 && Hex(r.id) && Hex(r.content)
         && 0 <= r.started <= r.completed <= proof.elapsed
  }

  predicate PostArguments(key: string, plan: string, revision: int, digest: string, n: PostProof) {
    && Hex(plan) && Hex(digest)
    && SafeInt(n.generation) && n.generation >= 1 && SafeInt(n.expected) && n.expected >= 1
    && SafeInt(revision) && revision >= 1
    && n.evidence.generation == n.generation && n.evidence.digest == n.census.digest && n.evidence.Complete()
    && SafeInt(n.now) && n.now > 0
    && ValidPostProof(n.causal, n.census, key)
  }

  /** Some occupied account lacks a readable cap, or is above it. */
  ghost predicate PostOver(occupied: map<string, nat>, policy: RiskPolicy) {
    exists a :: a in occupied && (LimitOf(policy, a).None? || occupied[a] > LimitOf(policy, a).value)
  }

  ghost function PostCaps(b: Book, policy: RiskPolicy, external: map<string, nat>, account: Account): Verdict
    requires b.meta.Some?
  {
    var occupied := Overlay(external, b.meta.value.accounts);
    var global := Units(policy.globalLimit);
    if Unregistered(external, b.meta.value.accounts) then Deny(CohortMismatch)
    else if PostOver(occupied, policy) then Deny(PostAccountExceeded)
    else if global.None? || Sum(occupied) > global.value then Deny(PostPortfolioExceeded)
    else Pass(account, Sum(occupied))
  }

  ghost function PostAdmission(b: Book, p: Policy, policy: RiskPolicy, external: map<string, nat>, e: Entry, now: int): Verdict
    requires b.meta.Some?
  {
    if now < e.createdAt || now - e.createdAt > 5000 then Deny(WindowExpired)
    else if e.reserveDigest.None? || e.reserveFloor.None? then Deny(ReserveSourceMissing)
    else
      var account := FindTrading(p.accounts, e.order.venue, e.order.uid);
      if account.None? || e.order.instrument !in account.value.limits.instruments then Deny(AccountOrInstrumentRevoked)
      else PostCaps(b, policy, external, account.value)
  }

  predicate HeldExactly(b: Book, key: string, plan: string, revision: int) {
    && key in b.entries && ValidEntry(b.entries[key]) && b.entries[key].order.plan == plan
    && b.entries[key].state.Held? && b.entries[key].order.revision == revision
  }

  function PostedEntry(e: Entry, now: int, digest: string): Entry {
    e.(state := Posted, postedAt := Some(now), proof := Some(digest))
  }

  ghost function PostCharged(before: Book, b: Book, p: Policy, policy: RiskPolicy, key: string, plan: string, revision: int, digest: string, n: PostProof): Outcome
    requires b.meta.Some?
  {
    if b.meta.value.sequence != n.expected then Outcome(b, Denied(StaleBookSequence))
    else if !HeldExactly(b, key, plan, revision) then Outcome(b, Denied(NotHeldExactlyOnce))
    else
      var e := b.entries[key];
      match PostAdmission(b, p, policy, External(n.census.rows), e, n.now)
      case Throw => Outcome(before, Thrown)
      case Deny(reason) => Outcome(b, Denied(reason))
      case Pass(_, total) =>
        var saved := SaveEntry(b, PostedEntry(e, n.now, digest), 0);
        if saved.None? || total < Usdt(e) then Outcome(before, Thrown)
        else Outcome(saved.value, PostAuthorized(NextSequence(b.meta.value.sequence), total - Usdt(e)))
  }

  ghost function PostUnderPolicy(b: Book, p: Policy, key: string, plan: string, revision: int, digest: string, n: PostProof): Outcome {
    var authority := Projected(p);
    if authority.None? || !authority.value.enabled then Outcome(b, Denied(GrantInactive))
    else if CensusRisk(n.census, authority.value, n.now, true).None? then Outcome(b, Denied(CensusUnproven))
    else if !Readable(b) then Outcome(b, Denied(BookMissingOrCorrupt))
    else if ChargeCensus(b, n.census).None? then Outcome(b, Denied(LossRegression))
    else PostCharged(b, ChargeCensus(b, n.census).value, p, authority.value, key, plan, revision, digest, n)
  }

  ghost function BeginPost(b: Book, access: Option<Policy>, generation: int, key: string, plan: string, revision: int, digest: string, native: Option<PostProof>): Outcome {
    if native.None? || !PostArguments(key, plan, revision, digest, native.value) then Outcome(b, Denied(InvalidPostFence))
    else if generation != native.value.generation then Outcome(b, Denied(StaleGeneration))
    else if access.None? || !ValidPolicy(access.value) || access.value.revision != revision then Outcome(b, Denied(RevokedOrChanged))
    else PostUnderPolicy(b, access.value, key, plan, revision, digest, native.value)
  }

  // ---------- RESOLVE ----------

  predicate Allowed(from: EntryState, to: EntryState) {
    match from
    case Held => to.Posted? || to.Unknown? || to.Released?
    case Posted => to.Unknown? || to.Open? || to.Released?
    case Unknown => to.Open? || to.Released?
    case Open => to.Released?
    case Released => false
  }

  /** The time a terminal proof must be newer than. */
  function LastEvent(e: Entry): int {
    e.postedAt.GetOr(e.createdAt)
  }

  predicate TerminalProven(e: Entry, generation: int, t: TerminalProof) {
    && (e.postedAt.Some? || (e.state.Held? && t.ledger.state.Rejected?))
    && SafeInt(t.now) && t.now > LastEvent(e)
    && t.ledger.uid == e.order.uid && t.ledger.run == e.order.run && t.ledger.intent == e.order.intent
    && !t.ledger.state.OtherState?
    && Hex(t.ledger.digest) && Units(t.ledger.loss).Some? && Units(t.ledger.exposure) == Some(0)
    && t.evidence.generation == generation && t.evidence.digest == t.census.digest && t.evidence.Complete()
    && t.census.floor > LastEvent(e)
  }

  function MovedEntry(e: Entry, to: EntryState, digest: string): Entry {
    e.(state := to, proof := Some(digest))
  }

  /** Records the terminal cumulative loss of one account on top of its census. */
  function ChargeLedger(b: Book, account: string, loss: nat): Book
    requires b.meta.Some? && Get(b.losses, account) <= loss
  {
    b.(meta := Some(b.meta.value.(consumedUsd := b.meta.value.consumedUsd + loss - Get(b.losses, account))),
       losses := b.losses[account := loss])
  }

  /** The terminal record charged and the entry released. */
  function LedgerRelease(b: Book, e: Entry, digest: string, loss: nat): Option<Book>
    requires b.meta.Some? && Get(b.losses, AccountOf(e)) <= loss
  {
    SaveEntry(ChargeLedger(b, AccountOf(e), loss), MovedEntry(e, Released, digest), 0 - Usdt(e))
  }

  ghost function ReleaseCharged(before: Book, b: Book, e: Entry, digest: string, t: TerminalProof): Outcome
    requires b.meta.Some?
  {
    var loss := Units(t.ledger.loss).GetOr(0);
    if !Parseable(Get(b.losses, AccountOf(e))) then Outcome(before, Thrown)
    else if loss < Get(b.losses, AccountOf(e)) then Outcome(b, Denied(CumulativeLossRegression))
    else if !Parseable(b.meta.value.consumedUsd) then Outcome(before, Thrown)
    else
      var saved := LedgerRelease(b, e, digest, loss);
      if saved.None? then Outcome(before, Thrown) else Outcome(saved.value, Updated)
  }

  /** A resolution that keeps the occupancy. */
  function MoveEntry(b: Book, e: Entry, to: EntryState, digest: string): Outcome
    requires b.meta.Some?
  {
    var saved := SaveEntry(b, MovedEntry(e, to, digest), 0);
    if saved.None? then Outcome(b, Thrown) else Outcome(saved.value, Updated)
  }

  /** A resolution that returns the occupancy, on a terminal census and ledger record. */
  ghost function ReleaseTerminal(b: Book, access: Option<Policy>, e: Entry, digest: string, session: int, terminal: Option<TerminalProof>): Outcome
    requires b.meta.Some?
  {
    if terminal.None? || !TerminalProven(e, session, terminal.value) then Outcome(b, Denied(TerminalProofUnavailable))
    else
      var t := terminal.value;
      var policy := if access.Some? then Projected(access.value) else None;
      if policy.None? || CensusRisk(t.census, policy.value, t.now, false).None? then Outcome(b, Denied(TerminalNotFlat))
      else if ChargeCensus(b, t.census).None? then Outcome(b, Denied(TerminalNotFlat))
      else ReleaseCharged(b, ChargeCensus(b, t.census).value, e, digest, t)
  }

  predicate Resolvable(b: Book, key: string, plan: string, to: EntryState) {
    key in b.entries && ValidEntry(b.entries[key]) && b.entries[key].order.plan == plan && Allowed(b.entries[key].state, to)
  }

  ghost function TransitionRisk(b: Book, access: Option<Policy>, generation: int, key: string, plan: string, to: EntryState, digest: string, session: int, expected: int, terminal: Option<TerminalProof>): Outcome {
    if !Hex(plan) || !Hex(digest) || !SafeInt(session) || session < 1 || !SafeInt(expected) || expected < 1 then Outcome(b, Denied(MissingNativeProof))
    else if !Readable(b) then Outcome(b, Denied(BookMissingOrCorrupt))
    else if generation != session || b.meta.value.sequence != expected then Outcome(b, Denied(StaleSessionOrSequence))
    else if !Resolvable(b, key, plan, to) then Outcome(b, Denied(InvalidTransition))
    else if to.Released? then ReleaseTerminal(b, access, b.entries[key], digest, session, terminal)
    else MoveEntry(b, b.entries[key], to, digest)
  }

  /** The states a native resolution may ask for. */
  ghost function Resolve(b: Book, access: Option<Policy>, generation: int, key: string, plan: string, to: EntryState, digest: string, session: int, expected: int, terminal: Option<TerminalProof>): Outcome {
    if to.Unknown? || to.Open? || to.Released? then TransitionRisk(b, access, generation, key, plan, to, digest, session, expected, terminal)
    else Outcome(b, Denied(InvalidResolutionState))
  }

  // ---------- RELEASE_UNSENT ----------

  predicate UnsentArguments(key: string, plan: string, expected: int, session: int, proof: UnsentProof) {
    && Hex(plan) && Hex(proof.request) && Hex(proof.digest) && Token(proof.intent)
    && ValidNoReserveAddress(key, proof.account, proof.intent)
    && proof.key == key && proof.plan == plan
    && 1 <= |proof.reason| <= 128
    && SafeInt(expected) && expected >= 0 && SafeInt(session) && session >= 1
  }

  function NewFence(proof: UnsentProof, revision: int): Fence {
    Fence(proof.account, proof.intent, proof.plan, proof.digest, revision)
  }

  predicate SameFence(f: Fence, proof: UnsentProof) {
    f.account == proof.account && f.intent == proof.intent && f.plan == proof.plan && f.digest == proof.digest
  }

  function WithFence(b: Book, key: string, f: Fence): Book
    requires b.meta.Some?
  {
    b.(fences := b.fences[key := f], meta := Some(b.meta.value.(sequence := NextSequence(b.meta.value.sequence))))
  }

  predicate UnsentMatches(e: Entry, plan: string, proof: UnsentProof) {
    && ValidEntry(e) && e.order.plan == plan && (e.state.Held? || e.state.Posted?)
    && AccountOf(e) == proof.account && e.order.intent == proof.intent
  }

  /** A release of an entry that never reached the venue. */
  function ReleaseEntry(b: Book, e: Entry, plan: string, proof: UnsentProof): Outcome
    requires b.meta.Some?
  {
    if !UnsentMatches(e, plan, proof) then Outcome(b, Denied(UnsentMismatch))
    else
      var saved := SaveEntry(b, MovedEntry(e, Released, proof.digest), 0 - Usdt(e));
      if saved.None? then Outcome(b, Thrown) else Outcome(saved.value, Updated)
  }

  /** A fence under a key that holds no entry. */
  function FenceKey(b: Book, access: Option<Policy>, key: string, proof: UnsentProof): Outcome
    requires b.meta.Some?
  {
    if key in b.fences then Outcome(b, if SameFence(b.fences[key], proof) then Updated else Denied(FenceConflict))
    else if access.None? || !ValidPolicy(access.value) then Outcome(b, Denied(GovernanceUnavailable))
    else Outcome(WithFence(b, key, NewFence(proof, access.value.revision)), Updated)
  }

  ghost function ReleaseUnsent(b: Book, access: Option<Policy>, generation: int, key: string, plan: string, expected: int, session: int, proof: UnsentProof): Outcome {
    if !UnsentArguments(key, plan, expected, session, proof) then Outcome(b, Denied(InvalidUnsentProof))
    else if !Readable(b) then Outcome(b, Denied(BookMissingOrCorrupt))
    else if generation != session || b.meta.value.sequence != expected then Outcome(b, Denied(StaleSessionOrSequence))
    else if key in b.entries then ReleaseEntry(b, b.entries[key], plan, proof)
    else FenceKey(b, access, key, proof)
  }

  // ---------- campaign limit and installation ----------

  function LoweredLimit(b: Book, limit: string): Option<Book>
    requires b.meta.Some?
  {
    var m, next := b.meta.value, Units(limit);
    if next.None? || next.value == 0 || next.value >= m.campaignUsd || next.value < m.consumedUsd + m.occupiedUsd then None
    else Some(b.(meta := Some(m.(campaignUsd := next.value, sequence := NextSequence(m.sequence)))))
  }

  /** `None` when the book cannot be read or the new limit is not a lower one that still covers what is charged. */
  ghost function LowerRiskBookLimit(b: Book, limit: string): Option<Book> {
    if !Readable(b) then None else LoweredLimit(b, limit)
  }

  const INITIAL_CAMPAIGN: nat := 10 * UNIT

  function InitialBook(b: Book, installationId: string): Book {
    b.(meta := Some(Meta(0, 0, installationId, 0, 0, 0, INITIAL_CAMPAIGN, map[])))
  }
}
