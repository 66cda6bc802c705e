/** Concrete states and inputs on which the exceptions of the ledger are met. */
module LedgerExamples {
  import opened Options
  import opened Amounts
  import opened RiskKeys
  import opened Collections
  import opened Governance
  import opened Sums
  import opened GovernanceStore
  import opened RiskBook
  import opened Conservation
  import opened Progress
  import opened Commands
  import opened Posting
  import opened Installation
  import opened Runs
  import opened RunTheorems
  import opened Fences
  import opened Authority
  import opened Throws
  import opened Budgets
  import opened ClockExample

  // ---------- installing ----------

  const FIRST_POLICY := Policy(0, WORD, "sha256:" + HASH, "10", "10", [])
  const INSTALL := InstallBody(WORD, HASH, FIRST_POLICY)
  const UNSENT := UnsentProof(KEY, NAME, WORD, HASH, HASH, "rejected", HASH)

  lemma FirstPolicyValid()
    ensures ValidPolicy(FIRST_POLICY) && Installable(INSTALL)
  {
    hide Units;
    TextUnits();
    assert FIRST_POLICY.campaignId[..7] == "sha256:" && FIRST_POLICY.campaignId[7..] == HASH;
  }

  /** Right after the installation. */
  function Installed(): State {
    State(0, Access(Some(FIRST_POLICY), map[]), map[], map[WORD := Receipt(INSTALL, Configured(FIRST_POLICY))], true, InitialBook(NO_BOOK, WORD))
  }

  lemma InstalledReached()
    ensures After([Install(INSTALL)]) == Installed()
  {
    hide Installable;
    FirstPolicyValid();
    AfterNext([], Install(INSTALL));
    assert [] + [Install(INSTALL)] == [Install(INSTALL)];
  }

  lemma OpenedReached()
    ensures After([Install(INSTALL), AcceptRuntime]) == Installed().(generation := 1)
  {
    hide Step, After;
    InstalledReached();
    AfterNext([Install(INSTALL)], AcceptRuntime);
    assert [Install(INSTALL)] + [AcceptRuntime] == [Install(INSTALL), AcceptRuntime];
    Opening(Installed());
  }

  /** Accepting the first session. */
  lemma Opening(s: State)
    requires s.generation == 0
    ensures Step(s, AcceptRuntime).0 == s.(generation := 1)
  {
  }

  /** A new installation under its first session, and a fence that is durable but answered as failed: the guard says so beforehand. */
  lemma FirstReleaseUnconfirmed()
    ensures After([Install(INSTALL), AcceptRuntime]) == Installed().(generation := 1)
    ensures var b := Installed().book;
            var out := ReleaseUnsent(b, Some(FIRST_POLICY), 1, KEY, HASH, 0, 1, UNSENT);
            && out.reply == Updated && KEY in out.book.fences
            && !ReadsBack(b, Some(FIRST_POLICY), KEY) && !UnsentConfirmed(out, KEY, HASH)
  {
    hide Step, After, Running, Units, KeyOf, AccountKey, ValidPolicy, Installable, ValidNoReserveAddress;
    FirstPolicyValid();
    OpenedReached();
    AddressExample();
    TextUnits();
    NothingSums();
    assert Hex(HASH) && Token(WORD);
  }

  lemma AddressExample()
    ensures ValidNoReserveAddress(KEY, NAME, WORD)
  {
    hide RiskKey, ValidNoReserveAddress;
    ExampleTexts();
    NoReserveAddressExact(KEY, NAME, WORD);
    AddressIs();
  }

  lemma AddressIs()
    ensures AddressOf(KEY, NAME, WORD, HASH, WORD)
  {
    hide RiskKey;
    ExampleTexts();
  }

  // ---------- one reservation ----------

  const EVIDENCE := Evidence(1, HASH, true, true, true)
  const SNAPSHOT := RiskPolicy(1, true, "10", "10", map[NAME := "10"])
  const CONNECT := Connect("connection", HASH, Environment.Real, "Main", "main", LIMITS, true, "credential")
  const HELD_COMMANDS := [Install(INSTALL), Govern(CONNECT), AcceptRuntime, ReserveRisk(SNAPSHOT, CENSUS, ORDER, 1, Some(EVIDENCE))]

  /** One account is connected. */
  function Joined(): State {
    Installed().(access := Access(Some(POLICY), map[CONNECT.key := Receipt(CONNECT, Connected(OWNER))]))
  }

  /** The state after the commands: one session, and one reservation of the whole campaign. */
  const HELD_STATE := State(
    1, Access(Some(POLICY), map["connection" := Receipt(CONNECT, Connected(OWNER))]), map[],
    map[WORD := Receipt(INSTALL, Configured(FIRST_POLICY))], true, BOOK)

  /** A connection that its writer accepts. */
  lemma Connects(s: State, r: Request, p: Policy, next: Policy, answer: Answer)
    requires s.access.policy == Some(p) && ValidPolicy(p) && ValidPolicy(next) && r.key !in s.access.operations && Token(r.key)
    requires r.Connect? && ConnectionWellFormed(r) && ConnectChange(p, r) == Changed(next, answer)
    ensures Step(s, Govern(r)).0 == s.(access := Access(Some(next), s.access.operations[r.key := Receipt(r, answer)]))
  {
    hide ValidPolicy, ConnectionWellFormed, ConnectChange, Token;
  }

  lemma OwnerChange()
    ensures ConnectChange(FIRST_POLICY, CONNECT) == Changed(POLICY, Connected(OWNER))
  {
    hide ValidPolicy, AccountKey;
    ValidExamplePolicy();
    OwnerParts();
    assert [] + [OWNER] == [OWNER];
  }

  lemma Connecting()
    ensures Step(Installed(), Govern(CONNECT)).0 == Joined()
  {
    hide ValidPolicy, ValidLimits, Step, ConnectChange;
    FirstPolicyValid();
    ValidExamplePolicy();
    OwnerParts();
    OwnerChange();
    assert Token(CONNECT.key);
    Connects(Installed(), CONNECT, FIRST_POLICY, POLICY, Connected(OWNER));
  }

  lemma OwnerParts()
    ensures ValidLimits(LIMITS) && Hex(HASH) && IdText("main")
    ensures NewAccount(CONNECT, 1) == OWNER
  {
    hide Units;
    ValidExamplePolicy();
    PolicyParts(POLICY);
    assert OWNER == POLICY.accounts[0];
    assert "okx:" + "real" + ":" + HASH == "okx:real:" + HASH;
  }

  /** The example state is one that commands lead to. */
  lemma HeldStateReached()
    ensures After(HELD_COMMANDS) == HELD_STATE
  {
    hide Step, After, Reserve;
    InstalledReached();
    Connecting();
    var c := HELD_COMMANDS;
    AfterNext(c[..1], c[1]);
    AfterNext(c[..2], c[2]);
    AfterNext(c[..3], c[3]);
    assert c[..1] == [Install(INSTALL)] && c[..1] + [c[1]] == c[..2] && c[..2] + [c[2]] == c[..3] && c[..3] + [c[3]] == c;
    Opening(Joined());
    Holding();
  }

  // ---------- the first reservation of an installation ----------

  const FRESH := InitialBook(NO_BOOK, WORD)

  /** The book after it: the order takes the whole campaign. */
  function FirstHold(o: Order, c: Census): Book {
    var e := NewEntry(o, c, 1);
    Book(
      Some(Meta(c.floor, 1, WORD, INITIAL_CAMPAIGN, INITIAL_CAMPAIGN, 0, INITIAL_CAMPAIGN, map[NAME := INITIAL_CAMPAIGN])),
      map[e.key := e], map[], map[StrategyOf(e) := INITIAL_CAMPAIGN], map[NAME := AccountRecord(1, INITIAL_CAMPAIGN, INITIAL_CAMPAIGN)], map[])
  }

  /** A census that finds nothing occupied and nothing lost. */
  ghost predicate Silent(c: Census) {
    && NoRegression(map[], c.rows) && Added(map[], c.rows) == 0
    && NAME in External(c.rows) && forall a :: a in External(c.rows) ==> External(c.rows)[a] == 0
  }

  /** A policy under which the example order may take all there is. */
  ghost predicate Ample(p: Policy, policy: RiskPolicy) {
    && ValidPolicy(p) && Authoritative(p, policy) && p.installationId == WORD && FindTrading(p.accounts, "okx", HASH) == Some(OWNER)
    && policy.globalLimit == "10" && NAME in policy.accountLimits && policy.accountLimits[NAME] == "10"
  }

  lemma FreshReadable()
    ensures Readable(FRESH)
  {
    NothingSums();
  }

  lemma NothingSums()
    ensures Sum<string>(map[]) == 0
  {
  }

  lemma SilentCharge(c: Census)
    requires Silent(c)
    ensures ChargeCensus(FRESH, c) == Some(FRESH.(meta := Some(FRESH.meta.value.(sourceAsOf := c.floor))))
  {
    hide NoRegression, Added, Raised, External;
  }

  lemma FirstAdmission(b: Book, p: Policy, policy: RiskPolicy, external: map<string, nat>, o: Order)
    requires b.meta.Some? && b.meta.value.(sourceAsOf := 0) == FRESH.meta.value && b.strategies == map[]
    requires o == ORDER.(revision := o.revision) && Ample(p, policy)
    requires NAME in external && forall a :: a in external ==> external[a] == 0
    ensures Admission(b, p, policy, external, o) == Pass(OWNER, 0)
  {
    hide Units, AccountKey, KeyOf, Sum, FindTrading, ValidPolicy, Authoritative, Projected;
    TextUnits();
    var occupied := Overlay(external, map[]);
    assert occupied == external;
    SumZero(external);
    assert Units(OWNER.limits.maxModelledLoss) == Some(INITIAL_CAMPAIGN);
  }

  lemma FirstSave(b: Book, o: Order, c: Census)
    requires b == FRESH.(meta := Some(FRESH.meta.value.(sourceAsOf := c.floor))) && o == ORDER.(revision := o.revision)
    ensures SaveEntry(b, NewEntry(o, c, 1), INITIAL_CAMPAIGN) == Some(FirstHold(o, c))
  {
    hide Units, AccountKey, KeyOf;
    TextUnits();
    var e := NewEntry(o, c, 1);
    assert AccountOf(e) == NAME && Usd(e) == INITIAL_CAMPAIGN;
  }

  lemma FirstReservation(p: Policy, policy: RiskPolicy, c: Census, o: Order)
    requires Ample(p, policy) && Silent(c) && o == ORDER.(revision := o.revision) && InScope(policy, o, 1)
    requires CensusRisk(c, policy, 1, false).Some? && c.digest == HASH
    ensures Reserve(FRESH, Some(p), 1, policy, c, o, 1, Some(EVIDENCE)) == Outcome(FirstHold(o, c), HeldReply(NewEntry(o, c, 1), 1, INITIAL_CAMPAIGN))
  {
    hide Units, KeyOf, CensusRisk, InScope, ConversionProven, Readable, Reserve, Ample, Silent, NoRegression, ReserveCharged, NewEntry, ValidPolicy, Authoritative;
    FreshReadable();
    SilentParts(c);
    AmpleParts(p, policy);
    SilentCharge(c);
    TextUnits();
    ConversionExample(o);
    ReserveCase(FRESH, Some(p), 1, policy, c, o, 1, Some(EVIDENCE));
    var d := ChargeCensus(FRESH, c).value;
    FirstAdmission(d, p, policy, External(c.rows), o);
    FirstSave(d, o, c);
    CreatedShape(FRESH, d, p, policy, c, o, 1);
  }

  lemma SilentParts(c: Census)
    requires Silent(c)
    ensures NoRegression(FRESH.losses, c.rows) && NAME in External(c.rows) && forall a :: a in External(c.rows) ==> External(c.rows)[a] == 0
  {
    hide NoRegression, Added, External;
  }

  lemma AmpleParts(p: Policy, policy: RiskPolicy)
    requires Ample(p, policy)
    ensures ValidPolicy(p) && Authoritative(p, policy) && p.installationId == WORD
  {
    hide ValidPolicy, Authoritative, FindTrading;
  }

  lemma ConversionExample(o: Order)
    requires o == ORDER.(revision := o.revision)
    ensures ConversionProven(o, 1)
  {
    hide Units;
    TextUnits();
    ExampleTexts();
    Converted(INITIAL_CAMPAIGN);
  }

  lemma Converted(usdt: nat)
    ensures (usdt * UNIT + UNIT - 1) / UNIT == usdt
  {
  }

  lemma NameReads()
    ensures RealAccountText(NAME)
  {
    ExampleTexts();
    assert NAME[|NAME| - 64..] == HASH && NAME[..3] == "okx" && NAME[3..9] == ":real:";
  }

  lemma SnapshotInScope()
    ensures InScope(SNAPSHOT, ORDER, 1)
  {
    hide Units, AccountKey;
    TextUnits();
    ExampleTexts();
    NameReads();
    assert |SNAPSHOT.accountLimits| == 1;
  }

  lemma SilentExample()
    ensures Silent(CENSUS) && CensusRisk(CENSUS, SNAPSHOT, 1, false).Some?
  {
    hide Units, AccountKey, Projected;
    TextUnits();
    ExampleCensus();
    ValidExamplePolicy();
    OneExcess(map[], NAME, 0);
    assert RowAccounts(CENSUS.rows) == [NAME] && RowLosses(CENSUS.rows) == [0];
  }

  lemma OneExcess<K(!new)>(m: map<K, nat>, k: K, v: nat)
    ensures Excess(m, [k], [v]) == v - Get(m, k)
  {
    assert [k][..0] == [] && [v][..0] == [];
  }

  lemma Holding()
    ensures Step(Joined().(generation := 1), HELD_COMMANDS[3]).0 == HELD_STATE
  {
    hide Units, AccountKey, KeyOf, ValidPolicy, Projected, InScope, CensusRisk, Silent, Reserve, FindTrading;
    ValidExamplePolicy();
    SnapshotInScope();
    SilentExample();
    FirstReservation(POLICY, SNAPSHOT, CENSUS, ORDER);
    assert FirstHold(ORDER, CENSUS) == BOOK;
  }

  /** So it keeps the invariant of all reachable states. */
  lemma HeldStateInv()
    ensures IsRun(Running(HELD_COMMANDS)) && Running(HELD_COMMANDS).states[4] == HELD_STATE
    ensures Inv(HELD_STATE)
  {
    hide Step, After, Running, Inv;
    HeldStateReached();
    RunningIsRun(HELD_COMMANDS);
    assert |HELD_COMMANDS| == 4;
    RunInv(Running(HELD_COMMANDS), 4);
  }

  // ---------- a hold stranded ----------

  /** The hold is resolved to UNKNOWN, and what remains of it can never be released. */
  lemma HoldStrands()
    ensures Inv(HELD_STATE) && KEY in BOOK.entries && BOOK.entries[KEY].state.Held?
    ensures var out := Resolve(BOOK, Some(POLICY), 1, KEY, HASH, Unknown, HASH, 1, 1, None);
            out.reply == Updated && KEY in out.book.entries && Stranded(out.book.entries[KEY])
  {
    hide Inv, KeyOf, StrategyOf, AccountKey, Units, ValidEntry, Readable, Sound;
    HeldStateInv();
    ValidExampleEntry();
    ReadableExample();
    UnknownSaves();
    assert Hex(HASH);
  }

  lemma UnknownSaves()
    ensures var e := MovedEntry(HOLD, Unknown, HASH);
            BOOK.meta.Some? && SaveEntry(BOOK, e, 0).Some? && SaveEntry(BOOK, e, 0).value.entries == map[KEY := e]
  {
    hide Units, AccountKey, KeyOf;
    ValidExampleEntry();
  }

  // ---------- a policy that nothing can be reserved against ----------

  const TIGHT_POLICY := POLICY.(maxTotalLoss := "1")

  /** A valid policy whose one account may lose more by itself than the policy allows in all. */
  lemma TightPolicyIsRefused()
    ensures ValidPolicy(TIGHT_POLICY) && RealVerified(TIGHT_POLICY.accounts) && Trading(TIGHT_POLICY.accounts[0])
    ensures !Reservable(TIGHT_POLICY) && !Budgeted(Projected(TIGHT_POLICY).value)
  {
    hide Units, ValidAccount, Budgeted, AccountLimits;
    TextUnits();
    ValidExamplePolicy();
    PolicyParts(POLICY);
    assert TIGHT_POLICY.accounts == POLICY.accounts == [OWNER];
    assert !CapFits(OWNER, TIGHT_POLICY);
    BudgetedExactly(TIGHT_POLICY);
  }
}
