/** Runs of an installation with two accounts in which a census reports more loss than the book can read back. */
module LossExamples {
  import opened Options
  import opened Amounts
  import opened RiskKeys
  import opened Collections
  import opened Governance
  import opened Sums
  import opened GovernanceStore
  import opened RiskBook
  import opened Conservation
  import opened Progress
  import opened Commands
  import opened Posting
  import opened Installation
  import opened Runs
  import opened RunTheorems
  import opened Authority
  import opened Budgets
  import opened Throws
  import opened Sequencing
  import opened Readability
  import opened ClockExample
  import opened LedgerExamples

  // ---------- a second account ----------

  const OTHER_UID := Ones(64)
  const OTHER_NAME := AccountKey("okx", OTHER_UID)
  const OTHER := Account("other", "Other", "okx", Real, OTHER_UID, true, "okx:real:" + OTHER_UID, true, false, 2, LIMITS, [])
  const PAIR_POLICY := Policy(2, WORD, "sha256:" + HASH, "10", "10", [OWNER, OTHER])
  const PAIR_SNAPSHOT := RiskPolicy(2, true, "10", "10", map[NAME := "10", OTHER_NAME := "10"])
  const PAIR_ORDER := ORDER.(revision := 2)
  const CONNECT_OTHER := Connect("connection-2", OTHER_UID, Environment.Real, "Other", "other", LIMITS, true, "credential")

  function Ones(n: nat): (s: string)
    ensures |s| == n && forall i :: 0 <= i < n ==> s[i] == '1'
  {
    seq(n, _ => '1')
  }

  lemma TwoNames()
    ensures NAME != OTHER_NAME && |NAME| == |OTHER_NAME| == 73
    ensures OWNER.accountKey == NAME && OTHER.accountKey == OTHER_NAME
  {
    assert NAME[72] == '0' && OTHER_NAME[72] == '1';
    assert "okx" + ":real:" + HASH == "okx:real:" + HASH;
    assert "okx" + ":real:" + OTHER_UID == "okx:real:" + OTHER_UID;
  }

  lemma OtherValid()
    ensures ValidAccount(OTHER) && NewAccount(CONNECT_OTHER, 2) == OTHER && ConnectionWellFormed(CONNECT_OTHER)
  {
    hide Units, ValidLimits;
    OwnerParts();
    OwnerAccount();
    assert Hex(OTHER_UID);
    assert "okx:" + "real" + ":" + OTHER_UID == "okx:real:" + OTHER_UID;
  }

  lemma OwnerAccount()
    ensures ValidAccount(OWNER)
  {
    hide ValidAccount;
    ValidExamplePolicy();
    PolicyParts(POLICY);
    assert OWNER == POLICY.accounts[0];
  }

  lemma PairPolicyValid()
    ensures ValidPolicy(PAIR_POLICY)
  {
    hide ValidAccount, Units, Hex, AccountKey;
    ValidExamplePolicy();
    PolicyParts(POLICY);
    OtherValid();
    TwoNames();
    OwnerAccount();
    assert AccountKeys(PAIR_POLICY.accounts) == [OWNER.accountKey, OTHER.accountKey];
    assert AccountIds(PAIR_POLICY.accounts) == ["main", "other"];
  }

  lemma PairProjected()
    ensures Projected(PAIR_POLICY) == Some(PAIR_SNAPSHOT)
    ensures FindTrading(PAIR_POLICY.accounts, "okx", HASH) == Some(OWNER)
  {
    hide ValidPolicy, AccountKey;
    PairPolicyValid();
    TwoNames();
    assert [OWNER, OTHER][..1] == [OWNER] && [OWNER][..0] == [];
    assert AccountLimits([]) == map[];
    assert AccountLimits([OWNER]) == map[NAME := "10"];
    assert AccountLimits([OWNER, OTHER]) == map[NAME := "10", OTHER_NAME := "10"];
    assert Trading(PAIR_POLICY.accounts[0]);
  }

  lemma PairAmple()
    ensures Ample(PAIR_POLICY, PAIR_SNAPSHOT)
  {
    hide ValidPolicy, AccountKey, Projected, FindTrading;
    PairPolicyValid();
    PairProjected();
    TwoNames();
  }

  lemma PairInScope()
    ensures InScope(PAIR_SNAPSHOT, PAIR_ORDER, 1) && InScope(PAIR_SNAPSHOT, PAIR_ORDER, 2)
  {
    hide Units, AccountKey, RealAccountText;
    TextUnits();
    ExampleTexts();
    NameReads();
    OtherReads();
    TwoNames();
    assert |PAIR_SNAPSHOT.accountLimits| == 2;
  }

  lemma OtherReads()
    ensures RealAccountText(OTHER_NAME)
  {
    ExampleTexts();
    assert OTHER_NAME[|OTHER_NAME| - 64..] == OTHER_UID && OTHER_NAME[..3] == "okx" && OTHER_NAME[3..9] == ":real:";
  }

  // ---------- two accounts connected ----------

  const PAIR_COMMANDS := [Install(INSTALL), Govern(CONNECT), Govern(CONNECT_OTHER), AcceptRuntime]

  function BothJoined(): State {
    Joined().(access := Access(
      Some(PAIR_POLICY), map["connection" := Receipt(CONNECT, Connected(OWNER)), "connection-2" := Receipt(CONNECT_OTHER, Connected(OTHER))]))
  }

  lemma OtherChange()
    ensures ConnectChange(POLICY, CONNECT_OTHER) == Changed(PAIR_POLICY, Connected(OTHER))
  {
    hide ValidPolicy, ConnectionWellFormed, AccountKey;
    PairPolicyValid();
    OtherValid();
    TwoNames();
    assert [OWNER] + [OTHER] == [OWNER, OTHER];
    assert AccountKeys(POLICY.accounts) == [OWNER.accountKey] && AccountIds(POLICY.accounts) == ["main"];
  }

  lemma OtherKey()
    ensures Token(CONNECT_OTHER.key) && CONNECT_OTHER.key !in Joined().access.operations
  {
    assert |CONNECT_OTHER.key| != |CONNECT.key|;
  }

  lemma ConnectingOther()
    ensures Step(Joined(), Govern(CONNECT_OTHER)).0 == BothJoined()
  {
    hide ValidPolicy, ConnectionWellFormed, ConnectChange, AccountKey, Step, Token;
    ValidExamplePolicy();
    PairPolicyValid();
    OtherValid();
    OtherChange();
    OtherKey();
    Connects(Joined(), CONNECT_OTHER, POLICY, PAIR_POLICY, Connected(OTHER));
  }

  lemma PairReached()
    ensures After(PAIR_COMMANDS) == BothJoined().(generation := 1)
  {
    hide Step, After;
    InstalledReached();
    Connecting();
    ConnectingOther();
    var c := PAIR_COMMANDS;
    AfterNext(c[..1], c[1]);
    AfterNext(c[..2], c[2]);
    AfterNext(c[..3], c[3]);
    assert c[..1] == [Install(INSTALL)] && c[..1] + [c[1]] == c[..2] && c[..2] + [c[2]] == c[..3] && c[..3] + [c[3]] == c;
    Opening(BothJoined());
  }

  // ---------- a census of too much ----------

  /** The largest loss that can be read for one account, and one dollar for the other. */
  const LARGEST := Nines(15)
  const LARGE_CENSUS := Census([NAME, OTHER_NAME], [Row(NAME, "0", LARGEST), Row(OTHER_NAME, "0", "1")], 2, HASH, HASH, 2, true)
  const SILENT_CENSUS := Census([NAME, OTHER_NAME], [Row(NAME, "0", "0"), Row(OTHER_NAME, "0", "0")], 1, HASH, HASH, 1, true)

  lemma LargestReads()
    ensures Units(LARGEST) == Some(999_999_999_999_999 * UNIT)
  {
    hide Units, IndexOf, DigitsValue, Pow10, PadEnd;
    NoPoint(LARGEST);
    assert LARGEST[..|LARGEST|] == LARGEST;
    FractionReads(0);
    UnitsReads(LARGEST, LARGEST, "");
    NinesValue(15);
    LargePowers();
  }

  lemma {:induction false} NoPoint(s: string)
    requires AllDigits(s)
    ensures IndexOf(s, '.') == |s|
  {
    if |s| > 0 {
      NoPoint(s[1..]);
    }
  }

  function Nines(n: nat): (s: string)
    ensures |s| == n && AllDigits(s) && forall i :: 0 <= i < n ==> s[i] == '9'
  {
    seq(n, _ => '9')
  }

  lemma {:induction false} NinesValue(n: nat)
    ensures DigitsValue(Nines(n)) == Pow10(n) - 1
  {
    if n > 0 {
      NinesValue(n - 1);
      assert Nines(n)[..n - 1] == Nines(n - 1);
    }
  }

  lemma TwoExcess(a: string, b: string, v: nat, w: nat)
    ensures Excess(map[], [a, b], [v, w]) == v + w
  {
    assert [a, b][..1] == [a] && [v, w][..1] == [v];
    OneExcess(map[], a, v);
  }

  /** What a census of both accounts says. */
  lemma PairCensus(c: Census, v: nat, w: nat)
    requires c == LARGE_CENSUS.(rows := c.rows, generatedAt := c.generatedAt, floor := c.floor) && 0 < c.floor == c.generatedAt <= 2
    requires |c.rows| == 2 && c.rows == [Row(NAME, "0", c.rows[0].loss), Row(OTHER_NAME, "0", c.rows[1].loss)]
    requires Units(c.rows[0].loss) == Some(v) && Units(c.rows[1].loss) == Some(w)
    ensures CensusRisk(c, PAIR_SNAPSHOT, 2, false).Some? && CensusRisk(c, PAIR_SNAPSHOT, 2, true).Some?
    ensures c.floor == 1 ==> CensusRisk(c, PAIR_SNAPSHOT, 1, false).Some?
    ensures External(c.rows) == map[NAME := 0, OTHER_NAME := 0]
    ensures NoRegression(map[], c.rows) && Added(map[], c.rows) == v + w
  {
    hide Units, AccountKey, External, Excess;
    TextUnits();
    TwoNames();
    ExampleTexts();
    PairExternal(c.rows);
    TwoExcess(NAME, OTHER_NAME, v, w);
    assert RowAccounts(c.rows) == [NAME, OTHER_NAME] && RowLosses(c.rows) == [v, w];
    assert Elements(c.accounts) == {NAME, OTHER_NAME} == PAIR_SNAPSHOT.accountLimits.Keys;
    assert |PAIR_SNAPSHOT.accountLimits| == 2;
  }

  lemma PairExternal(rows: seq<Row>)
    requires |rows| == 2 && rows[0].account == NAME && rows[1].account == OTHER_NAME && rows[0].occupied == rows[1].occupied == "0"
    ensures External(rows) == map[NAME := 0, OTHER_NAME := 0]
  {
    hide Units, AccountKey;
    TextUnits();
    assert rows[..1][..0] == [];
    assert External(rows[..1]) == map[NAME := 0];
  }

  lemma LargeCensus()
    ensures CensusRisk(LARGE_CENSUS, PAIR_SNAPSHOT, 2, false).Some? && CensusRisk(LARGE_CENSUS, PAIR_SNAPSHOT, 2, true).Some?
    ensures External(LARGE_CENSUS.rows) == map[NAME := 0, OTHER_NAME := 0]
    ensures NoRegression(map[], LARGE_CENSUS.rows) && Added(map[], LARGE_CENSUS.rows) == TEXT_LIMIT
  {
    hide CensusRisk, External, NoRegression, Added, Units, AccountKey;
    TextUnits();
    LargestReads();
    PairCensus(LARGE_CENSUS, 999_999_999_999_999 * UNIT, UNIT);
  }

  lemma SilentPair()
    ensures Silent(SILENT_CENSUS) && CensusRisk(SILENT_CENSUS, PAIR_SNAPSHOT, 1, false).Some?
  {
    hide CensusRisk, External, NoRegression, Added, Units, AccountKey;
    TextUnits();
    PairCensus(SILENT_CENSUS, 0, 0);
  }

  // ---------- a reservation that throws ----------

  const THROWN := ReserveRisk(PAIR_SNAPSHOT, LARGE_CENSUS, PAIR_ORDER, 2, Some(EVIDENCE))

  /** A run of five commands whose last one throws, and so leaves the state as it was. */
  lemma LargeLossThrows()
    ensures var r := Running(PAIR_COMMANDS + [THROWN]);
            && IsRun(r) && |r.commands| == 5 && r.commands[4] == THROWN
            && OutputAt(r, 4) == Risk(Thrown) && r.states[5] == r.states[4]
  {
    hide Step, After, IsRun, MustThrow;
    var commands := PAIR_COMMANDS + [THROWN];
    RunningIsRun(commands);
    var r := Running(commands);
    assert commands[..4] == PAIR_COMMANDS;
    PairReached();
    LargeLossMustThrow();
    RunThrowsExactly(r, 4);
  }

  lemma LargeLossMustThrow()
    ensures MustThrow(BothJoined().(generation := 1), THROWN)
  {
    hide Units, KeyOf, AccountKey, ValidPolicy, Projected, CensusRisk, InScope, ConversionProven, Readable, NoRegression, Added, FindTrading;
    PairPolicyValid();
    PairProjected();
    PairInScope();
    LargeCensus();
    FreshReadable();
    LaterConversion();
    assert Hex(HASH);
  }

  lemma LaterConversion()
    ensures ConversionProven(PAIR_ORDER, 2)
  {
    hide Units;
    TextUnits();
    ExampleTexts();
    Converted(INITIAL_CAMPAIGN);
  }

  // ---------- a post that freezes the book ----------

  const PAIR_HOLD := ReserveRisk(PAIR_SNAPSHOT, SILENT_CENSUS, PAIR_ORDER, 1, Some(EVIDENCE))
  const PAIR_BOOK := FirstHold(PAIR_ORDER, SILENT_CENSUS)
  const PAIR_POST := PostProof(1, 2, LARGE_CENSUS, EVIDENCE, 2, CausalProof(
    KEY, "00000000000000000000000000000000", 1, [Read(NAME, 1, HASH, HASH, 0, 1), Read(OTHER_NAME, 1, HASH, HASH, 0, 1)]))
  const FREEZING := BeginRiskPost(KEY, HASH, 2, HASH, Some(PAIR_POST))

  lemma PairHolding()
    ensures Step(BothJoined().(generation := 1), PAIR_HOLD).0 == BothJoined().(generation := 1, book := PAIR_BOOK)
    ensures Step(BothJoined().(generation := 1), PAIR_HOLD).1 == Risk(HeldReply(NewEntry(PAIR_ORDER, SILENT_CENSUS, 1), 1, INITIAL_CAMPAIGN))
  {
    hide Units, AccountKey, KeyOf, ValidPolicy, InScope, CensusRisk, Silent, Reserve, Ample, FirstHold, NewEntry;
    PairAmple();
    PairInScope();
    SilentPair();
    FirstReservation(PAIR_POLICY, PAIR_SNAPSHOT, SILENT_CENSUS, PAIR_ORDER);
  }

  lemma PairEntry()
    ensures KeyOf(PAIR_ORDER) == KEY && PAIR_BOOK.entries.Keys == {KEY} && PAIR_BOOK.meta.Some? && PAIR_BOOK.losses == map[]
    ensures ValidEntry(PAIR_BOOK.entries[KEY]) && HeldExactly(PAIR_BOOK, KEY, HASH, 2) && Usdt(PAIR_BOOK.entries[KEY]) == INITIAL_CAMPAIGN
    ensures PAIR_BOOK.entries[KEY] == NewEntry(PAIR_ORDER, SILENT_CENSUS, 1)
  {
    hide Units, KeyOf, AccountKey, VenueText, Hex, Token, StrategyText, InstrumentText;
    ExampleTexts();
    TextUnits();
    SameIdentity();
    assert Hex(HASH);
  }

  lemma SameIdentity()
    ensures KeyOf(PAIR_ORDER) == KEY
  {
    hide RiskKey;
  }

  lemma PairReadable()
    ensures Readable(PAIR_BOOK)
  {
    hide KeyOf, AccountKey, Units;
    OneSum(NAME, INITIAL_CAMPAIGN);
  }

  lemma PairArguments()
    ensures PostArguments(KEY, HASH, 2, HASH, PAIR_POST)
  {
    hide KeyOf, AccountKey;
    ShortKey();
    assert Hex(HASH);
  }

  lemma PairOccupied()
    ensures Overlay(map[NAME := 0, OTHER_NAME := 0], map[NAME := INITIAL_CAMPAIGN]) == map[NAME := INITIAL_CAMPAIGN, OTHER_NAME := 0]
    ensures Sum(map[NAME := INITIAL_CAMPAIGN, OTHER_NAME := 0]) == INITIAL_CAMPAIGN
  {
    hide AccountKey, Sum;
    TwoNames();
    SumUpdate(map[NAME := INITIAL_CAMPAIGN], OTHER_NAME, 0);
    OneSum(NAME, INITIAL_CAMPAIGN);
    assert map[NAME := INITIAL_CAMPAIGN][OTHER_NAME := 0] == map[NAME := INITIAL_CAMPAIGN, OTHER_NAME := 0];
  }

  lemma PairCaps(b: Book)
    requires b.meta.Some? && b.meta.value.accounts == map[NAME := INITIAL_CAMPAIGN]
    ensures PostCaps(b, PAIR_SNAPSHOT, map[NAME := 0, OTHER_NAME := 0], OWNER) == Pass(OWNER, INITIAL_CAMPAIGN)
  {
    hide Units, AccountKey, Sum, Overlay;
    TextUnits();
    TwoNames();
    PairOccupied();
  }

  /** The post is let through: its caps hold, and it expects the sequence that its own census makes. */
  lemma PairPostGoes(d: Book)
    requires d.meta.Some? && d.entries == PAIR_BOOK.entries && d.meta.value.accounts == map[NAME := INITIAL_CAMPAIGN] && d.meta.value.sequence == 2
    ensures Projected(PAIR_POLICY).Some? && PostGoes(d, PAIR_POLICY, KEY, HASH, 2, PAIR_POST)
    ensures PostAdmission(d, PAIR_POLICY, PAIR_SNAPSHOT, External(LARGE_CENSUS.rows), d.entries[KEY], 2) == Pass(OWNER, INITIAL_CAMPAIGN)
  {
    hide Units, AccountKey, KeyOf, Projected, FindTrading, ValidPolicy, ValidEntry, External, PAIR_BOOK, PostCaps;
    PairProjected();
    PairEntry();
    LargeCensus();
    PairCaps(d);
    assert "BTC-USDT-SWAP" in OWNER.limits.instruments;
  }

  /** Charging the census makes the loss unreadable and raises the sequence. */
  lemma PairCharge()
    ensures PAIR_BOOK.meta.Some? && ChargeCensus(PAIR_BOOK, LARGE_CENSUS).Some?
    ensures var d := ChargeCensus(PAIR_BOOK, LARGE_CENSUS).value;
            && d.meta.Some? && d.entries == PAIR_BOOK.entries && d.meta.value.accounts == map[NAME := INITIAL_CAMPAIGN] && d.meta.value.sequence == 2
            && TooMuch(PAIR_BOOK, LARGE_CENSUS) && NoRegression(PAIR_BOOK.losses, LARGE_CENSUS.rows)
  {
    hide NoRegression, Added, Raised, KeyOf, AccountKey, Units, NewEntry;
    LargeCensus();
  }

  lemma PairPosts()
    requires Sound(PAIR_BOOK) && Registered(PAIR_BOOK, PAIR_POLICY)
    ensures var out := BeginPost(PAIR_BOOK, Some(PAIR_POLICY), 1, KEY, HASH, 2, HASH, Some(PAIR_POST));
            out.reply == PostAuthorized(3, 0) && out.book.meta.Some? && !Readable(out.book)
  {
    hide Sound, Registered, Readable, BeginPost, PostCharged, PostGoes, PostArguments, ValidPolicy, Projected, CensusRisk, KeyOf, AccountKey, NoRegression, Added,
         ChargeCensus, TooMuch, PostAdmission, External, ValidEntry, Forward, Granted, SaveEntry, PostedEntry, HeldExactly, PAIR_BOOK, Usdt, PostCharges, PostMeaning;
    PairPolicyValid();
    PairProjected();
    PairArguments();
    LargeCensus();
    PairReadable();
    PairCharge();
    PairEntry();
    PairCharges();
    var d := ChargeCensus(PAIR_BOOK, LARGE_CENSUS).value;
    PairPostGoes(d);
    PostCase(PAIR_BOOK, Some(PAIR_POLICY), 1, KEY, HASH, 2, HASH, Some(PAIR_POST));
    ReadableRoom(PAIR_BOOK);
    ChargedSafe(PAIR_BOOK, Some(PAIR_POLICY), LARGE_CENSUS, PAIR_SNAPSHOT, 2, true);
    PairAnswer(d);
    PostKeepsReadable(PAIR_BOOK, Some(PAIR_POLICY), 1, KEY, HASH, 2, HASH, PAIR_POST);
    BeginPostSafe(PAIR_BOOK, Some(PAIR_POLICY), 1, KEY, HASH, 2, HASH, Some(PAIR_POST));
    AuthorizedBook(BeginPost(PAIR_BOOK, Some(PAIR_POLICY), 1, KEY, HASH, 2, HASH, Some(PAIR_POST)), PAIR_POLICY, KEY, HASH, 2, PAIR_POST);
  }

  lemma PairCharges()
    ensures PostCharges(PAIR_BOOK, Some(PAIR_POLICY), 1, KEY, HASH, 2, HASH, Some(PAIR_POST))
  {
    hide Readable, PostArguments, ValidPolicy, Projected, CensusRisk, KeyOf, AccountKey, NoRegression, PAIR_BOOK;
    PairPolicyValid();
    PairProjected();
    PairArguments();
    LargeCensus();
    PairReadable();
    PairCharge();
  }

  lemma PairAnswer(d: Book)
    requires d.meta.Some? && d.entries == PAIR_BOOK.entries && d.meta.value.accounts == map[NAME := INITIAL_CAMPAIGN] && d.meta.value.sequence == 2
    requires Sound(d) && |d.entries| <= MAX_SAFE
    ensures PostCharged(PAIR_BOOK, d, PAIR_POLICY, PAIR_SNAPSHOT, KEY, HASH, 2, HASH, PAIR_POST).reply == PostAuthorized(3, 0)
  {
    hide Sound, PostGoes, PostAdmission, External, ValidEntry, SaveEntry, PostedEntry, Usdt, HeldExactly, PAIR_BOOK, AccountKey, KeyOf, Moves, Forward, Granted;
    PairProjected();
    PairPostGoes(d);
    PairEntry();
    SameHeld(PAIR_BOOK, d, KEY, HASH, 2);
    assert Hex(HASH);
    PostPasses(PAIR_BOOK, d, PAIR_POLICY, PAIR_SNAPSHOT, KEY, HASH, 2, HASH, PAIR_POST);
    PostedMoves(d, KEY, HASH, 2, 2, HASH);
    MoveSafe(d, KEY, PostedEntry(d.entries[KEY], 2, HASH));
    PostShape(PAIR_BOOK, d, PAIR_POLICY, PAIR_SNAPSHOT, KEY, HASH, 2, HASH, PAIR_POST);
  }

  lemma SameHeld(b: Book, d: Book, key: string, plan: string, revision: int)
    requires HeldExactly(b, key, plan, revision) && d.entries == b.entries
    ensures HeldExactly(d, key, plan, revision)
  {
    hide ValidEntry;
  }

  lemma PostStep(s: State, key: string, plan: string, revision: int, digest: string, post: Option<PostProof>)
    ensures var out := BeginPost(s.book, s.access.policy, s.generation, key, plan, revision, digest, post);
            Step(s, BeginRiskPost(key, plan, revision, digest, post)) == (s.(book := out.book), Risk(out.reply))
  {
    hide BeginPost;
  }

  lemma PairPosting(s: State)
    requires s == BothJoined().(generation := 1, book := PAIR_BOOK) && Inv(s)
    ensures Readable(s.book) && Step(s, FREEZING).1 == Risk(PostAuthorized(3, 0))
    ensures var t := Step(s, FREEZING).0; t.access == s.access && t.book.meta.Some? && !Readable(t.book)
  {
    hide Inv, Sound, Registered, Readable, BeginPost, PAIR_BOOK, Step;
    InvParts(s);
    RegisteredAt(s);
    PairReadable();
    PairPosts();
    PostStep(s, KEY, HASH, 2, HASH, Some(PAIR_POST));
  }

  lemma AuthorizedBook(out: Outcome, p: Policy, key: string, plan: string, revision: int, n: PostProof)
    requires PostMeaning(PAIR_BOOK, p, key, plan, revision, n, out)
    ensures out.book.meta.Some?
  {
    hide ValidPolicy, Projected, Grants, PostCapsHold, PAIR_BOOK;
  }

  const FROZEN_COMMANDS := PAIR_COMMANDS + [PAIR_HOLD, FREEZING]

  /** A run in which a post is authorized by the very census that makes the book unreadable: what it posted can never be resolved or released. */
  lemma FreezingPost()
    ensures var r := Running(FROZEN_COMMANDS);
            && IsRun(r) && |r.states| == 7 && r.commands == FROZEN_COMMANDS
            && OutputAt(r, 4) == Risk(HeldReply(NewEntry(PAIR_ORDER, SILENT_CENSUS, 1), 1, INITIAL_CAMPAIGN))
            && OutputAt(r, 5) == Risk(PostAuthorized(3, 0))
            && Readable(r.states[5].book) && !Readable(r.states[6].book)
            && forall c :: Step(r.states[6], c).0.book == r.states[6].book
  {
    hide Step, After, Readable, Inv, IsRun, PAIR_BOOK, NewEntry;
    var commands := FROZEN_COMMANDS;
    RunningIsRun(commands);
    var r := Running(commands);
    assert commands[..4] == PAIR_COMMANDS && commands[..5] == PAIR_COMMANDS + [PAIR_HOLD] && commands == commands[..5] + [FREEZING];
    PairReached();
    PairHolding();
    RunStep(r, 4);
    RunStep(r, 5);
    RunInv(r, 5);
    PairPosting(r.states[5]);
    forall c ensures Step(r.states[6], c).0.book == r.states[6].book {
      UnreadableIsFrozen(r.states[6], c);
    }
  }
}
