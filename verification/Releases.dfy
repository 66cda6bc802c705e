/** Which occupancies can still be returned: an explicit release for every one that can, and none for the others. */
module Releases {
  import opened Options
  import opened Amounts
  import opened RiskKeys
  import opened Collections
  import opened Governance
  import opened Sums
  import opened GovernanceStore
  import opened RiskBook
  import opened Conservation
  import opened Progress
  import opened Commands
  import opened Posting
  import opened Installation
  import opened Runs
  import opened RunTheorems
  import opened Fences
  import opened Clock
  import opened Authority
  import opened Throws

  // ---------- a census that reports nothing new ----------

  const PROOF := Zeros(64)

  ghost function Listing<T(!new)>(s: set<T>): (q: seq<T>)
    ensures Distinct(q) && Elements(q) == s && |q| == |s|
  {
    if s == {} then []
    else
      var x :| x in s;
      var rest := Listing(s - {x});
      var q := rest + [x];
      assert forall i :: 0 <= i < |rest| ==> q[i] == rest[i] && q[i] in Elements(rest);
      assert Elements(q) == Elements(rest) + {x};
      q
  }

  function QuietRow(losses: map<string, nat>, account: string): Row {
    Row(account, "0", Amount(Get(losses, account)))
  }

  function QuietRows(losses: map<string, nat>, accounts: seq<string>): (rows: seq<Row>)
    ensures |rows| == |accounts| && forall i :: 0 <= i < |rows| ==> rows[i] == QuietRow(losses, accounts[i])
  {
    seq(|accounts|, i requires 0 <= i < |accounts| => QuietRow(losses, accounts[i]))
  }

  /** Every account of the policy, occupying nothing outside the book and having lost just what is recorded, read at this moment. */
  ghost function QuietCensus(b: Book, policy: RiskPolicy, now: int): Census {
    var accounts := Listing(policy.accountLimits.Keys);
    Census(accounts, QuietRows(b.losses, accounts), now, PROOF, PROOF, now, true)
  }

  lemma ZeroReads()
    ensures Units("0") == Some(0)
  {
    assert IndexOf("0", '.') == 1;
    assert "0"[..1] == "0" && "0"[..0] == "";
    DigitsValueZeros(9);
    assert PadEnd("", 9) == Zeros(9);
    assert DigitsValue("0") == 0;
  }

  lemma QuietReads(losses: map<string, nat>, account: string)
    requires Parseable(Get(losses, account))
    ensures var row := QuietRow(losses, account);
            Units(row.occupied) == Some(0) && Units(row.loss) == Some(Get(losses, account)) && Reported(row) == Get(losses, account)
  {
    hide Units, Amount, Parseable;
    ZeroReads();
    UnitsOfAmount(Get(losses, account));
  }

  lemma QuietProves(b: Book, policy: RiskPolicy, now: int)
    requires b.meta.Some? && Bounded(b) && SafeInt(now) && now > 0
    ensures CensusRisk(QuietCensus(b, policy, now), policy, now, false).Some?
  {
    hide Units, Amount, Parseable, Distinct, Listing, Get;
    var c := QuietCensus(b, policy, now);
    KeysCount(policy.accountLimits);
    assert RowAccounts(c.rows) == c.accounts;
    forall i | 0 <= i < |c.rows| ensures c.rows[i].account in policy.accountLimits && Units(c.rows[i].occupied).Some? && Units(c.rows[i].loss).Some? {
      RecordedReadable(b, c.accounts[i]);
      QuietReads(b.losses, c.accounts[i]);
      assert c.accounts[i] in Elements(c.accounts);
    }
  }

  lemma KeysCount<K, V>(m: map<K, V>)
    ensures |m.Keys| == |m|
  {
  }

  lemma QuietAddsNothing(b: Book, policy: RiskPolicy, now: int)
    requires b.meta.Some? && Bounded(b)
    ensures var rows := QuietCensus(b, policy, now).rows; NoRegression(b.losses, rows) && Added(b.losses, rows) == 0
  {
    hide Units, Amount, Parseable, Listing, Get, Excess;
    var c := QuietCensus(b, policy, now);
    forall i | 0 <= i < |c.rows|
      ensures c.rows[i].account == c.accounts[i] && Units(c.rows[i].loss).Some? && Reported(c.rows[i]) == Get(b.losses, c.accounts[i])
      ensures Parseable(Get(b.losses, c.accounts[i]))
    {
      RecordedReadable(b, c.accounts[i]);
      QuietReads(b.losses, c.accounts[i]);
    }
    ExcessFacts(b.losses, RowAccounts(c.rows), RowLosses(c.rows));
  }

  // ---------- the release ----------

  /** The terminal record of an order that cost nothing more than is recorded: rejected by the venue, and nothing is left open. */
  ghost function QuietProof(s: State, e: Entry): TerminalProof
    requires s.access.policy.Some? && Projected(s.access.policy.value).Some?
  {
    var now := LastEvent(e) + 1;
    TerminalProof(
      QuietCensus(s.book, Projected(s.access.policy.value).value, now), Evidence(s.generation, PROOF, true, true, true),
      LedgerProof(e.order.uid, e.order.run, e.order.intent, Rejected, PROOF, Amount(Get(s.book.losses, AccountOf(e))), "0"), now)
  }

  ghost function QuietRelease(s: State, key: string): Command
    requires key in s.book.entries && s.book.meta.Some? && s.access.policy.Some? && Projected(s.access.policy.value).Some?
  {
    var e := s.book.entries[key];
    ResolveRisk(key, e.order.plan, Released, PROOF, s.generation, s.book.meta.value.sequence, Some(QuietProof(s, e)))
  }

  /** The book can be read, a session is open, and there is a later moment than the entry's last event. */
  ghost predicate Serviceable(s: State, key: string) {
    Readable(s.book) && 1 <= s.generation <= MAX_SAFE && key in s.book.entries && LastEvent(s.book.entries[key]) < MAX_SAFE
  }

  lemma ProjectedAtInv(s: State)
    requires Inv(s) && s.book.meta.Some?
    ensures s.access.policy.Some? && Projected(s.access.policy.value).Some?
  {
    hide Sound, ValidPolicy, Registered, EntriesCurrent, Units, AccountLimits;
  }

  lemma QuietProven(s: State, e: Entry)
    requires s.access.policy.Some? && Projected(s.access.policy.value).Some? && SoundEntry(e) && LastEvent(e) < MAX_SAFE
    requires Parseable(Get(s.book.losses, AccountOf(e))) && !e.state.Released? && !Stranded(e)
    ensures TerminalProven(e, s.generation, QuietProof(s, e))
  {
    hide Projected, QuietCensus, Amount, Units, Parseable, ValidOrder, KeyOf, Usd, AccountOf, Get;
    ZeroReads();
    UnitsOfAmount(Get(s.book.losses, AccountOf(e)));
    QuietNamed(s.book, Projected(s.access.policy.value).value, LastEvent(e) + 1);
    assert Hex(PROOF);
  }

  lemma QuietNamed(b: Book, policy: RiskPolicy, now: int)
    ensures QuietCensus(b, policy, now).digest == PROOF && QuietCensus(b, policy, now).floor == now
  {
  }

  lemma EntryTime(e: Entry)
    requires SoundEntry(e)
    ensures LastEvent(e) > 0
  {
    hide ValidOrder, KeyOf, Usd, Hex;
  }

  /** Every refusal of a terminal release is passed. */
  lemma QuietCharges(s: State, key: string)
    requires Inv(s) && s.book.meta.Some? && Serviceable(s, key) && s.access.policy.Some? && Projected(s.access.policy.value).Some?
    requires var e := s.book.entries[key]; ValidEntry(e) && !e.state.Released? && !Stranded(e)
    ensures var c := QuietRelease(s, key);
            && TerminalCharges(s.book, s.access.policy, s.generation, c.key, c.plan, c.to, c.digest, c.session, c.expected, c.terminal)
            && ChargedLosses(s.book, c.terminal) == s.book.losses && Added(s.book.losses, c.terminal.value.census.rows) == 0
  {
    hide Inv, Sound, Projected, QuietCensus, CensusRisk, Added, NoRegression, ValidEntry, AccountOf, Units, Amount, Balanced, Bounded, EntriesSound,
         SoundEntry, TerminalProven, Stranded, LastEvent, Readable, Parseable, Get;
    var e, b := s.book.entries[key], s.book;
    var policy := Projected(s.access.policy.value).value;
    InvParts(s);
    SoundParts(b);
    KeyOfSound(b, key);
    EntryTime(e);
    RecordedReadable(b, AccountOf(e));
    QuietProven(s, e);
    QuietProves(b, policy, LastEvent(e) + 1);
    QuietAddsNothing(b, policy, LastEvent(e) + 1);
    UnitsOfAmount(Get(b.losses, AccountOf(e)));
    ReadableSequence(b);
    EntriesNumber(b, key);
    PlanIsHex(e);
    assert Hex(PROOF);
    QuietParts(s, e);
    ReleaseAllowed(e);
  }

  lemma ReleaseAllowed(e: Entry)
    ensures !e.state.Released? ==> Allowed(e.state, Released)
  {
  }

  lemma QuietParts(s: State, e: Entry)
    requires s.access.policy.Some? && Projected(s.access.policy.value).Some?
    ensures var t := QuietProof(s, e);
            && t.census == QuietCensus(s.book, Projected(s.access.policy.value).value, LastEvent(e) + 1) && t.now == LastEvent(e) + 1
            && t.ledger.loss == Amount(Get(s.book.losses, AccountOf(e)))
  {
    hide QuietCensus, Projected, Amount, AccountOf, LastEvent;
  }

  lemma EntriesNumber(b: Book, key: string)
    requires b.meta.Some? && Bounded(b) && key in b.entries
    ensures b.meta.value.sequence >= 1
  {
    assert b.entries.Keys != {};
    assert |b.entries.Keys| > 0;
  }

  lemma PlanIsHex(e: Entry)
    requires ValidEntry(e)
    ensures Hex(e.order.plan)
  {
    hide Hex, KeyOf, Units;
  }

  lemma QuietReleases(s: State, key: string)
    requires Inv(s) && s.book.meta.Some? && Serviceable(s, key) && s.access.policy.Some? && Projected(s.access.policy.value).Some?
    requires var e := s.book.entries[key]; ValidEntry(e) && !e.state.Released? && !Stranded(e)
    ensures RiskOutcome(s, QuietRelease(s, key)).reply.Updated?
    ensures key in RiskOutcome(s, QuietRelease(s, key)).book.entries && RiskOutcome(s, QuietRelease(s, key)).book.entries[key].state.Released?
  {
    hide Inv, Sound, Registered, Resolve, TerminalCharges, ReleaseCharged, TooMuch, Readable, ChargeCensus, ValidEntry, Projected, QuietProof, Stranded, LastEvent,
         ChargedLosses, Added, CensusRisk, MovedTo, TerminalAnswer, MovedEntry, Safe;
    QuietCharges(s, key);
    InvParts(s);
    RegisteredAt(s);
    var b, c := s.book, QuietRelease(s, key);
    ResolveThrowsExactly(b, s.access.policy, s.generation, c.key, c.plan, c.to, c.digest, c.session, c.expected, c.terminal);
    NotTooMuch(b, c.terminal.value.census);
    TerminalAnswers(b, s.access.policy, s.generation, c.key, c.plan, c.to, c.digest, c.session, c.expected, c.terminal);
    ResolveSafe(b, s.access.policy, s.generation, c.key, c.plan, c.to, c.digest, c.session, c.expected, c.terminal);
    MovedThere(b, key, Released, c.digest, RiskOutcome(s, c));
    MovedState(b.entries[key], Released, c.digest);
  }

  lemma MovedState(e: Entry, to: EntryState, digest: string)
    ensures MovedEntry(e, to, digest).state == to
  {
  }

  lemma NotTooMuch(b: Book, c: Census)
    requires Readable(b) && Added(b.losses, c.rows) == 0
    ensures !TooMuch(b, c)
  {
    hide Added, Sum;
  }

  /** A release that nothing refuses is not refused. */
  lemma TerminalAnswers(b: Book, access: Option<Policy>, generation: int, key: string, plan: string, to: EntryState, digest: string, session: int, expected: int, terminal: Option<TerminalProof>)
    requires Sound(b) && TerminalCharges(b, access, generation, key, plan, to, digest, session, expected, terminal)
    ensures var out := Resolve(b, access, generation, key, plan, to, digest, session, expected, terminal); out.reply.Updated? || out.reply.Thrown?
  {
    hide Sound, Resolve, TerminalCharges, TerminalAccepted, ReleaseCharged, Readable, ChargeCensus, NoRegression, ValidEntry, CensusRisk, Projected, ChargedLosses, AccountOf,
         Units, Parseable, Hex, Allowed, Overflows, TooMuch;
    TerminalParts(b, access, generation, key, plan, to, digest, session, expected, terminal);
    TerminalCase(b, access, generation, key, plan, to, digest, session, expected, terminal);
    ReadableSequence(b);
    ChargeOverflows(b, terminal.value.census);
    OverflowIs(b, terminal.value.census);
    CensusReadable(b, access, key, terminal);
    ChargedLossesAre(b, terminal);
    RecordAnswers(b, ChargeCensus(b, terminal.value.census).value, b.entries[key], digest, terminal.value);
  }

  lemma RecordAnswers(before: Book, b: Book, e: Entry, digest: string, t: TerminalProof)
    requires b.meta.Some? && Parseable(Get(b.losses, AccountOf(e))) && Get(b.losses, AccountOf(e)) <= Units(t.ledger.loss).GetOr(0)
    ensures var out := ReleaseCharged(before, b, e, digest, t); out.reply.Updated? || out.reply.Thrown?
  {
    hide AccountOf, Units, LedgerRelease, Parseable;
  }

  // ---------- exactly ----------

  ghost predicate ReleasedBy(s: State, c: Command, key: string) {
    && key in s.book.entries && !s.book.entries[key].state.Released?
    && key in Step(s, c).0.book.entries && Step(s, c).0.book.entries[key].state.Released?
  }

  /** Some command releases an entry exactly when it is still valid and was posted or is still held: an entry posted at its creation time and
      one that is unknown or open without a post can never be released. */
  lemma ReleasableExactly(s: State, key: string)
    requires Inv(s) && Serviceable(s, key)
    ensures var e := s.book.entries[key];
            (exists c :: ReleasedBy(s, c, key)) <==> !e.state.Released? && ValidEntry(e) && !Stranded(e)
  {
    hide Inv, Step, ValidEntry, Stranded, QuietRelease, Readable, RiskOutcome, Projected, LastEvent;
    EntriesNeedBook(s, key);
    ProjectedAtInv(s);
    var e := s.book.entries[key];
    if !e.state.Released? && ValidEntry(e) && !Stranded(e) {
      QuietReleases(s, key);
      QuietIsResolution(s, key);
      StepRisk(s, QuietRelease(s, key));
      assert ReleasedBy(s, QuietRelease(s, key), key);
    }
    if c :| ReleasedBy(s, c, key) {
      ReleasedWasOrdinary(s, c, key);
    }
  }

  lemma QuietIsResolution(s: State, key: string)
    requires key in s.book.entries && s.book.meta.Some? && s.access.policy.Some? && Projected(s.access.policy.value).Some?
    ensures IsRisk(QuietRelease(s, key)) && QuietRelease(s, key).ResolveRisk?
  {
    hide QuietProof, Projected;
  }

  lemma ReleasedWasOrdinary(s: State, c: Command, key: string)
    requires Inv(s) && ReleasedBy(s, c, key)
    ensures ValidEntry(s.book.entries[key]) && !Stranded(s.book.entries[key])
  {
    hide Inv, Step, ValidButClock, LawfulRelease, EntriesSound, Balanced, Bounded, Sound;
    StepReleases(s, c, key);
    LawfulNotStranded(s, c, s.book.entries[key]);
    EntriesNeedBook(s, key);
    InvParts(s);
    SoundParts(s.book);
    KeyOfSound(s.book, key);
    if Frozen(s.book.entries[key]) {
      FrozenStep(s, c, key);
    }
  }

  lemma LawfulNotStranded(s: State, c: Command, e: Entry)
    requires LawfulRelease(s, c, e)
    ensures !Stranded(e)
  {
  }
}
