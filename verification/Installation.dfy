/** The whole stored state of one installation, and every command that may reach it, one transaction each. */
module Installation {
  import opened Options
  import opened Amounts
  import opened RiskKeys
  import opened Governance
  import opened Sums
  import opened GovernanceStore
  import opened RiskBook
  import opened Conservation
  import opened Progress
  import opened Commands
  import opened Posting

  datatype CampaignBody = CampaignBody(key: string, limit: string, expected: int)

  datatype InstallBody = InstallBody(operation: string, release: string, configuration: Policy)

  datatype State = State(
    generation: int,
    access: Access,
    campaignOperations: map<string, Receipt<CampaignBody>>,
    installOperations: map<string, Receipt<InstallBody>>,
    released: bool,
    book: Book)

  const EMPTY := State(0, Access(None, map[]), map[], map[], false, NO_BOOK)

  datatype Command =
    | AcceptRuntime
    | Install(body: InstallBody)
    | Govern(request: Request)
    | LowerCampaign(campaign: CampaignBody)
    | ReserveRisk(policy: RiskPolicy, census: Census, order: Order, now: int, native: Option<Evidence>)
    | BeginRiskPost(key: string, plan: string, revision: int, digest: string, post: Option<PostProof>)
    | ResolveRisk(key: string, plan: string, to: EntryState, digest: string, session: int, expected: int, terminal: Option<TerminalProof>)
    | ReleaseUnsentRisk(key: string, plan: string, expected: int, session: int, proof: UnsentProof)

  datatype Output = Session(generation: int) | Governed(answer: Answer) | Risk(reply: Reply)

  // ---------- installation and campaign ----------

  function InstallTransaction(s: State, body: InstallBody): (State, Answer) {
    if body.operation in s.installOperations then
      (s, if s.installOperations[body.operation].body == body then s.installOperations[body.operation].answer else Failed(Failure.IdempotencyConflict))
    else if s.access.policy.Some? || s.book.meta.Some? || s.released then (s, Failed(AlreadyInitialized))
    else
      var answer := Configured(body.configuration);
      (s.(access := s.access.(policy := Some(body.configuration)), book := InitialBook(s.book, body.configuration.installationId),
          installOperations := s.installOperations[body.operation := Receipt(body, answer)], released := true), answer)
  }

  /** Installation starts at revision 0 with no account and the campaign limit "10". */
  predicate Installable(body: InstallBody) {
    && Hex(body.release) && Token(body.operation) && body.configuration.campaignLimit == "10"
    && ValidPolicy(body.configuration) && body.configuration.revision == 0 && |body.configuration.accounts| == 0
  }

  function InstallStep(s: State, body: InstallBody): (State, Answer) {
    if !Installable(body) then (s, Failed(InvalidInstallation)) else InstallTransaction(s, body)
  }

  predicate CampaignWellFormed(body: CampaignBody) {
    SafeInt(body.expected) && Token(body.key) && Positive(body.limit)
  }

  ghost function CampaignTransaction(s: State, body: CampaignBody): (State, Answer) {
    if body.key in s.campaignOperations then
      (s, if s.campaignOperations[body.key].body == body then s.campaignOperations[body.key].answer else Failed(Failure.IdempotencyConflict))
    else if s.access.policy.None? || !ValidPolicy(s.access.policy.value) then (s, Failed(AccessMissingOrCorrupt))
    else
      var p := s.access.policy.value;
      var next := p.(revision := p.revision + 1, campaignLimit := body.limit);
      if p.revision != body.expected then (s, Failed(StaleRevision))
      else if Units(body.limit).GetOr(0) >= Units(p.campaignLimit).GetOr(0) then (s, Failed(CampaignMustDecrease))
      else if !ValidPolicy(next) || LowerRiskBookLimit(s.book, body.limit).None? then (s, Failed(CampaignBelowRisk))
      else
        var answer := CampaignLowered(next, p.campaignLimit, body.limit);
        (s.(access := s.access.(policy := Some(next)), book := LowerRiskBookLimit(s.book, body.limit).value,
            campaignOperations := s.campaignOperations[body.key := Receipt(body, answer)]), answer)
  }

  ghost function CampaignStep(s: State, body: CampaignBody): (State, Answer) {
    if !CampaignWellFormed(body) then (s, Failed(InvalidCampaignRequest)) else CampaignTransaction(s, body)
  }

  // ---------- one step ----------

  /** The ledger part of a command. */
  ghost function RiskOutcome(s: State, c: Command): Outcome
    requires c.ReserveRisk? || c.BeginRiskPost? || c.ResolveRisk? || c.ReleaseUnsentRisk?
  {
    match c
    case ReserveRisk(policy, census, order, now, native) => Reserve(s.book, s.access.policy, s.generation, policy, census, order, now, native)
    case BeginRiskPost(key, plan, revision, digest, post) => BeginPost(s.book, s.access.policy, s.generation, key, plan, revision, digest, post)
    case ResolveRisk(key, plan, to, digest, session, expected, terminal) => Resolve(s.book, s.access.policy, s.generation, key, plan, to, digest, session, expected, terminal)
    case ReleaseUnsentRisk(key, plan, expected, session, proof) => ReleaseUnsent(s.book, s.access.policy, s.generation, key, plan, expected, session, proof)
  }

  ghost function Step(s: State, c: Command): (State, Output) {
    match c
    case AcceptRuntime => (s.(generation := NextSequence(s.generation)), Session(NextSequence(s.generation)))
    case Install(body) => (InstallStep(s, body).0, Governed(InstallStep(s, body).1))
    case Govern(request) => (s.(access := Mutate(s.access, request).0), Governed(Mutate(s.access, request).1))
    case LowerCampaign(body) => (CampaignStep(s, body).0, Governed(CampaignStep(s, body).1))
    case _ => (s.(book := RiskOutcome(s, c).book), Risk(RiskOutcome(s, c).reply))
  }

  // ---------- the invariant ----------

  /** Each entry was made under a policy no newer than the stored one; under that very revision its account still trades. */
  ghost predicate EntryCurrent(e: Entry, p: Policy) {
    && e.order.revision <= p.revision
    && (e.order.revision == p.revision ==> exists a :: a in p.accounts && Grants(a, e.order))
  }

  ghost predicate EntriesCurrent(b: Book, p: Policy) {
    forall k :: k in b.entries ==> EntryCurrent(b.entries[k], p)
  }

  /** The policy and the book of one installation fit each other. */
  ghost predicate Paired(p: Policy, b: Book) {
    && b.meta.Some?
    && ValidPolicy(p) && AllVerified(p)
    && Registered(b, p)
    && Units(p.campaignLimit) == Some(b.meta.value.campaignUsd)
    && p.installationId == b.meta.value.installationId
    && EntriesCurrent(b, p)
  }

  ghost predicate Inv(s: State) {
    && Sound(s.book)
    && (s.access.policy.Some? <==> s.book.meta.Some?)
    && (s.access.policy.Some? ==> Paired(s.access.policy.value, s.book))
  }

  lemma EmptyInv()
    ensures Inv(EMPTY)
  {
  }

  // ---------- installing, governing, lowering ----------

  lemma TenUnits()
    ensures Units("10") == Some(INITIAL_CAMPAIGN)
  {
    var s := "10";
    assert IndexOf(s[1..], '.') == 1;
    assert IndexOf(s, '.') == 2;
    assert s[..2] == s;
    assert DigitsValue("10") == 10 by {
      assert "10"[..1] == "1";
      assert "1"[..0] == "";
    }
    DigitsValueZeros(9);
    assert PadEnd("", 9) == Zeros(9);
  }

  lemma InstallInv(s: State, body: InstallBody)
    requires Inv(s)
    ensures Inv(InstallStep(s, body).0)
    ensures Forward(s.book, InstallStep(s, body).0.book)
  {
    hide Sound, ValidAccount, Units, Forward;
    ForwardSelf(s.book);
    var after := InstallStep(s, body).0;
    if after != s {
      TenUnits();
      NoBookYet(s);
      InitialSound(body.configuration.installationId);
      NothingForward(s.book, after.book);
    }
  }

  lemma NoBookYet(s: State)
    requires Inv(s) && s.book.meta.None?
    ensures s.book == NO_BOOK
  {
  }

  lemma NothingForward(b: Book, c: Book)
    requires b.meta.None?
    ensures Forward(b, c)
  {
  }

  lemma RealKeysOfIdentities(p: Policy, q: Policy)
    requires Identities(p) <= Identities(q)
    ensures RealKeys(p.accounts) <= RealKeys(q.accounts)
  {
    forall k | k in RealKeys(p.accounts) ensures k in RealKeys(q.accounts) {
      var a :| a in p.accounts && a.environment.Real? && a.accountKey == k;
      assert IdentityOf(a) in Identities(q);
      var b :| b in q.accounts && IdentityOf(b) == IdentityOf(a);
    }
  }

  lemma SucceedsPaired(p: Policy, q: Policy, b: Book)
    requires Paired(p, b) && Succeeds(p, q) && q.campaignLimit == p.campaignLimit
    ensures Paired(q, b)
  {
    hide ValidPolicy, Identities, RealKeys, Units, Grants;
    RealKeysOfIdentities(p, q);
  }

  lemma GovernInv(s: State, r: Request)
    requires Inv(s)
    ensures Inv(s.(access := Mutate(s.access, r).0))
    ensures s.access.policy.Some? ==> Mutate(s.access, r).0.policy.Some? && Succeeds(s.access.policy.value, Mutate(s.access, r).0.policy.value)
  {
    hide Sound, ValidPolicy, Mutate, ChangeOf, Succeeds, Paired;
    MutatedPolicy(s.access, r);
    if s.access.policy.Some? {
      var p := s.access.policy.value;
      PairedValid(p, s.book);
      SucceedsSelf(p);
      if Mutate(s.access, r).0.policy != s.access.policy {
        ChangeSucceeds(p, r);
        SucceedsPaired(p, ChangeOf(p, r).next, s.book);
      }
    }
  }

  /** A mutation leaves the policy alone, or stores what its writer made of it. */
  lemma MutatedPolicy(s: Access, r: Request)
    ensures var t := Mutate(s, r).0;
            || t.policy == s.policy
            || (s.policy.Some? && ValidPolicy(s.policy.value) && ChangeOf(s.policy.value, r).Changed? && t.policy == Some(ChangeOf(s.policy.value, r).next))
  {
    hide ValidPolicy, Malformed, Token, ChangeOf;
  }

  lemma PairedValid(p: Policy, b: Book)
    requires Paired(p, b)
    ensures ValidPolicy(p) && Registered(b, p) && b.meta.Some?
  {
    hide ValidPolicy;
  }

  lemma SucceedsSelf(p: Policy)
    requires ValidPolicy(p)
    ensures Succeeds(p, p)
  {
    hide ValidPolicy;
  }

  lemma LoweredPaired(p: Policy, q: Policy, b: Book, limit: string)
    requires Paired(p, b) && ValidPolicy(q) && q == p.(revision := p.revision + 1, campaignLimit := limit)
    requires LoweredLimit(b, limit).Some?
    ensures Paired(q, LoweredLimit(b, limit).value) && Succeeds(p, q)
  {
    hide ValidPolicy, RealKeys, Units, Grants;
  }

  lemma CampaignInv(s: State, body: CampaignBody)
    requires Inv(s)
    ensures Inv(CampaignStep(s, body).0)
    ensures Forward(s.book, CampaignStep(s, body).0.book)
    ensures s.access.policy.Some? ==> CampaignStep(s, body).0.access.policy.Some? && Succeeds(s.access.policy.value, CampaignStep(s, body).0.access.policy.value)
  {
    hide Sound, ValidPolicy, Units, Token, Succeeds, LoweredLimit, Forward, ValidMeta, Positive;
    ForwardSelf(s.book);
    if s.access.policy.Some? {
      var p := s.access.policy.value;
      PairedValid(p, s.book);
      SucceedsSelf(p);
      var after := CampaignStep(s, body).0;
      if after != s {
        LoweredPaired(p, p.(revision := p.revision + 1, campaignLimit := body.limit), s.book, body.limit);
        LowerSound(s.book, body.limit);
        LowerForward(s.book, body.limit);
      }
    }
  }

  // ---------- ledger commands ----------

  /** The orders on the book afterwards are the ones before, but for one fresh order the policy allows. */
  lemma CurrentKept(b: Book, c: Book, p: Policy)
    requires EntriesCurrent(b, p) && EntriesLater(b, c) && c.entries.Keys == b.entries.Keys
    ensures EntriesCurrent(c, p)
  {
    hide Grants;
  }

  lemma CurrentAdded(b: Book, c: Book, p: Policy, key: string)
    requires EntriesCurrent(b, p) && EntriesLater(b, c) && c.entries.Keys == b.entries.Keys + {key}
    requires key in b.entries || EntryCurrent(c.entries[key], p)
    ensures EntriesCurrent(c, p)
  {
    hide Grants;
  }

  lemma AllowsIsGranted(p: Policy, after: Book, o: Order)
    requires exists account :: AccountAllows(p, account, after, o)
    ensures exists account :: account in p.accounts && Grants(account, o)
  {
    hide Trading, AccountKey, StrategyCap, Units;
    var account :| AccountAllows(p, account, after, o);
    assert account in p.accounts && Grants(account, o);
  }

  lemma HeldCurrent(b: Book, p: Policy, policy: RiskPolicy, c: Census, o: Order, now: int, out: Outcome)
    requires HeldMeaning(b, p, policy, c, o, now, out)
    ensures KeyOf(o) in out.book.entries
    ensures KeyOf(o) in b.entries || EntryCurrent(out.book.entries[KeyOf(o)], p)
  {
    hide Grants, AccountAllows, ValidPolicy, Authoritative, WithinCaps, KeyOf, NewEntry;
    if KeyOf(o) !in b.entries {
      AllowsIsGranted(p, out.book, o);
    }
  }

  /** The limits of the book, which no ledger command touches. */
  ghost predicate SameTerms(b: Book, c: Book) {
    b.meta.Some? ==> c.meta.Some? && c.meta.value.campaignUsd == b.meta.value.campaignUsd && c.meta.value.installationId == b.meta.value.installationId
  }

  lemma SaveTerms(b: Book, e: Entry, delta: int)
    requires b.meta.Some? && SaveEntry(b, e, delta).Some?
    ensures SameTerms(b, SaveEntry(b, e, delta).value)
  {
    hide Usd, AccountOf, StrategyOf, NextRecord;
  }

  lemma ChargeTerms(b: Book, c: Census)
    requires b.meta.Some? && ChargeCensus(b, c).Some?
    ensures SameTerms(b, ChargeCensus(b, c).value)
  {
    hide NoRegression, Added, Raised;
  }

  lemma ReserveTerms(b: Book, access: Option<Policy>, generation: int, policy: RiskPolicy, c: Census, o: Order, now: int, native: Option<Evidence>)
    ensures SameTerms(b, Reserve(b, access, generation, policy, c, o, now, native).book)
  {
    hide ReserveArguments, ValidPolicy, Authoritative, ValidMeta, KeyOf, ChargeCensus, SaveEntry, Admission, Replay, External, Units, NewEntry;
    if b.meta.Some? && ChargeCensus(b, c).Some? {
      var d := ChargeCensus(b, c).value;
      ChargeTerms(b, c);
      if SaveEntry(d, NewEntry(o, c, now), Units(o.lossUsdt).GetOr(0)).Some? {
        SaveTerms(d, NewEntry(o, c, now), Units(o.lossUsdt).GetOr(0));
      }
    }
  }

  lemma PostTerms(b: Book, access: Option<Policy>, generation: int, key: string, plan: string, revision: int, digest: string, native: Option<PostProof>)
    ensures SameTerms(b, BeginPost(b, access, generation, key, plan, revision, digest, native).book)
  {
    hide PostArguments, ValidPolicy, Projected, CensusRisk, ValidMeta, ChargeCensus, SaveEntry, PostAdmission, External, Usdt, HeldExactly, PostedEntry;
    if native.Some? && b.meta.Some? && ChargeCensus(b, native.value.census).Some? {
      var d := ChargeCensus(b, native.value.census).value;
      ChargeTerms(b, native.value.census);
      if key in d.entries && SaveEntry(d, PostedEntry(d.entries[key], native.value.now, digest), 0).Some? {
        SaveTerms(d, PostedEntry(d.entries[key], native.value.now, digest), 0);
      }
      HeldKey(d, key, plan, revision);
    }
  }

  lemma HeldKey(b: Book, key: string, plan: string, revision: int)
    ensures HeldExactly(b, key, plan, revision) ==> key in b.entries
  {
    hide ValidEntry;
  }

  lemma ReleaseTerms(before: Book, b: Book, e: Entry, digest: string, t: TerminalProof)
    requires b.meta.Some? && SameTerms(before, b)
    ensures SameTerms(before, ReleaseCharged(before, b, e, digest, t).book)
  {
    hide SaveEntry, Units, AccountOf, Usdt, MovedEntry;
    var loss := Units(t.ledger.loss).GetOr(0);
    if Get(b.losses, AccountOf(e)) <= loss && LedgerRelease(b, e, digest, loss).Some? {
      SaveTerms(ChargeLedger(b, AccountOf(e), loss), MovedEntry(e, Released, digest), 0 - Usdt(e));
    }
  }

  lemma ResolveTerms(b: Book, access: Option<Policy>, generation: int, key: string, plan: string, to: EntryState, digest: string, session: int, expected: int, terminal: Option<TerminalProof>)
    ensures SameTerms(b, Resolve(b, access, generation, key, plan, to, digest, session, expected, terminal).book)
  {
    hide Hex, ValidMeta, ValidEntry, TerminalProven, Projected, CensusRisk, ChargeCensus, SaveEntry, ReleaseCharged, MovedEntry, Allowed;
    if b.meta.Some? && key in b.entries {
      var e := b.entries[key];
      if SaveEntry(b, MovedEntry(e, to, digest), 0).Some? {
        SaveTerms(b, MovedEntry(e, to, digest), 0);
      }
      if terminal.Some? && ChargeCensus(b, terminal.value.census).Some? {
        ChargeTerms(b, terminal.value.census);
        ReleaseTerms(b, ChargeCensus(b, terminal.value.census).value, e, digest, terminal.value);
      }
    }
  }

  lemma UnsentTerms(b: Book, access: Option<Policy>, generation: int, key: string, plan: string, expected: int, session: int, proof: UnsentProof)
    ensures SameTerms(b, ReleaseUnsent(b, access, generation, key, plan, expected, session, proof).book)
  {
    hide UnsentArguments, ValidMeta, UnsentMatches, SaveEntry, MovedEntry, Usdt, ValidPolicy;
    if b.meta.Some? && key in b.entries {
      var e := b.entries[key];
      if SaveEntry(b, MovedEntry(e, Released, proof.digest), 0 - Usdt(e)).Some? {
        SaveTerms(b, MovedEntry(e, Released, proof.digest), 0 - Usdt(e));
      }
    }
  }

  lemma SaveEntries(b: Book, e: Entry, delta: int)
    requires b.meta.Some? && SaveEntry(b, e, delta).Some?
    ensures SaveEntry(b, e, delta).value.entries == b.entries[e.key := e]
  {
    hide Usd, AccountOf, StrategyOf, NextRecord;
  }

  lemma ChargeEntries(b: Book, c: Census)
    requires b.meta.Some? && ChargeCensus(b, c).Some?
    ensures ChargeCensus(b, c).value.entries == b.entries && ChargeCensus(b, c).value.fences == b.fences
  {
    hide NoRegression, Added, Raised;
  }

  /** A reservation adds its own entry, with a held reply, or leaves the entries alone. */
  lemma ReserveEntries(b: Book, access: Option<Policy>, generation: int, policy: RiskPolicy, c: Census, o: Order, now: int, native: Option<Evidence>)
    ensures var out := Reserve(b, access, generation, policy, c, o, now, native);
            || out.book.entries == b.entries
            || (out.reply.HeldReply? && KeyOf(o) !in b.entries && out.book.entries == b.entries[KeyOf(o) := NewEntry(o, c, now)])
  {
    hide ReserveArguments, ValidPolicy, Authoritative, ValidMeta, KeyOf, ChargeCensus, SaveEntry, Admission, Replay, External, Units;
    if b.meta.Some? && ChargeCensus(b, c).Some? {
      var d := ChargeCensus(b, c).value;
      ChargeEntries(b, c);
      if SaveEntry(d, NewEntry(o, c, now), Units(o.lossUsdt).GetOr(0)).Some? {
        SaveEntries(d, NewEntry(o, c, now), Units(o.lossUsdt).GetOr(0));
      }
    }
  }

  lemma ReserveInv(b: Book, p: Policy, generation: int, policy: RiskPolicy, c: Census, o: Order, now: int, native: Option<Evidence>)
    requires Sound(b) && Paired(p, b)
    ensures var out := Reserve(b, Some(p), generation, policy, c, o, now, native);
            Sound(out.book) && Paired(p, out.book) && Forward(b, out.book)
  {
    hide Sound, ValidPolicy, RealKeys, Units, EntriesLater, FencesKept, Sequenced, Reserve, HeldMeaning, EntryCurrent, Overflows, KeyOf, NewEntry;
    ReserveSafe(b, Some(p), generation, policy, c, o, now, native);
    ReserveEntries(b, Some(p), generation, policy, c, o, now, native);
    var out := Reserve(b, Some(p), generation, policy, c, o, now, native);
    if out.book.entries == b.entries {
      SameEntriesCurrent(b, out.book, p);
    } else {
      HeldCurrent(b, p, policy, c, o, now, out);
      CurrentAdded(b, out.book, p, KeyOf(o));
    }
    ReserveTerms(b, Some(p), generation, policy, c, o, now, native);
  }

  lemma SameEntriesCurrent(b: Book, c: Book, p: Policy)
    requires EntriesCurrent(b, p) && c.entries == b.entries
    ensures EntriesCurrent(c, p)
  {
    hide EntryCurrent;
  }

  lemma PostEntries(b: Book, access: Option<Policy>, generation: int, key: string, plan: string, revision: int, digest: string, native: Option<PostProof>)
    ensures var out := BeginPost(b, access, generation, key, plan, revision, digest, native);
            || out.book.entries == b.entries
            || (out.reply.PostAuthorized? && key in b.entries && native.Some? && out.book.entries == b.entries[b.entries[key].key := PostedEntry(b.entries[key], native.value.now, digest)])
  {
    hide PostArguments, ValidPolicy, Projected, CensusRisk, ValidMeta, ChargeCensus, SaveEntry, PostAdmission, External, Usdt, HeldExactly;
    if native.Some? && b.meta.Some? && ChargeCensus(b, native.value.census).Some? {
      var d := ChargeCensus(b, native.value.census).value;
      ChargeEntries(b, native.value.census);
      HeldKey(d, key, plan, revision);
      if key in d.entries && SaveEntry(d, PostedEntry(d.entries[key], native.value.now, digest), 0).Some? {
        SaveEntries(d, PostedEntry(d.entries[key], native.value.now, digest), 0);
      }
    }
  }

  lemma PostInv(b: Book, p: Policy, generation: int, key: string, plan: string, revision: int, digest: string, native: Option<PostProof>)
    requires Sound(b) && Paired(p, b)
    ensures var out := BeginPost(b, Some(p), generation, key, plan, revision, digest, native);
            Sound(out.book) && Paired(p, out.book) && Forward(b, out.book) && out.book.entries.Keys == b.entries.Keys
  {
    hide Sound, Forward, Paired, Registered, SameTerms, BeginPost, PostMeaning, PostedEntry, Balanced, Bounded, EntriesSound, SoundEntry, KeyOf;
    PairedValid(p, b);
    BeginPostSafe(b, Some(p), generation, key, plan, revision, digest, native);
    PostEntries(b, Some(p), generation, key, plan, revision, digest, native);
    PostTerms(b, Some(p), generation, key, plan, revision, digest, native);
    var out := BeginPost(b, Some(p), generation, key, plan, revision, digest, native);
    if key in b.entries {
      SoundParts(b);
      KeyOfSound(b, key);
    }
    PairedKept(b, out.book, p);
  }

  /** A step that keeps the keys keeps policy and book fitting each other. */
  lemma PairedKept(b: Book, c: Book, p: Policy)
    requires Paired(p, b) && Registered(c, p) && SameTerms(b, c) && Forward(b, c) && c.entries.Keys == b.entries.Keys
    ensures Paired(p, c)
  {
    hide ValidPolicy, AllVerified, Registered, Units, EntryCurrent, EntriesLater, FencesKept, Sequenced, EntriesCurrent;
    EntriesCurrentOf(p, b);
    CurrentKept(b, c, p);
  }

  lemma EntriesCurrentOf(p: Policy, b: Book)
    requires Paired(p, b)
    ensures EntriesCurrent(b, p)
  {
    hide ValidPolicy, AllVerified, Registered, Units, EntryCurrent;
  }

  lemma ResolveInv(b: Book, p: Policy, generation: int, key: string, plan: string, to: EntryState, digest: string, session: int, expected: int, terminal: Option<TerminalProof>)
    requires Sound(b) && Paired(p, b)
    ensures var out := Resolve(b, Some(p), generation, key, plan, to, digest, session, expected, terminal);
            Sound(out.book) && Paired(p, out.book) && Forward(b, out.book) && out.book.entries.Keys == b.entries.Keys
  {
    hide Sound, Forward, Paired, Registered, SameTerms, Resolve, MovedEntry, TerminalAnswer, Allowed, Overflows;
    PairedValid(p, b);
    ResolveSafe(b, Some(p), generation, key, plan, to, digest, session, expected, terminal);
    ResolveTerms(b, Some(p), generation, key, plan, to, digest, session, expected, terminal);
    var out := Resolve(b, Some(p), generation, key, plan, to, digest, session, expected, terminal);
    PairedKept(b, out.book, p);
  }

  lemma UnsentInv(b: Book, p: Policy, generation: int, key: string, plan: string, expected: int, session: int, proof: UnsentProof)
    requires Sound(b) && Paired(p, b)
    ensures var out := ReleaseUnsent(b, Some(p), generation, key, plan, expected, session, proof);
            Sound(out.book) && Paired(p, out.book) && Forward(b, out.book) && out.book.entries.Keys == b.entries.Keys
  {
    hide Sound, Forward, Paired, Registered, SameTerms, ReleaseUnsent, MovedEntry, Retired;
    PairedValid(p, b);
    ReleaseUnsentSafe(b, Some(p), generation, key, plan, expected, session, proof);
    UnsentTerms(b, Some(p), generation, key, plan, expected, session, proof);
    var out := ReleaseUnsent(b, Some(p), generation, key, plan, expected, session, proof);
    PairedKept(b, out.book, p);
  }
}
