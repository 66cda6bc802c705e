/** Losses are recorded for registered real accounts only, and what that says about a book of few accounts. */
module LossOwners {
  import opened Options
  import opened Amounts
  import opened RiskKeys
  import opened Collections
  import opened Governance
  import opened Sums
  import opened GovernanceStore
  import opened RiskBook
  import opened Conservation
  import opened Progress
  import opened Commands
  import opened Posting
  import opened Installation
  import opened Runs
  import opened RunTheorems
  import opened CampaignRuns
  import opened Throws
  import opened Readability

  ghost predicate OwnLosses(b: Book, p: Policy) {
    b.losses.Keys <= RealKeys(p.accounts)
  }

  /** Every account with a recorded loss is a registered real one. */
  ghost predicate LossesOwned(s: State) {
    if s.access.policy.Some? then OwnLosses(s.book, s.access.policy.value) else s.book == NO_BOOK
  }

  // ---------- a census ----------

  lemma {:induction false} RaisedKeys<K>(m: map<K, nat>, keys: seq<K>, values: seq<nat>)
    requires |keys| == |values|
    ensures RaiseAll(m, keys, values).Keys <= m.Keys + Elements(keys)
  {
    if |keys| > 0 {
      RaisedKeys(m, keys[..|keys| - 1], values[..|keys| - 1]);
    }
  }

  lemma CensusAccounts(c: Census, policy: RiskPolicy, now: int, causal: bool)
    requires CensusRisk(c, policy, now, causal).Some?
    ensures Elements(RowAccounts(c.rows)) == policy.accountLimits.Keys
  {
    hide CensusRisk, External, RowAccounts;
    ProvenCensus(c, policy, now, causal);
    ExternalKeys(c.rows);
  }

  lemma ChargedOwned(b: Book, p: Policy, c: Census, policy: RiskPolicy, now: int, causal: bool)
    requires OwnLosses(b, p) && b.meta.Some? && ChargeCensus(b, c).Some?
    requires CensusRisk(c, policy, now, causal).Some? && policy.accountLimits.Keys == RealKeys(p.accounts)
    ensures OwnLosses(ChargeCensus(b, c).value, p)
  {
    hide RealKeys, CensusRisk, NoRegression, RowAccounts, RowLosses, RaiseAll, Excess;
    CensusAccounts(c, policy, now, causal);
    RaisedKeys(b.losses, RowAccounts(c.rows), RowLosses(c.rows));
  }

  // ---------- the commands ----------

  lemma ReserveOwned(b: Book, p: Policy, generation: int, policy: RiskPolicy, c: Census, o: Order, now: int, native: Option<Evidence>)
    requires OwnLosses(b, p)
    ensures OwnLosses(Reserve(b, Some(p), generation, policy, c, o, now, native).book, p)
  {
    hide Reserve, RealKeys, CensusRisk, ChargeCensus, ReserveCharges, Readable;
    ReserveLosses(b, Some(p), generation, policy, c, o, now, native);
    ReserveRefused(b, Some(p), generation, policy, c, o, now, native);
    if ReserveCharges(b, Some(p), generation, policy, c, o, now, native) && b.meta.Some? && ChargeCensus(b, c).Some? {
      ChargeReadable(b, Some(p), generation, policy, c, o, now, native);
      ReserveAuthority(b, p, generation, policy, c, o, now, native);
      ChargedOwned(b, p, c, policy, now, false);
    }
  }

  lemma ReserveAuthority(b: Book, p: Policy, generation: int, policy: RiskPolicy, c: Census, o: Order, now: int, native: Option<Evidence>)
    requires ReserveCharges(b, Some(p), generation, policy, c, o, now, native)
    ensures policy.accountLimits.Keys == RealKeys(p.accounts)
  {
    hide ReserveArguments, ValidPolicy, Authoritative, ValidMeta, NoRegression, KeyOf, RealKeys;
    AuthoritativeFacts(p, policy);
  }

  lemma PostOwned(b: Book, p: Policy, generation: int, key: string, plan: string, revision: int, digest: string, native: Option<PostProof>)
    requires OwnLosses(b, p)
    ensures OwnLosses(BeginPost(b, Some(p), generation, key, plan, revision, digest, native).book, p)
  {
    hide BeginPost, RealKeys, CensusRisk, ChargeCensus, PostCharges, Projected, PostCharged, Hex;
    PostLosses(b, Some(p), generation, key, plan, revision, digest, native);
    PostCase(b, Some(p), generation, key, plan, revision, digest, native);
    if PostCharges(b, Some(p), generation, key, plan, revision, digest, native) {
      PostAuthority(b, p, generation, key, plan, revision, digest, native);
      ChargedOwned(b, p, native.value.census, Projected(p).value, native.value.now, true);
    }
  }

  lemma PostAuthority(b: Book, p: Policy, generation: int, key: string, plan: string, revision: int, digest: string, native: Option<PostProof>)
    requires PostCharges(b, Some(p), generation, key, plan, revision, digest, native)
    ensures Projected(p).Some? && Projected(p).value.accountLimits.Keys == RealKeys(p.accounts)
  {
    hide PostArguments, ValidPolicy, Projected, CensusRisk, ValidMeta, NoRegression, RealKeys;
    ProjectedFacts(p);
  }

  lemma ResolveOwned(b: Book, p: Policy, generation: int, key: string, plan: string, to: EntryState, digest: string, session: int, expected: int, terminal: Option<TerminalProof>)
    requires OwnLosses(b, p) && Sound(b) && Registered(b, p) && ValidPolicy(p)
    ensures OwnLosses(Resolve(b, Some(p), generation, key, plan, to, digest, session, expected, terminal).book, p)
  {
    hide Resolve, RealKeys, CensusRisk, ChargeCensus, ResolveMoves, TerminalAccepted, Projected, Hex, MoveEntry, Readable, Resolvable, Sound, Registered, AccountOf, Units,
         TerminalCharges, ValidPolicy;
    ResolveLosses(b, Some(p), generation, key, plan, to, digest, session, expected, terminal);
    ResolveCase(b, Some(p), generation, key, plan, to, digest, session, expected, terminal);
    if ResolveMoves(b, generation, key, plan, to, digest, session, expected) {
      MoveLosses(b, b.entries[key], to, digest);
    } else if TerminalAccepted(b, Some(p), generation, key, plan, to, digest, session, expected, terminal) {
      AcceptedParts(b, Some(p), generation, key, plan, to, digest, session, expected, terminal);
      AcceptedAccount(b, p, generation, key, plan, to, digest, session, expected, terminal);
      TerminalCase(b, Some(p), generation, key, plan, to, digest, session, expected, terminal);
      ProjectedFacts(p);
      ChargedOwned(b, p, terminal.value.census, Projected(p).value, terminal.value.now, false);
    }
  }

  lemma MoveLosses(b: Book, e: Entry, to: EntryState, digest: string)
    requires b.meta.Some?
    ensures MoveEntry(b, e, to, digest).book.losses == b.losses
  {
    hide SaveEntry, MovedEntry;
    if SaveEntry(b, MovedEntry(e, to, digest), 0).Some? {
      SaveLosses(b, MovedEntry(e, to, digest), 0);
    }
  }

  /** What a terminal release returns was occupied in a registered account. */
  lemma AcceptedAccount(b: Book, p: Policy, generation: int, key: string, plan: string, to: EntryState, digest: string, session: int, expected: int, terminal: Option<TerminalProof>)
    requires Sound(b) && Registered(b, p)
    requires TerminalAccepted(b, Some(p), generation, key, plan, to, digest, session, expected, terminal)
    ensures key in b.entries && AccountOf(b.entries[key]) in RealKeys(p.accounts)
  {
    hide Hex, ValidMeta, ValidEntry, TerminalProven, Projected, CensusRisk, NoRegression, RealKeys, AccountOf, Balanced, Bounded, EntriesSound;
    SoundParts(b);
    OccupyingAccount(b, key);
  }

  lemma UnsentOwned(b: Book, p: Policy, generation: int, key: string, plan: string, expected: int, session: int, proof: UnsentProof)
    requires OwnLosses(b, p) && Sound(b) && Registered(b, p)
    ensures OwnLosses(ReleaseUnsent(b, Some(p), generation, key, plan, expected, session, proof).book, p)
  {
    hide ReleaseUnsent, RealKeys, Sound, Registered, Forward, Retired, MovedTo;
    ReleaseUnsentSafe(b, Some(p), generation, key, plan, expected, session, proof);
  }

  // ---------- one step, every run ----------

  lemma RiskOwned(s: State, c: Command)
    requires Inv(s) && LossesOwned(s) && s.access.policy.Some? && IsRisk(c)
    ensures OwnLosses(RiskOutcome(s, c).book, s.access.policy.value)
  {
    hide Inv, Sound, Registered, Reserve, BeginPost, Resolve, ReleaseUnsent, OwnLosses, Paired, ValidPolicy;
    InvParts(s);
    RegisteredAt(s);
    var p := s.access.policy.value;
    PairedValid(p, s.book);
    match c {
      case ReserveRisk(policy, census, order, now, native) =>
        ReserveOwned(s.book, p, s.generation, policy, census, order, now, native);
      case BeginRiskPost(key, plan, revision, digest, post) =>
        PostOwned(s.book, p, s.generation, key, plan, revision, digest, post);
      case ResolveRisk(key, plan, to, digest, session, expected, terminal) =>
        ResolveOwned(s.book, p, s.generation, key, plan, to, digest, session, expected, terminal);
      case ReleaseUnsentRisk(key, plan, expected, session, proof) =>
        UnsentOwned(s.book, p, s.generation, key, plan, expected, session, proof);
    }
  }

  /** Whatever is not a ledger command records no loss, and unregisters no account. */
  lemma PolicyOwned(s: State, c: Command)
    requires Inv(s) && LossesOwned(s) && !IsRisk(c)
    ensures LossesOwned(Step(s, c).0)
  {
    hide Inv, Mutate, RealKeys, Forward, Identities, ValidPolicy, Units, Positive, CampaignWellFormed, Sound, Paired;
    StepInv(s, c);
    InvParts(s);
    if s.access.policy.Some? {
      RealKeysOfIdentities(s.access.policy.value, Step(s, c).0.access.policy.value);
      assert Step(s, c).0.book.losses == s.book.losses;
    } else {
      UninstalledMutation(s.access, c);
    }
  }

  lemma UninstalledMutation(s: Access, c: Command)
    requires s.policy.None?
    ensures c.Govern? ==> Mutate(s, c.request).0.policy.None?
  {
    hide ValidPolicy, Malformed, Token, ChangeOf;
    if c.Govern? {
      MutatedPolicy(s, c.request);
    }
  }

  lemma StepOwned(s: State, c: Command)
    requires Inv(s) && LossesOwned(s)
    ensures LossesOwned(Step(s, c).0)
  {
    hide Inv, RiskOutcome, OwnLosses, Mutate, InstallStep, CampaignStep;
    if !IsRisk(c) {
      PolicyOwned(s, c);
    } else if s.access.policy.Some? {
      RiskOwned(s, c);
    } else {
      NoBookNoRisk(s, c);
    }
  }

  /** In every reachable state losses are recorded for registered real accounts only. */
  lemma {:induction false} RunOwned(r: Run, i: nat)
    requires IsRun(r) && i < |r.states|
    ensures LossesOwned(r.states[i])
  {
    hide Inv, Step, OwnLosses;
    if i > 0 {
      RunOwned(r, i - 1);
      RunInv(r, i - 1);
      RunStep(r, i - 1);
      StepOwned(r.states[i - 1], r.commands[i - 1]);
    }
  }

  // ---------- at most one account ----------

  lemma OneLoss(m: map<string, nat>, keys: set<string>)
    requires m.Keys <= keys && |keys| <= 1 && forall a :: a in m ==> Parseable(m[a])
    ensures Parseable(Sum(m))
  {
    hide Sum;
    SubsetSize(m.Keys, keys);
    assert |m| == |m.Keys|;
    if |m| == 0 {
      NoSum(m);
    } else {
      var a :| a in m;
      SumTake(m, a);
      assert |Without(m, a)| == 0 by { WithoutKeys(m, a); }
      NoSum(Without(m, a));
    }
  }

  lemma NoSum<K(!new)>(m: map<K, nat>)
    requires |m| == 0
    ensures Sum(m) == 0
  {
  }

  lemma WithoutKeys<K>(m: map<K, nat>, a: K)
    requires a in m && |m| == 1
    ensures |Without(m, a)| == 0
  {
    assert Without(m, a).Keys == m.Keys - {a};
    assert |m.Keys| == 1;
  }

  /** With one registered real account the losses on record can always be added up and read back. */
  lemma OneOwnerReads(b: Book, p: Policy)
    requires b.meta.Some? && Sound(b) && OwnLosses(b, p) && |RealKeys(p.accounts)| <= 1
    ensures Parseable(b.meta.value.consumedUsd)
  {
    hide Sum, Total, EntriesSound, RealKeys, Parseable;
    SoundParts(b);
    OneLoss(b.losses, RealKeys(p.accounts));
  }

  lemma OneOwnerCharged(b: Book, p: Policy, c: Census, policy: RiskPolicy, now: int, causal: bool)
    requires Sound(b) && Readable(b) && OwnLosses(b, p) && |RealKeys(p.accounts)| <= 1
    requires CensusRisk(c, policy, now, causal).Some? && policy.accountLimits.Keys == RealKeys(p.accounts) && NoRegression(b.losses, c.rows)
    ensures !TooMuch(b, c)
  {
    hide Sound, Readable, RealKeys, CensusRisk, NoRegression, ChargeCensus, TooMuch, Parseable, OwnLosses, Forward, Overflows;
    ReadableBook(b);
    ChargeOverflows(b, c);
    ChargedOwned(b, p, c, policy, now, causal);
    ChargedSafe(b, Some(p), c, policy, now, causal);
    OneOwnerReads(ChargeCensus(b, c).value, p);
    OverflowIs(b, c);
  }

  /** With at most one registered real account nothing ever throws, and only its sequence can make the book unreadable. */
  lemma OneAccountNeverThrows(r: Run, i: nat)
    requires IsRun(r) && i < |r.states| && r.states[i].access.policy.Some? && |RealKeys(r.states[i].access.policy.value.accounts)| <= 1
    ensures var b := r.states[i].book; b.meta.Some? && (Readable(b) <==> SafeInt(b.meta.value.sequence))
    ensures i < |r.commands| ==> OutputAt(r, i) != Risk(Thrown)
  {
    hide Inv, IsRun, Sound, RealKeys, Readable, OwnLosses, Parseable, MustThrow, Step, Paired, ValidPolicy;
    RunInv(r, i);
    RunOwned(r, i);
    var s := r.states[i];
    InvParts(s);
    PairedValid(s.access.policy.value, s.book);
    OneOwnerReads(s.book, s.access.policy.value);
    ReadableExactly(s.book);
    if i < |r.commands| {
      RunLength(r);
      RunThrowsExactly(r, i);
      OneOwnerStep(s, s.access.policy.value, r.commands[i]);
    }
  }

  lemma OneOwnerStep(s: State, p: Policy, c: Command)
    requires s.access.policy == Some(p) && Sound(s.book) && ValidPolicy(p) && OwnLosses(s.book, p) && |RealKeys(p.accounts)| <= 1
    ensures !MustThrow(s, c)
  {
    hide Sound, RealKeys, OwnLosses, ValidPolicy, ReserveCharges, TerminalCharges, TerminalAccepted, TooMuch, CensusRisk, Readable, NoRegression, KeyOf, Projected, ValidEntry;
    match c {
      case ReserveRisk(policy, census, order, now, native) =>
        if ReserveCharges(s.book, Some(p), s.generation, policy, census, order, now, native) {
          ChargeReadable(s.book, Some(p), s.generation, policy, census, order, now, native);
          ReserveAuthority(s.book, p, s.generation, policy, census, order, now, native);
          OneOwnerCharged(s.book, p, census, policy, now, false);
        }
      case ResolveRisk(key, plan, to, digest, session, expected, terminal) =>
        if TerminalCharges(s.book, Some(p), s.generation, key, plan, to, digest, session, expected, terminal) {
          TerminalParts(s.book, Some(p), s.generation, key, plan, to, digest, session, expected, terminal);
          ProjectedFacts(p);
          OneOwnerCharged(s.book, p, terminal.value.census, Projected(p).value, terminal.value.now, false);
        }
      case _ =>
    }
  }
}
