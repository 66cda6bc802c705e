/** In every run whose evidence is honest, the campaign limit holds and no ledger command ever throws. */
module CampaignBound {
  import opened Options
  import opened Amounts
  import opened RiskKeys
  import opened Collections
  import opened Governance
  import opened Sums
  import opened GovernanceStore
  import opened RiskBook
  import opened Conservation
  import opened Progress
  import opened Commands
  import opened Posting
  import opened Installation
  import opened Runs
  import opened RunTheorems
  import opened Campaign
  import opened CampaignRuns

  // ---------- one step ----------

  lemma RiskBound(s: State, c: Command, w: World)
    requires Inv(s) && IsRisk(c) && s.book.meta.Some? && Covered(s.book, w) && Honest(s, c, w)
    ensures Bound(RiskOutcome(s, c).book, w)
  {
    hide Sound, Reserve, BeginPost, Resolve, ReleaseUnsent, Inv, Registered, Covered, Bound, HonestCensus, HonestRecord, HonestUnsent, Paired, Units;
    InvParts(s);
    RegisteredAt(s);
    var p := s.access.policy.value;
    match c {
      case ReserveRisk(policy, census, order, now, native) =>
        ReserveBound(s.book, p, s.generation, policy, census, order, now, native, w);
      case BeginRiskPost(key, plan, revision, digest, post) =>
        PostBound(s.book, p, s.generation, key, plan, revision, digest, post, w);
      case ResolveRisk(key, plan, to, digest, session, expected, terminal) =>
        ResolveBound(s.book, p, s.generation, key, plan, to, digest, session, expected, terminal, w);
      case ReleaseUnsentRisk(key, plan, expected, session, proof) =>
        UnsentBound(s.book, p, s.generation, key, plan, expected, session, proof, w);
    }
  }

  lemma CampaignStepBound(s: State, body: CampaignBody, w: World)
    requires Inv(s) && s.book.meta.Some? && Bound(s.book, w)
    ensures Bound(CampaignStep(s, body).0.book, w)
  {
    hide Sound, Bound, Paired, ValidPolicy, Units, LoweredLimit, ValidMeta, CampaignWellFormed;
    if LoweredLimit(s.book, body.limit).Some? {
      LoweredBound(s.book, body.limit, w);
    }
  }

  lemma InstallStepBound(s: State, body: InstallBody, w: World)
    requires Inv(s) && Bound(s.book, w)
    ensures Bound(InstallStep(s, body).0.book, w)
  {
    hide Sound, Bound, Installable, Inv;
    if s.book.meta.None? {
      NoBookYet(s);
      EmptyBound(InstallStep(s, body).0.book, w);
    }
  }

  lemma StepBound(s: State, c: Command, w: World)
    requires Inv(s) && Covered(s.book, w) && Honest(s, c, w)
    ensures Bound(Step(s, c).0.book, w)
  {
    hide Inv, Bound, WithinReserved, Honest, RiskOutcome, Mutate, InstallStep, CampaignStep;
    StepBooks(s, c);
    if IsRisk(c) {
      if s.book.meta.Some? {
        RiskBound(s, c, w);
      } else {
        NoBookStays(s, c);
      }
    } else {
      match c {
        case Install(body) => InstallStepBound(s, body, w);
        case LowerCampaign(body) =>
          if s.book.meta.Some? {
            CampaignStepBound(s, body, w);
          } else {
            NoBookNoCampaign(s, body);
          }
        case _ =>
      }
    }
  }

  lemma StepBooks(s: State, c: Command)
    ensures IsRisk(c) ==> Step(s, c).0.book == RiskOutcome(s, c).book
    ensures !IsRisk(c) && !c.Install? && !c.LowerCampaign? ==> Step(s, c).0.book == s.book
  {
    hide RiskOutcome, Mutate, InstallStep, CampaignStep;
  }

  lemma NoBookStays(s: State, c: Command)
    requires Inv(s) && IsRisk(c) && s.book.meta.None?
    ensures RiskOutcome(s, c).book == s.book
  {
    hide Sound, Paired, RiskOutcome;
    NoBookYet(s);
    NoBookNoRisk(s, c);
  }

  lemma NoBookNoCampaign(s: State, body: CampaignBody)
    requires Inv(s) && s.book.meta.None?
    ensures CampaignStep(s, body).0.book == s.book
  {
    hide Sound, Paired, CampaignWellFormed, ValidPolicy, Units;
  }

  // ---------- losses over time ----------

  /** Losses only grow, and those of a released reservation are over. */
  ghost predicate Advances(entries: map<string, Entry>, v: World, w: World) {
    forall k :: k in entries ==> Get(v, k) <= Get(w, k) && (entries[k].state.Released? ==> Get(v, k) == Get(w, k))
  }

  lemma BoundAdvances(b: Book, v: World, w: World)
    requires Bound(b, v) && Advances(b.entries, v, w)
    ensures Bound(b, w)
  {
    hide Realised, Total, AllRecorded, Advances;
    if b.meta.Some? {
      forall a ensures Recorded(b.losses, b.entries, w, a) {
        RecordedOf(b.losses, b.entries, v, a);
        AdvancedRealised(b.entries, v, w, One(a));
      }
      AllRecordedFrom(b.losses, b.entries, w);
      AdvancedRealised(b.entries, v, w, Any);
    }
  }

  lemma AdvancedRealised(entries: map<string, Entry>, v: World, w: World, f: Filter)
    requires Advances(entries, v, w)
    ensures Realised(entries, v, f, true) == Realised(entries, w, f, true)
    ensures Realised(entries, v, f, false) <= Realised(entries, w, f, false)
  {
    hide Realised;
    RealisedGrows(entries, v, w, f);
    RealisedFrozen(entries, v, w, f);
  }

  // ---------- honest runs ----------

  /** A run beside the losses as they really happen: command `i` is given while they stand at `worlds[i]`. */
  ghost predicate HonestRun(r: Run, worlds: seq<World>) {
    && IsRun(r) && |worlds| == |r.states|
    && (forall i :: 0 <= i < |worlds| ==> WithinReserved(r.states[i].book.entries, worlds[i]))
    && (forall i :: 0 <= i < |r.commands| ==> Honest(r.states[i], r.commands[i], worlds[i]))
    && (forall i :: 0 <= i < |r.commands| ==> Advances(r.states[i + 1].book.entries, worlds[i], worlds[i + 1]))
  }

  /** Every loss that the command reports is zero. */
  ghost predicate ReportsNoLoss(c: Command) {
    && (InputCensus(c).Some? ==> forall i :: 0 <= i < |InputCensus(c).value.rows| ==> Reported(InputCensus(c).value.rows[i]) == 0)
    && (c.ResolveRisk? && c.terminal.Some? ==> Units(c.terminal.value.ledger.loss).GetOr(0) == 0)
  }

  /** Any run without losses is honest, whatever else its commands do. */
  lemma QuietRunIsHonest(r: Run)
    requires IsRun(r) && forall i :: 0 <= i < |r.commands| ==> ReportsNoLoss(r.commands[i])
    ensures HonestRun(r, seq(|r.states|, _ => map[]))
  {
    hide Step, Realised, ReportsNoLoss, Honest;
    var worlds: seq<World> := seq(|r.states|, _ => map[]);
    forall i | 0 <= i < |r.commands| ensures Honest(r.states[i], r.commands[i], worlds[i]) {
      QuietIsHonest(r.states[i], r.commands[i]);
    }
  }

  lemma QuietIsHonest(s: State, c: Command)
    requires ReportsNoLoss(c)
    ensures Honest(s, c, map[])
  {
    hide Realised, InputCensus, Reported, Units, AccountOf;
    if c.ResolveRisk? && c.key in s.book.entries {
      NothingRealised(s.book.entries, One(AccountOf(s.book.entries[c.key])), true);
    }
  }

  lemma NothingRealised(entries: map<string, Entry>, f: Filter, released: bool)
    ensures Realised(entries, map[], f, released) == 0
  {
    hide Sum, Matches;
    SumZero(Dues(entries, map[], f, released));
  }

  lemma HonestAt(r: Run, worlds: seq<World>, i: nat)
    requires HonestRun(r, worlds) && i < |r.states|
    ensures |worlds| == |r.states| == |r.commands| + 1 && WithinReserved(r.states[i].book.entries, worlds[i])
    ensures i < |r.commands| ==> Honest(r.states[i], r.commands[i], worlds[i]) && Advances(r.states[i + 1].book.entries, worlds[i], worlds[i + 1])
  {
    hide Step, WithinReserved, Honest, Advances;
  }

  lemma {:induction false} RunBound(r: Run, worlds: seq<World>, i: nat)
    requires HonestRun(r, worlds) && i < |r.states| == |worlds|
    ensures Bound(r.states[i].book, worlds[i])
  {
    hide Inv, Bound, WithinReserved, Honest, Advances, HonestRun, Step;
    RunOfHonest(r, worlds);
    if i == 0 {
      StartBound(r, worlds[0]);
    } else {
      RunBound(r, worlds, i - 1);
      HonestAt(r, worlds, i - 1);
      RunInv(r, i - 1);
      RunStep(r, i - 1);
      StepBound(r.states[i - 1], r.commands[i - 1], worlds[i - 1]);
      BoundAdvances(r.states[i].book, worlds[i - 1], worlds[i]);
    }
  }

  lemma RunOfHonest(r: Run, worlds: seq<World>)
    requires HonestRun(r, worlds)
    ensures IsRun(r)
  {
    hide Step, WithinReserved, Honest, Advances;
  }

  lemma StartBound(r: Run, w: World)
    requires IsRun(r)
    ensures |r.states| > 0 && Bound(r.states[0].book, w)
  {
    hide Step, AllRecorded, Potential;
  }

  /** The campaign bound: with honest evidence, no interleaving of commands ever consumes more than the campaign limit. */
  lemma CampaignHolds(r: Run, worlds: seq<World>, i: nat)
    requires HonestRun(r, worlds) && i < |r.states| && r.states[i].book.meta.Some?
    ensures r.states[i].book.meta.value.consumedUsd <= r.states[i].book.meta.value.campaignUsd <= INITIAL_CAMPAIGN
  {
    hide Inv, Bound, WithinReserved, HonestRun, Sound, IsRun;
    HonestAt(r, worlds, i);
    RunOfHonest(r, worlds);
    RunInv(r, i);
    InvParts(r.states[i]);
    RunBound(r, worlds, i);
    BoundConsumed(r.states[i].book, worlds[i]);
    MetaOfSound(r.states[i].book);
  }

  /** A charged honest census still fits the campaign. */
  lemma ChargedFits(b: Book, c: Census, w: World)
    requires b.meta.Some? && Sound(b) && Bound(b, w) && WithinReserved(b.entries, w) && HonestCensus(b.entries, c, w)
    requires Distinct(RowAccounts(c.rows)) && ChargeCensus(b, c).Some?
    ensures ChargeCensus(b, c).value.meta.Some? && Parseable(ChargeCensus(b, c).value.meta.value.consumedUsd)
  {
    hide Realised, Total, AllRecorded, WithinReserved, HonestCensus, ChargeCensus, Distinct, RowAccounts, Sound, Sum;
    var d := ChargeCensus(b, c).value;
    ChargedRecorded(b, c, w);
    ChargeEntries(b, c);
    ChargeTerms(b, c);
    ConsumedBetween(d.losses, d.entries, w);
    AllWithinPotential(b.entries, w);
    MetaOfSound(b);
    ChargedConsumed(b, c);
  }

  lemma ChargedConsumed(b: Book, c: Census)
    requires b.meta.Some? && Sound(b) && Distinct(RowAccounts(c.rows)) && ChargeCensus(b, c).Some?
    ensures ChargeCensus(b, c).value.meta.Some? && ChargeCensus(b, c).value.meta.value.consumedUsd == Sum(ChargeCensus(b, c).value.losses)
  {
    hide Sum, Sound, ChargeCensus, Distinct, RowAccounts, Forward;
    MetaOfSound(b);
    ChargeFacts(b, c);
  }

  lemma ThrownReserve(b: Book, access: Option<Policy>, generation: int, policy: RiskPolicy, c: Census, o: Order, now: int, native: Option<Evidence>)
    requires Reserve(b, access, generation, policy, c, o, now, native).reply.Thrown?
    ensures Distinct(RowAccounts(c.rows))
  {
    hide ConversionProven, InScope, ReserveTransaction, CensusRisk, Distinct, RowAccounts;
    if CensusRisk(c, policy, now, false).Some? {
      ProvenCensus(c, policy, now, false);
    }
  }

  lemma ThrownTerminal(b: Book, access: Option<Policy>, e: Entry, digest: string, session: int, terminal: Option<TerminalProof>)
    requires b.meta.Some? && ReleaseTerminal(b, access, e, digest, session, terminal).reply.Thrown?
    ensures terminal.Some? && Distinct(RowAccounts(terminal.value.census.rows))
  {
    hide TerminalProven, Projected, CensusRisk, ChargeCensus, ReleaseCharged, Distinct, RowAccounts;
    var c := terminal.value.census;
    var policy := Projected(access.value);
    ProvenCensus(c, policy.value, terminal.value.now, false);
  }

  lemma ThrownResolve(b: Book, access: Option<Policy>, generation: int, key: string, plan: string, to: EntryState, digest: string, session: int, expected: int, terminal: Option<TerminalProof>)
    requires Sound(b) && Resolve(b, access, generation, key, plan, to, digest, session, expected, terminal).reply.Thrown?
    ensures terminal.Some? && Distinct(RowAccounts(terminal.value.census.rows))
  {
    hide Sound, Hex, ValidMeta, ValidEntry, ReleaseTerminal, MoveEntry, MovedTo, Forward, Distinct, RowAccounts, Allowed;
    ReadableRoom(b);
    if to.Released? {
      ThrownTerminal(b, access, b.entries[key], digest, session, terminal);
    } else {
      MoveEntrySafe(b, key, to, digest);
      MovedIsUpdated(b, key, to, digest, MoveEntry(b, b.entries[key], to, digest));
    }
  }

  lemma MovedIsUpdated(b: Book, key: string, to: EntryState, digest: string, out: Outcome)
    requires MovedTo(b, key, to, digest, out)
    ensures out.reply.Updated?
  {
  }

  /** With honest evidence no ledger command throws. */
  lemma HonestNeverThrows(r: Run, worlds: seq<World>, i: nat)
    requires HonestRun(r, worlds) && i < |r.commands| < |r.states|
    ensures OutputAt(r, i) != Risk(Thrown)
  {
    hide Inv, Bound, WithinReserved, HonestRun, Sound, IsRun, RiskOutcome, ChargeCensus, HonestCensus, HonestRecord, HonestUnsent, Distinct, RowAccounts, Parseable, Units;
    if OutputAt(r, i) == Risk(Thrown) {
      RunOfHonest(r, worlds);
      HonestAt(r, worlds, i);
      RunThrows(r, i);
      RunInv(r, i);
      var s, c := r.states[i], r.commands[i];
      InvParts(s);
      RunBound(r, worlds, i);
      ThrownCensus(s, c);
      ChargedFits(s.book, CensusOf(c).value, worlds[i]);
    }
  }

  lemma ThrownCensus(s: State, c: Command)
    requires Inv(s) && Step(s, c).1 == Risk(Thrown) && CensusOf(c).Some? && s.book.meta.Some?
    ensures Distinct(RowAccounts(CensusOf(c).value.rows))
  {
    hide Inv, Sound, Paired, Registered, Reserve, Resolve, Distinct, RowAccounts;
    InvParts(s);
    RegisteredAt(s);
    match c {
      case ReserveRisk(policy, census, order, now, native) =>
        ThrownReserve(s.book, s.access.policy, s.generation, policy, census, order, now, native);
      case ResolveRisk(key, plan, to, digest, session, expected, terminal) =>
        ThrownResolve(s.book, s.access.policy, s.generation, key, plan, to, digest, session, expected, terminal);
      case _ =>
    }
  }
}
