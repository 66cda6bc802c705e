/** The campaign bound over whole runs with honest evidence. */
module CampaignRuns {
  import opened Options
  import opened Amounts
  import opened RiskKeys
  import opened Collections
  import opened Governance
  import opened Sums
  import opened GovernanceStore
  import opened RiskBook
  import opened Conservation
  import opened Progress
  import opened Commands
  import opened Posting
  import opened Installation
  import opened Runs
  import opened RunTheorems
  import opened Fences
  import opened Campaign

  // ---------- which losses a command records ----------

  lemma SaveLosses(b: Book, e: Entry, delta: int)
    requires b.meta.Some? && SaveEntry(b, e, delta).Some?
    ensures SaveEntry(b, e, delta).value.losses == b.losses
  {
    hide Usd, AccountOf, StrategyOf, NextRecord;
  }

  /** The losses afterwards are those before, or those of the charged census. */
  ghost predicate LossesCharged(b: Book, c: Census, losses: map<string, nat>) {
    || losses == b.losses
    || (b.meta.Some? && Distinct(RowAccounts(c.rows)) && ChargeCensus(b, c).Some? && losses == ChargeCensus(b, c).value.losses)
  }

  lemma ReserveLosses(b: Book, access: Option<Policy>, generation: int, policy: RiskPolicy, c: Census, o: Order, now: int, native: Option<Evidence>)
    ensures LossesCharged(b, c, Reserve(b, access, generation, policy, c, o, now, native).book.losses)
  {
    hide ConversionProven, InScope, ValidPolicy, Authoritative, ValidMeta, KeyOf, ChargeCensus, SaveEntry, Admission, Replay, External, Units, NewEntry, CensusRisk, Distinct, RowAccounts;
    if CensusRisk(c, policy, now, false).Some? && b.meta.Some? && ChargeCensus(b, c).Some? {
      ProvenCensus(c, policy, now, false);
      var d := ChargeCensus(b, c).value;
      if SaveEntry(d, NewEntry(o, c, now), Units(o.lossUsdt).GetOr(0)).Some? {
        SaveLosses(d, NewEntry(o, c, now), Units(o.lossUsdt).GetOr(0));
      }
    }
  }

  lemma PostLosses(b: Book, access: Option<Policy>, generation: int, key: string, plan: string, revision: int, digest: string, native: Option<PostProof>)
    ensures var out := BeginPost(b, access, generation, key, plan, revision, digest, native);
            if native.Some? then LossesCharged(b, native.value.census, out.book.losses) else out.book.losses == b.losses
  {
    hide PostArguments, ValidPolicy, Projected, CensusRisk, ValidMeta, ChargeCensus, SaveEntry, PostAdmission, External, Usdt, HeldExactly, PostedEntry, Distinct, RowAccounts;
    if native.Some? && access.Some? && Projected(access.value).Some? && b.meta.Some? && ChargeCensus(b, native.value.census).Some? {
      var c := native.value.census;
      if CensusRisk(c, Projected(access.value).value, native.value.now, true).Some? {
        ProvenCensus(c, Projected(access.value).value, native.value.now, true);
      }
      var d := ChargeCensus(b, c).value;
      if key in d.entries && SaveEntry(d, PostedEntry(d.entries[key], native.value.now, digest), 0).Some? {
        SaveLosses(d, PostedEntry(d.entries[key], native.value.now, digest), 0);
      }
      HeldKey(d, key, plan, revision);
    }
  }

  /** The losses a terminal release records. */
  ghost predicate LossesReleased(b: Book, key: string, terminal: Option<TerminalProof>, out: Outcome) {
    && key in b.entries && terminal.Some? && out.reply.Updated?
    && LossesCharged(b, terminal.value.census, LossesAfter(b, terminal.value.census))
    && var a, loss := AccountOf(b.entries[key]), Units(terminal.value.ledger.loss).GetOr(0);
       out.book.losses == LossesAfter(b, terminal.value.census)[a := loss] && Get(LossesAfter(b, terminal.value.census), a) <= loss
  }

  lemma ReleaseLosses(b: Book, access: Option<Policy>, key: string, digest: string, session: int, terminal: Option<TerminalProof>)
    requires b.meta.Some? && key in b.entries
    ensures var out := ReleaseTerminal(b, access, b.entries[key], digest, session, terminal);
            if out.reply.Updated? then LossesReleased(b, key, terminal, out)
            else out.book.losses == b.losses || (terminal.Some? && LossesCharged(b, terminal.value.census, out.book.losses))
  {
    hide TerminalProven, Projected, CensusRisk, ChargeCensus, SaveEntry, Units, AccountOf, MovedEntry, Usdt, Distinct, RowAccounts, Parseable;
    var e := b.entries[key];
    if terminal.Some? && access.Some? && Projected(access.value).Some? && ChargeCensus(b, terminal.value.census).Some? {
      var c := terminal.value.census;
      if CensusRisk(c, Projected(access.value).value, terminal.value.now, false).Some? {
        ProvenCensus(c, Projected(access.value).value, terminal.value.now, false);
      }
      var d := ChargeCensus(b, c).value;
      var loss := Units(terminal.value.ledger.loss).GetOr(0);
      if Get(d.losses, AccountOf(e)) <= loss && LedgerRelease(d, e, digest, loss).Some? {
        SaveLosses(ChargeLedger(d, AccountOf(e), loss), MovedEntry(e, Released, digest), 0 - Usdt(e));
      }
    }
  }

  lemma ResolveLosses(b: Book, access: Option<Policy>, generation: int, key: string, plan: string, to: EntryState, digest: string, session: int, expected: int, terminal: Option<TerminalProof>)
    ensures var out := Resolve(b, access, generation, key, plan, to, digest, session, expected, terminal);
            if out.reply.Updated? && to.Released? then LossesReleased(b, key, terminal, out)
            else out.book.losses == b.losses || (terminal.Some? && LossesCharged(b, terminal.value.census, out.book.losses))
  {
    hide Hex, ValidMeta, ValidEntry, ReleaseTerminal, SaveEntry, MovedEntry, Allowed, LossesCharged, LossesReleased;
    if b.meta.Some? && key in b.entries {
      ReleaseLosses(b, access, key, digest, session, terminal);
      if SaveEntry(b, MovedEntry(b.entries[key], to, digest), 0).Some? {
        SaveLosses(b, MovedEntry(b.entries[key], to, digest), 0);
      }
    }
  }

  // ---------- how a command keeps the bound ----------

  lemma MovedPotential(b: Book, c: Book, w: World, key: string, f: Entry)
    requires key in b.entries && c.entries == b.entries[key := f] && Later(b.entries[key], f)
    requires !b.entries[key].state.Released?
    ensures Realised(c.entries, w, Any, true) == Realised(b.entries, w, Any, true) + if f.state.Released? then Get(w, key) else 0
    ensures Total(c.entries, Everything, InUsd) == Total(b.entries, Everything, InUsd) - if f.state.Released? then Usd(b.entries[key]) else 0
  {
    hide Realised, Total, Usd, Usdt, AccountOf;
    RealisedUpdate(b.entries, w, key, f, Any, true);
    TotalUpdate(b.entries, key, f, Everything, InUsd);
    LaterAccount(b.entries[key], f);
  }

  lemma MovedRecorded(b: Book, c: Book, w: World, key: string, f: Entry, a: string)
    requires key in b.entries && c.entries == b.entries[key := f] && Later(b.entries[key], f)
    requires !b.entries[key].state.Released?
    requires Recorded(c.losses, b.entries, w, a)
    requires f.state.Released? && a == AccountOf(f) ==> Realised(b.entries, w, One(a), true) + Get(w, key) <= Get(c.losses, a)
    ensures Recorded(c.losses, c.entries, w, a)
  {
    hide Realised, Usd, Usdt, AccountOf;
    RealisedUpdate(b.entries, w, key, f, One(a), true);
    RealisedUpdate(b.entries, w, key, f, One(a), false);
    LaterAccount(b.entries[key], f);
  }

  /** Moving one entry keeps the bound; releasing it needs its loss recorded. */
  lemma BoundMoved(b: Book, c: Book, w: World, key: string, f: Entry)
    requires b.meta.Some? && c.meta.Some? && Bound(b, w) && WithinReserved(b.entries, w)
    requires key in b.entries && c.entries == b.entries[key := f] && Later(b.entries[key], f) && !b.entries[key].state.Released?
    requires c.meta.value.campaignUsd == b.meta.value.campaignUsd
    requires AllRecorded(c.losses, b.entries, w)
    requires f.state.Released? ==> Realised(b.entries, w, One(AccountOf(f)), true) + Get(w, key) <= Get(c.losses, AccountOf(f))
    ensures Bound(c, w)
  {
    hide Realised, Total, Usd, AccountOf, Later, Recorded, AllRecorded;
    MovedPotential(b, c, w, key, f);
    forall a ensures Recorded(c.losses, c.entries, w, a) {
      RecordedOf(c.losses, b.entries, w, a);
      MovedRecorded(b, c, w, key, f, a);
    }
    AllRecordedFrom(c.losses, c.entries, w);
    ReservedOf(b.entries, w, key);
  }

  lemma ReservedOf(entries: map<string, Entry>, w: World, key: string)
    requires WithinReserved(entries, w) && key in entries
    ensures Get(w, key) <= Usd(entries[key])
  {
    hide Usd;
  }

  lemma BoundSame(b: Book, c: Book, w: World)
    requires b.meta.Some? && c.meta.Some? && Bound(b, w) && c.entries == b.entries
    requires c.meta.value.campaignUsd == b.meta.value.campaignUsd && AllRecorded(c.losses, b.entries, w)
    ensures Bound(c, w)
  {
    hide Realised, Total, AllRecorded;
  }

  /** A new reservation has lost nothing yet, and its admission leaves the whole potential within the campaign. */
  lemma BoundNew(b: Book, c: Book, w: World, key: string, e: Entry)
    requires b.meta.Some? && c.meta.Some? && WithinReserved(b.entries, w)
    requires key !in b.entries && c.entries == b.entries[key := e] && e.state.Held?
    requires AllRecorded(c.losses, b.entries, w) && Sound(c)
    requires c.meta.value.consumedUsd + c.meta.value.occupiedUsd <= c.meta.value.campaignUsd
    ensures Bound(c, w)
  {
    hide Realised, Total, Usd, AccountOf, Recorded, AllRecorded, Sum, Sound;
    NothingLost(b.entries, w, key);
    RealisedUpdate(b.entries, w, key, e, Any, true);
    forall a ensures Recorded(c.losses, c.entries, w, a) {
      RecordedOf(c.losses, b.entries, w, a);
      NewRecorded(b, c, w, key, e, a);
    }
    AllRecordedFrom(c.losses, c.entries, w);
    ConsumedBetween(c.losses, c.entries, w);
    MetaOfSound(c);
  }

  lemma NothingLost(entries: map<string, Entry>, w: World, key: string)
    requires WithinReserved(entries, w) && key !in entries
    ensures Get(w, key) == 0
  {
    hide Usd;
  }

  lemma NewRecorded(b: Book, c: Book, w: World, key: string, e: Entry, a: string)
    requires key !in b.entries && c.entries == b.entries[key := e] && Get(w, key) == 0
    requires Recorded(c.losses, b.entries, w, a)
    ensures Recorded(c.losses, c.entries, w, a)
  {
    hide Realised, AccountOf;
    RealisedUpdate(b.entries, w, key, e, One(a), true);
    RealisedUpdate(b.entries, w, key, e, One(a), false);
  }

  lemma ChargedKeeps(b: Book, c: Census, losses: map<string, nat>, w: World)
    requires b.meta.Some? && AllRecorded(b.losses, b.entries, w) && HonestCensus(b.entries, c, w) && LossesCharged(b, c, losses)
    ensures AllRecorded(losses, b.entries, w)
  {
    hide AllRecorded, HonestCensus, Distinct, RowAccounts;
    if losses != b.losses {
      ChargedRecorded(b, c, w);
    }
  }

  // ---------- every command keeps the bound ----------

  /** The bound at one moment: what the records and the reservations amount to, and that losses stay within reservations. */
  ghost predicate Covered(b: Book, w: World) {
    Bound(b, w) && WithinReserved(b.entries, w)
  }

  lemma CoveredParts(b: Book, w: World)
    requires Covered(b, w) && b.meta.Some?
    ensures Bound(b, w) && WithinReserved(b.entries, w) && AllRecorded(b.losses, b.entries, w)
  {
    hide AllRecorded, WithinReserved, Potential;
  }

  lemma ReserveBound(b: Book, p: Policy, generation: int, policy: RiskPolicy, c: Census, o: Order, now: int, native: Option<Evidence>, w: World)
    requires Sound(b) && b.meta.Some? && Registered(b, p) && Covered(b, w) && HonestCensus(b.entries, c, w)
    ensures Bound(Reserve(b, Some(p), generation, policy, c, o, now, native).book, w)
  {
    hide Sound, Bound, AllRecorded, WithinReserved, HonestCensus, Reserve, Registered, Covered, KeyOf, NewEntry, HeldMeaning, LossesCharged, Overflows, EntriesLater, FencesKept, Sequenced;
    CoveredParts(b, w);
    var out := Reserve(b, Some(p), generation, policy, c, o, now, native);
    ReserveLosses(b, Some(p), generation, policy, c, o, now, native);
    ReserveEntries(b, Some(p), generation, policy, c, o, now, native);
    ReserveTerms(b, Some(p), generation, policy, c, o, now, native);
    ReserveSafe(b, Some(p), generation, policy, c, o, now, native);
    ChargedKeeps(b, c, out.book.losses, w);
    if out.book.entries == b.entries {
      BoundSame(b, out.book, w);
    } else {
      HeldFits(b, p, policy, c, o, now, out);
      NewEntryHeld(o, c, now);
      BoundNew(b, out.book, w, KeyOf(o), NewEntry(o, c, now));
    }
  }

  lemma HeldFits(b: Book, p: Policy, policy: RiskPolicy, c: Census, o: Order, now: int, out: Outcome)
    requires HeldMeaning(b, p, policy, c, o, now, out) && KeyOf(o) !in b.entries
    ensures out.book.meta.Some? && out.book.meta.value.consumedUsd + out.book.meta.value.occupiedUsd <= out.book.meta.value.campaignUsd
  {
    hide ValidPolicy, Authoritative, WithinCaps, AccountAllows, KeyOf, NewEntry;
  }

  lemma PostBound(b: Book, p: Policy, generation: int, key: string, plan: string, revision: int, digest: string, native: Option<PostProof>, w: World)
    requires Sound(b) && b.meta.Some? && Registered(b, p) && Covered(b, w)
    requires native.Some? ==> HonestCensus(b.entries, native.value.census, w)
    ensures Bound(BeginPost(b, Some(p), generation, key, plan, revision, digest, native).book, w)
  {
    hide Sound, Bound, AllRecorded, WithinReserved, HonestCensus, BeginPost, Registered, Covered, PostMeaning, LossesCharged, Later, FencesKept, Sequenced, PostedEntry;
    CoveredParts(b, w);
    var out := BeginPost(b, Some(p), generation, key, plan, revision, digest, native);
    PostLosses(b, Some(p), generation, key, plan, revision, digest, native);
    PostEntries(b, Some(p), generation, key, plan, revision, digest, native);
    PostTerms(b, Some(p), generation, key, plan, revision, digest, native);
    BeginPostSafe(b, Some(p), generation, key, plan, revision, digest, native);
    if native.Some? {
      ChargedKeeps(b, native.value.census, out.book.losses, w);
    }
    if out.book.entries == b.entries {
      BoundSame(b, out.book, w);
    } else {
      OwnKey(b, key);
      PostHeld(b, p, key, plan, revision, native.value, out);
      PostedNotReleased(b.entries[key], native.value.now, digest);
      BoundMoved(b, out.book, w, key, PostedEntry(b.entries[key], native.value.now, digest));
    }
  }

  lemma PostHeld(b: Book, p: Policy, key: string, plan: string, revision: int, n: PostProof, out: Outcome)
    requires PostMeaning(b, p, key, plan, revision, n, out)
    ensures key in b.entries && b.entries[key].state.Held?
  {
    hide ValidPolicy, Projected, Grants, PostCapsHold, NextSequence;
  }

  lemma PostedNotReleased(e: Entry, now: int, digest: string)
    ensures PostedEntry(e, now, digest).state.Posted?
  {
  }

  lemma RecordedSet(losses: map<string, nat>, entries: map<string, Entry>, w: World, a: string, loss: nat)
    requires AllRecorded(losses, entries, w)
    requires Realised(entries, w, One(a), true) <= loss <= Realised(entries, w, One(a), false)
    ensures AllRecorded(losses[a := loss], entries, w)
  {
    hide Realised, AllRecorded;
    var after := losses[a := loss];
    forall k ensures Recorded(after, entries, w, k) {
      RecordedOf(losses, entries, w, k);
    }
    AllRecordedFrom(after, entries, w);
  }

  lemma RecordBounds(b: Book, key: string, loss: nat, w: World)
    requires HonestRecord(b, key, loss, w) && key in b.entries && !b.entries[key].state.Released?
    ensures var a := AccountOf(b.entries[key]);
            Realised(b.entries, w, One(a), true) + Get(w, key) <= loss <= Realised(b.entries, w, One(a), false)
  {
    hide Realised, AccountOf;
  }

  lemma ReleasedBound(b: Book, key: string, digest: string, terminal: Option<TerminalProof>, out: Outcome, w: World)
    requires Sound(b) && b.meta.Some? && Covered(b, w) && SameTerms(b, out.book) && EntriesLater(b, out.book)
    requires terminal.Some? && HonestCensus(b.entries, terminal.value.census, w) && HonestRecord(b, key, Units(terminal.value.ledger.loss).GetOr(0), w)
    requires LossesReleased(b, key, terminal, out) && MovedTo(b, key, Released, digest, out) && !b.entries[key].state.Released?
    ensures Bound(out.book, w)
  {
    hide Sound, Bound, AllRecorded, WithinReserved, HonestCensus, HonestRecord, Covered, LossesCharged, Later, Units, AccountOf, Realised;
    CoveredParts(b, w);
    var c, loss := terminal.value.census, Units(terminal.value.ledger.loss).GetOr(0);
    var f := out.book.entries[key];
    ChargedKeeps(b, c, LossesAfter(b, c), w);
    RecordBounds(b, key, loss, w);
    RecordedSet(LossesAfter(b, c), b.entries, w, AccountOf(b.entries[key]), loss);
    LaterAccount(b.entries[key], f);
    BoundMoved(b, out.book, w, key, f);
  }

  lemma ResolveBound(b: Book, p: Policy, generation: int, key: string, plan: string, to: EntryState, digest: string, session: int, expected: int, terminal: Option<TerminalProof>, w: World)
    requires Sound(b) && b.meta.Some? && Registered(b, p) && Covered(b, w)
    requires terminal.Some? ==> HonestCensus(b.entries, terminal.value.census, w)
    requires to.Released? && terminal.Some? ==> HonestRecord(b, key, Units(terminal.value.ledger.loss).GetOr(0), w)
    ensures Bound(Resolve(b, Some(p), generation, key, plan, to, digest, session, expected, terminal).book, w)
  {
    hide Sound, Bound, AllRecorded, WithinReserved, HonestCensus, HonestRecord, Resolve, Registered, Covered, LossesCharged, LossesAfter, Later, FencesKept, Sequenced,
         TerminalProven, TerminalMeaning, Overflows, Units, MovedTo, MovedEntry;
    CoveredParts(b, w);
    var out := Resolve(b, Some(p), generation, key, plan, to, digest, session, expected, terminal);
    ResolveLosses(b, Some(p), generation, key, plan, to, digest, session, expected, terminal);
    ResolveTerms(b, Some(p), generation, key, plan, to, digest, session, expected, terminal);
    ResolveSafe(b, Some(p), generation, key, plan, to, digest, session, expected, terminal);
    if out.reply.Updated? && to.Released? {
      AllowedNotReleased(b.entries[key].state, to);
      ReleasedBound(b, key, digest, terminal, out, w);
    } else {
      if terminal.Some? && out.book.losses != b.losses {
        ChargedKeeps(b, terminal.value.census, out.book.losses, w);
      }
      if out.book.entries == b.entries {
        BoundSame(b, out.book, w);
      } else {
        AllowedNotReleased(b.entries[key].state, to);
        MovedState(b, key, to, digest, out);
        BoundMoved(b, out.book, w, key, out.book.entries[key]);
      }
    }
  }

  lemma AllowedNotReleased(from: EntryState, to: EntryState)
    requires Allowed(from, to)
    ensures !from.Released?
  {
  }

  lemma MovedState(b: Book, key: string, to: EntryState, digest: string, out: Outcome)
    requires MovedTo(b, key, to, digest, out)
    ensures key in out.book.entries && out.book.entries[key].state == to && out.book.entries == b.entries[key := out.book.entries[key]]
  {
  }

  lemma UnsentBound(b: Book, p: Policy, generation: int, key: string, plan: string, expected: int, session: int, proof: UnsentProof, w: World)
    requires Sound(b) && b.meta.Some? && Registered(b, p) && Covered(b, w) && HonestUnsent(b, key, w)
    ensures Bound(ReleaseUnsent(b, Some(p), generation, key, plan, expected, session, proof).book, w)
  {
    hide Sound, Bound, AllRecorded, WithinReserved, ReleaseUnsent, Registered, Covered, Retired, Later, FencesKept, Sequenced, MovedTo, Realised, AccountOf;
    CoveredParts(b, w);
    var out := ReleaseUnsent(b, Some(p), generation, key, plan, expected, session, proof);
    UnsentTerms(b, Some(p), generation, key, plan, expected, session, proof);
    ReleaseUnsentSafe(b, Some(p), generation, key, plan, expected, session, proof);
    if out.book.entries == b.entries {
      BoundSame(b, out.book, w);
    } else {
      MovedState(b, key, Released, proof.digest, out);
      var f := out.book.entries[key];
      LaterAccount(b.entries[key], f);
      RecordedOf(b.losses, b.entries, w, AccountOf(f));
      BoundMoved(b, out.book, w, key, f);
    }
  }

  /** A lowered limit still covers every recorded loss and every reservation, so it covers the potential. */
  lemma LoweredBound(b: Book, limit: string, w: World)
    requires Sound(b) && b.meta.Some? && Bound(b, w) && LoweredLimit(b, limit).Some?
    ensures Bound(LoweredLimit(b, limit).value, w)
  {
    hide Realised, Total, AllRecorded, Sum, Units, Sound;
    MetaOfSound(b);
    ConsumedBetween(b.losses, b.entries, w);
  }

  lemma EmptyBound(b: Book, w: World)
    requires b.entries == map[] && b.losses == map[]
    ensures Bound(b, w)
  {
    hide Sum;
    forall a ensures Recorded(b.losses, b.entries, w, a) {
      SumZero(Dues(b.entries, w, One(a), true));
    }
    AllRecordedFrom(b.losses, b.entries, w);
    SumZero(Dues(b.entries, w, Any, true));
    SumZero(Weights(b.entries, Everything, InUsd));
  }
}
