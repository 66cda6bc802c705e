/** Exactly when a ledger command throws, and is rolled back, in a sound book. */
module Throws {
  import opened Options
  import opened Amounts
  import opened RiskKeys
  import opened Collections
  import opened Governance
  import opened Sums
  import opened GovernanceStore
  import opened RiskBook
  import opened Conservation
  import opened Progress
  import opened Commands
  import opened Posting
  import opened Installation
  import opened Runs
  import opened RunTheorems
  import opened Authority

  /** Recorded and newly reported losses together are too many to read back. */
  predicate TooMuch(b: Book, c: Census) {
    b.meta.Some? && b.meta.value.consumedUsd + Added(b.losses, c.rows) >= TEXT_LIMIT
  }

  lemma ChargeOverflows(b: Book, c: Census)
    requires Readable(b)
    ensures ChargeCensus(b, c).Some? <==> NoRegression(b.losses, c.rows)
    ensures Overflows(b, c) <==> NoRegression(b.losses, c.rows) && TooMuch(b, c)
  {
    hide NoRegression, Added, Raised, Sum;
  }

  // ---------- RESERVE ----------

  /** The reservation passes every refusal up to the charge of its census. */
  ghost predicate ReserveCharges(b: Book, access: Option<Policy>, generation: int, policy: RiskPolicy, c: Census, o: Order, now: int, native: Option<Evidence>) {
    && native.Some? && ReserveArguments(policy, c, o, now, native).None?
    && access.Some? && ValidPolicy(access.value) && Authoritative(access.value, policy) && generation == native.value.generation
    && Readable(b) && b.meta.value.installationId == access.value.installationId && KeyOf(o) !in b.fences
    && NoRegression(b.losses, c.rows)
  }

  lemma ReserveCase(b: Book, access: Option<Policy>, generation: int, policy: RiskPolicy, c: Census, o: Order, now: int, native: Option<Evidence>)
    ensures ReserveCharges(b, access, generation, policy, c, o, now, native) ==>
              && ChargeCensus(b, c).Some?
              && Reserve(b, access, generation, policy, c, o, now, native) == ReserveCharged(b, ChargeCensus(b, c).value, access.value, policy, c, o, now)
    ensures !ReserveCharges(b, access, generation, policy, c, o, now, native) ==> Reserve(b, access, generation, policy, c, o, now, native).reply.Denied?
  {
    hide ReserveArguments, ValidPolicy, Authoritative, ValidMeta, KeyOf, ReserveCharged, NoRegression, Added, Raised;
  }

  /** A reservation throws exactly when it is new, nothing refuses it, and its census reports more loss than can be read back. */
  lemma ReserveThrowsExactly(b: Book, access: Option<Policy>, generation: int, policy: RiskPolicy, c: Census, o: Order, now: int, native: Option<Evidence>)
    requires Sound(b) && (access.Some? ==> Registered(b, access.value))
    ensures Reserve(b, access, generation, policy, c, o, now, native).reply.Thrown? <==>
              ReserveCharges(b, access, generation, policy, c, o, now, native) && KeyOf(o) !in b.entries && TooMuch(b, c)
  {
    hide Sound, Registered, Reserve, ReserveCharges, ReserveCharged, KeyOf, TooMuch, HeldMeaning, Overflows, Safe, Readable, ChargeCensus;
    ReserveSafe(b, access, generation, policy, c, o, now, native);
    ReserveCase(b, access, generation, policy, c, o, now, native);
    if ReserveCharges(b, access, generation, policy, c, o, now, native) {
      ChargeReadable(b, access, generation, policy, c, o, now, native);
      ChargeOverflows(b, c);
      ChargedSafe(b, access, c, policy, now, false);
      ChargeEntries(b, c);
      var d := ChargeCensus(b, c).value;
      if KeyOf(o) in b.entries {
        ReplayShape(b, d, access.value, policy, c, o, now);
        ReplayAnswers(d, o);
      } else {
        NewThrows(b, d, access.value, policy, c, o, now);
        OverflowIs(b, c);
      }
    }
  }

  lemma ChargeReadable(b: Book, access: Option<Policy>, generation: int, policy: RiskPolicy, c: Census, o: Order, now: int, native: Option<Evidence>)
    requires ReserveCharges(b, access, generation, policy, c, o, now, native)
    ensures Readable(b) && b.meta.Some? && access.Some? && CensusRisk(c, policy, now, false).Some? && NoRegression(b.losses, c.rows)
  {
    hide ConversionProven, InScope, CensusRisk, ValidPolicy, Authoritative, ValidMeta, NoRegression, KeyOf;
  }

  lemma ReplayAnswers(b: Book, o: Order)
    requires b.meta.Some? && KeyOf(o) in b.entries
    ensures !Replay(b, b.entries[KeyOf(o)], o).Thrown?
  {
    hide ValidEntry, KeyOf;
  }

  lemma NewThrows(before: Book, b: Book, p: Policy, policy: RiskPolicy, c: Census, o: Order, now: int)
    requires b.meta.Some? && Sound(b) && KeyOf(o) !in b.entries
    ensures !Parseable(b.meta.value.consumedUsd) ==> ReserveCharged(before, b, p, policy, c, o, now).reply.Thrown?
  {
    hide Sound, KeyOf, Admission, Parseable, NewEntry, SaveEntry, External, Units;
    AdmissionThrows(b, p, policy, External(c.rows), o);
  }

  lemma OverflowIs(b: Book, c: Census)
    requires b.meta.Some? && ChargeCensus(b, c).Some?
    ensures ChargeCensus(b, c).value.meta.Some?
    ensures Overflows(b, c) <==> !Parseable(ChargeCensus(b, c).value.meta.value.consumedUsd)
  {
    hide ChargeCensus, Parseable;
  }

  // ---------- RESOLVE ----------

  /** The resolution is a terminal release that passes every refusal up to the charge of its census. */
  ghost predicate TerminalAccepted(b: Book, access: Option<Policy>, generation: int, key: string, plan: string, to: EntryState, digest: string, session: int, expected: int, terminal: Option<TerminalProof>) {
    && to.Released? && Hex(plan) && Hex(digest) && SafeInt(session) && session >= 1 && SafeInt(expected) && expected >= 1
    && Readable(b) && generation == session && b.meta.value.sequence == expected && Resolvable(b, key, plan, to)
    && terminal.Some? && TerminalProven(b.entries[key], session, terminal.value)
    && access.Some? && Projected(access.value).Some? && CensusRisk(terminal.value.census, Projected(access.value).value, terminal.value.now, false).Some?
    && NoRegression(b.losses, terminal.value.census.rows)
  }

  /** It passes the last refusal too: its record does not go back behind its census. */
  ghost predicate TerminalCharges(b: Book, access: Option<Policy>, generation: int, key: string, plan: string, to: EntryState, digest: string, session: int, expected: int, terminal: Option<TerminalProof>) {
    && TerminalAccepted(b, access, generation, key, plan, to, digest, session, expected, terminal)
    && Get(ChargedLosses(b, terminal), AccountOf(b.entries[key])) <= Units(terminal.value.ledger.loss).GetOr(0)
  }

  lemma ChargedLossesAre(b: Book, terminal: Option<TerminalProof>)
    requires b.meta.Some? && terminal.Some? && ChargeCensus(b, terminal.value.census).Some?
    ensures ChargeCensus(b, terminal.value.census).value.losses == ChargedLosses(b, terminal)
  {
    hide NoRegression, Added, Raised;
  }

  /** The transaction of such a release. */
  lemma TerminalCase(b: Book, access: Option<Policy>, generation: int, key: string, plan: string, to: EntryState, digest: string, session: int, expected: int, terminal: Option<TerminalProof>)
    requires TerminalAccepted(b, access, generation, key, plan, to, digest, session, expected, terminal)
    ensures b.meta.Some? && key in b.entries && terminal.Some? && ChargeCensus(b, terminal.value.census).Some?
    ensures Resolve(b, access, generation, key, plan, to, digest, session, expected, terminal) ==
            ReleaseCharged(b, ChargeCensus(b, terminal.value.census).value, b.entries[key], digest, terminal.value)
  {
    hide Hex, ValidMeta, ValidEntry, TerminalProven, Projected, CensusRisk, NoRegression, Added, Raised, ReleaseCharged;
  }

  lemma TerminalThrows(b: Book, access: Option<Policy>, generation: int, key: string, plan: string, to: EntryState, digest: string, session: int, expected: int, terminal: Option<TerminalProof>)
    requires Resolve(b, access, generation, key, plan, to, digest, session, expected, terminal).reply.Thrown?
    requires Sound(b) && (access.Some? ==> Registered(b, access.value))
    ensures TerminalCharges(b, access, generation, key, plan, to, digest, session, expected, terminal)
  {
    hide Sound, Registered, Hex, ValidMeta, TerminalProven, Projected, CensusRisk, ChargeCensus, NoRegression, Added, Raised, ReleaseCharged,
         ChargedLosses, Units, AccountOf, MoveEntry, Allowed, ValidEntry, MovedTo, TerminalAnswer, Overflows;
    ResolveSafe(b, access, generation, key, plan, to, digest, session, expected, terminal);
    MovesNeverThrow(b, key, plan, to, digest);
    if terminal.Some? && ChargeCensus(b, terminal.value.census).Some? {
      ChargeOverflows(b, terminal.value.census);
      ChargedLossesAre(b, terminal);
      ThrownRecord(b, ChargeCensus(b, terminal.value.census).value, b.entries[key], digest, terminal.value);
      CensusReadable(b, access, key, terminal);
    }
  }

  lemma MovesNeverThrow(b: Book, key: string, plan: string, to: EntryState, digest: string)
    requires Sound(b)
    ensures Readable(b) && Resolvable(b, key, plan, to) && Hex(digest) && !to.Released? && !to.Posted? ==> !MoveEntry(b, b.entries[key], to, digest).reply.Thrown?
  {
    hide Sound, ValidEntry, Allowed, Hex, MoveEntry, ValidMeta;
    if Readable(b) && Resolvable(b, key, plan, to) && Hex(digest) && !to.Released? && !to.Posted? {
      ReadableRoom(b);
      MoveEntrySafe(b, key, to, digest);
    }
  }

  lemma CensusReadable(b: Book, access: Option<Policy>, key: string, terminal: Option<TerminalProof>)
    requires Sound(b) && Readable(b) && terminal.Some? && ChargeCensus(b, terminal.value.census).Some? && key in b.entries
    requires access.Some? && Projected(access.value).Some? && CensusRisk(terminal.value.census, Projected(access.value).value, terminal.value.now, false).Some?
    ensures Parseable(Get(ChargeCensus(b, terminal.value.census).value.losses, AccountOf(b.entries[key])))
  {
    hide Sound, Readable, Projected, CensusRisk, ChargeCensus, AccountOf, Balanced, EntriesSound, Parseable;
    ReadableSequence(b);
    ChargedSafe(b, access, terminal.value.census, Projected(access.value).value, terminal.value.now, false);
    var d := ChargeCensus(b, terminal.value.census).value;
    SoundParts(d);
    RecordedReadable(d, AccountOf(b.entries[key]));
  }

  lemma ThrownRecord(before: Book, b: Book, e: Entry, digest: string, t: TerminalProof)
    requires b.meta.Some?
    ensures Parseable(Get(b.losses, AccountOf(e))) && ReleaseCharged(before, b, e, digest, t).reply.Thrown? ==> Get(b.losses, AccountOf(e)) <= Units(t.ledger.loss).GetOr(0)
  {
    hide AccountOf, Units, LedgerRelease, Parseable;
  }

  /** A resolution throws exactly when it is a terminal release that nothing refuses and its census reports more loss than can be read back. */
  lemma ResolveThrowsExactly(b: Book, access: Option<Policy>, generation: int, key: string, plan: string, to: EntryState, digest: string, session: int, expected: int, terminal: Option<TerminalProof>)
    requires Sound(b) && (access.Some? ==> Registered(b, access.value))
    ensures Resolve(b, access, generation, key, plan, to, digest, session, expected, terminal).reply.Thrown? <==>
              TerminalCharges(b, access, generation, key, plan, to, digest, session, expected, terminal) && TooMuch(b, terminal.value.census)
  {
    hide Sound, Registered, Resolve, TerminalCharges, TooMuch;
    if Resolve(b, access, generation, key, plan, to, digest, session, expected, terminal).reply.Thrown? {
      TerminalThrows(b, access, generation, key, plan, to, digest, session, expected, terminal);
      ThrownIsTooMuch(b, access, generation, key, plan, to, digest, session, expected, terminal);
    }
    if TerminalCharges(b, access, generation, key, plan, to, digest, session, expected, terminal) && terminal.Some? && TooMuch(b, terminal.value.census) {
      TooMuchThrows(b, access, generation, key, plan, to, digest, session, expected, terminal);
    }
    TerminalNamed(b, access, generation, key, plan, to, digest, session, expected, terminal);
  }

  lemma TerminalNamed(b: Book, access: Option<Policy>, generation: int, key: string, plan: string, to: EntryState, digest: string, session: int, expected: int, terminal: Option<TerminalProof>)
    ensures TerminalCharges(b, access, generation, key, plan, to, digest, session, expected, terminal) ==> terminal.Some?
  {
    hide Hex, ValidMeta, Resolvable, TerminalProven, Projected, CensusRisk, NoRegression, ChargedLosses, Units, AccountOf;
  }

  lemma ThrownIsTooMuch(b: Book, access: Option<Policy>, generation: int, key: string, plan: string, to: EntryState, digest: string, session: int, expected: int, terminal: Option<TerminalProof>)
    requires Sound(b) && (access.Some? ==> Registered(b, access.value))
    requires Resolve(b, access, generation, key, plan, to, digest, session, expected, terminal).reply.Thrown?
    requires TerminalCharges(b, access, generation, key, plan, to, digest, session, expected, terminal)
    ensures terminal.Some? && TooMuch(b, terminal.value.census)
  {
    hide Sound, Registered, Resolve, TerminalCharges, TooMuch, Readable, Safe, ResolveAnswer, Overflows, NoRegression, ValidEntry, CensusRisk, Projected, ChargedLosses;
    ResolveSafe(b, access, generation, key, plan, to, digest, session, expected, terminal);
    ThrownOverflows(b, generation, key, to, digest, session, expected, terminal, Resolve(b, access, generation, key, plan, to, digest, session, expected, terminal));
    TerminalParts(b, access, generation, key, plan, to, digest, session, expected, terminal);
    ChargeOverflows(b, terminal.value.census);
  }

  lemma TooMuchThrows(b: Book, access: Option<Policy>, generation: int, key: string, plan: string, to: EntryState, digest: string, session: int, expected: int, terminal: Option<TerminalProof>)
    requires Sound(b) && terminal.Some? && TooMuch(b, terminal.value.census)
    requires TerminalCharges(b, access, generation, key, plan, to, digest, session, expected, terminal)
    ensures Resolve(b, access, generation, key, plan, to, digest, session, expected, terminal).reply.Thrown?
  {
    hide Sound, Resolve, TerminalCharges, TerminalAccepted, ReleaseCharged, TooMuch, Readable, ChargeCensus, Overflows, NoRegression, ValidEntry, CensusRisk, Projected,
         ChargedLosses, AccountOf, Units, Parseable, Hex, Allowed;
    TerminalParts(b, access, generation, key, plan, to, digest, session, expected, terminal);
    TerminalCase(b, access, generation, key, plan, to, digest, session, expected, terminal);
    ReadableSequence(b);
    ChargeOverflows(b, terminal.value.census);
    OverflowIs(b, terminal.value.census);
    CensusReadable(b, access, key, terminal);
    ChargedLossesAre(b, terminal);
    RecordThrows(b, ChargeCensus(b, terminal.value.census).value, b.entries[key], digest, terminal.value);
  }

  lemma ThrownOverflows(b: Book, generation: int, key: string, to: EntryState, digest: string, session: int, expected: int, terminal: Option<TerminalProof>, out: Outcome)
    requires ResolveAnswer(b, generation, key, to, digest, session, expected, terminal, out) && out.reply.Thrown?
    ensures terminal.Some? && Overflows(b, terminal.value.census)
  {
    hide Overflows, MovedTo, TerminalAnswer, Allowed;
  }

  lemma TerminalParts(b: Book, access: Option<Policy>, generation: int, key: string, plan: string, to: EntryState, digest: string, session: int, expected: int, terminal: Option<TerminalProof>)
    requires TerminalCharges(b, access, generation, key, plan, to, digest, session, expected, terminal)
    ensures Readable(b) && key in b.entries && ValidEntry(b.entries[key]) && terminal.Some? && Hex(digest) && Allowed(b.entries[key].state, Released)
    ensures access.Some? && Projected(access.value).Some? && CensusRisk(terminal.value.census, Projected(access.value).value, terminal.value.now, false).Some?
    ensures NoRegression(b.losses, terminal.value.census.rows)
    ensures Get(ChargedLosses(b, terminal), AccountOf(b.entries[key])) <= Units(terminal.value.ledger.loss).GetOr(0)
    ensures TerminalAccepted(b, access, generation, key, plan, to, digest, session, expected, terminal)
  {
    hide Hex, ValidMeta, ValidEntry, TerminalProven, Projected, CensusRisk, NoRegression, ChargedLosses, Units, AccountOf, Allowed;
  }

  lemma RecordThrows(before: Book, b: Book, e: Entry, digest: string, t: TerminalProof)
    requires b.meta.Some? && Parseable(Get(b.losses, AccountOf(e))) && Get(b.losses, AccountOf(e)) <= Units(t.ledger.loss).GetOr(0)
    ensures !Parseable(b.meta.value.consumedUsd) ==> ReleaseCharged(before, b, e, digest, t).reply.Thrown?
  {
    hide AccountOf, Units, LedgerRelease, Parseable;
  }

  // ---------- every command ----------

  /** What a caller can check of a command that will throw. */
  ghost predicate MustThrow(s: State, c: Command) {
    match c
    case ReserveRisk(policy, census, order, now, native) =>
      ReserveCharges(s.book, s.access.policy, s.generation, policy, census, order, now, native) && KeyOf(order) !in s.book.entries && TooMuch(s.book, census)
    case ResolveRisk(key, plan, to, digest, session, expected, terminal) =>
      TerminalCharges(s.book, s.access.policy, s.generation, key, plan, to, digest, session, expected, terminal) && TooMuch(s.book, terminal.value.census)
    case _ => false
  }

  /** In every reachable state a command throws exactly when that could be seen beforehand, and then it changes nothing. */
  lemma RunThrowsExactly(r: Run, i: nat)
    requires IsRun(r) && i < |r.commands| < |r.states|
    ensures OutputAt(r, i) == Risk(Thrown) <==> MustThrow(r.states[i], r.commands[i])
    ensures MustThrow(r.states[i], r.commands[i]) ==> r.states[i + 1] == r.states[i]
  {
    hide Inv, IsRun, Sound, Registered, Reserve, BeginPost, Resolve, ReleaseUnsent, ReserveCharges, TerminalCharges, TooMuch, KeyOf, Safe, PostMeaning, Retired, MovedTo;
    RunInv(r, i);
    var s, c := r.states[i], r.commands[i];
    InvParts(s);
    RegisteredAt(s);
    match c {
      case ReserveRisk(policy, census, order, now, native) =>
        ReserveThrowsExactly(s.book, s.access.policy, s.generation, policy, census, order, now, native);
      case BeginRiskPost(key, plan, revision, digest, post) =>
        BeginPostSafe(s.book, s.access.policy, s.generation, key, plan, revision, digest, post);
      case ResolveRisk(key, plan, to, digest, session, expected, terminal) =>
        ResolveThrowsExactly(s.book, s.access.policy, s.generation, key, plan, to, digest, session, expected, terminal);
      case ReleaseUnsentRisk(key, plan, expected, session, proof) =>
        ReleaseUnsentSafe(s.book, s.access.policy, s.generation, key, plan, expected, session, proof);
      case _ =>
    }
    if OutputAt(r, i) == Risk(Thrown) {
      RunThrows(r, i);
    }
  }
}
