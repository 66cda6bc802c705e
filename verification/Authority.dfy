/** What the native authority reads back from the ledger: account summaries, and the answer to a confirmed unsent release. */
module Authority {
  import opened Options
  import opened Amounts
  import opened RiskKeys
  import opened Governance
  import opened Sums
  import opened GovernanceStore
  import opened RiskBook
  import opened Conservation
  import opened Progress
  import opened Commands
  import opened Posting
  import opened Installation
  import opened Runs
  import opened RunTheorems

  // ---------- account summary ----------

  datatype Summary =
    | StaleSession | AccessMissing | BookUnreadable | AggregateMissing | AggregateCorrupt
    | Observed(sequence: int, revision: int, active: int, occupiedUsd: nat, loss: nat)

  predicate OkxAccountText(s: string) {
    |s| == 73 && s[..9] == "okx:real:" && Hex(s[9..])
  }

  ghost function AccountSummary(s: State, p: Policy, session: int, account: string): Summary {
    if s.generation != session then StaleSession
    else if !OkxAccountText(account) || account !in AccountKeys(p.accounts) then AccessMissing
    else if !Readable(s.book) then BookUnreadable
    else
      var m, row, loss := s.book.meta.value, StoredRecord(s.book, account), Get(s.book.losses, account);
      if account !in s.book.records && account in m.accounts then AggregateMissing
      else if row.usdt != Get(m.accounts, account) || ((row.active == 0) != (row.usd == 0)) then AggregateCorrupt
      else if !SafeInt(row.active) || row.active < 0 || !Parseable(row.usd) || !Parseable(loss) then AggregateCorrupt
      else Observed(m.sequence, p.revision, row.active, row.usd, loss)
  }

  lemma SoundCosts(b: Book)
    requires b.meta.Some? && Sound(b)
    ensures forall k :: k in b.entries ==> Usd(b.entries[k]) > 0
  {
    hide Balanced, Bounded, ValidButClock, Usd;
    SoundParts(b);
  }

  lemma LossReadable(b: Book, account: string)
    requires b.meta.Some? && Sound(b)
    ensures Parseable(Get(b.losses, account)) && b.meta.value.occupiedUsd <= b.meta.value.campaignUsd <= INITIAL_CAMPAIGN
  {
    hide Balanced, EntriesSound;
    SoundParts(b);
  }

  /** No reachable summary finds an aggregate missing or corrupt; a readable book always yields the sums over the entries themselves. */
  lemma SummaryIsExact(r: Run, i: nat, session: int, account: string)
    requires IsRun(r) && i < |r.states| && r.states[i].access.policy.Some?
    ensures var s, p := r.states[i], r.states[i].access.policy.value;
            AccountSummary(s, p, session, account) ==
              if s.generation != session then StaleSession
              else if !OkxAccountText(account) || account !in AccountKeys(p.accounts) then AccessMissing
              else if !Readable(s.book) then BookUnreadable
              else Observed(s.book.meta.value.sequence, p.revision, Total(s.book.entries, OfAccount(account), InCount),
                            Total(s.book.entries, OfAccount(account), InUsd), Get(s.book.losses, account))
  {
    hide Step, IsRun, Inv, Sound, Total, Usd, ValidMeta, Paired, Hex, Balanced, Bounded;
    RunInv(r, i);
    InvParts(r.states[i]);
    var b := r.states[i].book;
    if Readable(b) {
      SoundParts(b);
      StoredRecordIsTotal(b, account);
      SoundCosts(b);
      CostlessWhenIdle(b.entries, OfAccount(account));
      ActiveWithin(b.entries, OfAccount(account));
      ReadableRoom(b);
      AccountWithin(b, account);
      LossReadable(b, account);
    }
  }

  // ---------- reading back ----------

  /** The stored entry as an inspection shows it. */
  ghost predicate Inspected(b: Book, key: string) {
    Readable(b) && key in b.entries && ValidEntry(b.entries[key])
  }

  /** A no-reserve fence as an inspection shows it. */
  ghost predicate FenceInspected(b: Book, key: string, plan: string) {
    && Readable(b) && key in b.fences
    && var f := b.fences[key];
       f.plan == plan && Hex(f.digest) && ValidNoReserveAddress(key, f.account, f.intent) && SafeInt(f.revision) && f.revision > 0
  }

  /** The native answer to an unsent release is positive only when the committed release can be read back. */
  ghost predicate UnsentConfirmed(out: Outcome, key: string, plan: string) {
    out.reply.Updated? && (Inspected(out.book, key) || FenceInspected(out.book, key, plan))
  }

  lemma UnsentEntry(b: Book, access: Option<Policy>, generation: int, key: string, plan: string, expected: int, session: int, proof: UnsentProof)
    requires Sound(b) && (access.Some? ==> Registered(b, access.value))
    requires ReleaseUnsent(b, access, generation, key, plan, expected, session, proof).reply.Updated? && key in b.entries
    ensures var out := ReleaseUnsent(b, access, generation, key, plan, expected, session, proof);
            key in out.book.entries && ValidEntry(out.book.entries[key]) && key !in out.book.fences
  {
    hide Sound, Forward, Registered, ReleaseUnsent, ValidEntry, ValidButClock;
    ReleaseUnsentSafe(b, access, generation, key, plan, expected, session, proof);
    var out := ReleaseUnsent(b, access, generation, key, plan, expected, session, proof);
    UnsentWasValid(b, access, generation, key, plan, expected, session, proof);
    MovedValid(b.entries[key], Released, proof.digest);
    SoundBook(b, key);
    SoundFences(b, key);
  }

  lemma SoundBook(b: Book, key: string)
    requires Sound(b) && key in b.entries
    ensures b.meta.Some?
  {
    hide Balanced, Bounded, EntriesSound;
  }

  lemma SoundFences(b: Book, key: string)
    requires Sound(b) && b.meta.Some? && key in b.entries
    ensures key !in b.fences
  {
    hide Balanced, Bounded, SoundEntry;
  }

  lemma UnsentWasValid(b: Book, access: Option<Policy>, generation: int, key: string, plan: string, expected: int, session: int, proof: UnsentProof)
    requires ReleaseUnsent(b, access, generation, key, plan, expected, session, proof).reply.Updated? && key in b.entries
    ensures ValidEntry(b.entries[key]) && Hex(proof.digest)
  {
    hide ValidMeta, ValidEntry, SaveEntry, Hex, ValidNoReserveAddress, Token, AccountOf;
  }

  lemma MovedValid(e: Entry, to: EntryState, digest: string)
    requires ValidEntry(e) && Hex(digest)
    ensures ValidEntry(MovedEntry(e, to, digest))
  {
    hide ValidOrder, Hex, KeyOf;
  }

  lemma UnsentFence(b: Book, access: Option<Policy>, generation: int, key: string, plan: string, expected: int, session: int, proof: UnsentProof)
    requires ReleaseUnsent(b, access, generation, key, plan, expected, session, proof).reply.Updated? && key !in b.entries
    ensures var out := ReleaseUnsent(b, access, generation, key, plan, expected, session, proof);
            && key in out.book.fences && out.book.entries == b.entries
            && var f := out.book.fences[key];
               && f.plan == plan && Hex(f.digest) && ValidNoReserveAddress(key, f.account, f.intent)
               && (key in b.fences ==> out.book == b)
               && (key !in b.fences ==> access.Some? && ValidPolicy(access.value) && f.revision == access.value.revision)
  {
    hide ValidMeta, Hex, ValidNoReserveAddress, Token, ValidPolicy;
  }

  /** Whether an unsent release, should it commit, will also be confirmed: the sequence has room for it unless the fence stands already, and
      a fence is made, or was made, under a policy that has been changed before. */
  predicate ReadsBack(b: Book, access: Option<Policy>, key: string) {
    && b.meta.Some?
    && if key in b.entries then b.meta.value.sequence < MAX_SAFE
       else if key in b.fences then 0 < b.fences[key].revision <= MAX_SAFE
       else access.Some? && access.value.revision > 0 && b.meta.value.sequence < MAX_SAFE
  }

  /** A committed unsent release is confirmed exactly when that could be seen beforehand; otherwise it is durable but answered as failed. */
  lemma UnsentReadback(b: Book, access: Option<Policy>, generation: int, key: string, plan: string, expected: int, session: int, proof: UnsentProof)
    requires Sound(b) && (access.Some? ==> Registered(b, access.value))
    requires ReleaseUnsent(b, access, generation, key, plan, expected, session, proof).reply.Updated?
    ensures UnsentConfirmed(ReleaseUnsent(b, access, generation, key, plan, expected, session, proof), key, plan) <==> ReadsBack(b, access, key)
  {
    hide Sound, Forward, Registered, ReleaseUnsent, ValidEntry, Hex, ValidNoReserveAddress, Parseable, ValidMeta, Readable, Retired, MovedTo, ValidPolicy;
    var out := ReleaseUnsent(b, access, generation, key, plan, expected, session, proof);
    ReleaseUnsentSafe(b, access, generation, key, plan, expected, session, proof);
    ReadableAfter(b, access, generation, key, plan, expected, session, proof);
    UnsentReadable(b, access, generation, key, plan, expected, session, proof);
    ReadableSequence(b);
    UnsentSequence(b, access, generation, key, plan, expected, session, proof);
    if key in b.entries {
      UnsentEntry(b, access, generation, key, plan, expected, session, proof);
    } else {
      UnsentFence(b, access, generation, key, plan, expected, session, proof);
      if access.Some? && ValidPolicy(access.value) {
        PolicyRevision(access.value);
      }
    }
  }

  lemma ReadableSequence(b: Book)
    requires Readable(b)
    ensures b.meta.Some? && 0 <= b.meta.value.sequence <= MAX_SAFE
  {
    hide Sum;
  }

  lemma PolicyRevision(p: Policy)
    requires ValidPolicy(p)
    ensures 0 <= p.revision <= MAX_SAFE
  {
    hide Units, ValidAccount, Hex;
  }

  lemma UnsentSequence(b: Book, access: Option<Policy>, generation: int, key: string, plan: string, expected: int, session: int, proof: UnsentProof)
    requires ReleaseUnsent(b, access, generation, key, plan, expected, session, proof).reply.Updated? && b.meta.Some?
    ensures var out := ReleaseUnsent(b, access, generation, key, plan, expected, session, proof);
            && out.book.meta.Some?
            && out.book.meta.value.sequence == if key in b.entries || key !in b.fences then NextSequence(b.meta.value.sequence) else b.meta.value.sequence
  {
    hide ValidMeta, UnsentArguments, SaveEntry, UnsentMatches, ValidPolicy, SameFence, NextSequence, Usdt;
    if key in b.entries && SaveEntry(b, MovedEntry(b.entries[key], Released, proof.digest), 0 - Usdt(b.entries[key])).Some? {
      SavedParts(b, MovedEntry(b.entries[key], Released, proof.digest), 0 - Usdt(b.entries[key]));
    }
  }

  lemma ReadableAfter(b: Book, access: Option<Policy>, generation: int, key: string, plan: string, expected: int, session: int, proof: UnsentProof)
    requires Sound(b) && (access.Some? ==> Registered(b, access.value))
    requires ReleaseUnsent(b, access, generation, key, plan, expected, session, proof).reply.Updated?
    ensures var out := ReleaseUnsent(b, access, generation, key, plan, expected, session, proof);
            out.book.meta.Some? && (Readable(out.book) <==> SafeInt(out.book.meta.value.sequence))
  {
    hide Sound, Registered, ReleaseUnsent, ValidEntry, Parseable, ValidMeta, Retired, MovedTo, Sum, Total, FencesKept, EntriesLater, Sequenced, SafeInt;
    var out := ReleaseUnsent(b, access, generation, key, plan, expected, session, proof);
    ReleaseUnsentSafe(b, access, generation, key, plan, expected, session, proof);
    UnsentReadable(b, access, generation, key, plan, expected, session, proof);
    ReadableExactly(b);
    ReadableExactly(out.book);
    MetaOfSound(b);
    MetaOfSound(out.book);
  }

  lemma UnsentReadable(b: Book, access: Option<Policy>, generation: int, key: string, plan: string, expected: int, session: int, proof: UnsentProof)
    requires ReleaseUnsent(b, access, generation, key, plan, expected, session, proof).reply.Updated?
    ensures Readable(b)
  {
    hide ValidMeta, UnsentArguments, ReleaseEntry, FenceKey;
  }

  // ---------- reading back a resolution ----------

  /** The losses recorded once the census of a terminal release has been charged, and how often the sequence rises. */
  function ChargedLosses(b: Book, terminal: Option<TerminalProof>): map<string, nat> {
    if terminal.Some? && Added(b.losses, terminal.value.census.rows) > 0 then Raised(b.losses, terminal.value.census.rows) else b.losses
  }

  function Charges(b: Book, to: EntryState, terminal: Option<TerminalProof>): nat {
    if to.Released? && terminal.Some? && Added(b.losses, terminal.value.census.rows) > 0 then 2 else 1
  }

  /** What a terminal release will have consumed: the losses its census adds, and what its ledger record adds to those. */
  function ConsumedAfter(b: Book, account: string, to: EntryState, terminal: Option<TerminalProof>): int
    requires b.meta.Some?
  {
    if !to.Released? || terminal.None? then b.meta.value.consumedUsd
    else
      var added := Added(b.losses, terminal.value.census.rows);
      b.meta.value.consumedUsd + (if added > 0 then added else 0)
      + Units(terminal.value.ledger.loss).GetOr(0) - Get(ChargedLosses(b, terminal), account)
  }

  /** Whether a resolution, should it commit, will also be confirmed: the sequence has room for it and the loss it records can be read. */
  predicate ResolutionReadsBack(b: Book, key: string, to: EntryState, terminal: Option<TerminalProof>) {
    && b.meta.Some? && key in b.entries
    && b.meta.value.sequence + Charges(b, to, terminal) <= MAX_SAFE
    && ConsumedAfter(b, AccountOf(b.entries[key]), to, terminal) < TEXT_LIMIT
  }

  /** A committed resolution is confirmed exactly when that could be seen beforehand; otherwise it is durable but answered as failed. */
  lemma ResolveReadback(b: Book, access: Option<Policy>, generation: int, key: string, plan: string, to: EntryState, digest: string, session: int, expected: int, terminal: Option<TerminalProof>)
    requires Sound(b) && (access.Some? ==> Registered(b, access.value))
    requires Resolve(b, access, generation, key, plan, to, digest, session, expected, terminal).reply.Updated?
    ensures Inspected(Resolve(b, access, generation, key, plan, to, digest, session, expected, terminal).book, key) <==> ResolutionReadsBack(b, key, to, terminal)
  {
    hide Sound, Forward, Registered, Resolve, ValidEntry, Readable, MovedTo, TerminalAnswer, Allowed, Overflows, Charges, ConsumedAfter, MovedEntry, Hex, NextSequence;
    var out := Resolve(b, access, generation, key, plan, to, digest, session, expected, terminal);
    ResolveSafe(b, access, generation, key, plan, to, digest, session, expected, terminal);
    ResolveWasValid(b, access, generation, key, plan, to, digest, session, expected, terminal);
    MovedThere(b, key, to, digest, out);
    MovedValid(b.entries[key], to, digest);
    ReadableExactly(out.book);
    ReadableSequence(b);
    ResolveNumbers(b, access, generation, key, plan, to, digest, session, expected, terminal);
    Twice(b.meta.value.sequence);
    ChargesOnceOrTwice(b, to, terminal);
  }

  lemma ResolveWasValid(b: Book, access: Option<Policy>, generation: int, key: string, plan: string, to: EntryState, digest: string, session: int, expected: int, terminal: Option<TerminalProof>)
    requires Resolve(b, access, generation, key, plan, to, digest, session, expected, terminal).reply.Updated?
    ensures Readable(b) && key in b.entries && ValidEntry(b.entries[key]) && Hex(digest)
  {
    hide ValidMeta, ValidEntry, MoveEntry, ReleaseTerminal, Hex, Allowed;
  }

  lemma MovedThere(b: Book, key: string, to: EntryState, digest: string, out: Outcome)
    requires MovedTo(b, key, to, digest, out)
    ensures key in b.entries && key in out.book.entries && out.book.entries[key] == MovedEntry(b.entries[key], to, digest)
    ensures out.book.meta.Some?
  {
    hide MovedEntry;
  }

  lemma Twice(n: int)
    requires 0 <= n <= MAX_SAFE
    ensures SafeInt(NextSequence(n)) <==> n + 1 <= MAX_SAFE
    ensures SafeInt(NextSequence(NextSequence(n))) <==> n + 2 <= MAX_SAFE
  {
  }

  lemma ChargesOnceOrTwice(b: Book, to: EntryState, terminal: Option<TerminalProof>)
    ensures Charges(b, to, terminal) == 1 || Charges(b, to, terminal) == 2
  {
  }

  /** Sequence and consumed loss after a committed resolution. */
  lemma ResolveNumbers(b: Book, access: Option<Policy>, generation: int, key: string, plan: string, to: EntryState, digest: string, session: int, expected: int, terminal: Option<TerminalProof>)
    requires Resolve(b, access, generation, key, plan, to, digest, session, expected, terminal).reply.Updated? && b.meta.Some? && key in b.entries
    ensures var out, m := Resolve(b, access, generation, key, plan, to, digest, session, expected, terminal), b.meta.value;
            && out.book.meta.Some?
            && out.book.meta.value.sequence == (if Charges(b, to, terminal) == 1 then NextSequence(m.sequence) else NextSequence(NextSequence(m.sequence)))
            && out.book.meta.value.consumedUsd == ConsumedAfter(b, AccountOf(b.entries[key]), to, terminal)
  {
    hide ValidMeta, Resolvable, SaveEntry, MovedEntry, MoveEntry, ReleaseTerminal, NextSequence, AccountOf, Hex, Charges, ConsumedAfter;
    if to.Released? {
      TerminalNumbers(b, access, b.entries[key], digest, session, terminal);
    } else {
      MoveNumbers(b, b.entries[key], to, digest, terminal);
    }
  }

  lemma MoveNumbers(b: Book, e: Entry, to: EntryState, digest: string, terminal: Option<TerminalProof>)
    requires b.meta.Some? && MoveEntry(b, e, to, digest).reply.Updated? && !to.Released?
    ensures var d := MoveEntry(b, e, to, digest).book;
            && d.meta.Some? && d.meta.value.sequence == NextSequence(b.meta.value.sequence) && d.meta.value.consumedUsd == b.meta.value.consumedUsd
    ensures Charges(b, to, terminal) == 1 && ConsumedAfter(b, AccountOf(e), to, terminal) == b.meta.value.consumedUsd
  {
    hide SaveEntry, MovedEntry, NextSequence, AccountOf;
    SavedParts(b, MovedEntry(e, to, digest), 0);
  }

  lemma TerminalNumbers(b: Book, access: Option<Policy>, e: Entry, digest: string, session: int, terminal: Option<TerminalProof>)
    requires b.meta.Some? && ReleaseTerminal(b, access, e, digest, session, terminal).reply.Updated?
    ensures var d := ReleaseTerminal(b, access, e, digest, session, terminal).book;
            && d.meta.Some?
            && d.meta.value.sequence == (if Charges(b, Released, terminal) == 1 then NextSequence(b.meta.value.sequence) else NextSequence(NextSequence(b.meta.value.sequence)))
            && d.meta.value.consumedUsd == ConsumedAfter(b, AccountOf(e), Released, terminal)
  {
    hide TerminalProven, Projected, CensusRisk, NoRegression, Added, Raised, Units, SaveEntry, MovedEntry, NextSequence, AccountOf, Usdt, Parseable;
    var t := terminal.value;
    var loss := Units(t.ledger.loss).GetOr(0);
    var charged := ChargeCensus(b, t.census).value;
    SavedParts(ChargeLedger(charged, AccountOf(e), loss), MovedEntry(e, Released, digest), 0 - Usdt(e));
  }
}
