/** Exactly which transactions leave a book that can still be read, as seen from the state they start from. */
module Readability {
  import opened Options
  import opened Amounts
  import opened RiskKeys
  import opened Collections
  import opened Governance
  import opened Sums
  import opened GovernanceStore
  import opened RiskBook
  import opened Conservation
  import opened Progress
  import opened Commands
  import opened Posting
  import opened Installation
  import opened Runs
  import opened RunTheorems
  import opened Authority
  import opened Throws
  import opened Sequencing

  // ---------- how far a book grows ----------

  /** How often the sequence rises, and what is added to the consumed loss. */
  datatype Growth = Growth(rises: nat, loss: int)

  const STILL := Growth(0, 0)

  /** The sequence after so many increments on doubles. */
  function Risen(n: int, rises: nat): int {
    if n + rises <= MAX_SAFE + 1 then n + rises else MAX_SAFE + 1
  }

  ghost predicate Grown(b: Book, d: Book, g: Growth) {
    && b.meta.Some? && d.meta.Some?
    && d.meta.value.sequence == Risen(b.meta.value.sequence, g.rises)
    && d.meta.value.consumedUsd == b.meta.value.consumedUsd + g.loss
  }

  /** The book has room for so much growth. */
  predicate Room(b: Book, g: Growth) {
    b.meta.Some? && b.meta.value.sequence + g.rises <= MAX_SAFE && b.meta.value.consumedUsd + g.loss < TEXT_LIMIT
  }

  /** A readable book that grows can be read afterwards exactly when it had room for that. */
  lemma GrownReadable(b: Book, d: Book, g: Growth)
    requires Readable(b) && Sound(d) && Grown(b, d, g)
    ensures Readable(d) <==> Room(b, g)
  {
    hide Sound, Readable;
    ReadableSequence(b);
    ReadableExactly(d);
  }

  lemma SameGrown(b: Book)
    requires Readable(b)
    ensures Grown(b, b, STILL) && Room(b, STILL)
  {
    hide ValidMeta;
    ReadableSequence(b);
    ConsumedReadable(b);
  }

  lemma ConsumedReadable(b: Book)
    requires Readable(b)
    ensures b.meta.Some? && b.meta.value.consumedUsd < TEXT_LIMIT
  {
    hide Sum;
  }

  /** One more increment. */
  lemma OnceGrown(b: Book, d: Book, f: Book, g: Growth)
    requires Readable(b) && Grown(b, d, g) && f.meta.Some?
    requires f.meta.value.sequence == NextSequence(d.meta.value.sequence) && f.meta.value.consumedUsd == d.meta.value.consumedUsd
    ensures Grown(b, f, g.(rises := g.rises + 1))
  {
    hide Readable;
    ReadableSequence(b);
  }

  // ---------- a census ----------

  /** What charging a census does. */
  function CensusGrowth(b: Book, c: Census): Growth {
    var added := Added(b.losses, c.rows);
    if added > 0 then Growth(1, added) else STILL
  }

  lemma ChargeGrows(b: Book, c: Census)
    requires Readable(b) && ChargeCensus(b, c).Some?
    ensures Grown(b, ChargeCensus(b, c).value, CensusGrowth(b, c))
  {
    hide NoRegression, Added, Raised, Readable;
    ReadableSequence(b);
  }

  // ---------- RESERVE ----------

  /** What a reservation does: only its census if it finds an entry or is refused late, nothing if it throws. */
  ghost function ReserveGrowth(b: Book, access: Option<Policy>, generation: int, policy: RiskPolicy, c: Census, o: Order, now: int, native: Option<Evidence>): Growth {
    if !ReserveCharges(b, access, generation, policy, c, o, now, native) || ChargeCensus(b, c).None? then STILL
    else if KeyOf(o) in b.entries then CensusGrowth(b, c)
    else if TooMuch(b, c) then STILL
    else if Admission(ChargeCensus(b, c).value, access.value, policy, External(c.rows), o).Pass? then CensusGrowth(b, c).(rises := CensusGrowth(b, c).rises + 1)
    else CensusGrowth(b, c)
  }

  lemma ReserveRefused(b: Book, access: Option<Policy>, generation: int, policy: RiskPolicy, c: Census, o: Order, now: int, native: Option<Evidence>)
    ensures !ReserveCharges(b, access, generation, policy, c, o, now, native) ==> Reserve(b, access, generation, policy, c, o, now, native).book == b
  {
    hide ReserveArguments, ValidPolicy, Authoritative, ValidMeta, KeyOf, ReserveCharged, NoRegression, Added, Raised;
  }

  lemma ReserveGrows(b: Book, access: Option<Policy>, generation: int, policy: RiskPolicy, c: Census, o: Order, now: int, native: Option<Evidence>)
    requires Sound(b) && Readable(b) && (access.Some? ==> Registered(b, access.value))
    ensures Grown(b, Reserve(b, access, generation, policy, c, o, now, native).book, ReserveGrowth(b, access, generation, policy, c, o, now, native))
  {
    hide Sound, Registered, Reserve, ReserveCharges, ReserveCharged, KeyOf, TooMuch, Overflows, Readable, ChargeCensus, CensusGrowth, Grown, Room, Admission, External;
    SameGrown(b);
    ReserveRefused(b, access, generation, policy, c, o, now, native);
    ReserveCase(b, access, generation, policy, c, o, now, native);
    if ReserveCharges(b, access, generation, policy, c, o, now, native) {
      ChargeReadable(b, access, generation, policy, c, o, now, native);
      ChargeGrows(b, c);
      ChargedSafe(b, access, c, policy, now, false);
      ChargeEntries(b, c);
      var d := ChargeCensus(b, c).value;
      if KeyOf(o) in b.entries {
        ReplayShape(b, d, access.value, policy, c, o, now);
      } else {
        ReserveNewGrows(b, access, generation, policy, c, o, now, native);
      }
    }
  }

  lemma ReserveNewGrows(b: Book, access: Option<Policy>, generation: int, policy: RiskPolicy, c: Census, o: Order, now: int, native: Option<Evidence>)
    requires Sound(b) && Readable(b) && (access.Some? ==> Registered(b, access.value))
    requires ReserveCharges(b, access, generation, policy, c, o, now, native) && ChargeCensus(b, c).Some? && KeyOf(o) !in b.entries
    ensures Grown(b, ReserveCharged(b, ChargeCensus(b, c).value, access.value, policy, c, o, now).book, ReserveGrowth(b, access, generation, policy, c, o, now, native))
  {
    hide Sound, Registered, ReserveCharges, ReserveCharged, KeyOf, TooMuch, Overflows, Readable, ChargeCensus, CensusGrowth, Grown, Room, Admission, External,
         ReserveContext, Parseable, NewEntry;
    SameGrown(b);
    ReadableSequence(b);
    ChargeReadable(b, access, generation, policy, c, o, now, native);
    var d := ChargeCensus(b, c).value;
    ChargeGrows(b, c);
    ChargedSafe(b, access, c, policy, now, false);
    ChargeEntries(b, c);
    ChargeOverflows(b, c);
    OverflowIs(b, c);
    AdmissionThrows(d, access.value, policy, External(c.rows), o);
    NotAdmitted(b, d, access.value, policy, c, o, now);
    if Admission(d, access.value, policy, External(c.rows), o).Pass? {
      ChargeContext(b, access, generation, policy, c, o, now, native);
      AdmittedGrows(b, d, access.value, policy, c, o, now, CensusGrowth(b, c));
    }
  }

  lemma AdmittedGrows(b: Book, d: Book, p: Policy, policy: RiskPolicy, c: Census, o: Order, now: int, g: Growth)
    requires Readable(b) && Grown(b, d, g) && Sound(d) && ReserveContext(d, p, policy, c, o, now)
    requires KeyOf(o) !in d.entries && Admission(d, p, policy, External(c.rows), o).Pass?
    ensures Grown(b, ReserveCharged(b, d, p, policy, c, o, now).book, g.(rises := g.rises + 1))
  {
    hide Sound, ReserveCharged, KeyOf, Readable, Admission, External, ReserveContext, Parseable, NewEntry, SaveEntry, WithinCaps, Forward, Registered, Units, NextRecord,
         AccountOf, StrategyOf, Usd, Sum, Overlay, NextSequence, Risen;
    ReserveCreates(b, d, p, policy, c, o, now);
    SavedParts(d, NewEntry(o, c, now), Units(o.lossUsdt).GetOr(0));
    OnceGrown(b, d, ReserveCharged(b, d, p, policy, c, o, now).book, g);
  }

  lemma NotAdmitted(before: Book, b: Book, p: Policy, policy: RiskPolicy, c: Census, o: Order, now: int)
    requires b.meta.Some? && KeyOf(o) !in b.entries
    ensures Admission(b, p, policy, External(c.rows), o).Throw? ==> ReserveCharged(before, b, p, policy, c, o, now).book == before
    ensures Admission(b, p, policy, External(c.rows), o).Deny? ==> ReserveCharged(before, b, p, policy, c, o, now).book == b
  {
    hide KeyOf, Admission, NewEntry, SaveEntry, External, Units;
  }

  lemma ChargeContext(b: Book, access: Option<Policy>, generation: int, policy: RiskPolicy, c: Census, o: Order, now: int, native: Option<Evidence>)
    requires Sound(b) && (access.Some? ==> Registered(b, access.value))
    requires ReserveCharges(b, access, generation, policy, c, o, now, native) && ChargeCensus(b, c).Some?
    ensures access.Some? && ReserveContext(ChargeCensus(b, c).value, access.value, policy, c, o, now)
  {
    hide Sound, Registered, ConversionProven, InScope, CensusRisk, ValidPolicy, Authoritative, ValidMeta, NoRegression, KeyOf, ChargeCensus;
    ReadableRoom(b);
    ChargedSafe(b, access, c, policy, now, false);
  }

  // ---------- BEGIN_POST ----------

  /** The post passes every refusal up to the charge of its census. */
  ghost predicate PostCharges(b: Book, access: Option<Policy>, generation: int, key: string, plan: string, revision: int, digest: string, native: Option<PostProof>) {
    && native.Some? && PostArguments(key, plan, revision, digest, native.value) && generation == native.value.generation
    && access.Some? && ValidPolicy(access.value) && access.value.revision == revision
    && Projected(access.value).Some? && Projected(access.value).value.enabled
    && CensusRisk(native.value.census, Projected(access.value).value, native.value.now, true).Some?
    && Readable(b) && NoRegression(b.losses, native.value.census.rows)
  }

  /** It passes the refusals after that as well. */
  ghost predicate PostGoes(d: Book, p: Policy, key: string, plan: string, revision: int, n: PostProof)
    requires d.meta.Some? && Projected(p).Some?
  {
    && d.meta.value.sequence == n.expected && HeldExactly(d, key, plan, revision)
    && PostAdmission(d, p, Projected(p).value, External(n.census.rows), d.entries[key], n.now).Pass?
  }

  /** What a post does: only its census if it is refused late. */
  ghost function PostGrowth(b: Book, access: Option<Policy>, generation: int, key: string, plan: string, revision: int, digest: string, native: Option<PostProof>): Growth {
    if !PostCharges(b, access, generation, key, plan, revision, digest, native) || ChargeCensus(b, native.value.census).None? then STILL
    else if PostGoes(ChargeCensus(b, native.value.census).value, access.value, key, plan, revision, native.value) then
      CensusGrowth(b, native.value.census).(rises := CensusGrowth(b, native.value.census).rises + 1)
    else CensusGrowth(b, native.value.census)
  }

  lemma PostCase(b: Book, access: Option<Policy>, generation: int, key: string, plan: string, revision: int, digest: string, native: Option<PostProof>)
    ensures !PostCharges(b, access, generation, key, plan, revision, digest, native) ==> BeginPost(b, access, generation, key, plan, revision, digest, native).book == b
    ensures PostCharges(b, access, generation, key, plan, revision, digest, native) ==>
              && b.meta.Some? && native.Some? && access.Some? && Projected(access.value).Some? && Hex(digest) && SafeInt(native.value.now)
              && CensusRisk(native.value.census, Projected(access.value).value, native.value.now, true).Some?
              && ChargeCensus(b, native.value.census).Some?
              && BeginPost(b, access, generation, key, plan, revision, digest, native) ==
                 PostCharged(b, ChargeCensus(b, native.value.census).value, access.value, Projected(access.value).value, key, plan, revision, digest, native.value)
  {
    hide Hex, ValidPostProof, ValidPolicy, Projected, CensusRisk, ValidMeta, NoRegression, Added, Raised, PostCharged;
  }

  lemma PostStays(before: Book, d: Book, p: Policy, key: string, plan: string, revision: int, digest: string, n: PostProof)
    requires d.meta.Some? && Projected(p).Some? && !PostGoes(d, p, key, plan, revision, n)
    ensures PostCharged(before, d, p, Projected(p).value, key, plan, revision, digest, n).book == d
    ensures PostCharged(before, d, p, Projected(p).value, key, plan, revision, digest, n).reply.Denied?
  {
    hide Projected, ValidEntry, PostAdmission, External, SaveEntry;
    if key in d.entries {
      PostNeverThrows(d, p, Projected(p).value, External(n.census.rows), d.entries[key], n.now);
    }
  }

  lemma PostGrows(b: Book, access: Option<Policy>, generation: int, key: string, plan: string, revision: int, digest: string, native: Option<PostProof>)
    requires Sound(b) && Readable(b) && (access.Some? ==> Registered(b, access.value))
    ensures Grown(b, BeginPost(b, access, generation, key, plan, revision, digest, native).book, PostGrowth(b, access, generation, key, plan, revision, digest, native))
    ensures BeginPost(b, access, generation, key, plan, revision, digest, native).reply.PostAuthorized? && native.Some? ==>
              && PostGrowth(b, access, generation, key, plan, revision, digest, native) ==
                   CensusGrowth(b, native.value.census).(rises := CensusGrowth(b, native.value.census).rises + 1)
              && b.meta.Some? && native.value.expected == Risen(b.meta.value.sequence, CensusGrowth(b, native.value.census).rises)
  {
    hide Sound, Registered, BeginPost, PostCharges, PostCharged, PostGoes, Readable, ChargeCensus, CensusGrowth, Grown, Room, Projected, CensusRisk, Hex, Forward, Risen;
    SameGrown(b);
    PostCase(b, access, generation, key, plan, revision, digest, native);
    PostUncharged(b, access, generation, key, plan, revision, digest, native);
    if PostCharges(b, access, generation, key, plan, revision, digest, native) {
      var p, n := access.value, native.value;
      var d := ChargeCensus(b, n.census).value;
      ReadableRoom(b);
      ChargedSafe(b, access, n.census, Projected(p).value, n.now, true);
      ChargeGrows(b, n.census);
      if PostGoes(d, p, key, plan, revision, n) {
        PostGoesGrows(b, d, p, key, plan, revision, digest, n, CensusGrowth(b, n.census));
        ExpectedIs(b, d, p, key, plan, revision, n, CensusGrowth(b, n.census));
      } else {
        PostStays(b, d, p, key, plan, revision, digest, n);
      }
    }
  }

  lemma PostUncharged(b: Book, access: Option<Policy>, generation: int, key: string, plan: string, revision: int, digest: string, native: Option<PostProof>)
    ensures BeginPost(b, access, generation, key, plan, revision, digest, native).reply.PostAuthorized? ==> PostCharges(b, access, generation, key, plan, revision, digest, native)
  {
    hide Hex, PostArguments, ValidPolicy, Projected, CensusRisk, ValidMeta, NoRegression, Added, Raised, PostCharged;
  }

  lemma PostGoesGrows(b: Book, d: Book, p: Policy, key: string, plan: string, revision: int, digest: string, n: PostProof, g: Growth)
    requires Readable(b) && Grown(b, d, g) && Sound(d) && |d.entries| <= MAX_SAFE && Hex(digest) && SafeInt(n.now)
    requires Projected(p).Some? && PostGoes(d, p, key, plan, revision, n)
    ensures Grown(b, PostCharged(b, d, p, Projected(p).value, key, plan, revision, digest, n).book, g.(rises := g.rises + 1))
  {
    hide Sound, Readable, PostCharged, Projected, PostAdmission, External, HeldExactly, Hex, Granted, Forward, NextSequence, Risen;
    PostPasses(b, d, p, Projected(p).value, key, plan, revision, digest, n);
    var out := PostCharged(b, d, p, Projected(p).value, key, plan, revision, digest, n);
    GrantedNumbers(d, p, Projected(p).value, key, plan, revision, digest, n, out);
    OnceGrown(b, d, out.book, g);
  }

  lemma GrantedNumbers(d: Book, p: Policy, policy: RiskPolicy, key: string, plan: string, revision: int, digest: string, n: PostProof, out: Outcome)
    requires d.meta.Some? && Granted(d, p, policy, key, plan, revision, digest, n, out)
    ensures out.book.meta.Some? && out.book.meta.value.sequence == NextSequence(d.meta.value.sequence) && out.book.meta.value.consumedUsd == d.meta.value.consumedUsd
    ensures d.meta.value.sequence == n.expected
  {
    hide HeldExactly, WithinCaps, External, Grants, Sum, Overlay, PostedEntry, Usdt, NextSequence;
  }

  /** An authorized post leaves a book that can be read exactly when its census does not report too much and its sequence is not the last one. */
  lemma PostKeepsReadable(b: Book, access: Option<Policy>, generation: int, key: string, plan: string, revision: int, digest: string, n: PostProof)
    requires Sound(b) && (access.Some? ==> Registered(b, access.value))
    requires BeginPost(b, access, generation, key, plan, revision, digest, Some(n)).reply.PostAuthorized?
    ensures Readable(BeginPost(b, access, generation, key, plan, revision, digest, Some(n)).book) <==> !TooMuch(b, n.census) && n.expected < MAX_SAFE
  {
    hide Sound, Registered, BeginPost, PostCharges, PostGrowth, Readable, ChargeCensus, PostMeaning, Grown, Room, CensusGrowth, TooMuch, Risen, Forward;
    var out := BeginPost(b, access, generation, key, plan, revision, digest, Some(n));
    BeginPostSafe(b, access, generation, key, plan, revision, digest, Some(n));
    PostUncharged(b, access, generation, key, plan, revision, digest, Some(n));
    PostReadable(b, access, generation, key, plan, revision, digest, Some(n));
    PostGrows(b, access, generation, key, plan, revision, digest, Some(n));
    GrownReadable(b, out.book, PostGrowth(b, access, generation, key, plan, revision, digest, Some(n)));
    CensusRoom(b, n.census, n.expected);
  }

  lemma ExpectedIs(b: Book, d: Book, p: Policy, key: string, plan: string, revision: int, n: PostProof, g: Growth)
    requires Grown(b, d, g) && Projected(p).Some? && PostGoes(d, p, key, plan, revision, n)
    ensures b.meta.Some? && n.expected == Risen(b.meta.value.sequence, g.rises)
  {
    hide Projected, HeldExactly, PostAdmission, External, Risen;
  }

  lemma CensusRoom(b: Book, c: Census, expected: int)
    requires Readable(b) && expected == Risen(b.meta.value.sequence, CensusGrowth(b, c).rises)
    ensures Room(b, CensusGrowth(b, c).(rises := CensusGrowth(b, c).rises + 1)) <==> !TooMuch(b, c) && expected < MAX_SAFE
  {
    hide Added, Readable;
    ReadableSequence(b);
    ConsumedReadable(b);
  }

  lemma PostReadable(b: Book, access: Option<Policy>, generation: int, key: string, plan: string, revision: int, digest: string, native: Option<PostProof>)
    requires PostCharges(b, access, generation, key, plan, revision, digest, native)
    ensures Readable(b)
  {
    hide PostArguments, ValidPolicy, Projected, CensusRisk, ValidMeta, NoRegression;
  }

  // ---------- RESOLVE ----------

  /** The resolution keeps the occupancy, and nothing refuses it. */
  ghost predicate ResolveMoves(b: Book, generation: int, key: string, plan: string, to: EntryState, digest: string, session: int, expected: int) {
    && (to.Unknown? || to.Open?) && Hex(plan) && Hex(digest) && SafeInt(session) && session >= 1 && SafeInt(expected) && expected >= 1
    && Readable(b) && generation == session && b.meta.value.sequence == expected && Resolvable(b, key, plan, to)
  }

  /** What a terminal release does: only its census if its record goes back behind it, nothing if it throws. */
  function TerminalGrowth(b: Book, account: string, t: TerminalProof): Growth
    requires b.meta.Some?
  {
    if Units(t.ledger.loss).GetOr(0) < Get(ChargedLosses(b, Some(t)), account) then CensusGrowth(b, t.census)
    else if TooMuch(b, t.census) then STILL
    else Growth(Charges(b, Released, Some(t)), ConsumedAfter(b, account, Released, Some(t)) - b.meta.value.consumedUsd)
  }

  ghost function ResolveGrowth(b: Book, access: Option<Policy>, generation: int, key: string, plan: string, to: EntryState, digest: string, session: int, expected: int, terminal: Option<TerminalProof>): Growth {
    if ResolveMoves(b, generation, key, plan, to, digest, session, expected) then Growth(1, 0)
    else if b.meta.Some? && key in b.entries && terminal.Some?
            && TerminalAccepted(b, access, generation, key, plan, to, digest, session, expected, terminal) then TerminalGrowth(b, AccountOf(b.entries[key]), terminal.value)
    else STILL
  }

  lemma ResolveCase(b: Book, access: Option<Policy>, generation: int, key: string, plan: string, to: EntryState, digest: string, session: int, expected: int, terminal: Option<TerminalProof>)
    ensures ResolveMoves(b, generation, key, plan, to, digest, session, expected) ==>
              && b.meta.Some? && key in b.entries && Readable(b) && Hex(digest) && !to.Released? && !to.Posted? && Resolvable(b, key, plan, to)
              && !TerminalAccepted(b, access, generation, key, plan, to, digest, session, expected, terminal)
              && Resolve(b, access, generation, key, plan, to, digest, session, expected, terminal) == MoveEntry(b, b.entries[key], to, digest)
    ensures && !ResolveMoves(b, generation, key, plan, to, digest, session, expected)
            && !TerminalAccepted(b, access, generation, key, plan, to, digest, session, expected, terminal) ==>
              Resolve(b, access, generation, key, plan, to, digest, session, expected, terminal).book == b
  {
    hide Hex, ValidMeta, ValidEntry, Allowed, TerminalProven, Projected, CensusRisk, NoRegression, Added, Raised, ReleaseCharged, MoveEntry;
  }

  lemma ResolveGrows(b: Book, access: Option<Policy>, generation: int, key: string, plan: string, to: EntryState, digest: string, session: int, expected: int, terminal: Option<TerminalProof>)
    requires Sound(b) && Readable(b) && (access.Some? ==> Registered(b, access.value))
    ensures Grown(b, Resolve(b, access, generation, key, plan, to, digest, session, expected, terminal).book,
                  ResolveGrowth(b, access, generation, key, plan, to, digest, session, expected, terminal))
  {
    hide Sound, Registered, Resolve, ResolveMoves, TerminalAccepted, MoveEntry, Readable, TerminalGrowth, Grown, Room, Hex, Resolvable, AccountOf;
    SameGrown(b);
    ResolveCase(b, access, generation, key, plan, to, digest, session, expected, terminal);
    if ResolveMoves(b, generation, key, plan, to, digest, session, expected) {
      MovesNeverThrow(b, key, plan, to, digest);
      MoveGrows(b, b.entries[key], to, digest, terminal);
    } else if TerminalAccepted(b, access, generation, key, plan, to, digest, session, expected, terminal) {
      TerminalGrows(b, access, generation, key, plan, to, digest, session, expected, terminal);
    }
  }

  lemma MoveGrows(b: Book, e: Entry, to: EntryState, digest: string, terminal: Option<TerminalProof>)
    requires Readable(b) && !MoveEntry(b, e, to, digest).reply.Thrown? && !to.Released?
    ensures Grown(b, MoveEntry(b, e, to, digest).book, Growth(1, 0))
  {
    hide Readable, SaveEntry, MovedEntry;
    ReadableSequence(b);
    MoveNumbers(b, e, to, digest, terminal);
  }

  lemma AcceptedParts(b: Book, access: Option<Policy>, generation: int, key: string, plan: string, to: EntryState, digest: string, session: int, expected: int, terminal: Option<TerminalProof>)
    requires TerminalAccepted(b, access, generation, key, plan, to, digest, session, expected, terminal)
    ensures Readable(b) && key in b.entries && terminal.Some? && to == Released
    ensures access.Some? && Projected(access.value).Some? && CensusRisk(terminal.value.census, Projected(access.value).value, terminal.value.now, false).Some?
    ensures TerminalCharges(b, access, generation, key, plan, to, digest, session, expected, terminal) <==>
              Get(ChargedLosses(b, terminal), AccountOf(b.entries[key])) <= Units(terminal.value.ledger.loss).GetOr(0)
  {
    hide Hex, ValidMeta, ValidEntry, TerminalProven, Projected, CensusRisk, NoRegression, ChargedLosses, Units, AccountOf, Allowed;
  }

  lemma TerminalGrows(b: Book, access: Option<Policy>, generation: int, key: string, plan: string, to: EntryState, digest: string, session: int, expected: int, terminal: Option<TerminalProof>)
    requires Sound(b) && (access.Some? ==> Registered(b, access.value))
    requires TerminalAccepted(b, access, generation, key, plan, to, digest, session, expected, terminal)
    ensures b.meta.Some? && key in b.entries && terminal.Some?
    ensures Grown(b, Resolve(b, access, generation, key, plan, to, digest, session, expected, terminal).book,
                  TerminalGrowth(b, AccountOf(b.entries[key]), terminal.value))
  {
    hide Sound, Registered, Resolve, TerminalAccepted, TerminalCharges, ReleaseCharged, TooMuch, Readable, ChargeCensus, CensusRisk, Projected, ChargedLosses, AccountOf,
         Units, Grown, Room, Charges, ConsumedAfter, CensusGrowth, Parseable;
    AcceptedParts(b, access, generation, key, plan, to, digest, session, expected, terminal);
    SameGrown(b);
    ReadableSequence(b);
    TerminalCase(b, access, generation, key, plan, to, digest, session, expected, terminal);
    ChargedLossesAre(b, terminal);
    CensusReadable(b, access, key, terminal);
    var t := terminal.value;
    var d := ChargeCensus(b, t.census).value;
    RecordReply(b, d, b.entries[key], digest, t);
    if Units(t.ledger.loss).GetOr(0) < Get(ChargedLosses(b, terminal), AccountOf(b.entries[key])) {
      ChargeGrows(b, t.census);
    } else {
      ResolveThrowsExactly(b, access, generation, key, plan, to, digest, session, expected, terminal);
      if !TooMuch(b, t.census) {
        UpdatedGrows(b, access, generation, key, plan, to, digest, session, expected, terminal);
      }
    }
  }

  /** The book each answer of a terminal release leaves. */
  lemma RecordReply(before: Book, b: Book, e: Entry, digest: string, t: TerminalProof)
    requires b.meta.Some? && Parseable(Get(b.losses, AccountOf(e)))
    ensures var out := ReleaseCharged(before, b, e, digest, t);
            if Units(t.ledger.loss).GetOr(0) < Get(b.losses, AccountOf(e)) then out.book == b
            else (out.reply.Thrown? && out.book == before) || out.reply.Updated?
  {
    hide AccountOf, Units, LedgerRelease, Parseable;
  }

  lemma UpdatedGrows(b: Book, access: Option<Policy>, generation: int, key: string, plan: string, to: EntryState, digest: string, session: int, expected: int, terminal: Option<TerminalProof>)
    requires Readable(b) && key in b.entries && terminal.Some? && to.Released?
    requires Resolve(b, access, generation, key, plan, to, digest, session, expected, terminal).reply.Updated?
    ensures Grown(b, Resolve(b, access, generation, key, plan, to, digest, session, expected, terminal).book,
                  Growth(Charges(b, Released, terminal), ConsumedAfter(b, AccountOf(b.entries[key]), Released, terminal) - b.meta.value.consumedUsd))
  {
    hide Readable, Resolve, ConsumedAfter, AccountOf, Charges;
    ReadableSequence(b);
    ResolveNumbers(b, access, generation, key, plan, to, digest, session, expected, terminal);
    ChargesOnceOrTwice(b, to, terminal);
  }

  // ---------- RELEASE_UNSENT ----------

  /** The unsent release writes: it releases an entry or leaves a new fence. */
  ghost predicate UnsentWrites(b: Book, access: Option<Policy>, generation: int, key: string, plan: string, expected: int, session: int, proof: UnsentProof) {
    && UnsentArguments(key, plan, expected, session, proof) && Readable(b) && generation == session && b.meta.value.sequence == expected
    && (if key in b.entries then UnsentMatches(b.entries[key], plan, proof) else key !in b.fences && access.Some? && ValidPolicy(access.value))
  }

  ghost function UnsentGrowth(b: Book, access: Option<Policy>, generation: int, key: string, plan: string, expected: int, session: int, proof: UnsentProof): Growth {
    if UnsentWrites(b, access, generation, key, plan, expected, session, proof) then Growth(1, 0) else STILL
  }

  lemma UnsentCase(b: Book, access: Option<Policy>, generation: int, key: string, plan: string, expected: int, session: int, proof: UnsentProof)
    ensures !UnsentWrites(b, access, generation, key, plan, expected, session, proof) ==> ReleaseUnsent(b, access, generation, key, plan, expected, session, proof).book == b
    ensures UnsentWrites(b, access, generation, key, plan, expected, session, proof) ==>
              && (key !in b.entries ==> key !in b.fences)
              && !ReleaseUnsent(b, access, generation, key, plan, expected, session, proof).reply.Denied?
  {
    hide UnsentArguments, ValidMeta, UnsentMatches, ValidPolicy, SaveEntry, MovedEntry, Usdt;
  }

  lemma UnsentGrows(b: Book, access: Option<Policy>, generation: int, key: string, plan: string, expected: int, session: int, proof: UnsentProof)
    requires Sound(b) && Readable(b) && (access.Some? ==> Registered(b, access.value))
    ensures Grown(b, ReleaseUnsent(b, access, generation, key, plan, expected, session, proof).book, UnsentGrowth(b, access, generation, key, plan, expected, session, proof))
  {
    hide Sound, Registered, ReleaseUnsent, UnsentWrites, Readable, Forward, Retired, MovedTo, NextSequence;
    SameGrown(b);
    ReadableSequence(b);
    UnsentCase(b, access, generation, key, plan, expected, session, proof);
    ReleaseUnsentSafe(b, access, generation, key, plan, expected, session, proof);
    if UnsentWrites(b, access, generation, key, plan, expected, session, proof) {
      UnsentSequence(b, access, generation, key, plan, expected, session, proof);
      UnsentConsumed(b, access, generation, key, plan, expected, session, proof);
      NextRisen(b.meta.value.sequence);
    }
  }

  lemma NextRisen(n: int)
    requires n <= MAX_SAFE
    ensures NextSequence(n) == Risen(n, 1)
  {
  }

  lemma UnsentConsumed(b: Book, access: Option<Policy>, generation: int, key: string, plan: string, expected: int, session: int, proof: UnsentProof)
    requires b.meta.Some?
    ensures var out := ReleaseUnsent(b, access, generation, key, plan, expected, session, proof);
            out.book.meta.Some? && out.book.meta.value.consumedUsd == b.meta.value.consumedUsd
  {
    hide UnsentArguments, ValidMeta, ReleaseEntry, FenceKey;
    FenceConsumed(b, access, key, proof);
    if key in b.entries {
      EntryConsumed(b, b.entries[key], plan, proof);
    }
  }

  lemma EntryConsumed(b: Book, e: Entry, plan: string, proof: UnsentProof)
    requires b.meta.Some?
    ensures var out := ReleaseEntry(b, e, plan, proof); out.book.meta.Some? && out.book.meta.value.consumedUsd == b.meta.value.consumedUsd
  {
    hide UnsentMatches, SaveEntry, MovedEntry, Usdt, NextSequence, NextRecord, AccountOf, StrategyOf, Usd;
    if SaveEntry(b, MovedEntry(e, Released, proof.digest), 0 - Usdt(e)).Some? {
      SavedParts(b, MovedEntry(e, Released, proof.digest), 0 - Usdt(e));
    }
  }

  lemma FenceConsumed(b: Book, access: Option<Policy>, key: string, proof: UnsentProof)
    requires b.meta.Some?
    ensures var out := FenceKey(b, access, key, proof); out.book.meta.Some? && out.book.meta.value.consumedUsd == b.meta.value.consumedUsd
  {
    hide ValidPolicy, SameFence, NextSequence;
  }

  // ---------- lowering the campaign limit ----------

  /** The request lowers the limit: it is new, well formed and current, and the lower limit still covers what is charged. */
  ghost predicate Lowers(s: State, body: CampaignBody) {
    && CampaignWellFormed(body) && body.key !in s.campaignOperations && s.access.policy.Some? && ValidPolicy(s.access.policy.value)
    && s.access.policy.value.revision == body.expected
    && Units(body.limit).GetOr(0) < Units(s.access.policy.value.campaignLimit).GetOr(0)
    && ValidPolicy(s.access.policy.value.(revision := s.access.policy.value.revision + 1, campaignLimit := body.limit))
    && LowerRiskBookLimit(s.book, body.limit).Some?
  }

  lemma LowerGrows(s: State, body: CampaignBody)
    requires Readable(s.book)
    ensures Grown(s.book, CampaignStep(s, body).0.book, if Lowers(s, body) then Growth(1, 0) else STILL)
  {
    hide ValidMeta, ValidPolicy, Units, CampaignWellFormed;
    ReadableSequence(s.book);
    SameGrown(s.book);
  }

  // ---------- one step ----------

  /** What a command does to the sequence and the consumed loss, as far as the state before it tells. */
  ghost function GrowthOf(s: State, c: Command): Growth {
    match c
    case ReserveRisk(policy, census, order, now, native) => ReserveGrowth(s.book, s.access.policy, s.generation, policy, census, order, now, native)
    case BeginRiskPost(key, plan, revision, digest, post) => PostGrowth(s.book, s.access.policy, s.generation, key, plan, revision, digest, post)
    case ResolveRisk(key, plan, to, digest, session, expected, terminal) =>
      ResolveGrowth(s.book, s.access.policy, s.generation, key, plan, to, digest, session, expected, terminal)
    case ReleaseUnsentRisk(key, plan, expected, session, proof) =>
      UnsentGrowth(s.book, s.access.policy, s.generation, key, plan, expected, session, proof)
    case LowerCampaign(body) => if Lowers(s, body) then Growth(1, 0) else STILL
    case _ => STILL
  }

  lemma StepGrows(s: State, c: Command)
    requires Inv(s) && Readable(s.book)
    ensures Grown(s.book, Step(s, c).0.book, GrowthOf(s, c))
  {
    hide Inv, Sound, Registered, Readable, Grown, Reserve, BeginPost, Resolve, ReleaseUnsent, CampaignStep, Mutate, ReserveGrowth, PostGrowth, ResolveGrowth, UnsentGrowth,
         Lowers, Installable;
    InvParts(s);
    RegisteredAt(s);
    SameGrown(s.book);
    ReadableSequence(s.book);
    match c {
      case ReserveRisk(policy, census, order, now, native) =>
        ReserveGrows(s.book, s.access.policy, s.generation, policy, census, order, now, native);
      case BeginRiskPost(key, plan, revision, digest, post) =>
        PostGrows(s.book, s.access.policy, s.generation, key, plan, revision, digest, post);
      case ResolveRisk(key, plan, to, digest, session, expected, terminal) =>
        ResolveGrows(s.book, s.access.policy, s.generation, key, plan, to, digest, session, expected, terminal);
      case ReleaseUnsentRisk(key, plan, expected, session, proof) =>
        UnsentGrows(s.book, s.access.policy, s.generation, key, plan, expected, session, proof);
      case LowerCampaign(body) =>
        LowerGrows(s, body);
      case _ =>
    }
  }

  /** The command leaves a book that can be read: the book has room for what the command does. */
  ghost predicate KeepsReadable(s: State, c: Command) {
    Room(s.book, GrowthOf(s, c))
  }

  /** A readable book of a reachable state can be read after a command exactly when it had room for what the command does. */
  lemma StepReadable(s: State, c: Command)
    requires Inv(s) && Readable(s.book)
    ensures Readable(Step(s, c).0.book) <==> KeepsReadable(s, c)
  {
    hide Inv, Sound, Readable, Grown, Room, Step, GrowthOf, StateLater;
    StepInv(s, c);
    InvParts(Step(s, c).0);
    StepGrows(s, c);
    GrownReadable(s.book, Step(s, c).0.book, GrowthOf(s, c));
  }

  // ---------- runs ----------

  /** Every command between two states of a run leaves the book readable. */
  ghost predicate AllKeepReadable(r: Run, i: nat, j: nat)
    requires j < |r.states| && j <= |r.commands|
  {
    forall k: nat :: i <= k < j ==> KeepsReadable(r.states[k], r.commands[k])
  }

  /** From a readable book on, the book can be read exactly as long as every command so far had room. */
  lemma {:induction false} RunStaysReadable(r: Run, i: nat, j: nat)
    requires IsRun(r) && i <= j < |r.states| && Readable(r.states[i].book)
    ensures j <= |r.commands|
    ensures Readable(r.states[j].book) <==> AllKeepReadable(r, i, j)
    decreases j - i
  {
    hide Inv, Step, KeepsReadable, Readable, IsRun, StateLater;
    RunLength(r);
    if i < j {
      RunStaysReadable(r, i, j - 1);
      RunInv(r, j - 1);
      RunStep(r, j - 1);
      if Readable(r.states[j - 1].book) {
        StepReadable(r.states[j - 1], r.commands[j - 1]);
      } else {
        ReadableBook(r.states[i].book);
        RunLater(r, i, j - 1);
        LaterMeta(r.states[i], r.states[j - 1]);
        InvParts(r.states[j - 1]);
        UnreadableIsFrozen(r.states[j - 1], r.commands[j - 1]);
      }
    }
  }

  lemma RunLength(r: Run)
    requires IsRun(r)
    ensures |r.states| == |r.commands| + 1
  {
    hide Step;
  }

  lemma ReadableBook(b: Book)
    requires Readable(b)
    ensures b.meta.Some?
  {
    hide ValidMeta;
  }

  lemma LaterMeta(s: State, t: State)
    requires StateLater(s, t) && s.book.meta.Some?
    ensures t.book.meta.Some?
  {
    hide EntriesLater, FencesKept, Sequenced, PolicyLater;
  }
}
