/** The durable storage of one installation, updated in place by the transactions of the ledger and of the policy. Each method is
    proved to compute the step that the theorems over runs are about; a transaction that throws leaves the storage as it was. */
module Storage {
  import opened Options
  import opened Amounts
  import opened RiskKeys
  import opened Collections
  import opened Governance
  import opened Sums
  import opened GovernanceStore
  import opened RiskBook
  import opened Installation
  import opened RiskChecks

  /** The map with the listed writes made in order. */
  function PutAll(m: map<string, nat>, updates: seq<(string, nat)>): map<string, nat> {
    if |updates| == 0 then m
    else PutAll(m, updates[..|updates| - 1])[updates[|updates| - 1].0 := updates[|updates| - 1].1]
  }

  /** What the pass over the first `n` rows of a census has added up and will write. */
  ghost predicate Gathered(losses: map<string, nat>, rows: seq<Row>, n: nat, added: int, updates: seq<(string, nat)>) {
    && n <= |rows|
    && NoRegression(losses, rows[..n])
    && added == Added(losses, rows[..n]) && added >= 0
    && PutAll(losses, updates) == Raised(losses, rows[..n])
  }

  lemma GatherNone(losses: map<string, nat>, rows: seq<Row>)
    ensures Gathered(losses, rows, 0, 0, [])
  {
  }

  lemma GatherStep(losses: map<string, nat>, rows: seq<Row>, n: nat, added: int, updates: seq<(string, nat)>)
    requires n < |rows| && Gathered(losses, rows, n, added, updates)
    ensures var a, current := rows[n].account, Units(rows[n].loss);
            if !Parseable(Get(losses, a)) || current.None? || current.value < Get(losses, a) then !NoRegression(losses, rows)
            else Gathered(losses, rows, n + 1, added + current.value - Get(losses, a),
                          if current.value != Get(losses, a) then updates + [(a, current.value)] else updates)
  {
    hide Units, Parseable;
    var before, after := rows[..n], rows[..n + 1];
    assert RowAccounts(after)[..n] == RowAccounts(before);
    assert RowLosses(after)[..n] == RowLosses(before);
    assert after[n] == rows[n] && forall i :: 0 <= i < n ==> after[i] == before[i];
    var update := (rows[n].account, Reported(rows[n]));
    assert (updates + [update])[..|updates|] == updates;
  }

  lemma GatherAll(losses: map<string, nat>, rows: seq<Row>, added: int, updates: seq<(string, nat)>)
    requires Gathered(losses, rows, |rows|, added, updates)
    ensures NoRegression(losses, rows) && added == Added(losses, rows) && PutAll(losses, updates) == Raised(losses, rows)
  {
    hide Units, Parseable;
    assert rows[..|rows|] == rows;
  }

  class DurableStorage {
    var generation: int
    var policy: Option<Policy>
    var accessOperations: map<string, Receipt<Request>>
    var campaignOperations: map<string, Receipt<CampaignBody>>
    var installOperations: map<string, Receipt<InstallBody>>
    var released: bool
    var meta: Option<Meta>
    var entries: map<string, Entry>
    var fences: map<string, Fence>
    var strategies: map<string, nat>
    var records: map<string, AccountRecord>
    var losses: map<string, nat>

    constructor ()
      ensures Stored() == EMPTY
    {
      generation, policy, released, meta := 0, None, false, None;
      accessOperations, campaignOperations, installOperations := map[], map[], map[];
      entries, fences, strategies, records, losses := map[], map[], map[], map[], map[];
    }

    function Contents(): Book
      reads this
    {
      Book(meta, entries, fences, strategies, records, losses)
    }

    function Stored(): State
      reads this
    {
      State(generation, Access(policy, accessOperations), campaignOperations, installOperations, released, Contents())
    }

    method Restore(b: Book)
      modifies `meta, `entries, `fences, `strategies, `records, `losses
      ensures Contents() == b
    {
      meta, entries, fences, strategies, records, losses := b.meta, b.entries, b.fences, b.strategies, b.records, b.losses;
    }

    // ---------- writes inside a transaction ----------

    /** The stored record of an account after a change of `delta`; nothing where the source finds it corrupt and throws. */
    method NextAggregate(m: Meta, a: string, delta: int, usd: nat) returns (next: Option<AccountRecord>)
      ensures next == NextRecord(Contents(), m, a, delta, usd)
    {
      hide Parseable;
      if a !in records && a in m.accounts {
        return None;
      }
      var aggregate := if a in records then records[a] else AccountRecord(0, 0, 0);
      if aggregate.usdt != Get(m.accounts, a) || !SafeInt(aggregate.active) || aggregate.active < 0 || !Parseable(aggregate.usd) {
        return None;
      }
      var count := aggregate.active + (if delta > 0 then 1 else if delta < 0 then -1 else 0);
      var occupied := aggregate.usd + Signed(delta, usd);
      if count < 0 || occupied < 0 || !Parseable(aggregate.usdt) || aggregate.usdt + delta < 0 {
        return None;
      }
      next := Some(AccountRecord(count, occupied, aggregate.usdt + delta));
    }

    /** Stores an entry and its change in every aggregate; nothing is returned where the source throws. */
    method Save(m: Meta, e: Entry, delta: int) returns (next: Option<Meta>)
      modifies `meta, `entries, `strategies, `records
      ensures var saved := SaveEntry(old(Contents()).(meta := Some(m)), e, delta);
              if saved.Some? then Contents() == saved.value && next == saved.value.meta else next.None?
    {
      hide Usd, AccountOf, StrategyOf, NextRecord, Parseable;
      var a, s := AccountOf(e), StrategyOf(e);
      var strategy := Get(strategies, s);
      if !Parseable(strategy) {
        return None;
      }
      var aggregate := NextAggregate(m, a, delta, Usd(e));
      RecordIgnoresMeta(Contents(), Some(m), m, a, delta, Usd(e));
      if aggregate.None? {
        return None;
      }
      records := records[a := aggregate.value];
      var signed := Signed(delta, Usd(e));
      if m.occupiedUsdt + delta < 0 || m.occupiedUsd + signed < 0 || strategy + delta < 0 {
        return None;
      }
      SavedNotNegative(old(Contents()).(meta := Some(m)), e, delta);
      var stored := m.(
        sequence := NextSequence(m.sequence), occupiedUsdt := m.occupiedUsdt + delta, occupiedUsd := m.occupiedUsd + signed,
        accounts := m.accounts[a := Get(m.accounts, a) + delta]);
      strategies := strategies[s := strategy + delta];
      entries := entries[e.key := e];
      meta := Some(stored);
      next := meta;
    }

    /** One pass adds up what a census reports beyond the record and gathers the writes; a second pass makes them. */
    method ApplyCensusLoss(m: Meta, census: Census) returns (next: Option<Meta>)
      requires meta == Some(m)
      modifies `meta, `losses
      ensures next == (if ChargeCensus(old(Contents()), census).Some? then ChargeCensus(old(Contents()), census).value.meta else None)
      ensures Contents() == ChargeCensus(old(Contents()), census).GetOr(old(Contents()))
    {
      hide Units, Parseable, NoRegression, Added, Raised, Gathered, Reported;
      var rows := census.rows;
      var added := 0;
      var updates: seq<(string, nat)> := [];
      GatherNone(losses, rows);
      for n := 0 to |rows|
        invariant Gathered(losses, rows, n, added, updates)
        invariant Contents() == old(Contents())
      {
        var previous, current := Get(losses, rows[n].account), Units(rows[n].loss);
        GatherStep(losses, rows, n, added, updates);
        if !Parseable(previous) || current.None? || current.value < previous {
          return None;
        }
        added := added + current.value - previous;
        if current.value != previous {
          updates := updates + [(rows[n].account, current.value)];
        }
      }
      GatherAll(losses, rows, added, updates);
      var charged := m.(sourceAsOf := census.floor);
      if added > 0 {
        charged := charged.(consumedUsd := m.consumedUsd + added, sequence := NextSequence(m.sequence));
        for n := 0 to |updates|
          invariant losses == PutAll(old(losses), updates[..n])
          invariant Contents() == old(Contents()).(losses := losses)
        {
          assert updates[..n + 1][..n] == updates[..n];
          losses := losses[updates[n].0 := updates[n].1];
        }
        assert updates[..|updates|] == updates;
      }
      meta := Some(charged);
      next := meta;
    }

    // ---------- RESERVE ----------

    method Confirm(p: Policy, snapshot: RiskPolicy) returns (ok: bool)
      ensures ok <==> Authoritative(p, snapshot)
    {
      hide Projected;
      var authority := ProjectRiskPolicy(p);
      ok := && authority.Some? && authority.value.enabled && authority.value.revision == snapshot.revision
            && authority.value.globalLimit == snapshot.globalLimit && authority.value.ceiling == snapshot.ceiling
            && authority.value.accountLimits == snapshot.accountLimits;
    }

    method AdmitCaps(m: Meta, account: Account, snapshot: RiskPolicy, bounds: Bounds, external: map<string, nat>, a: string, usdt: nat)
      returns (verdict: Verdict)
      requires meta == Some(m)
      requires Some(bounds.global) == Units(snapshot.globalLimit) && bounds.accounts.Keys == snapshot.accountLimits.Keys
      requires forall k :: k in snapshot.accountLimits ==> LimitOf(snapshot, k) == Some(bounds.accounts[k])
      ensures verdict == CapAdmission(Contents(), account, snapshot, external, a, usdt)
    {
      hide Units, Sum, Unregistered, OverLimit, Overlay;
      var occupied := LayOver(external, m.accounts);
      if occupied.None? {
        return Deny(ExposureUnregistered);
      }
      var total := TotalUnderLimits(occupied.value, snapshot, bounds.accounts);
      if total.None? {
        return Deny(AccountOverLimit);
      }
      if total.value + usdt > bounds.global || Get(occupied.value, a) + usdt > Get(bounds.accounts, a) {
        return Deny(InsufficientRisk);
      }
      verdict := Pass(account, total.value);
    }

    method Admit(m: Meta, p: Policy, snapshot: RiskPolicy, bounds: Bounds, external: map<string, nat>, o: Order) returns (verdict: Verdict)
      requires meta == Some(m)
      requires Some(bounds.global) == Units(snapshot.globalLimit) && bounds.accounts.Keys == snapshot.accountLimits.Keys
      requires forall k :: k in snapshot.accountLimits ==> LimitOf(snapshot, k) == Some(bounds.accounts[k])
      ensures verdict == Admission(Contents(), p, snapshot, external, o)
    {
      hide Units, Parseable, CapAdmission, AccountKey, FindTrading, StrategyCap, LimitOf;
      var usd, usdt := Units(o.lossUsd).GetOr(0), Units(o.lossUsdt).GetOr(0);
      if !Parseable(m.consumedUsd) {
        return Throw;
      }
      if m.consumedUsd + m.occupiedUsd + usd > m.campaignUsd {
        return Deny(CampaignExhausted);
      }
      var account := FindTrading(p.accounts, o.venue, o.uid);
      if account.None? {
        return Deny(AccountNotActive);
      }
      if o.instrument !in account.value.limits.instruments {
        return Deny(InstrumentNotAllowed);
      }
      var maxOrder, maxStrategy := Units(account.value.limits.maxOrderLoss), StrategyCap(account.value, o.strategy);
      if maxOrder.None? || maxStrategy.None? || usdt > maxOrder.value || usdt > maxStrategy.value {
        return Deny(OrderOrStrategyLimit);
      }
      var outstanding := Get(strategies, AccountKey(o.venue, o.uid) + ":" + o.strategy);
      if !Parseable(outstanding) {
        return Throw;
      }
      if outstanding + usdt > maxStrategy.value {
        return Deny(StrategyAggregateLimit);
      }
      verdict := AdmitCaps(m, account.value, snapshot, bounds, external, AccountKey(o.venue, o.uid), usdt);
    }

    method ReserveAfterCharge(m: Meta, p: Policy, snapshot: RiskPolicy, bounds: Bounds, external: map<string, nat>, c: Census, o: Order, now: int,
                              ghost before: Book)
      returns (reply: Reply)
      requires meta == Some(m) && external == External(c.rows)
      requires Some(bounds.global) == Units(snapshot.globalLimit) && bounds.accounts.Keys == snapshot.accountLimits.Keys
      requires forall k :: k in snapshot.accountLimits ==> LimitOf(snapshot, k) == Some(bounds.accounts[k])
      modifies `meta, `entries, `strategies, `records
      ensures var out := ReserveCharged(before, old(Contents()), p, snapshot, c, o, now);
              reply == out.reply && (reply.Thrown? || Contents() == out.book)
    {
      hide Units, KeyOf, Replay, Admission, SaveEntry, NewEntry, LimitOf, External;
      var key := KeyOf(o);
      if key in entries {
        reply := Replay(Contents(), entries[key], o);
        return;
      }
      var verdict := Admit(m, p, snapshot, bounds, external, o);
      match verdict {
        case Throw => reply := Thrown;
        case Deny(reason) => reply := Denied(reason);
        case Pass(_, total) =>
          assert old(Contents()).(meta := Some(m)) == old(Contents());
          var e := NewEntry(o, c, now);
          var next := Save(m, e, Units(o.lossUsdt).GetOr(0));
          reply := if next.None? then Thrown else HeldReply(e, next.value.sequence, total + Units(o.lossUsdt).GetOr(0));
      }
    }

    method ReserveInTransaction(snapshot: RiskPolicy, bounds: Bounds, external: map<string, nat>, c: Census, o: Order, now: int, session: int)
      returns (reply: Reply)
      requires external == External(c.rows)
      requires Some(bounds.global) == Units(snapshot.globalLimit) && bounds.accounts.Keys == snapshot.accountLimits.Keys
      requires forall k :: k in snapshot.accountLimits ==> LimitOf(snapshot, k) == Some(bounds.accounts[k])
      modifies `meta, `entries, `strategies, `records, `losses
      ensures var out := ReserveTransaction(old(Contents()), policy, generation, snapshot, c, o, now, session);
              reply == out.reply && (reply.Thrown? || Contents() == out.book)
    {
      hide Units, KeyOf, ReserveCharged, Authoritative, ValidPolicy, ValidMeta, ChargeCensus, LimitOf, External;
      if policy.None? || !ValidPolicy(policy.value) {
        return Denied(GovernanceUnavailable);
      }
      var ok := Confirm(policy.value, snapshot);
      if !ok {
        return Denied(SnapshotNotAuthoritative);
      }
      if generation != session {
        return Denied(StaleGeneration);
      }
      if meta.None? {
        return Denied(BookMissingOrCorrupt);
      }
      ok := CheckMeta(meta.value);
      if !ok || meta.value.installationId != policy.value.installationId {
        return Denied(BookMissingOrCorrupt);
      }
      if KeyOf(o) in fences {
        return Denied(FencedNoSend);
      }
      var charged := ApplyCensusLoss(meta.value, c);
      if charged.None? {
        return Denied(LossRegression);
      }
      reply := ReserveAfterCharge(charged.value, policy.value, snapshot, bounds, external, c, o, now, old(Contents()));
    }

    method ReserveRisk(snapshot: RiskPolicy, c: Census, o: Order, now: int, native: Option<Evidence>) returns (reply: Reply)
      modifies `meta, `entries, `fences, `strategies, `records, `losses
      ensures Outcome(Contents(), reply) == Reserve(old(Contents()), policy, generation, snapshot, c, o, now, native)
    {
      hide Units, Hex, Token, StrategyText, InstrumentText, VenueText, AccountKey, ConversionProven, Budgeted, ReserveTransaction, FreshCensus, CompleteCensus, External;
      ReserveThrows(Contents(), policy, generation, snapshot, c, o, now, native);
      var bounds := Budget(snapshot);
      if !ConversionProven(o, now) {
        return Denied(UsdConversionUnproven);
      }
      if native.None? || !native.value.Complete() || !SafeInt(native.value.generation) || native.value.generation < 1 || native.value.digest != c.digest {
        return Denied(NativeSourceUnproven);
      }
      if || !snapshot.enabled || bounds.None? || o.revision != snapshot.revision
         || Units(o.lossUsdt).None? || Units(o.lossUsdt).value == 0
         || !Hex(o.uid) || !Hex(o.plan) || !Token(o.run) || !Token(o.intent) || !StrategyText(o.strategy)
         || !InstrumentText(o.instrument) || !VenueText(o.venue) || !SafeInt(now) || now <= 0
         || AccountKey(o.venue, o.uid) !in bounds.value.accounts
      {
        return Denied(InvalidScopeOrPolicy);
      }
      var external := CheckCensus(c, snapshot, now, false);
      if external.None? {
        return Denied(CensusUnproven);
      }
      var before := Contents();
      reply := ReserveInTransaction(snapshot, bounds.value, external.value, c, o, now, native.value.generation);
      if reply.Thrown? {
        Restore(before);
      }
    }

    // ---------- BEGIN_POST ----------

    method PostUnderCaps(m: Meta, authority: RiskPolicy, external: map<string, nat>, account: Account) returns (verdict: Verdict)
      requires meta == Some(m)
      ensures verdict == PostCaps(Contents(), authority, external, account)
    {
      hide Units, Sum, Unregistered, PostOver, Overlay;
      var occupied := LayOver(external, m.accounts);
      if occupied.None? {
        return Deny(CohortMismatch);
      }
      var total := TotalUnderPolicy(occupied.value, authority);
      if total.None? {
        return Deny(PostAccountExceeded);
      }
      var global := Units(authority.globalLimit);
      if global.None? || total.value > global.value {
        return Deny(PostPortfolioExceeded);
      }
      verdict := Pass(account, total.value);
    }

    method PostAfterCharge(m: Meta, p: Policy, authority: RiskPolicy, external: map<string, nat>, key: string, plan: string, revision: int, digest: string,
                           n: PostProof, ghost before: Book)
      returns (reply: Reply)
      requires meta == Some(m) && external == External(n.census.rows)
      modifies `meta, `entries, `strategies, `records
      ensures var out := PostCharged(before, old(Contents()), p, authority, key, plan, revision, digest, n);
              reply == out.reply && (reply.Thrown? || Contents() == out.book)
    {
      hide Units, PostCaps, SaveEntry, ValidEntry, FindTrading, External, Usdt;
      if m.sequence != n.expected {
        return Denied(StaleBookSequence);
      }
      if key !in entries || !ValidEntry(entries[key]) || entries[key].order.plan != plan || !entries[key].state.Held? || entries[key].order.revision != revision {
        return Denied(NotHeldExactlyOnce);
      }
      var e := entries[key];
      if n.now < e.createdAt || n.now - e.createdAt > 5000 {
        return Denied(WindowExpired);
      }
      if e.reserveDigest.None? || e.reserveFloor.None? {
        return Denied(ReserveSourceMissing);
      }
      var account := FindTrading(p.accounts, e.order.venue, e.order.uid);
      if account.None? || e.order.instrument !in account.value.limits.instruments {
        return Denied(AccountOrInstrumentRevoked);
      }
      var verdict := PostUnderCaps(m, authority, external, account.value);
      match verdict {
        case Throw => reply := Thrown;
        case Deny(reason) => reply := Denied(reason);
        case Pass(_, total) =>
          assert old(Contents()).(meta := Some(m)) == old(Contents());
          var next := Save(m, PostedEntry(e, n.now, digest), 0);
          reply := if next.None? || total < Usdt(e) then Thrown else PostAuthorized(NextSequence(m.sequence), total - Usdt(e));
      }
    }

    method PostInTransaction(key: string, plan: string, revision: int, digest: string, n: PostProof) returns (reply: Reply)
      requires PostArguments(key, plan, revision, digest, n)
      modifies `meta, `entries, `strategies, `records, `losses
      ensures var out := BeginPost(old(Contents()), policy, generation, key, plan, revision, digest, Some(n));
              reply == out.reply && (reply.Thrown? || Contents() == out.book)
    {
      hide PostArguments, PostCharged, Projected, ValidPolicy, ValidMeta, ChargeCensus, FreshCensus, CompleteCensus, External;
      if generation != n.generation {
        return Denied(StaleGeneration);
      }
      if policy.None? || !ValidPolicy(policy.value) || policy.value.revision != revision {
        return Denied(RevokedOrChanged);
      }
      var authority := ProjectRiskPolicy(policy.value);
      if authority.None? || !authority.value.enabled {
        return Denied(GrantInactive);
      }
      var external := CheckCensus(n.census, authority.value, n.now, true);
      if external.None? {
        return Denied(CensusUnproven);
      }
      if meta.None? {
        return Denied(BookMissingOrCorrupt);
      }
      var ok := CheckMeta(meta.value);
      if !ok {
        return Denied(BookMissingOrCorrupt);
      }
      var charged := ApplyCensusLoss(meta.value, n.census);
      if charged.None? {
        return Denied(LossRegression);
      }
      reply := PostAfterCharge(charged.value, policy.value, authority.value, external.value, key, plan, revision, digest, n, old(Contents()));
    }

    method BeginRiskPost(key: string, plan: string, revision: int, digest: string, native: Option<PostProof>) returns (reply: Reply)
      modifies `meta, `entries, `fences, `strategies, `records, `losses
      ensures Outcome(Contents(), reply) == BeginPost(old(Contents()), policy, generation, key, plan, revision, digest, native)
    {
      hide PostArguments, PostUnderPolicy;
      PostThrows(Contents(), policy, generation, key, plan, revision, digest, native);
      if native.None? || !PostArguments(key, plan, revision, digest, native.value) {
        return Denied(InvalidPostFence);
      }
      var before := Contents();
      reply := PostInTransaction(key, plan, revision, digest, native.value);
      if reply.Thrown? {
        Restore(before);
      }
    }

    // ---------- RESOLVE ----------

    /** The census of a terminal record charged, and then the record itself; `Some(reply)` when the transaction ends there. */
    method ChargeTerminal(m: Meta, e: Entry, session: int, terminal: Option<TerminalProof>) returns (next: Option<Meta>, reply: Reply)
      requires meta == Some(m)
      modifies `meta, `losses
      ensures TerminalCharge(old(Contents()), policy, e, session, terminal, Contents(), next, reply)
    {
      hide TerminalProven, Projected, FreshCensus, CompleteCensus, External, ChargeCensus, Units, AccountOf, Parseable;
      next := None;
      if terminal.None? || !TerminalProven(e, session, terminal.value) {
        reply := Denied(TerminalProofUnavailable);
        return;
      }
      var t := terminal.value;
      var authority := None;
      if policy.Some? {
        authority := ProjectRiskPolicy(policy.value);
      }
      var external := None;
      if authority.Some? {
        external := CheckCensus(t.census, authority.value, t.now, false);
      }
      if external.None? {
        reply := Denied(TerminalNotFlat);
        return;
      }
      var charged := ApplyCensusLoss(m, t.census);
      if charged.None? {
        reply := Denied(TerminalNotFlat);
        return;
      }
      var a, loss := AccountOf(e), Units(t.ledger.loss).GetOr(0);
      var previous := Get(losses, a);
      if !Parseable(previous) {
        reply := Thrown;
        return;
      }
      if loss < previous {
        reply := Denied(CumulativeLossRegression);
        return;
      }
      if !Parseable(charged.value.consumedUsd) {
        reply := Thrown;
        return;
      }
      losses := losses[a := loss];
      next := Some(charged.value.(consumedUsd := charged.value.consumedUsd + loss - previous));
      reply := Updated;
    }

    method ResolveInTransaction(key: string, plan: string, to: EntryState, digest: string, session: int, expected: int, terminal: Option<TerminalProof>)
      returns (reply: Reply)
      requires Hex(plan) && Hex(digest) && SafeInt(session) && session >= 1 && SafeInt(expected) && expected >= 1
      modifies `meta, `entries, `strategies, `records, `losses
      ensures var out := RiskBook.TransitionRisk(old(Contents()), policy, generation, key, plan, to, digest, session, expected, terminal);
              reply == out.reply && (reply.Thrown? || Contents() == out.book)
    {
      hide Hex, ValidMeta, ValidEntry, Allowed, SaveEntry, TerminalCharge, ReleaseTerminal, Usdt;
      if meta.None? {
        return Denied(BookMissingOrCorrupt);
      }
      var ok := CheckMeta(meta.value);
      if !ok {
        return Denied(BookMissingOrCorrupt);
      }
      if generation != session || meta.value.sequence != expected {
        return Denied(StaleSessionOrSequence);
      }
      if key !in entries || !ValidEntry(entries[key]) || entries[key].order.plan != plan || !Allowed(entries[key].state, to) {
        return Denied(InvalidTransition);
      }
      var e, m := entries[key], meta.value;
      assert Contents().(meta := Some(m)) == Contents();
      ghost var before := Contents();
      if to.Released? {
        var next, answer := ChargeTerminal(m, e, session, terminal);
        ChargedRelease(before, policy, e, digest, session, terminal, Contents(), next, answer);
        if next.None? {
          return answer;
        }
        m := next.value;
      }
      var saved := Save(m, MovedEntry(e, to, digest), if to.Released? then 0 - Usdt(e) else 0);
      reply := if saved.None? then Thrown else Updated;
    }

    /** Moves the entry under `key`, with its occupancy returned when it is released. */
    method TransitionRisk(key: string, plan: string, to: EntryState, digest: string, session: int, expected: int, terminal: Option<TerminalProof>)
      returns (reply: Reply)
      modifies `meta, `entries, `fences, `strategies, `records, `losses
      ensures Outcome(Contents(), reply) == RiskBook.TransitionRisk(old(Contents()), policy, generation, key, plan, to, digest, session, expected, terminal)
    {
      hide Hex, Readable, Resolvable, ReleaseTerminal, MoveEntry;
      ResolveThrows(Contents(), policy, generation, key, plan, to, digest, session, expected, terminal);
      if !Hex(plan) || !Hex(digest) || !SafeInt(session) || session < 1 || !SafeInt(expected) || expected < 1 {
        return Denied(MissingNativeProof);
      }
      var before := Contents();
      reply := ResolveInTransaction(key, plan, to, digest, session, expected, terminal);
      if reply.Thrown? {
        Restore(before);
      }
    }

    method ResolveRisk(key: string, plan: string, to: EntryState, digest: string, session: int, expected: int, terminal: Option<TerminalProof>)
      returns (reply: Reply)
      modifies `meta, `entries, `fences, `strategies, `records, `losses
      ensures Outcome(Contents(), reply) == Resolve(old(Contents()), policy, generation, key, plan, to, digest, session, expected, terminal)
    {
      hide RiskBook.TransitionRisk;
      if !to.Unknown? && !to.Open? && !to.Released? {
        return Denied(InvalidResolutionState);
      }
      reply := TransitionRisk(key, plan, to, digest, session, expected, terminal);
    }

    // ---------- RELEASE_UNSENT ----------

    method ReleaseUnsentRisk(key: string, plan: string, expected: int, session: int, proof: UnsentProof) returns (reply: Reply)
      modifies `meta, `entries, `fences, `strategies, `records, `losses
      ensures Outcome(Contents(), reply) == ReleaseUnsent(old(Contents()), policy, generation, key, plan, expected, session, proof)
    {
      hide UnsentArguments, ValidMeta, UnsentMatches, SaveEntry, ValidPolicy, Usdt;
      if !UnsentArguments(key, plan, expected, session, proof) {
        return Denied(InvalidUnsentProof);
      }
      if meta.None? {
        return Denied(BookMissingOrCorrupt);
      }
      var ok := CheckMeta(meta.value);
      if !ok {
        return Denied(BookMissingOrCorrupt);
      }
      var m := meta.value;
      if generation != session || m.sequence != expected {
        return Denied(StaleSessionOrSequence);
      }
      if key !in entries {
        if key in fences {
          return if SameFence(fences[key], proof) then Updated else Denied(FenceConflict);
        }
        if policy.None? || !ValidPolicy(policy.value) {
          return Denied(GovernanceUnavailable);
        }
        fences := fences[key := NewFence(proof, policy.value.revision)];
        meta := Some(m.(sequence := NextSequence(m.sequence)));
        return Updated;
      }
      var e := entries[key];
      if !UnsentMatches(e, plan, proof) {
        return Denied(UnsentMismatch);
      }
      var before := Contents();
      assert before.(meta := Some(m)) == before;
      var saved := Save(m, MovedEntry(e, Released, proof.digest), 0 - Usdt(e));
      if saved.None? {
        Restore(before);
        return Thrown;
      }
      reply := Updated;
    }

    // ---------- the policy ----------

    method LowerRiskBookLimit(limit: string) returns (ok: bool)
      modifies `meta
      ensures var lowered := RiskBook.LowerRiskBookLimit(old(Contents()), limit);
              ok == lowered.Some? && Contents() == lowered.GetOr(old(Contents()))
    {
      hide ValidMeta, Units;
      if meta.None? {
        return false;
      }
      ok := CheckMeta(meta.value);
      var m, next := meta.value, Units(limit);
      if !ok || next.None? || next.value == 0 || next.value >= m.campaignUsd || next.value < m.consumedUsd + m.occupiedUsd {
        return false;
      }
      meta := Some(m.(campaignUsd := next.value, sequence := NextSequence(m.sequence)));
    }

    method LowerCampaignLimit(body: CampaignBody) returns (answer: Answer)
      modifies `meta, `policy, `campaignOperations
      ensures (Stored(), answer) == CampaignStep(old(Stored()), body)
    {
      hide CampaignWellFormed, ValidPolicy, Units, RiskBook.LowerRiskBookLimit;
      if !CampaignWellFormed(body) {
        return Failed(InvalidCampaignRequest);
      }
      if body.key in campaignOperations {
        return if campaignOperations[body.key].body == body then campaignOperations[body.key].answer else Failed(Failure.IdempotencyConflict);
      }
      if policy.None? || !ValidPolicy(policy.value) {
        return Failed(AccessMissingOrCorrupt);
      }
      var p := policy.value;
      if p.revision != body.expected {
        return Failed(StaleRevision);
      }
      if Units(body.limit).GetOr(0) >= Units(p.campaignLimit).GetOr(0) {
        return Failed(CampaignMustDecrease);
      }
      var next := p.(revision := p.revision + 1, campaignLimit := body.limit);
      if !ValidPolicy(next) {
        return Failed(CampaignBelowRisk);
      }
      var ok := LowerRiskBookLimit(body.limit);
      if !ok {
        return Failed(CampaignBelowRisk);
      }
      answer := CampaignLowered(next, p.campaignLimit, body.limit);
      policy := Some(next);
      campaignOperations := campaignOperations[body.key := Receipt(body, answer)];
    }

    method Initialize(body: InstallBody) returns (answer: Answer)
      modifies `meta, `policy, `installOperations, `released
      ensures (Stored(), answer) == InstallStep(old(Stored()), body)
    {
      hide Installable;
      if !Installable(body) {
        return Failed(InvalidInstallation);
      }
      if body.operation in installOperations {
        return if installOperations[body.operation].body == body then installOperations[body.operation].answer else Failed(Failure.IdempotencyConflict);
      }
      if policy.Some? || meta.Some? || released {
        return Failed(AlreadyInitialized);
      }
      answer := Configured(body.configuration);
      meta := Some(Meta(0, 0, body.configuration.installationId, 0, 0, 0, INITIAL_CAMPAIGN, map[]));
      policy := Some(body.configuration);
      installOperations := installOperations[body.operation := Receipt(body, answer)];
      released := true;
    }

    /** The writer's own part: what it makes of the stored policy. */
    method Apply(p: Policy, r: Request) returns (change: Change)
      ensures change == ChangeOf(p, r)
    {
      hide Revised, ValidPolicy, Names, Known;
      if r.Revise? {
        var revised := ReviseGovernance(p, r.update);
        change := if revised.Some? then Changed(revised.value, Configured(revised.value)) else Refused(RevisionOrLimitsRejected);
      } else {
        change := ChangeOf(p, r);
      }
    }

    method MutatePolicy(r: Request) returns (answer: Answer)
      modifies `policy, `accessOperations
      ensures Stored() == old(Stored()).(access := Mutate(old(Stored()).access, r).0)
      ensures answer == Mutate(old(Stored()).access, r).1
    {
      hide Malformed, Token, ChangeOf, ValidPolicy;
      var malformed := Malformed(r);
      if malformed.Some? {
        return Failed(malformed.value);
      }
      if !Token(r.key) {
        return Failed(IdempotencyKeyRequired);
      }
      if r.key in accessOperations {
        return if accessOperations[r.key].body == r then accessOperations[r.key].answer else Failed(Failure.IdempotencyConflict);
      }
      if policy.None? || !ValidPolicy(policy.value) {
        return Failed(AccessMissingOrCorrupt);
      }
      var change := Apply(policy.value, r);
      match change {
        case Refused(failure) =>
          answer := Failed(failure);
        case Changed(next, reply) =>
          if !ValidPolicy(next) {
            return Failed(InvariantsRejected);
          }
          answer := reply;
          policy := Some(next);
      }
      accessOperations := accessOperations[r.key := Receipt(r, answer)];
    }

    // ---------- any command ----------

    method AcceptRuntime() returns (accepted: int)
      modifies `generation
      ensures Stored() == old(Stored()).(generation := accepted) && accepted == NextSequence(old(generation))
    {
      generation := NextSequence(generation);
      accepted := generation;
    }

    /** Every command leaves the storage in the state, and gives the answer, of one step of the installation. */
    method Handle(c: Command) returns (out: Output)
      modifies this
      ensures (Stored(), out) == Step(old(Stored()), c)
    {
      hide RiskOutcome, Reserve, BeginPost, Resolve, ReleaseUnsent, Mutate, InstallStep, CampaignStep;
      RiskParts(Stored(), c);
      match c {
        case AcceptRuntime =>
          var accepted := AcceptRuntime();
          out := Session(accepted);
        case Install(body) =>
          var answer := Initialize(body);
          out := Governed(answer);
        case Govern(request) =>
          var answer := MutatePolicy(request);
          out := Governed(answer);
        case LowerCampaign(body) =>
          var answer := LowerCampaignLimit(body);
          out := Governed(answer);
        case ReserveRisk(snapshot, census, order, now, native) =>
          var reply := ReserveRisk(snapshot, census, order, now, native);
          out := Risk(reply);
        case BeginRiskPost(key, plan, revision, digest, post) =>
          var reply := BeginRiskPost(key, plan, revision, digest, post);
          out := Risk(reply);
        case ResolveRisk(key, plan, to, digest, session, expected, terminal) =>
          var reply := ResolveRisk(key, plan, to, digest, session, expected, terminal);
          out := Risk(reply);
        case ReleaseUnsentRisk(key, plan, expected, session, proof) =>
          var reply := ReleaseUnsentRisk(key, plan, expected, session, proof);
          out := Risk(reply);
      }
    }
  }

  lemma RiskParts(s: State, c: Command)
    ensures c.ReserveRisk? ==> RiskOutcome(s, c) == Reserve(s.book, s.access.policy, s.generation, c.policy, c.census, c.order, c.now, c.native)
    ensures c.BeginRiskPost? ==> RiskOutcome(s, c) == BeginPost(s.book, s.access.policy, s.generation, c.key, c.plan, c.revision, c.digest, c.post)
    ensures c.ResolveRisk? ==>
              RiskOutcome(s, c) == Resolve(s.book, s.access.policy, s.generation, c.key, c.plan, c.to, c.digest, c.session, c.expected, c.terminal)
    ensures c.ReleaseUnsentRisk? ==>
              RiskOutcome(s, c) == ReleaseUnsent(s.book, s.access.policy, s.generation, c.key, c.plan, c.expected, c.session, c.proof)
  {
    hide Reserve, BeginPost, Resolve, ReleaseUnsent;
  }

  // ---------- what a transaction that throws has written does not matter ----------

  /** How a terminal record is charged: a refusal or throw, or the losses written and the book's next figures in memory. */
  ghost predicate TerminalCharge(b: Book, access: Option<Policy>, e: Entry, session: int, terminal: Option<TerminalProof>,
                                 after: Book, next: Option<Meta>, reply: Reply)
    requires b.meta.Some?
  {
    var policy := if access.Some? then Projected(access.value) else None;
    if terminal.None? || !TerminalProven(e, session, terminal.value) then next.None? && after == b && reply == Denied(TerminalProofUnavailable)
    else
      var t := terminal.value;
      if policy.None? || CensusRisk(t.census, policy.value, t.now, false).None? || ChargeCensus(b, t.census).None? then
        next.None? && after == b && reply == Denied(TerminalNotFlat)
      else
        var d := ChargeCensus(b, t.census).value;
        var a, loss := AccountOf(e), Units(t.ledger.loss).GetOr(0);
        if !Parseable(Get(d.losses, a)) then next.None? && reply.Thrown?
        else if loss < Get(d.losses, a) then next.None? && after == d && reply == Denied(CumulativeLossRegression)
        else if !Parseable(d.meta.value.consumedUsd) then next.None? && reply.Thrown?
        else reply.Updated? && next == ChargeLedger(d, a, loss).meta && after.(meta := next) == ChargeLedger(d, a, loss)
  }

  lemma ChargedRelease(b: Book, access: Option<Policy>, e: Entry, digest: string, session: int, terminal: Option<TerminalProof>,
                       after: Book, next: Option<Meta>, reply: Reply)
    requires b.meta.Some? && TerminalCharge(b, access, e, session, terminal, after, next, reply)
    ensures var out := ReleaseTerminal(b, access, e, digest, session, terminal);
            if next.None? then reply == out.reply && (reply.Thrown? || after == out.book)
            else
              var saved := SaveEntry(after.(meta := next), MovedEntry(e, Released, digest), 0 - Usdt(e));
              out.reply == (if saved.None? then Thrown else Updated) && (saved.Some? ==> out.book == saved.value)
  {
    hide TerminalProven, Projected, CensusRisk, ChargeCensus, SaveEntry, Units, AccountOf, Usdt, MovedEntry, Parseable;
  }

  lemma PostThrows(b: Book, access: Option<Policy>, generation: int, key: string, plan: string, revision: int, digest: string, native: Option<PostProof>)
    ensures var out := BeginPost(b, access, generation, key, plan, revision, digest, native); out.reply.Thrown? ==> out.book == b
  {
    hide PostArguments, ValidPolicy, Projected, CensusRisk, ValidMeta, ChargeCensus, SaveEntry, PostAdmission, External, Usdt, HeldExactly, PostedEntry;
  }

  lemma ResolveThrows(b: Book, access: Option<Policy>, generation: int, key: string, plan: string, to: EntryState, digest: string, session: int, expected: int, terminal: Option<TerminalProof>)
    ensures var out := TransitionRisk(b, access, generation, key, plan, to, digest, session, expected, terminal); out.reply.Thrown? ==> out.book == b
  {
    hide Hex, ValidMeta, ValidEntry, TerminalProven, Projected, CensusRisk, ChargeCensus, SaveEntry, MovedEntry, Allowed, Units, AccountOf, Usdt, Parseable;
  }

  /** A reservation that throws is rolled back to the book it found. */
  lemma ReserveThrows(b: Book, access: Option<Policy>, generation: int, policy: RiskPolicy, c: Census, o: Order, now: int, native: Option<Evidence>)
    ensures var out := Reserve(b, access, generation, policy, c, o, now, native); out.reply.Thrown? ==> out.book == b
    ensures native.Some? ==> var out := ReserveTransaction(b, access, generation, policy, c, o, now, native.value.generation); out.reply.Thrown? ==> out.book == b
  {
    hide ReserveArguments, ValidPolicy, Authoritative, ValidMeta, KeyOf, ChargeCensus, Admission, SaveEntry, NewEntry, Replay, External, Units;
    if b.meta.Some? && ChargeCensus(b, c).Some? && access.Some? {
      ReplayNeverThrows(ChargeCensus(b, c).value, o);
    }
  }

  lemma RecordIgnoresMeta(b: Book, stored: Option<Meta>, m: Meta, a: string, delta: int, usd: nat)
    ensures NextRecord(b.(meta := stored), m, a, delta, usd) == NextRecord(b, m, a, delta, usd)
  {
  }

  lemma SavedNotNegative(b: Book, e: Entry, delta: int)
    requires b.meta.Some? && NextRecord(b, b.meta.value, AccountOf(e), delta, Usd(e)).Some?
    ensures Get(b.meta.value.accounts, AccountOf(e)) + delta >= 0
  {
    hide Usd, AccountOf;
  }

  lemma ReplayNeverThrows(b: Book, o: Order)
    requires b.meta.Some?
    ensures KeyOf(o) in b.entries ==> !Replay(b, b.entries[KeyOf(o)], o).Thrown?
  {
    hide ValidEntry, KeyOf;
  }
}
