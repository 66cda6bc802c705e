/** Each ledger command keeps the book sound and moves it only forward, and what its positive replies mean. */
module Commands {
  import opened Options
  import opened Amounts
  import opened RiskKeys
  import opened Collections
  import opened Governance
  import opened Sums
  import opened RiskBook
  import opened Conservation
  import opened Progress

  // ---------- the policy behind the book ----------

  /** Every account the book has ever charged is a registered real account. */
  ghost predicate Registered(b: Book, p: Policy) {
    b.meta.Some? ==> b.meta.value.accounts.Keys <= RealKeys(p.accounts)
  }

  lemma RegisteredSize(keys: set<string>, p: Policy)
    requires ValidPolicy(p) && keys <= RealKeys(p.accounts)
    ensures |keys| <= 32
  {
    hide ValidAccount, RealKeys, Units;
    AccountLimitsKeys(p.accounts);
    AccountLimitsSize(p.accounts);
    SubsetSize(keys, AccountLimits(p.accounts).Keys);
    assert |AccountLimits(p.accounts).Keys| == |AccountLimits(p.accounts)|;
  }

  lemma TradingKey(p: Policy, a: Account)
    requires ValidPolicy(p) && a in p.accounts && Trading(a)
    ensures AccountKey(a.venue, a.uid) in RealKeys(p.accounts)
  {
    hide Units, ValidLimits, ValidStrategies, AccountKey;
    RealKeyText(a);
  }

  /** A projected policy lists a readable cap for exactly the registered real accounts. */
  lemma ProjectedFacts(p: Policy)
    requires ValidPolicy(p) && Projected(p).Some?
    ensures var policy := Projected(p).value;
            && policy.revision == p.revision && policy.globalLimit == p.maxTotalLoss
            && policy.accountLimits.Keys == RealKeys(p.accounts)
            && forall a :: a in policy.accountLimits ==> LimitOf(policy, a).Some?
  {
    hide ValidAccount, RealKeys, Units, AccountLimits;
    AccountLimitsKeys(p.accounts);
    var policy := Projected(p).value;
    forall a | a in policy.accountLimits ensures LimitOf(policy, a).Some? {
      AccountLimitsReadable(p.accounts, a);
    }
  }

  lemma {:induction false} AccountLimitsReadable(accounts: seq<Account>, a: string)
    requires forall i :: 0 <= i < |accounts| ==> ValidAccount(accounts[i])
    requires a in AccountLimits(accounts)
    ensures Units(AccountLimits(accounts)[a]).Some?
  {
    hide Units, AccountKey, ValidStrategies, StrategyText, VenueText, Hex;
    var n := |accounts| - 1;
    if a in AccountLimits(accounts[..n]) {
      AccountLimitsReadable(accounts[..n], a);
    }
  }

  // ---------- a charged census ----------

  lemma ProvenCensus(c: Census, policy: RiskPolicy, now: int, causal: bool)
    requires CensusRisk(c, policy, now, causal).Some?
    ensures Distinct(RowAccounts(c.rows)) && SafeInt(c.floor) && c.floor > 0
    ensures Hex(c.digest)
    ensures CensusRisk(c, policy, now, causal).value == External(c.rows)
    ensures External(c.rows).Keys == policy.accountLimits.Keys
  {
    hide Units, Hex, Distinct;
    ExternalKeys(c.rows);
    DistinctCount(RowAccounts(c.rows));
    FullSubset(Elements(RowAccounts(c.rows)), policy.accountLimits.Keys);
  }

  lemma {:induction false} ExternalKeys(rows: seq<Row>)
    ensures External(rows).Keys == Elements(RowAccounts(rows))
  {
    if |rows| > 0 {
      var n := |rows| - 1;
      ExternalKeys(rows[..n]);
      PrefixStep(RowAccounts(rows), n);
      assert RowAccounts(rows)[..n] == RowAccounts(rows[..n]);
      assert RowAccounts(rows)[..n + 1] == RowAccounts(rows);
      hide Units;
    }
  }

  /** The sum of what a book's accounts occupy is part of every overlay on it. */
  lemma OverlayCovers(external: map<string, nat>, accounts: map<string, nat>)
    ensures Sum(accounts) <= Sum(Overlay(external, accounts))
  {
    SumMonotone(accounts, Overlay(external, accounts));
  }

  /** One account's charge raises the overlay by that much, in that account and in all. */
  lemma OverlayCharged(external: map<string, nat>, accounts: map<string, nat>, a: string, d: nat)
    requires a in external
    ensures var before, after := Overlay(external, accounts), Overlay(external, accounts[a := Get(accounts, a) + d]);
            && after == before[a := Get(before, a) + d]
            && Sum(after) == Sum(before) + d
  {
    hide Sum;
    var before := Overlay(external, accounts);
    assert Overlay(external, accounts[a := Get(accounts, a) + d]) == before[a := Get(before, a) + d];
    SumUpdate(before, a, Get(before, a) + d);
  }

  /** Every account, and all of them together, within the policy's caps. */
  ghost predicate WithinCaps(external: map<string, nat>, accounts: map<string, nat>, policy: RiskPolicy) {
    var occupied := Overlay(external, accounts);
    && (forall a :: a in occupied ==> LimitOf(policy, a).Some? && occupied[a] <= LimitOf(policy, a).value)
    && Units(policy.globalLimit).Some? && Sum(occupied) <= Units(policy.globalLimit).value
  }

  // ---------- RESERVE ----------

  /** What has been checked by the time a reservation's census is charged. */
  ghost predicate ReserveContext(b: Book, p: Policy, policy: RiskPolicy, c: Census, o: Order, now: int) {
    && ValidPolicy(p) && Authoritative(p, policy) && Registered(b, p)
    && ConversionProven(o, now) && InScope(policy, o, now) && CensusRisk(c, policy, now, false).Some?
    && b.meta.Some? && KeyOf(o) !in b.fences && |b.entries| <= MAX_SAFE
  }

  lemma ConvertedPositive(usdt: nat, rate: nat)
    requires usdt > 0 && rate > 0
    ensures (usdt * rate + UNIT - 1) / UNIT > 0
  {
    assert usdt * rate >= 1;
  }

  lemma NewEntrySound(c: Census, o: Order, now: int)
    requires ConversionProven(o, now) && ValidOrderScope(o) && SafeInt(now) && now > 0
    requires Hex(c.digest) && SafeInt(c.floor) && c.floor > 0
    ensures SoundEntry(NewEntry(o, c, now)) && Usdt(NewEntry(o, c, now)) == Units(o.lossUsdt).value > 0
  {
    hide Units, Hex, Token, StrategyText, InstrumentText, VenueText, KeyOf;
    ConvertedPositive(Units(o.lossUsdt).value, Units(o.conversion.rate).value);
  }

  predicate ValidOrderScope(o: Order) {
    && Units(o.lossUsdt).Some? && Units(o.lossUsdt).value > 0
    && Hex(o.uid) && Hex(o.plan) && Token(o.run) && Token(o.intent) && StrategyText(o.strategy)
    && InstrumentText(o.instrument) && VenueText(o.venue) && SafeInt(o.revision) && o.revision > 0
  }

  /** The facts an accepted admission has checked, in the source's order. */
  lemma AdmittedFacts(b: Book, p: Policy, policy: RiskPolicy, external: map<string, nat>, o: Order)
    requires b.meta.Some? && Admission(b, p, policy, external, o).Pass?
    ensures var m, account, usdt := b.meta.value, Admission(b, p, policy, external, o).account, Units(o.lossUsdt).GetOr(0);
            && Parseable(m.consumedUsd) && m.consumedUsd + m.occupiedUsd + Units(o.lossUsd).GetOr(0) <= m.campaignUsd
            && account in p.accounts && Trading(account) && account.venue == o.venue && account.uid == o.uid
            && o.instrument in account.limits.instruments
            && Units(account.limits.maxOrderLoss).Some? && usdt <= Units(account.limits.maxOrderLoss).value
            && StrategyCap(account, o.strategy).Some?
            && Get(b.strategies, AccountKey(o.venue, o.uid) + ":" + o.strategy) + usdt <= StrategyCap(account, o.strategy).value
            && CapAdmission(b, account, policy, external, AccountKey(o.venue, o.uid), usdt) == Admission(b, p, policy, external, o)
  {
    hide Units, StrategyCap, AccountKey, Parseable, Sum, Overlay, OverLimit, Unregistered, LimitOf, Trading;
  }

  lemma CapsAfterPass(b: Book, policy: RiskPolicy, external: map<string, nat>, account: Account, a: string, usdt: nat)
    requires b.meta.Some? && external.Keys == policy.accountLimits.Keys && b.meta.value.accounts.Keys <= external.Keys
    requires forall k :: k in policy.accountLimits ==> LimitOf(policy, k).Some?
    requires a in external && Units(policy.globalLimit).Some?
    requires CapAdmission(b, account, policy, external, a, usdt).Pass?
    ensures var accounts := b.meta.value.accounts;
            && CapAdmission(b, account, policy, external, a, usdt) == Pass(account, Sum(Overlay(external, accounts)))
            && WithinCaps(external, accounts[a := Get(accounts, a) + usdt], policy)
            && Sum(Overlay(external, accounts[a := Get(accounts, a) + usdt])) == Sum(Overlay(external, accounts)) + usdt
            && (b.meta.value.occupiedUsdt == Sum(accounts) ==> Parseable(b.meta.value.occupiedUsdt + usdt))
  {
    hide Units, Sum, Overlay, LimitOf, Parseable;
    var accounts := b.meta.value.accounts;
    OverlayKeys(external, accounts);
    OverlayCharged(external, accounts, a, usdt);
    OverlayCovers(external, accounts);
    ReadableBelow(policy.globalLimit, Sum(accounts) + usdt);
  }

  lemma OverlayKeys(external: map<string, nat>, accounts: map<string, nat>)
    ensures Overlay(external, accounts).Keys == external.Keys + accounts.Keys
  {
  }

  lemma ReadableBelow(limit: string, v: nat)
    requires Units(limit).Some?
    ensures v <= Units(limit).value ==> Parseable(v)
  {
    UnitsParseable(limit);
  }

  /** A reservation that passes stores a sound new entry, throws nothing, and leaves every cap respected. */
  lemma ReserveCreates(before: Book, b: Book, p: Policy, policy: RiskPolicy, c: Census, o: Order, now: int)
    requires Sound(b) && ReserveContext(b, p, policy, c, o, now)
    requires KeyOf(o) !in b.entries && Admission(b, p, policy, External(c.rows), o).Pass?
    ensures var e, usdt := NewEntry(o, c, now), Units(o.lossUsdt).GetOr(0);
            && SaveEntry(b, e, usdt).Some?
            && var after := SaveEntry(b, e, usdt).value;
               && Sound(after) && Forward(b, after) && after.meta.Some?
               && Registered(after, p)
               && WithinCaps(External(c.rows), after.meta.value.accounts, policy)
               && after.entries == b.entries[KeyOf(o) := e]
               && ReserveCharged(before, b, p, policy, c, o, now) ==
                  Outcome(after, HeldReply(e, after.meta.value.sequence, Sum(Overlay(External(c.rows), after.meta.value.accounts))))
  {
    hide Units, Sum, Overlay, SaveEntry, KeyOf, Sound, Admission, Forward, External, ReserveContext, ReserveCharged, NewEntry, WithinCaps, Registered;
    CreatedBook(b, p, policy, c, o, now);
    CreatedShape(before, b, p, policy, c, o, now);
  }

  /** What an admitted reservation then does. */
  lemma CreatedShape(before: Book, b: Book, p: Policy, policy: RiskPolicy, c: Census, o: Order, now: int)
    requires b.meta.Some? && KeyOf(o) !in b.entries && Admission(b, p, policy, External(c.rows), o).Pass?
    requires SaveEntry(b, NewEntry(o, c, now), Units(o.lossUsdt).GetOr(0)).Some?
    ensures var e, usdt := NewEntry(o, c, now), Units(o.lossUsdt).GetOr(0);
            var after := SaveEntry(b, e, usdt).value;
            ReserveCharged(before, b, p, policy, c, o, now) ==
              Outcome(after, HeldReply(e, after.meta.value.sequence, Admission(b, p, policy, External(c.rows), o).total + usdt))
  {
    hide Units, SaveEntry, KeyOf, Admission, External, NewEntry;
  }

  /** The book it leaves. */
  lemma CreatedBook(b: Book, p: Policy, policy: RiskPolicy, c: Census, o: Order, now: int)
    requires Sound(b) && ReserveContext(b, p, policy, c, o, now)
    requires KeyOf(o) !in b.entries && Admission(b, p, policy, External(c.rows), o).Pass?
    ensures b.meta.Some?
    ensures var e, usdt := NewEntry(o, c, now), Units(o.lossUsdt).GetOr(0);
            && SaveEntry(b, e, usdt).Some?
            && var after := SaveEntry(b, e, usdt).value;
               && Sound(after) && Forward(b, after) && after.meta.Some?
               && Registered(after, p)
               && WithinCaps(External(c.rows), after.meta.value.accounts, policy)
               && after.entries == b.entries[KeyOf(o) := e]
               && Sum(Overlay(External(c.rows), after.meta.value.accounts)) == Admission(b, p, policy, External(c.rows), o).total + usdt
  {
    hide Units, Sum, Overlay, LimitOf, Parseable, SaveEntry, AccountOf, Usd, KeyOf, AccountKey, Sound, ValidPolicy, Projected,
         Hex, Token, StrategyText, InstrumentText, VenueText, Admission, CapAdmission, FreshCensus, CompleteCensus, ConversionProven,
         RealKeys, SoundEntry, WithinCaps, Forward, Budgeted, External, StrategyCap, Trading;
    var e, usdt := NewEntry(o, c, now), Units(o.lossUsdt).GetOr(0);
    ProvenCensus(c, policy, now, false);
    ScopeFacts(policy, o, now);
    NewEntrySound(c, o, now);
    AdmittedFacts(b, p, policy, External(c.rows), o);
    var account := Admission(b, p, policy, External(c.rows), o).account;
    AuthoritativeFacts(p, policy);
    TradingKey(p, account);
    NewEntryAccount(o, c, now);
    CapsAfterPass(b, policy, External(c.rows), account, AccountKey(o.venue, o.uid), usdt);
    NewEntryFits(b, e, usdt);
    RegisteredSize(b.meta.value.accounts[AccountOf(e) := 0].Keys, p);
    MetaOfSound(b);
    SaveSound(b, e, usdt);
    SaveForward(b, e, usdt);
    SavedParts(b, e, usdt);
  }

  lemma ScopeFacts(policy: RiskPolicy, o: Order, now: int)
    requires InScope(policy, o, now)
    ensures ValidOrderScope(o) && SafeInt(now) && now > 0 && AccountKey(o.venue, o.uid) in policy.accountLimits
    ensures Units(policy.globalLimit).Some?
  {
    hide Units, Hex, Token, StrategyText, InstrumentText, VenueText, AccountKey, RealAccountText;
  }

  lemma AuthoritativeFacts(p: Policy, policy: RiskPolicy)
    requires ValidPolicy(p) && Authoritative(p, policy)
    ensures policy.revision == p.revision && policy.globalLimit == p.maxTotalLoss
    ensures policy.accountLimits.Keys == RealKeys(p.accounts)
    ensures forall a :: a in policy.accountLimits ==> LimitOf(policy, a).Some?
  {
    hide Units, ValidPolicy, Projected, RealKeys;
    ProjectedFacts(p);
    var authority := Projected(p).value;
    forall a | a in policy.accountLimits ensures LimitOf(policy, a).Some? {
      assert LimitOf(authority, a).Some?;
    }
  }

  lemma NewEntryAccount(o: Order, c: Census, now: int)
    ensures AccountOf(NewEntry(o, c, now)) == AccountKey(o.venue, o.uid)
    ensures StrategyOf(NewEntry(o, c, now)) == AccountKey(o.venue, o.uid) + ":" + o.strategy
    ensures NewEntry(o, c, now).key == KeyOf(o)
    ensures Usd(NewEntry(o, c, now)) == Units(o.lossUsd).GetOr(0)
  {
    hide AccountKey, KeyOf, Units;
  }

  lemma NewEntryFits(b: Book, e: Entry, usdt: nat)
    requires e.key !in b.entries && Usdt(e) == usdt > 0 && e.state.Held?
    ensures Fits(b, e, usdt)
  {
  }

  lemma MetaOfSound(b: Book)
    requires b.meta.Some? && Sound(b)
    ensures MetaBalanced(b) && Bounded(b)
  {
    hide Sum, Total, EntriesSound;
  }

  /** What every command guarantees about the book it leaves. */
  ghost predicate Safe(b: Book, access: Option<Policy>, out: Outcome) {
    && Sound(out.book) && Forward(b, out.book)
    && (access.Some? && Registered(b, access.value) ==> Registered(out.book, access.value))
    && (out.reply.Thrown? ==> out.book == b)
  }

  lemma NothingDone(b: Book, access: Option<Policy>, out: Outcome)
    requires Sound(b) && out.book == b
    ensures Safe(b, access, out)
  {
    ForwardSelf(b);
    hide Sound;
  }

  /** A readable sound book has room for one more increment of its sequence. */
  lemma ReadableRoom(b: Book)
    requires Sound(b) && Readable(b)
    ensures b.meta.value.sequence <= MAX_SAFE && |b.entries| <= MAX_SAFE
  {
    MetaOfSound(b);
    hide Sum, Total;
  }

  lemma ChargedSafe(b: Book, access: Option<Policy>, c: Census, policy: RiskPolicy, now: int, causal: bool)
    requires Sound(b) && Readable(b) && CensusRisk(c, policy, now, causal).Some? && ChargeCensus(b, c).Some?
    ensures var d := ChargeCensus(b, c).value;
            && d.meta.Some? && Sound(d) && Forward(b, d)
            && d.entries == b.entries && d.fences == b.fences && d.meta.value.accounts == b.meta.value.accounts
            && (access.Some? && Registered(b, access.value) ==> Registered(d, access.value))
  {
    hide Sound, Forward, Sum, Total, CompleteCensus, FreshCensus, ValidMeta;
    ReadableRoom(b);
    ProvenCensus(c, policy, now, causal);
    ChargeFacts(b, c);
    ChargeSound(b, c);
  }

  /** Everything a held reply stands for. */
  ghost predicate HeldMeaning(b: Book, p: Policy, policy: RiskPolicy, c: Census, o: Order, now: int, out: Outcome)
  {
    var key := KeyOf(o);
    && out.reply.HeldReply? && out.book.meta.Some?
    && ValidPolicy(p) && Authoritative(p, policy) && o.revision == p.revision
    && key !in b.fences && key in out.book.entries
    && out.reply.entry == out.book.entries[key] && out.reply.entry.state.Held? && out.reply.entry.order == o
    && out.reply.sequence == out.book.meta.value.sequence
    && (if key in b.entries then b.entries[key] == out.reply.entry
        else out.reply.entry == NewEntry(o, c, now) && Created(b, p, policy, c, o, out))
  }

  /** A newly created reservation respects the campaign, the order, the strategy and every account and global cap. */
  ghost predicate Created(b: Book, p: Policy, policy: RiskPolicy, c: Census, o: Order, out: Outcome) {
    && out.book.meta.Some?
    && WithinCaps(External(c.rows), out.book.meta.value.accounts, policy)
    && out.book.meta.value.consumedUsd + out.book.meta.value.occupiedUsd <= out.book.meta.value.campaignUsd
    && exists account :: AccountAllows(p, account, out.book, o)
  }

  ghost predicate AccountAllows(p: Policy, account: Account, after: Book, o: Order) {
    && account in p.accounts && Trading(account) && account.venue == o.venue && account.uid == o.uid
    && o.instrument in account.limits.instruments
    && Units(o.lossUsdt).GetOr(0) <= Units(account.limits.maxOrderLoss).GetOr(0)
    && Get(after.strategies, AccountKey(o.venue, o.uid) + ":" + o.strategy) <= StrategyCap(account, o.strategy).GetOr(0)
  }

  /** A replay that holds is the very same order, field by field. */
  lemma ReplayIsSame(b: Book, o: Order)
    requires b.meta.Some? && EntriesSound(b) && KeyOf(o) in b.entries
    ensures var prior := b.entries[KeyOf(o)];
            Replay(b, prior, o).HeldReply? ==>
              && Replay(b, prior, o) == HeldReply(prior, b.meta.value.sequence, b.meta.value.occupiedUsdt)
              && prior.state.Held? && prior.order == o
    ensures Replay(b, b.entries[KeyOf(o)], o).HeldReply? || Replay(b, b.entries[KeyOf(o)], o).Denied?
  {
    hide ValidEntry, EntriesSound, KeyOf, SoundEntry;
    var prior := b.entries[KeyOf(o)];
    KeyOfSound(b, KeyOf(o));
    SameKeySameIdentity(prior.order, o);
  }

  lemma SameKeySameIdentity(a: Order, o: Order)
    requires KeyOf(a) == KeyOf(o)
    ensures a.venue == o.venue && a.uid == o.uid && a.run == o.run && a.intent == o.intent
  {
    hide RiskKey;
    RiskKeyInjective(a.venue, a.uid, a.run, a.intent, o.venue, o.uid, o.run, o.intent);
  }

  lemma KeyOfSound(b: Book, key: string)
    requires EntriesSound(b) && key in b.entries
    ensures b.entries[key].key == key == KeyOf(b.entries[key].order) && SoundEntry(b.entries[key]) && key !in b.fences
  {
    hide ValidOrder, KeyOf, Hex, Usd;
  }

  /** The account that admitted a new reservation allows it, its strategy's new total included. */
  lemma CreatedAccount(before: Book, b: Book, p: Policy, policy: RiskPolicy, c: Census, o: Order, now: int)
    requires Sound(b) && ReserveContext(b, p, policy, c, o, now)
    requires KeyOf(o) !in b.entries && Admission(b, p, policy, External(c.rows), o).Pass?
    ensures Created(b, p, policy, c, o, ReserveCharged(before, b, p, policy, c, o, now))
  {
    hide Units, Sum, Overlay, LimitOf, Parseable, SaveEntry, AccountOf, StrategyOf, Usd, KeyOf, AccountKey, Sound, ValidPolicy, Projected,
         Hex, Token, StrategyText, InstrumentText, VenueText, Admission, CapAdmission, FreshCensus, CompleteCensus, ConversionProven,
         RealKeys, SoundEntry, WithinCaps, Forward, Budgeted, External, StrategyCap, Trading, Authoritative, ReserveCharged, InScope;
    var e, usdt := NewEntry(o, c, now), Units(o.lossUsdt).GetOr(0);
    ReserveCreates(before, b, p, policy, c, o, now);
    AdmittedFacts(b, p, policy, External(c.rows), o);
    NewEntryAccount(o, c, now);
    SavedParts(b, e, usdt);
    PositiveLoss(policy, o, now);
    var account := Admission(b, p, policy, External(c.rows), o).account;
    assert AccountAllows(p, account, SaveEntry(b, e, usdt).value, o);
  }

  lemma PositiveLoss(policy: RiskPolicy, o: Order, now: int)
    requires InScope(policy, o, now)
    ensures Units(o.lossUsdt).GetOr(0) > 0
  {
    hide Units, Hex, Token, StrategyText, InstrumentText, VenueText, AccountKey, RealAccountText;
  }

  /** A charged reservation that finds no entry under its key. */
  lemma ReserveNewSafe(before: Book, b: Book, p: Policy, policy: RiskPolicy, c: Census, o: Order, now: int)
    requires Sound(before) && Sound(b) && Forward(before, b) && before.meta.Some? && before.fences == b.fences && before.entries == b.entries
    requires ReserveContext(b, p, policy, c, o, now) && o.revision == p.revision && KeyOf(o) !in b.entries
    ensures var out := ReserveCharged(before, b, p, policy, c, o, now);
            && Sound(out.book) && Forward(before, out.book)
            && (Registered(before, p) ==> Registered(out.book, p))
            && (out.reply.HeldReply? ==> HeldMeaning(before, p, policy, c, o, now, out))
            && (out.reply.Thrown? ==> out.book == before && !Parseable(b.meta.value.consumedUsd))
            && !out.reply.PostAuthorized? && !out.reply.Updated?
  {
    hide Units, Sum, Overlay, Parseable, SaveEntry, KeyOf, AccountKey, Sound, ValidPolicy, Admission, CensusRisk, ConversionProven, InScope,
         RealKeys, SoundEntry, Forward, External, Replay, Authoritative, Created, NewEntry;
    AdmissionThrows(b, p, policy, External(c.rows), o);
    ForwardSelf(before);
    if Admission(b, p, policy, External(c.rows), o).Pass? {
      ReserveCreates(before, b, p, policy, c, o, now);
      CreatedAccount(before, b, p, policy, c, o, now);
      NewEntryHeld(o, c, now);
      var out := ReserveCharged(before, b, p, policy, c, o, now);
      CreatedSameCaps(b, before, p, policy, c, o, out);
      ForwardTwice(before, b, out.book);
    }
  }

  lemma ReserveChargedSafe(before: Book, b: Book, p: Policy, policy: RiskPolicy, c: Census, o: Order, now: int)
    requires Sound(before) && Sound(b) && Forward(before, b) && before.meta.Some? && before.fences == b.fences && before.entries == b.entries
    requires ReserveContext(b, p, policy, c, o, now) && o.revision == p.revision
    ensures var out := ReserveCharged(before, b, p, policy, c, o, now);
            && Sound(out.book) && Forward(before, out.book)
            && (Registered(before, p) ==> Registered(out.book, p))
            && (out.reply.HeldReply? ==> HeldMeaning(before, p, policy, c, o, now, out))
            && (out.reply.Thrown? ==> out.book == before && !Parseable(b.meta.value.consumedUsd))
            && !out.reply.PostAuthorized? && !out.reply.Updated?
  {
    hide ReserveCharged, HeldMeaning, Sound, Forward, KeyOf, ReserveContext, Registered;
    if KeyOf(o) in b.entries {
      ReserveReplaySafe(before, b, p, policy, c, o, now);
    } else {
      ReserveNewSafe(before, b, p, policy, c, o, now);
    }
  }

  lemma ReplayShape(before: Book, b: Book, p: Policy, policy: RiskPolicy, c: Census, o: Order, now: int)
    requires b.meta.Some? && KeyOf(o) in b.entries
    ensures ReserveCharged(before, b, p, policy, c, o, now) == Outcome(b, Replay(b, b.entries[KeyOf(o)], o))
  {
    hide KeyOf, Replay;
  }

  /** A charged reservation that finds an entry under its key changes nothing more. */
  lemma ReserveReplaySafe(before: Book, b: Book, p: Policy, policy: RiskPolicy, c: Census, o: Order, now: int)
    requires Sound(before) && Sound(b) && Forward(before, b) && before.meta.Some? && before.fences == b.fences && before.entries == b.entries
    requires ReserveContext(b, p, policy, c, o, now) && o.revision == p.revision && KeyOf(o) in b.entries
    ensures var out := ReserveCharged(before, b, p, policy, c, o, now);
            && Sound(out.book) && Forward(before, out.book)
            && (Registered(before, p) ==> Registered(out.book, p))
            && (out.reply.HeldReply? ==> HeldMeaning(before, p, policy, c, o, now, out))
            && (out.reply.Thrown? ==> out.book == before && !Parseable(b.meta.value.consumedUsd))
            && !out.reply.PostAuthorized? && !out.reply.Updated?
  {
    hide KeyOf, Sound, ValidPolicy, CensusRisk, ConversionProven, InScope, Forward, Replay, Authoritative, Created, NewEntry, ReserveCharged,
         Balanced, Bounded, EntriesSound, Registered, Parseable;
    SoundParts(b);
    ReplayIsSame(b, o);
    ReplayShape(before, b, p, policy, c, o, now);
  }

  lemma NewEntryHeld(o: Order, c: Census, now: int)
    ensures NewEntry(o, c, now).state.Held? && NewEntry(o, c, now).order == o
  {
    hide KeyOf;
  }

  /** What a new reservation respects does not depend on the book it was made in. */
  lemma CreatedSameCaps(b: Book, before: Book, p: Policy, policy: RiskPolicy, c: Census, o: Order, out: Outcome)
    ensures Created(b, p, policy, c, o, out) == Created(before, p, policy, c, o, out)
  {
    hide WithinCaps, AccountAllows;
  }

  lemma SoundParts(b: Book)
    requires b.meta.Some? && Sound(b)
    ensures Balanced(b) && Bounded(b) && EntriesSound(b)
  {
    hide Balanced, Bounded, EntriesSound;
  }

  lemma StrategyReadable(b: Book, s: string)
    requires b.meta.Some? && Sound(b)
    ensures Parseable(Get(b.strategies, s))
  {
    hide Total, Sum, SoundEntry;
    SoundParts(b);
    BalancedParts(b, "", s);
    TotalWithin(b.entries, OfStrategy(s), InUsdt);
  }

  /** The only way an admission throws is a consumed loss too large to read back. */
  lemma AdmissionThrows(b: Book, p: Policy, policy: RiskPolicy, external: map<string, nat>, o: Order)
    requires b.meta.Some? && Sound(b)
    ensures Admission(b, p, policy, external, o).Throw? <==> !Parseable(b.meta.value.consumedUsd)
  {
    hide Units, Sum, Overlay, Parseable, Sound, StrategyCap, Trading, AccountKey, OverLimit, Unregistered, LimitOf;
    StrategyReadable(b, AccountKey(o.venue, o.uid) + ":" + o.strategy);
  }

  /** The census reports more loss than the book could ever read back. */
  ghost predicate Overflows(b: Book, c: Census) {
    b.meta.Some? && ChargeCensus(b, c).Some? && !Parseable(ChargeCensus(b, c).value.meta.value.consumedUsd)
  }

  /** RESERVE: safe in every case; a held reply means what it says; the one throw is a census that pushes the loss beyond readable. */
  lemma ReserveSafe(b: Book, access: Option<Policy>, generation: int, policy: RiskPolicy, c: Census, o: Order, now: int, native: Option<Evidence>)
    requires Sound(b) && (access.Some? ==> Registered(b, access.value))
    ensures var out := Reserve(b, access, generation, policy, c, o, now, native);
            && Safe(b, access, out)
            && (out.reply.HeldReply? ==> access.Some? && native.Some? && generation == native.value.generation && HeldMeaning(b, access.value, policy, c, o, now, out))
            && (out.reply.Thrown? ==> Overflows(b, c))
            && (native.None? || generation != native.value.generation ==> out.book == b)
            && !out.reply.PostAuthorized? && !out.reply.Updated?
  {
    hide Units, Sum, Parseable, KeyOf, Sound, ValidPolicy, CensusRisk, ConversionProven, InScope, ReserveCharged, ChargeCensus,
         RealKeys, Forward, Authoritative, HeldMeaning, ValidMeta;
    var out := Reserve(b, access, generation, policy, c, o, now, native);
    if out == Outcome(b, out.reply) && out.reply.Denied? {
      NothingDone(b, access, out);
    } else {
      var p := access.value;
      ReadableRoom(b);
      ChargedSafe(b, access, c, policy, now, false);
      RevisionKept(p, policy, o, now);
      ReserveChargedSafe(b, ChargeCensus(b, c).value, p, policy, c, o, now);
    }
  }

  lemma RevisionKept(p: Policy, policy: RiskPolicy, o: Order, now: int)
    requires ValidPolicy(p) && Authoritative(p, policy) && InScope(policy, o, now)
    ensures o.revision == p.revision
  {
    hide Units, ValidPolicy, Projected, RealKeys, Hex, Token, Budgeted, AccountKey;
    AuthoritativeFacts(p, policy);
  }
}
