/** BEGIN_POST, RESOLVE and RELEASE_UNSENT: safety in every case and the meaning of their positive replies. */
module Posting {
  import opened Options
  import opened Amounts
  import opened RiskKeys
  import opened Collections
  import opened Governance
  import opened Sums
  import opened RiskBook
  import opened Conservation
  import opened Progress
  import opened Commands

  // ---------- moving a stored entry ----------

  /** A lawful next form of the stored entry under `key`. */
  ghost predicate Moves(b: Book, key: string, f: Entry) {
    && key in b.entries
    && var e := b.entries[key];
       Later(e, f) && SoundEntry(f) && !e.state.Released? && f.key == key
  }

  function MoveDelta(f: Entry): int {
    if f.state.Released? then 0 - Usdt(f) else 0
  }

  /** A stored entry may always be moved: nothing throws, and the book stays sound. */
  lemma MoveSafe(b: Book, key: string, f: Entry)
    requires b.meta.Some? && Sound(b) && |b.entries| <= MAX_SAFE && Moves(b, key, f)
    ensures var saved := SaveEntry(b, f, MoveDelta(f));
            && saved.Some? && Sound(saved.value) && Forward(b, saved.value) && saved.value.meta.Some?
            && saved.value.meta.value.accounts.Keys == b.meta.value.accounts.Keys
            && saved.value.entries == b.entries[key := f] && saved.value.losses == b.losses && saved.value.fences == b.fences
            && saved.value.meta.value.sequence == NextSequence(b.meta.value.sequence)
            && saved.value.meta.value.consumedUsd == b.meta.value.consumedUsd
            && (MoveDelta(f) == 0 ==> saved.value.meta.value.accounts == b.meta.value.accounts)
  {
    hide Usd, Usdt, AccountOf, StrategyOf, NextRecord, SaveEntry, SoundEntry, Balanced, EntriesSound, Later, Forward, Total, Sum;
    var e := b.entries[key];
    SoundParts(b);
    KeyOfSound(b, key);
    MoveFits(b, key, f);
    OccupyingAccount(b, key);
    LaterAccount(e, f);
    assert b.meta.value.accounts[AccountOf(f) := 0].Keys == b.meta.value.accounts.Keys;
    SameKeysSameSize(b.meta.value.accounts[AccountOf(f) := 0], b.meta.value.accounts);
    SaveSound(b, f, MoveDelta(f));
    SaveForward(b, f, MoveDelta(f));
    SavedParts(b, f, MoveDelta(f));
    assert MoveDelta(f) == 0 ==> b.meta.value.accounts[AccountOf(f) := Get(b.meta.value.accounts, AccountOf(f))] == b.meta.value.accounts;
  }

  lemma LaterAccount(e: Entry, f: Entry)
    requires Later(e, f)
    ensures AccountOf(e) == AccountOf(f) && Usdt(e) == Usdt(f) && Usd(e) == Usd(f) && f.order == e.order && f.key == e.key
    ensures e.state.Released? ==> f.state.Released?
  {
    hide AccountKey, Units;
  }

  lemma MoveFits(b: Book, key: string, f: Entry)
    requires Moves(b, key, f)
    ensures Fits(b, f, MoveDelta(f)) && MoveDelta(f) <= 0
  {
    SoundUsdt(f);
    hide Usdt, SoundEntry;
  }

  lemma SoundUsdt(f: Entry)
    requires SoundEntry(f)
    ensures Usdt(f) > 0
  {
    hide Hex, Token, StrategyText, InstrumentText, VenueText, KeyOf, Usd;
  }

  /** What an occupying entry occupies is part of what the book occupies. */
  lemma OccupyingWithin(b: Book, key: string)
    requires b.meta.Some? && Balanced(b) && key in b.entries && !b.entries[key].state.Released?
    ensures Usdt(b.entries[key]) <= b.meta.value.occupiedUsdt == Sum(b.meta.value.accounts)
  {
    hide Total, Usdt, Sum;
    BalancedParts(b, "", "");
    TotalUpdate(b.entries, key, b.entries[key], Everything, InUsdt);
  }

  // ---------- BEGIN_POST ----------

  /** Everything a post authorization stands for. */
  ghost predicate PostMeaning(b: Book, p: Policy, key: string, plan: string, revision: int, n: PostProof, out: Outcome) {
    && out.reply.PostAuthorized? && b.meta.Some? && out.book.meta.Some?
    && ValidPolicy(p) && p.revision == revision && Projected(p).Some?
    && key in b.entries && key in out.book.entries
    && b.entries[key].state.Held? && b.entries[key].order.revision == revision && b.entries[key].order.plan == plan
    && out.book.entries[key].state.Posted? && out.book.entries[key].postedAt == Some(n.now)
    && b.entries[key].createdAt <= n.now <= b.entries[key].createdAt + 5000
    && out.book.meta.value.sequence == out.reply.bookSequence == NextSequence(n.expected)
    && (if out.book.meta.value.consumedUsd == b.meta.value.consumedUsd
        then b.meta.value.sequence == n.expected && out.book.losses == b.losses
        else NextSequence(b.meta.value.sequence) == n.expected)
    && (exists account :: account in p.accounts && Grants(account, b.entries[key].order))
    && PostCapsHold(p, n, b.entries[key], out)
  }

  ghost predicate Grants(account: Account, o: Order) {
    Trading(account) && account.venue == o.venue && account.uid == o.uid && o.instrument in account.limits.instruments
  }

  /** All caps of the current policy hold, and the reported loss is the checked total less the candidate's own. */
  ghost predicate PostCapsHold(p: Policy, n: PostProof, e: Entry, out: Outcome) {
    && out.reply.PostAuthorized? && out.book.meta.Some? && Projected(p).Some?
    && WithinCaps(External(n.census.rows), out.book.meta.value.accounts, Projected(p).value)
    && out.reply.existing + Usdt(e) == Sum(Overlay(External(n.census.rows), out.book.meta.value.accounts))
  }

  lemma PostedMoves(b: Book, key: string, plan: string, revision: int, now: int, digest: string)
    requires Sound(b) && b.meta.Some? && HeldExactly(b, key, plan, revision)
    requires SafeInt(now) && now >= b.entries[key].createdAt && Hex(digest)
    ensures Moves(b, key, PostedEntry(b.entries[key], now, digest)) && MoveDelta(PostedEntry(b.entries[key], now, digest)) == 0
  {
    hide ValidOrder, Hex, KeyOf, Usd, Balanced, Bounded, EntriesSound;
    SoundParts(b);
    KeyOfSound(b, key);
    UsdSame(b.entries[key], PostedEntry(b.entries[key], now, digest));
  }

  lemma UsdSame(e: Entry, f: Entry)
    requires e.order == f.order
    ensures Usd(e) == Usd(f) && Usdt(e) == Usdt(f) && AccountOf(e) == AccountOf(f)
  {
    hide Units, AccountKey;
  }

  lemma PostPassCaps(b: Book, policy: RiskPolicy, external: map<string, nat>, account: Account)
    requires b.meta.Some? && PostCaps(b, policy, external, account).Pass?
    ensures WithinCaps(external, b.meta.value.accounts, policy)
    ensures PostCaps(b, policy, external, account) == Pass(account, Sum(Overlay(external, b.meta.value.accounts)))
  {
    hide Sum, Overlay, Units, LimitOf;
  }

  /** What a charged post that passes its checks leaves and answers. */
  ghost predicate Granted(b: Book, p: Policy, policy: RiskPolicy, key: string, plan: string, revision: int, digest: string, n: PostProof, out: Outcome)
    requires b.meta.Some?
  {
    && out.reply.PostAuthorized? && out.book.meta.Some?
    && b.meta.value.sequence == n.expected
    && HeldExactly(b, key, plan, revision)
    && b.entries[key].createdAt <= n.now <= b.entries[key].createdAt + 5000
    && out.book.entries == b.entries[key := PostedEntry(b.entries[key], n.now, digest)]
    && out.book.losses == b.losses && out.book.meta.value.consumedUsd == b.meta.value.consumedUsd
    && out.book.meta.value.accounts == b.meta.value.accounts
    && out.book.meta.value.sequence == NextSequence(b.meta.value.sequence) == out.reply.bookSequence
    && (exists account :: account in p.accounts && Grants(account, b.entries[key].order))
    && WithinCaps(External(n.census.rows), b.meta.value.accounts, policy)
    && out.reply.existing + Usdt(b.entries[key]) == Sum(Overlay(External(n.census.rows), b.meta.value.accounts))
  }

  lemma PostPasses(before: Book, b: Book, p: Policy, policy: RiskPolicy, key: string, plan: string, revision: int, digest: string, n: PostProof)
    requires b.meta.Some? && Sound(b) && |b.entries| <= MAX_SAFE && Hex(digest) && SafeInt(n.now)
    requires b.meta.value.sequence == n.expected && HeldExactly(b, key, plan, revision)
    requires PostAdmission(b, p, policy, External(n.census.rows), b.entries[key], n.now).Pass?
    ensures var out := PostCharged(before, b, p, policy, key, plan, revision, digest, n);
            && Granted(b, p, policy, key, plan, revision, digest, n, out)
            && Sound(out.book) && Forward(b, out.book)
  {
    hide Units, Sum, Overlay, Sound, Forward, SaveEntry, Usdt, HeldExactly, External, WithinCaps, PostAdmission, PostCharged, Moves, PostedEntry,
         Grants, MoveDelta, Granted, Balanced, Bounded, EntriesSound, Hex, NextSequence;
    HeldThere(b, key, plan, revision);
    var e := b.entries[key];
    var external := External(n.census.rows);
    PostPassed(b, p, policy, external, e, n.now);
    PostedMoves(b, key, plan, revision, n.now, digest);
    MoveSafe(b, key, PostedEntry(e, n.now, digest));
    SoundParts(b);
    OccupyingWithin(b, key);
    OverlayCovers(external, b.meta.value.accounts);
    PostShape(before, b, p, policy, key, plan, revision, digest, n);
    GrantedBy(b, p, policy, key, plan, revision, digest, n, SaveEntry(b, PostedEntry(e, n.now, digest), 0).value, Sum(Overlay(external, b.meta.value.accounts)));
  }

  lemma GrantedBy(b: Book, p: Policy, policy: RiskPolicy, key: string, plan: string, revision: int, digest: string, n: PostProof, saved: Book, total: nat)
    requires b.meta.Some? && saved.meta.Some? && b.meta.value.sequence == n.expected && HeldExactly(b, key, plan, revision)
    requires b.entries[key].createdAt <= n.now <= b.entries[key].createdAt + 5000
    requires saved.entries == b.entries[key := PostedEntry(b.entries[key], n.now, digest)] && saved.losses == b.losses
    requires saved.meta.value.consumedUsd == b.meta.value.consumedUsd && saved.meta.value.accounts == b.meta.value.accounts
    requires saved.meta.value.sequence == NextSequence(b.meta.value.sequence)
    requires exists account :: account in p.accounts && Grants(account, b.entries[key].order)
    requires WithinCaps(External(n.census.rows), b.meta.value.accounts, policy)
    requires total == Sum(Overlay(External(n.census.rows), b.meta.value.accounts)) && total >= Usdt(b.entries[key])
    ensures Granted(b, p, policy, key, plan, revision, digest, n, Outcome(saved, PostAuthorized(NextSequence(b.meta.value.sequence), total - Usdt(b.entries[key]))))
  {
    hide HeldExactly, Sum, Overlay, External, Usdt, WithinCaps, Grants, PostedEntry, NextSequence;
  }

  /** What a passed admission of a post has checked. */
  lemma PostPassed(b: Book, p: Policy, policy: RiskPolicy, external: map<string, nat>, e: Entry, now: int)
    requires b.meta.Some? && PostAdmission(b, p, policy, external, e, now).Pass?
    ensures e.createdAt <= now <= e.createdAt + 5000
    ensures exists account :: account in p.accounts && Grants(account, e.order)
    ensures WithinCaps(external, b.meta.value.accounts, policy)
    ensures PostAdmission(b, p, policy, external, e, now).total == Sum(Overlay(external, b.meta.value.accounts))
  {
    hide Units, Sum, Overlay, WithinCaps, PostCaps, Grants, Trading;
    PostPassCaps(b, policy, external, FindTrading(p.accounts, e.order.venue, e.order.uid).value);
    FoundGrants(p, e.order);
  }

  /** What an admitted post then does. */
  lemma PostShape(before: Book, b: Book, p: Policy, policy: RiskPolicy, key: string, plan: string, revision: int, digest: string, n: PostProof)
    requires b.meta.Some? && b.meta.value.sequence == n.expected && HeldExactly(b, key, plan, revision)
    requires PostAdmission(b, p, policy, External(n.census.rows), b.entries[key], n.now).Pass?
    requires SaveEntry(b, PostedEntry(b.entries[key], n.now, digest), 0).Some?
    requires PostAdmission(b, p, policy, External(n.census.rows), b.entries[key], n.now).total >= Usdt(b.entries[key])
    ensures var e := b.entries[key];
            PostCharged(before, b, p, policy, key, plan, revision, digest, n) ==
              Outcome(SaveEntry(b, PostedEntry(e, n.now, digest), 0).value,
                      PostAuthorized(NextSequence(b.meta.value.sequence), PostAdmission(b, p, policy, External(n.census.rows), e, n.now).total - Usdt(e)))
  {
    hide External, PostAdmission, SaveEntry, Usdt, HeldExactly, PostedEntry, NextSequence;
  }

  lemma FoundGrants(p: Policy, o: Order)
    requires FindTrading(p.accounts, o.venue, o.uid).Some?
    requires o.instrument in FindTrading(p.accounts, o.venue, o.uid).value.limits.instruments
    ensures exists account :: account in p.accounts && Grants(account, o)
  {
    hide Trading;
    var account := FindTrading(p.accounts, o.venue, o.uid).value;
    assert account in p.accounts && Grants(account, o);
  }

  lemma PostNeverThrows(b: Book, p: Policy, policy: RiskPolicy, external: map<string, nat>, e: Entry, now: int)
    requires b.meta.Some?
    ensures !PostAdmission(b, p, policy, external, e, now).Throw?
  {
    hide Units, Sum, Overlay, Unregistered, PostOver;
  }

  lemma PostChargedSafe(before: Book, b: Book, p: Policy, policy: RiskPolicy, key: string, plan: string, revision: int, digest: string, n: PostProof)
    requires Sound(before) && Sound(b) && Forward(before, b) && before.meta.Some? && b.meta.Some?
    requires |b.entries| <= MAX_SAFE && Hex(digest) && SafeInt(n.now)
    ensures var out := PostCharged(before, b, p, policy, key, plan, revision, digest, n);
            && Sound(out.book) && Forward(before, out.book)
            && (out.reply.Denied? || Granted(b, p, policy, key, plan, revision, digest, n, out))
            && (out.reply.Denied? ==> out.book == b)
  {
    hide Sum, Sound, Forward, SaveEntry, HeldExactly, External, PostAdmission, PostedEntry, Usdt, Granted;
    if b.meta.value.sequence == n.expected && HeldExactly(b, key, plan, revision) {
      HeldThere(b, key, plan, revision);
      PostNeverThrows(b, p, policy, External(n.census.rows), b.entries[key], n.now);
      if PostAdmission(b, p, policy, External(n.census.rows), b.entries[key], n.now).Pass? {
        PostPasses(before, b, p, policy, key, plan, revision, digest, n);
        ForwardTwice(before, b, PostCharged(before, b, p, policy, key, plan, revision, digest, n).book);
      }
    }
  }

  lemma HeldThere(b: Book, key: string, plan: string, revision: int)
    requires HeldExactly(b, key, plan, revision)
    ensures key in b.entries && b.entries[key].state.Held? && b.entries[key].order.plan == plan && b.entries[key].order.revision == revision
  {
    hide ValidEntry;
  }

  /** The expected sequence was the current one unless the post's own census added loss; then it was the one after. */
  lemma ExpectedSequence(b: Book, c: Census, policy: RiskPolicy, now: int)
    requires Sound(b) && Readable(b) && CensusRisk(c, policy, now, true).Some? && ChargeCensus(b, c).Some?
    requires ChargeCensus(b, c).value.meta.Some?
    ensures var d := ChargeCensus(b, c).value;
            if d.meta.value.consumedUsd == b.meta.value.consumedUsd
            then d.losses == b.losses && d.meta.value.sequence == b.meta.value.sequence
            else d.meta.value.sequence == NextSequence(b.meta.value.sequence)
  {
    hide Sound, Sum, CensusRisk, ValidMeta, NextSequence;
    ReadableRoom(b);
    ProvenCensus(c, policy, now, true);
    ChargeFacts(b, c);
  }

  lemma PostMeans(b: Book, d: Book, p: Policy, key: string, plan: string, revision: int, digest: string, n: PostProof, out: Outcome)
    requires b.meta.Some? && d.meta.Some? && ValidPolicy(p) && p.revision == revision && Projected(p).Some?
    requires d.entries == b.entries
    requires if d.meta.value.consumedUsd == b.meta.value.consumedUsd
             then d.losses == b.losses && d.meta.value.sequence == b.meta.value.sequence
             else d.meta.value.sequence == NextSequence(b.meta.value.sequence)
    requires Granted(d, p, Projected(p).value, key, plan, revision, digest, n, out)
    ensures PostMeaning(b, p, key, plan, revision, n, out)
  {
    hide ValidPolicy, Projected, WithinCaps, Sum, Overlay, External, Usdt, HeldExactly, NextSequence, Grants;
    HeldThere(d, key, plan, revision);
  }

  /** BEGIN_POST: safe in every case, never throws, and an authorization means what it says. */
  lemma BeginPostSafe(b: Book, access: Option<Policy>, generation: int, key: string, plan: string, revision: int, digest: string, native: Option<PostProof>)
    requires Sound(b) && (access.Some? ==> Registered(b, access.value))
    ensures var out := BeginPost(b, access, generation, key, plan, revision, digest, native);
            && Safe(b, access, out)
            && (out.reply.Denied? || out.reply.PostAuthorized?)
            && (out.reply.PostAuthorized? ==>
                  access.Some? && native.Some? && generation == native.value.generation && PostMeaning(b, access.value, key, plan, revision, native.value, out))
            && (native.None? || generation != native.value.generation ==> out.book == b)
  {
    hide Units, Sum, Sound, ValidPolicy, CensusRisk, PostCharged, ChargeCensus, Projected, Forward, ValidMeta, PostMeaning, PostArguments, Granted;
    var out := BeginPost(b, access, generation, key, plan, revision, digest, native);
    if out == Outcome(b, out.reply) && out.reply.Denied? {
      NothingDone(b, access, out);
    } else {
      var p, n := access.value, native.value;
      var policy := Projected(p).value;
      var d := ChargeCensus(b, n.census).value;
      ReadableRoom(b);
      ChargedSafe(b, access, n.census, policy, n.now, true);
      PostArgumentsFacts(key, plan, revision, digest, n);
      PostChargedSafe(b, d, p, policy, key, plan, revision, digest, n);
      ExpectedSequence(b, n.census, policy, n.now);
      GrantedAccounts(b, d, p, policy, key, plan, revision, digest, n, out);
      if out.reply.PostAuthorized? {
        PostMeans(b, d, p, key, plan, revision, digest, n, out);
      }
    }
  }

  lemma GrantedAccounts(b: Book, d: Book, p: Policy, policy: RiskPolicy, key: string, plan: string, revision: int, digest: string, n: PostProof, out: Outcome)
    requires d.meta.Some? && (out.book == d || Granted(d, p, policy, key, plan, revision, digest, n, out))
    ensures Registered(d, p) ==> Registered(out.book, p)
    ensures !out.reply.Denied? && Granted(d, p, policy, key, plan, revision, digest, n, out) ==> out.reply.PostAuthorized?
  {
    hide WithinCaps, Sum, Overlay, External, Usdt, HeldExactly, NextSequence, Grants, RealKeys;
  }

  lemma PostArgumentsFacts(key: string, plan: string, revision: int, digest: string, n: PostProof)
    requires PostArguments(key, plan, revision, digest, n)
    ensures Hex(digest) && SafeInt(n.now) && n.expected <= MAX_SAFE
  {
    hide Hex, ValidPostProof;
  }

  // ---------- RESOLVE ----------

  lemma MovedMoves(b: Book, key: string, to: EntryState, digest: string)
    requires Sound(b) && b.meta.Some? && key in b.entries && Hex(digest)
    requires Allowed(b.entries[key].state, to) && !to.Posted?
    ensures Moves(b, key, MovedEntry(b.entries[key], to, digest))
  {
    hide ValidOrder, Hex, KeyOf, Usd, Balanced, Bounded, EntriesSound;
    SoundParts(b);
    KeyOfSound(b, key);
    UsdSame(b.entries[key], MovedEntry(b.entries[key], to, digest));
  }

  /** The moved entry is stored, and nothing is charged. */
  ghost predicate MovedTo(b: Book, key: string, to: EntryState, digest: string, out: Outcome) {
    && out.reply.Updated? && b.meta.Some? && out.book.meta.Some? && key in b.entries
    && out.book.entries == b.entries[key := MovedEntry(b.entries[key], to, digest)] && out.book.fences == b.fences
  }

  lemma MoveEntrySafe(b: Book, key: string, to: EntryState, digest: string)
    requires Sound(b) && b.meta.Some? && |b.entries| <= MAX_SAFE && key in b.entries && Hex(digest)
    requires Allowed(b.entries[key].state, to) && !to.Posted? && !to.Released?
    ensures var out := MoveEntry(b, b.entries[key], to, digest);
            && Sound(out.book) && Forward(b, out.book) && MovedTo(b, key, to, digest, out)
            && out.book.losses == b.losses && out.book.meta.value.accounts.Keys == b.meta.value.accounts.Keys
  {
    hide Sound, Forward, SaveEntry, Moves, Hex;
    MovedMoves(b, key, to, digest);
    MoveSafe(b, key, MovedEntry(b.entries[key], to, digest));
  }

  /** The losses on record once the census has been charged. */
  ghost function LossesAfter(b: Book, c: Census): map<string, nat> {
    if b.meta.Some? && ChargeCensus(b, c).Some? then ChargeCensus(b, c).value.losses else b.losses
  }

  /** A release on a terminal record: the entry is released and its account's loss is the record's. */
  ghost predicate TerminalMeaning(b: Book, key: string, digest: string, t: TerminalProof, losses: map<string, nat>, out: Outcome) {
    && MovedTo(b, key, Released, digest, out)
    && out.book.losses == losses[AccountOf(b.entries[key]) := Units(t.ledger.loss).GetOr(0)]
    && Get(losses, AccountOf(b.entries[key])) <= Units(t.ledger.loss).GetOr(0)
  }

  /** A ledger charge followed by the release moves only forward from a book whose sequence can still grow. */
  lemma LedgerThenSave(b: Book, account: string, loss: nat, d: Book)
    requires b.meta.Some? && Get(b.losses, account) <= loss
    requires Forward(ChargeLedger(b, account, loss), d) && d.meta.Some?
    requires d.meta.value.sequence == NextSequence(b.meta.value.sequence)
    ensures Forward(b, d)
  {
    hide Later, Sum;
    var c := ChargeLedger(b, account, loss);
    EntriesLaterSelf(b, c);
    assert EntriesLater(b, d) by { assert EntriesLater(c, d); }
  }

  lemma RecordedReadable(b: Book, a: string)
    requires b.meta.Some? && Bounded(b)
    ensures Parseable(Get(b.losses, a))
  {
  }

  lemma TextReadable(s: string)
    ensures Parseable(Units(s).GetOr(0))
  {
    UnitsParseable(s);
  }

  /** A sound forward step of one released entry. */
  ghost predicate LedgerReleased(b: Book, key: string, digest: string, loss: nat, d: Book)
    requires key in b.entries && b.meta.Some?
  {
    && Sound(d) && Forward(b, d) && d.meta.Some?
    && d.meta.value.accounts.Keys == b.meta.value.accounts.Keys
    && d.entries == b.entries[key := MovedEntry(b.entries[key], Released, digest)] && d.fences == b.fences
    && d.losses == b.losses[AccountOf(b.entries[key]) := loss]
  }

  /** The charged and released book of a terminal record that does not go back. */
  lemma TerminalReleases(b: Book, key: string, digest: string, loss: nat)
    requires b.meta.Some? && Sound(b) && |b.entries| <= MAX_SAFE && key in b.entries && Hex(digest) && Allowed(b.entries[key].state, Released)
    requires Get(b.losses, AccountOf(b.entries[key])) <= loss && Parseable(loss)
    ensures LedgerRelease(b, b.entries[key], digest, loss).Some?
    ensures LedgerReleased(b, key, digest, loss, LedgerRelease(b, b.entries[key], digest, loss).value)
  {
    hide Sound, Forward, SaveEntry, Moves, Hex, Units, AccountOf, Usdt, Parseable, Sum, ChargeLedger;
    var e := b.entries[key];
    var a := AccountOf(e);
    var c := ChargeLedger(b, a, loss);
    LedgerSound(b, a, loss);
    LedgerFacts(b, a, loss);
    MovedMoves(c, key, Released, digest);
    var f := MovedEntry(e, Released, digest);
    UsdSame(e, f);
    MoveSafe(c, key, f);
    LedgerThenSave(b, a, loss, SaveEntry(c, f, 0 - Usdt(e)).value);
  }

  ghost predicate ReleaseOutcome(before: Book, b: Book, key: string, digest: string, t: TerminalProof, out: Outcome)
    requires before.meta.Some? && b.meta.Some?
  {
    && Sound(out.book) && Forward(before, out.book)
    && out.book.meta.Some? && out.book.meta.value.accounts.Keys == b.meta.value.accounts.Keys
    && match out.reply
       case Denied(_) => out.book == b
       case Thrown => out.book == before && !Parseable(b.meta.value.consumedUsd)
       case Updated => TerminalMeaning(before, key, digest, t, b.losses, out)
       case _ => false
  }

  lemma ReleaseChargedSafe(before: Book, b: Book, key: string, digest: string, t: TerminalProof)
    requires Sound(before) && Sound(b) && Forward(before, b) && before.meta.Some? && b.meta.Some?
    requires |b.entries| <= MAX_SAFE && b.entries == before.entries && b.fences == before.fences
    requires b.meta.value.accounts.Keys == before.meta.value.accounts.Keys
    requires key in b.entries && Hex(digest) && Allowed(b.entries[key].state, Released)
    ensures ReleaseOutcome(before, b, key, digest, t, ReleaseCharged(before, b, b.entries[key], digest, t))
  {
    hide Sound, Forward, LedgerRelease, LedgerReleased, ReleaseOutcome, ReleaseCharged, Hex, Units, AccountOf, Parseable, Allowed, Balanced, Bounded, EntriesSound;
    var e := b.entries[key];
    var a, loss := AccountOf(e), Units(t.ledger.loss).GetOr(0);
    SoundParts(b);
    RecordedReadable(b, a);
    TextReadable(t.ledger.loss);
    if Get(b.losses, a) <= loss {
      TerminalReleases(b, key, digest, loss);
      ReleaseUpdated(before, b, key, digest, t, LedgerRelease(b, e, digest, loss).value);
    }
    ReleaseShape(before, b, e, digest, t);
    var out := ReleaseCharged(before, b, e, digest, t);
    if !out.reply.Updated? {
      ReleaseRefused(before, b, key, digest, t, out);
    }
  }

  /** The three ways a terminal release may end. */
  lemma ReleaseShape(before: Book, b: Book, e: Entry, digest: string, t: TerminalProof)
    requires b.meta.Some? && Parseable(Get(b.losses, AccountOf(e)))
    requires Get(b.losses, AccountOf(e)) <= Units(t.ledger.loss).GetOr(0) ==> LedgerRelease(b, e, digest, Units(t.ledger.loss).GetOr(0)).Some?
    ensures var a, loss := AccountOf(e), Units(t.ledger.loss).GetOr(0);
            ReleaseCharged(before, b, e, digest, t) ==
              if loss < Get(b.losses, a) then Outcome(b, Denied(CumulativeLossRegression))
              else if !Parseable(b.meta.value.consumedUsd) then Outcome(before, Thrown)
              else Outcome(LedgerRelease(b, e, digest, loss).value, Updated)
  {
    hide LedgerRelease, AccountOf, Units, Parseable;
  }

  lemma ReleaseUpdated(before: Book, b: Book, key: string, digest: string, t: TerminalProof, d: Book)
    requires Forward(before, b) && before.meta.Some? && b.meta.Some? && b.entries == before.entries && b.fences == before.fences
    requires key in b.entries && Get(b.losses, AccountOf(b.entries[key])) <= Units(t.ledger.loss).GetOr(0)
    requires LedgerReleased(b, key, digest, Units(t.ledger.loss).GetOr(0), d)
    ensures ReleaseOutcome(before, b, key, digest, t, Outcome(d, Updated))
  {
    hide Sound, Forward, Units, AccountOf, MovedEntry;
    ForwardTwice(before, b, d);
  }

  lemma ReleaseRefused(before: Book, b: Book, key: string, digest: string, t: TerminalProof, out: Outcome)
    requires Sound(before) && Sound(b) && Forward(before, b) && before.meta.Some? && b.meta.Some?
    requires b.meta.value.accounts.Keys == before.meta.value.accounts.Keys
    requires (out.reply.Denied? && out.book == b) || (out.reply.Thrown? && out.book == before && !Parseable(b.meta.value.consumedUsd))
    ensures ReleaseOutcome(before, b, key, digest, t, out)
  {
    hide Sound, Forward, Parseable;
    ForwardSelf(before);
  }

  /** What a terminal release may answer, and what each answer stands for. */
  ghost predicate TerminalAnswer(b: Book, key: string, digest: string, session: int, terminal: Option<TerminalProof>, out: Outcome)
    requires key in b.entries
  {
    match out.reply
    case Denied(_) => out.book.entries == b.entries && out.book.fences == b.fences
    case Thrown => terminal.Some? && Overflows(b, terminal.value.census)
    case Updated =>
      terminal.Some? && TerminalProven(b.entries[key], session, terminal.value)
      && TerminalMeaning(b, key, digest, terminal.value, LossesAfter(b, terminal.value.census), out)
    case _ => false
  }

  lemma ReleaseTerminalSafe(b: Book, access: Option<Policy>, key: string, digest: string, session: int, terminal: Option<TerminalProof>)
    requires Sound(b) && Readable(b) && key in b.entries && Hex(digest) && Allowed(b.entries[key].state, Released)
    requires access.Some? ==> Registered(b, access.value)
    ensures var out := ReleaseTerminal(b, access, b.entries[key], digest, session, terminal);
            Safe(b, access, out) && TerminalAnswer(b, key, digest, session, terminal, out)
  {
    hide Sound, Forward, Units, Parseable, Sum, ChargeCensus, ReleaseCharged, TerminalMeaning, TerminalProven, CensusRisk, Projected, Hex, ValidMeta, RealKeys;
    var out := ReleaseTerminal(b, access, b.entries[key], digest, session, terminal);
    if out == Outcome(b, out.reply) && out.reply.Denied? {
      NothingDone(b, access, out);
    } else {
      var c := terminal.value.census;
      ReadableRoom(b);
      ChargedSafe(b, access, c, Projected(access.value).value, terminal.value.now, false);
      ReleaseChargedSafe(b, ChargeCensus(b, c).value, key, digest, terminal.value);
    }
  }

  /** What a resolution may answer, and what each answer stands for. */
  ghost predicate ResolveAnswer(b: Book, generation: int, key: string, to: EntryState, digest: string, session: int, expected: int, terminal: Option<TerminalProof>, out: Outcome) {
    match out.reply
    case Denied(_) => out.book.entries == b.entries && out.book.fences == b.fences
    case Thrown => terminal.Some? && Overflows(b, terminal.value.census)
    case Updated =>
      && generation == session && b.meta.Some? && b.meta.value.sequence == expected
      && key in b.entries && Allowed(b.entries[key].state, to) && !to.Posted?
      && MovedTo(b, key, to, digest, out)
      && (if to.Released? then TerminalAnswer(b, key, digest, session, terminal, out) else out.book.losses == b.losses)
    case _ => false
  }

  /** RESOLVE: safe in every case; an update moves exactly the named entry, and a release rests on a terminal record. */
  lemma ResolveSafe(b: Book, access: Option<Policy>, generation: int, key: string, plan: string, to: EntryState, digest: string, session: int, expected: int, terminal: Option<TerminalProof>)
    requires Sound(b) && (access.Some? ==> Registered(b, access.value))
    ensures var out := Resolve(b, access, generation, key, plan, to, digest, session, expected, terminal);
            && Safe(b, access, out)
            && ResolveAnswer(b, generation, key, to, digest, session, expected, terminal, out)
            && (generation != session ==> out.book == b)
  {
    hide Sound, Forward, Overflows, TerminalProven, TerminalMeaning, LossesAfter, Hex, ValidMeta, RealKeys, ValidEntry, ReleaseTerminal, MoveEntry, MovedEntry;
    var out := Resolve(b, access, generation, key, plan, to, digest, session, expected, terminal);
    if out == Outcome(b, out.reply) && out.reply.Denied? {
      NothingDone(b, access, out);
    } else {
      ReadableRoom(b);
      if to.Released? {
        ReleaseTerminalSafe(b, access, key, digest, session, terminal);
        TerminalMoved(b, key, digest, session, terminal, out);
      } else {
        MoveEntrySafe(b, key, to, digest);
      }
    }
  }

  lemma TerminalMoved(b: Book, key: string, digest: string, session: int, terminal: Option<TerminalProof>, out: Outcome)
    requires key in b.entries && TerminalAnswer(b, key, digest, session, terminal, out)
    ensures out.reply.Updated? ==> MovedTo(b, key, Released, digest, out)
  {
    hide MovedTo, TerminalProven, Overflows, LossesAfter, Units, AccountOf;
  }

  // ---------- RELEASE_UNSENT ----------

  /** A confirmed unsent release leaves either a released entry or a permanent fence under the key. */
  ghost predicate Retired(b: Book, key: string) {
    || key in b.fences
    || (key in b.entries && b.entries[key].state.Released?)
  }

  lemma ReleaseEntrySafe(b: Book, key: string, plan: string, proof: UnsentProof)
    requires Sound(b) && b.meta.Some? && |b.entries| <= MAX_SAFE && key in b.entries && Hex(proof.digest)
    ensures var out := ReleaseEntry(b, b.entries[key], plan, proof);
            && Sound(out.book) && Forward(b, out.book) && out.book.meta.Some?
            && out.book.meta.value.accounts.Keys == b.meta.value.accounts.Keys && out.book.losses == b.losses
            && (out.reply.Denied? || out.reply.Updated?)
            && (out.reply.Denied? ==> out.book == b)
            && (out.reply.Updated? ==> (b.entries[key].state.Held? || b.entries[key].state.Posted?) && MovedTo(b, key, Released, proof.digest, out))
  {
    hide Sound, Forward, SaveEntry, Moves, Hex, Usdt, ValidEntry, AccountOf;
    ForwardSelf(b);
    var e := b.entries[key];
    if UnsentMatches(e, plan, proof) {
      MovedMoves(b, key, Released, proof.digest);
      UsdSame(e, MovedEntry(e, Released, proof.digest));
      MoveSafe(b, key, MovedEntry(e, Released, proof.digest));
    }
  }

  lemma FenceKeySafe(b: Book, access: Option<Policy>, key: string, proof: UnsentProof)
    requires Sound(b) && b.meta.Some? && key !in b.entries
    ensures var out := FenceKey(b, access, key, proof);
            && Sound(out.book) && Forward(b, out.book) && out.book.meta.Some?
            && out.book.meta.value.accounts == b.meta.value.accounts && out.book.losses == b.losses && out.book.entries == b.entries
            && (out.reply.Denied? || out.reply.Updated?)
            && (out.reply.Denied? ==> out.book == b)
            && (out.reply.Updated? ==> key in out.book.fences)
  {
    hide Sound, Forward, ValidPolicy;
    ForwardSelf(b);
    if key !in b.fences && access.Some? {
      FenceForward(b, key, NewFence(proof, access.value.revision));
      FenceSound(b, key, NewFence(proof, access.value.revision));
    }
  }

  /** RELEASE_UNSENT: safe in every case, never throws, and once confirmed the key is retired. */
  lemma ReleaseUnsentSafe(b: Book, access: Option<Policy>, generation: int, key: string, plan: string, expected: int, session: int, proof: UnsentProof)
    requires Sound(b) && (access.Some? ==> Registered(b, access.value))
    ensures var out := ReleaseUnsent(b, access, generation, key, plan, expected, session, proof);
            && Safe(b, access, out)
            && (out.reply.Denied? || out.reply.Updated?)
            && (out.reply.Denied? ==> out.book == b)
            && out.book.losses == b.losses
            && (out.reply.Updated? ==> generation == session && Retired(out.book, key))
            && (out.reply.Updated? && key in b.entries ==>
                  (b.entries[key].state.Held? || b.entries[key].state.Posted?) && MovedTo(b, key, Released, proof.digest, out))
            && (out.reply.Updated? && key !in b.entries ==> out.book.entries == b.entries)
            && (generation != session ==> out.book == b)
  {
    hide Sound, Forward, ReleaseEntry, FenceKey, ValidMeta, RealKeys, ValidNoReserveAddress, Token, Hex;
    var out := ReleaseUnsent(b, access, generation, key, plan, expected, session, proof);
    if out == Outcome(b, out.reply) && out.reply.Denied? {
      NothingDone(b, access, out);
    } else {
      ReadableRoom(b);
      if key in b.entries {
        ReleaseEntrySafe(b, key, plan, proof);
      } else {
        FenceKeySafe(b, access, key, proof);
      }
    }
  }
}
