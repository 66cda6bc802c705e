/** Every aggregate of the risk book equals the sum it stands for, and the book can always be read and written. */
module Conservation {
  import opened Options
  import opened Amounts
  import opened RiskKeys
  import opened Governance
  import opened Sums
  import opened RiskBook

  // ---------- sums over the entries ----------

  datatype Scope = Everything | OfAccount(account: string) | OfStrategy(strategy: string)

  datatype Measure = InUsdt | InUsd | InCount

  predicate Inside(e: Entry, scope: Scope) {
    match scope
    case Everything => true
    case OfAccount(a) => Same(AccountOf(e), a)
    case OfStrategy(s) => Same(StrategyOf(e), s)
  }

  function Size(e: Entry, measure: Measure): nat {
    match measure
    case InUsdt => Usdt(e)
    case InUsd => Usd(e)
    case InCount => 1
  }

  /** A released entry occupies nothing. */
  function Weight(e: Entry, scope: Scope, measure: Measure): nat {
    if e.state.Released? || !Inside(e, scope) then 0 else Size(e, measure)
  }

  function Weights(entries: map<string, Entry>, scope: Scope, measure: Measure): (r: map<string, nat>)
    ensures r.Keys == entries.Keys
  {
    map k | k in entries :: Weight(entries[k], scope, measure)
  }

  ghost function Total(entries: map<string, Entry>, scope: Scope, measure: Measure): nat {
    Sum(Weights(entries, scope, measure))
  }

  function PriorWeight(entries: map<string, Entry>, key: string, scope: Scope, measure: Measure): nat {
    if key in entries then Weight(entries[key], scope, measure) else 0
  }

  lemma TotalUpdate(entries: map<string, Entry>, key: string, e: Entry, scope: Scope, measure: Measure)
    ensures Total(entries[key := e], scope, measure) ==
            Total(entries, scope, measure) - PriorWeight(entries, key, scope, measure) + Weight(e, scope, measure)
    ensures PriorWeight(entries, key, scope, measure) <= Total(entries, scope, measure)
  {
    hide Sum, Weight;
    var w := Weights(entries, scope, measure);
    assert Weights(entries[key := e], scope, measure) == w[key := Weight(e, scope, measure)];
    SumUpdate(w, key, Weight(e, scope, measure));
  }

  lemma TotalWithin(entries: map<string, Entry>, scope: Scope, measure: Measure)
    ensures Total(entries, scope, measure) <= Total(entries, Everything, measure)
  {
    hide Sum, Size, AccountOf, StrategyOf;
    SumMonotone(Weights(entries, scope, measure), Weights(entries, Everything, measure));
  }

  lemma {:induction false} CountWithin(w: map<string, nat>)
    requires forall k :: k in w ==> w[k] <= 1
    ensures Sum(w) <= |w|
    decreases |w|
  {
    if |w| > 0 {
      var k := Pick(w);
      SumTake(w, k);
      CountWithin(Without(w, k));
    }
  }

  /** There are at most as many occupying entries as entries. */
  lemma ActiveWithin(entries: map<string, Entry>, scope: Scope)
    ensures Total(entries, scope, InCount) <= |entries|
  {
    hide Sum, Inside;
    var w := Weights(entries, scope, InCount);
    CountWithin(w);
    assert |w.Keys| == |w| && |entries.Keys| == |entries|;
  }

  /** Where every entry costs something, no cost means no occupying entry. */
  lemma CostlessWhenIdle(entries: map<string, Entry>, scope: Scope)
    requires forall k :: k in entries ==> Usd(entries[k]) > 0
    ensures Total(entries, scope, InCount) == 0 <==> Total(entries, scope, InUsd) == 0
  {
    hide Sum, Usd, Usdt, Inside;
    var n, c := Weights(entries, scope, InCount), Weights(entries, scope, InUsd);
    SumZero(n);
    SumZero(c);
    assert forall k :: k in entries ==> (n[k] == 0 <==> c[k] == 0);
  }

  // ---------- the invariant ----------

  /** The three running totals of the book. */
  ghost predicate MetaBalanced(b: Book)
    requires b.meta.Some?
  {
    var m := b.meta.value;
    && m.occupiedUsdt == Total(b.entries, Everything, InUsdt)
    && m.occupiedUsd == Total(b.entries, Everything, InUsd)
    && m.consumedUsd == Sum(b.losses)
    && m.occupiedUsdt == Sum(m.accounts)
  }

  ghost predicate AccountBalanced(b: Book, a: string)
    requires b.meta.Some?
  {
    var m := b.meta.value;
    && Get(m.accounts, a) == Total(b.entries, OfAccount(a), InUsdt)
    && (a in m.accounts <==> a in b.records)
    && (a in b.records ==> b.records[a] == AccountRecord(Total(b.entries, OfAccount(a), InCount), Total(b.entries, OfAccount(a), InUsd), Total(b.entries, OfAccount(a), InUsdt)))
    && (a !in b.records ==> Total(b.entries, OfAccount(a), InCount) == Total(b.entries, OfAccount(a), InUsd) == 0)
  }

  ghost predicate StrategyBalanced(b: Book, s: string) {
    Get(b.strategies, s) == Total(b.entries, OfStrategy(s), InUsdt)
  }

  /** All five redundant aggregates equal the sums over the entries that still occupy. */
  ghost predicate Balanced(b: Book)
    requires b.meta.Some?
  {
    && MetaBalanced(b)
    && (forall a {:trigger AccountBalanced(b, a)} :: AccountBalanced(b, a))
    && (forall s {:trigger StrategyBalanced(b, s)} :: StrategyBalanced(b, s))
  }

  /** What keeps every text of the book readable, the consumed loss apart. */
  ghost predicate Bounded(b: Book)
    requires b.meta.Some?
  {
    var m := b.meta.value;
    && 0 < m.campaignUsd <= INITIAL_CAMPAIGN
    && m.occupiedUsd <= m.campaignUsd
    && Parseable(m.occupiedUsdt)
    && |b.entries| <= m.sequence <= MAX_SAFE + 1
    && SafeInt(m.sourceAsOf) && m.sourceAsOf >= 0
    && |m.accounts| <= 32
    && (forall a :: a in b.losses ==> Parseable(b.losses[a]))
  }

  /** An entry as reservation and every later step leave it. */
  ghost predicate SoundEntry(e: Entry) {
    && ValidButClock(e)
    && Usd(e) > 0
    && (e.postedAt.Some? ==> e.postedAt.value >= e.createdAt)
    && e.reserveDigest.Some? && e.reserveFloor.Some?
    && (e.state.Held? ==> e.postedAt.None?)
    && (e.state.Posted? ==> e.postedAt.Some?)
  }

  ghost predicate EntriesSound(b: Book) {
    && (forall k :: k in b.entries ==> b.entries[k].key == k && SoundEntry(b.entries[k]))
    && b.fences.Keys !! b.entries.Keys
  }

  ghost predicate Sound(b: Book) {
    if b.meta.Some? then Balanced(b) && Bounded(b) && EntriesSound(b) else b == NO_BOOK
  }

  // ---------- readability ----------

  lemma AccountWithin(b: Book, a: string)
    requires b.meta.Some? && Balanced(b)
    ensures Total(b.entries, OfAccount(a), InUsdt) <= b.meta.value.occupiedUsdt
    ensures Total(b.entries, OfAccount(a), InUsd) <= b.meta.value.occupiedUsd
    ensures Get(b.meta.value.accounts, a) <= b.meta.value.occupiedUsdt
  {
    hide Total;
    TotalWithin(b.entries, OfAccount(a), InUsdt);
    TotalWithin(b.entries, OfAccount(a), InUsd);
    assert AccountBalanced(b, a);
  }

  /** A sound book can be read exactly while its consumed loss has a readable text and its sequence is a safe integer. */
  lemma ReadableExactly(b: Book)
    requires b.meta.Some? && Sound(b)
    ensures Readable(b) <==> Parseable(b.meta.value.consumedUsd) && SafeInt(b.meta.value.sequence)
  {
    hide Total, Sum, EntriesSound, AccountBalanced, StrategyBalanced;
    forall a | a in b.meta.value.accounts ensures Parseable(b.meta.value.accounts[a]) {
      AccountWithin(b, a);
    }
  }

  // ---------- saving an entry ----------

  /** The entry is new and occupies, or it is a stored one that keeps, or gives back, what it occupies. */
  ghost predicate Fits(b: Book, e: Entry, delta: int) {
    && Usdt(e) > 0
    && if e.key in b.entries then
         && b.entries[e.key].order == e.order && !b.entries[e.key].state.Released?
         && delta == if e.state.Released? then 0 - Usdt(e) else 0
       else !e.state.Released? && delta == Usdt(e)
  }

  function Change(e: Entry, delta: int, measure: Measure): int {
    match measure
    case InUsdt => delta
    case InUsd => Signed(delta, Usd(e))
    case InCount => if delta > 0 then 1 else if delta < 0 then -1 else 0
  }

  /** Storing the entry changes each sum it belongs to by what the source adds, and no other. */
  lemma TotalAfterSave(b: Book, e: Entry, delta: int, scope: Scope, measure: Measure)
    requires Fits(b, e, delta)
    ensures Total(b.entries[e.key := e], scope, measure) ==
            Total(b.entries, scope, measure) + if Inside(e, scope) then Change(e, delta, measure) else 0
  {
    hide Total;
    TotalUpdate(b.entries, e.key, e, scope, measure);
    hide Units, AccountKey;
    if e.key in b.entries {
      var prior := b.entries[e.key];
      assert Inside(prior, scope) == Inside(e, scope);
      assert Size(prior, measure) == Size(e, measure);
    }
  }

  lemma BalancedParts(b: Book, a: string, s: string)
    requires b.meta.Some? && Balanced(b)
    ensures MetaBalanced(b) && AccountBalanced(b, a) && StrategyBalanced(b, s)
  {
    hide MetaBalanced, AccountBalanced, StrategyBalanced;
  }

  lemma InsideOwn(e: Entry, a: string, s: string)
    ensures Inside(e, Everything)
    ensures Inside(e, OfAccount(a)) <==> Same(AccountOf(e), a)
    ensures Inside(e, OfStrategy(s)) <==> Same(StrategyOf(e), s)
  {
    hide AccountOf, StrategyOf;
  }

  lemma StoredRecordIsTotal(b: Book, a: string)
    requires b.meta.Some? && Balanced(b)
    ensures StoredRecord(b, a) == AccountRecord(Total(b.entries, OfAccount(a), InCount), Total(b.entries, OfAccount(a), InUsd), Total(b.entries, OfAccount(a), InUsdt))
    ensures StoredRecord(b, a).usdt == Get(b.meta.value.accounts, a)
    ensures a in b.meta.value.accounts <==> a in b.records
  {
    hide Total;
    BalancedParts(b, a, "");
  }

  /** The aggregates of an entry's account after the save, as sums. */
  lemma RecordReady(b: Book, e: Entry, delta: int)
    requires b.meta.Some? && Balanced(b) && Bounded(b) && Fits(b, e, delta) && |b.entries| <= MAX_SAFE
    ensures var entries, scope := b.entries[e.key := e], OfAccount(AccountOf(e));
            NextRecord(b, b.meta.value, AccountOf(e), delta, Usd(e)) ==
            Some(AccountRecord(Total(entries, scope, InCount), Total(entries, scope, InUsd), Total(entries, scope, InUsdt)))
  {
    hide Total, Balanced, Fits, Usd, AccountOf;
    var a := AccountOf(e);
    TotalAfterSave(b, e, delta, OfAccount(a), InCount);
    TotalAfterSave(b, e, delta, OfAccount(a), InUsd);
    TotalAfterSave(b, e, delta, OfAccount(a), InUsdt);
    ActiveWithin(b.entries, OfAccount(a));
    AccountWithin(b, a);
    StoredRecordIsTotal(b, a);
  }

  /** No save of a fitting entry throws in a balanced book. */
  lemma SaveSucceeds(b: Book, e: Entry, delta: int)
    requires b.meta.Some? && Balanced(b) && Bounded(b) && Fits(b, e, delta) && |b.entries| <= MAX_SAFE
    ensures SaveEntry(b, e, delta).Some?
  {
    hide Total, Sum, Balanced, Fits, Usd, AccountOf, StrategyOf, NextRecord;
    var s := StrategyOf(e);
    BalancedParts(b, AccountOf(e), s);
    InsideOwn(e, AccountOf(e), s);
    RecordReady(b, e, delta);
    TotalAfterSave(b, e, delta, Everything, InUsdt);
    TotalAfterSave(b, e, delta, Everything, InUsd);
    TotalAfterSave(b, e, delta, OfStrategy(s), InUsdt);
    TotalWithin(b.entries, OfStrategy(s), InUsdt);
  }

  /** What a save stores. */
  lemma SavedParts(b: Book, e: Entry, delta: int)
    requires b.meta.Some? && SaveEntry(b, e, delta).Some?
    ensures var m, after := b.meta.value, SaveEntry(b, e, delta).value;
            && after.meta.Some?
            && after.entries == b.entries[e.key := e] && after.losses == b.losses && after.fences == b.fences
            && NextRecord(b, m, AccountOf(e), delta, Usd(e)).Some?
            && after.records == b.records[AccountOf(e) := NextRecord(b, m, AccountOf(e), delta, Usd(e)).value]
            && Get(b.strategies, StrategyOf(e)) + delta >= 0 && Get(m.accounts, AccountOf(e)) + delta >= 0
            && after.strategies == b.strategies[StrategyOf(e) := Get(b.strategies, StrategyOf(e)) + delta]
            && after.meta.value == m.(
                 sequence := NextSequence(m.sequence), occupiedUsdt := after.meta.value.occupiedUsdt, occupiedUsd := after.meta.value.occupiedUsd,
                 accounts := m.accounts[AccountOf(e) := Get(m.accounts, AccountOf(e)) + delta])
            && after.meta.value.occupiedUsdt == m.occupiedUsdt + delta
            && after.meta.value.occupiedUsd == m.occupiedUsd + Signed(delta, Usd(e))
  {
    hide Usd, AccountOf, StrategyOf;
  }

  lemma SavedAccount(b: Book, e: Entry, delta: int, a: string)
    requires b.meta.Some? && Balanced(b) && Bounded(b) && Fits(b, e, delta) && |b.entries| <= MAX_SAFE
    requires SaveEntry(b, e, delta).Some? && SaveEntry(b, e, delta).value.meta.Some?
    ensures AccountBalanced(SaveEntry(b, e, delta).value, a)
  {
    hide Total, Balanced, Bounded, Fits, Usd, AccountOf, NextRecord, SaveEntry, Inside, Sum;
    BalancedParts(b, a, StrategyOf(e));
    InsideOwn(e, a, StrategyOf(e));
    RecordReady(b, e, delta);
    SavedParts(b, e, delta);
    TotalAfterSave(b, e, delta, OfAccount(a), InCount);
    TotalAfterSave(b, e, delta, OfAccount(a), InUsd);
    TotalAfterSave(b, e, delta, OfAccount(a), InUsdt);
  }

  lemma SavedStrategy(b: Book, e: Entry, delta: int, s: string)
    requires b.meta.Some? && Balanced(b) && Bounded(b) && Fits(b, e, delta)
    requires SaveEntry(b, e, delta).Some?
    ensures StrategyBalanced(SaveEntry(b, e, delta).value, s)
  {
    hide Total, Balanced, Bounded, Fits, Usd, AccountOf, StrategyOf, NextRecord, SaveEntry, Inside, Sum;
    BalancedParts(b, AccountOf(e), s);
    InsideOwn(e, AccountOf(e), s);
    SavedParts(b, e, delta);
    TotalAfterSave(b, e, delta, OfStrategy(s), InUsdt);
  }

  /** Saving a fitting entry keeps all five aggregates equal to their sums. */
  lemma SaveConserves(b: Book, e: Entry, delta: int)
    requires b.meta.Some? && Balanced(b) && Bounded(b) && Fits(b, e, delta) && |b.entries| <= MAX_SAFE
    ensures SaveEntry(b, e, delta).Some?
    ensures SaveEntry(b, e, delta).value.meta.Some? && Balanced(SaveEntry(b, e, delta).value)
  {
    hide Total, Sum, Bounded, Fits, Usd, AccountOf, StrategyOf, NextRecord, SaveEntry, AccountBalanced, StrategyBalanced;
    SaveSucceeds(b, e, delta);
    SavedParts(b, e, delta);
    var after := SaveEntry(b, e, delta).value;
    forall a ensures AccountBalanced(after, a) {
      SavedAccount(b, e, delta, a);
    }
    forall s ensures StrategyBalanced(after, s) {
      SavedStrategy(b, e, delta, s);
    }
    TotalAfterSave(b, e, delta, Everything, InUsdt);
    TotalAfterSave(b, e, delta, Everything, InUsd);
    SumUpdate(b.meta.value.accounts, AccountOf(e), Get(b.meta.value.accounts, AccountOf(e)) + delta);
  }
}
