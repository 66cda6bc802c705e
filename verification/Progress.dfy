/** What every ledger command may change: a relation that only moves forward, and its preservation by each storage primitive. */
module Progress {
  import opened Options
  import opened Amounts
  import opened RiskKeys
  import opened Collections
  import opened Governance
  import opened Sums
  import opened RiskBook
  import opened Conservation

  // ---------- forward only ----------

  /** States never go back; a posted or resolved entry is never held again, and a released one never moves. */
  function Rank(s: EntryState): nat {
    match s
    case Held => 0
    case Posted => 1
    case Unknown => 2
    case Open => 3
    case Released => 4
  }

  /** The same reservation, unchanged or further along. */
  ghost predicate Later(e: Entry, f: Entry) {
    && f.key == e.key && f.order == e.order && f.createdAt == e.createdAt
    && f.reserveDigest == e.reserveDigest && f.reserveFloor == e.reserveFloor
    && (f == e || Rank(e.state) < Rank(f.state))
    && (e.postedAt.Some? ==> f.postedAt == e.postedAt)
    && (e.postedAt.None? && f.postedAt.Some? ==> e.state.Held?)
  }

  ghost predicate EntriesLater(b: Book, c: Book) {
    b.entries.Keys <= c.entries.Keys && forall k :: k in b.entries ==> Later(b.entries[k], c.entries[k])
  }

  ghost predicate FencesKept(b: Book, c: Book) {
    b.fences.Keys <= c.fences.Keys && forall k :: k in b.fences ==> c.fences[k] == b.fences[k]
  }

  /** Everything but the time the sources were last read. */
  function Substance(b: Book): Book {
    if b.meta.Some? then b.(meta := Some(b.meta.value.(sourceAsOf := 0))) else b
  }

  /** The sequence never falls, and stands still only when the substance does (or has run out of safe integers). */
  ghost predicate Sequenced(b: Book, c: Book)
    requires b.meta.Some? && c.meta.Some?
  {
    && b.meta.value.sequence <= c.meta.value.sequence
    && (b.meta.value.sequence == c.meta.value.sequence && b.meta.value.sequence <= MAX_SAFE ==> Substance(b) == Substance(c))
  }

  ghost predicate Forward(b: Book, c: Book) {
    b.meta.Some? ==>
      && c.meta.Some?
      && EntriesLater(b, c) && FencesKept(b, c) && Sequenced(b, c)
      && b.meta.value.consumedUsd <= c.meta.value.consumedUsd
      && c.meta.value.campaignUsd <= b.meta.value.campaignUsd
      && c.meta.value.installationId == b.meta.value.installationId
      && (forall a :: a in b.losses ==> a in c.losses && b.losses[a] <= c.losses[a])
  }

  lemma ForwardSelf(b: Book)
    ensures Forward(b, b)
  {
  }

  lemma LaterTwice(e: Entry, f: Entry, g: Entry)
    requires Later(e, f) && Later(f, g)
    ensures Later(e, g)
  {
  }

  lemma ForwardTwice(b: Book, c: Book, d: Book)
    requires Forward(b, c) && Forward(c, d)
    ensures Forward(b, d)
  {
    hide Later, Substance;
    if b.meta.Some? {
      forall k | k in b.entries ensures Later(b.entries[k], d.entries[k]) {
        LaterTwice(b.entries[k], c.entries[k], d.entries[k]);
      }
    }
  }


  // ---------- charging a census ----------

  lemma ReportedReadable(r: Row)
    ensures Parseable(Reported(r))
  {
    UnitsParseable(r.loss);
  }

  lemma NoRegressionIsNoneLower(losses: map<string, nat>, rows: seq<Row>)
    requires NoRegression(losses, rows)
    ensures NoneLower(losses, RowAccounts(rows), RowLosses(rows))
  {
    hide Reported, Parseable;
  }

  lemma RaisedMonotone(losses: map<string, nat>, rows: seq<Row>)
    requires Distinct(RowAccounts(rows)) && NoRegression(losses, rows)
    ensures forall a :: a in losses ==> a in Raised(losses, rows) && losses[a] <= Raised(losses, rows)[a]
  {
    hide Reported, Parseable, RaiseAll, Excess;
    RaisedValues(losses, RowAccounts(rows), RowLosses(rows));
    NoRegressionIsNoneLower(losses, rows);
    forall a | a in losses ensures losses[a] <= Get(Raised(losses, rows), a) {
      if a in RowAccounts(rows) {
        var i :| 0 <= i < |rows| && RowAccounts(rows)[i] == a;
      }
    }
  }

  lemma RaisedReadable(losses: map<string, nat>, rows: seq<Row>)
    requires Distinct(RowAccounts(rows))
    requires forall a :: a in losses ==> Parseable(losses[a])
    ensures forall a :: a in Raised(losses, rows) ==> Parseable(Raised(losses, rows)[a])
  {
    hide Reported, RaiseAll, Excess;
    RaisedValues(losses, RowAccounts(rows), RowLosses(rows));
    forall a | a in Raised(losses, rows) ensures Parseable(Get(Raised(losses, rows), a)) {
      if a in RowAccounts(rows) {
        var i :| 0 <= i < |rows| && RowAccounts(rows)[i] == a;
        ReportedReadable(rows[i]);
      }
    }
  }

  /** What is recorded for an account after its row has been charged. */
  lemma ChargedRow(b: Book, c: Census, i: nat)
    requires b.meta.Some? && Distinct(RowAccounts(c.rows)) && ChargeCensus(b, c).Some? && i < |c.rows|
    ensures Get(ChargeCensus(b, c).value.losses, c.rows[i].account) == Reported(c.rows[i])
  {
    hide Reported, Parseable, RaiseAll, Excess;
    RaisedValues(b.losses, RowAccounts(c.rows), RowLosses(c.rows));
    NoRegressionIsNoneLower(b.losses, c.rows);
    ExcessFacts(b.losses, RowAccounts(c.rows), RowLosses(c.rows));
  }

  /** A charge changes the recorded losses, their sum, the read time and, exactly when a loss rose, the sequence. */
  lemma ChargeFacts(b: Book, c: Census)
    requires b.meta.Some? && Distinct(RowAccounts(c.rows)) && ChargeCensus(b, c).Some?
    ensures var d := ChargeCensus(b, c).value;
            && d.meta.Some? && d == b.(meta := d.meta, losses := d.losses)
            && var m, n := b.meta.value, d.meta.value;
               && n == m.(sourceAsOf := c.floor, consumedUsd := n.consumedUsd, sequence := n.sequence)
               && n.consumedUsd - m.consumedUsd == Sum(d.losses) - Sum(b.losses) >= 0
               && n.sequence == (if n.consumedUsd == m.consumedUsd then m.sequence else NextSequence(m.sequence))
               && (n.consumedUsd == m.consumedUsd ==> d.losses == b.losses)
    ensures Forward(b, ChargeCensus(b, c).value)
  {
    hide Sum, Reported, Parseable, RaiseAll, Excess, NoRegression, Distinct, RowAccounts, RowLosses, NoneLower, Later;
    var rows := c.rows;
    NoRegressionIsNoneLower(b.losses, rows);
    ExcessFacts(b.losses, RowAccounts(rows), RowLosses(rows));
    RaisedSum(b.losses, RowAccounts(rows), RowLosses(rows));
    RaisedMonotone(b.losses, rows);
    EntriesLaterSelf(b, ChargeCensus(b, c).value);
  }

  lemma EntriesLaterSelf(b: Book, c: Book)
    requires c.entries == b.entries
    ensures EntriesLater(b, c)
  {
  }

  lemma ChargeSound(b: Book, c: Census)
    requires b.meta.Some? && Sound(b) && |b.entries| <= MAX_SAFE && b.meta.value.sequence <= MAX_SAFE
    requires Distinct(RowAccounts(c.rows)) && SafeInt(c.floor) && c.floor > 0 && ChargeCensus(b, c).Some?
    ensures Sound(ChargeCensus(b, c).value)
  {
    hide Sum, Total, Raised, NoRegression, Distinct, RowAccounts, EntriesSound, SoundEntry, Parseable, Forward;
    ChargeFacts(b, c);
    var d := ChargeCensus(b, c).value;
    RaisedReadable(b.losses, c.rows);
    SameEntriesBalanced(b, d);
    EntriesSoundSame(b, d);
  }

  lemma EntriesSoundSame(b: Book, d: Book)
    requires EntriesSound(b) && d.entries == b.entries && d.fences == b.fences
    ensures EntriesSound(d)
  {
    hide SoundEntry;
  }

  /** The sums depend only on the entries and aggregates. */
  lemma SameEntriesBalanced(b: Book, d: Book)
    requires b.meta.Some? && d.meta.Some? && Balanced(b)
    requires d.entries == b.entries && d.strategies == b.strategies && d.records == b.records
    requires d.meta.value.accounts == b.meta.value.accounts
    requires d.meta.value.occupiedUsdt == b.meta.value.occupiedUsdt && d.meta.value.occupiedUsd == b.meta.value.occupiedUsd
    requires d.meta.value.consumedUsd - b.meta.value.consumedUsd == Sum(d.losses) - Sum(b.losses)
    ensures Balanced(d)
  {
    hide Sum, Total;
    forall a ensures AccountBalanced(d, a) {
      assert AccountBalanced(b, a);
    }
    forall s ensures StrategyBalanced(d, s) {
      assert StrategyBalanced(b, s);
    }
  }

  // ---------- saving, fencing, lowering ----------

  lemma SaveForward(b: Book, e: Entry, delta: int)
    requires b.meta.Some? && SaveEntry(b, e, delta).Some?
    requires e.key in b.entries ==> Later(b.entries[e.key], e)
    ensures Forward(b, SaveEntry(b, e, delta).value)
  {
    hide Usd, AccountOf, StrategyOf, NextRecord, SaveEntry, Later;
    SavedParts(b, e, delta);
    var c := SaveEntry(b, e, delta).value;
    forall k | k in b.entries ensures Later(b.entries[k], c.entries[k]) {
      LaterSelf(b.entries[k]);
    }
  }

  lemma LaterSelf(e: Entry)
    ensures Later(e, e)
  {
  }

  /** A new entry leaves room in the campaign and in the readable range; other saves only give back. */
  ghost predicate RoomFor(b: Book, e: Entry, delta: int)
    requires b.meta.Some?
  {
    && |b.meta.value.accounts[AccountOf(e) := 0]| <= 32
    && (delta > 0 ==>
          && b.meta.value.occupiedUsd + Usd(e) <= b.meta.value.campaignUsd
          && Parseable(b.meta.value.occupiedUsdt + delta))
  }

  /** An entry that occupies has its account among the book's. */
  lemma OccupyingAccount(b: Book, key: string)
    requires b.meta.Some? && Balanced(b) && key in b.entries && !b.entries[key].state.Released?
    ensures AccountOf(b.entries[key]) in b.meta.value.accounts
  {
    hide Total, AccountOf;
    var e := b.entries[key];
    BalancedParts(b, AccountOf(e), "");
    TotalUpdate(b.entries, key, e, OfAccount(AccountOf(e)), InCount);
    InsideOwn(e, AccountOf(e), "");
  }

  lemma SavedBounded(b: Book, e: Entry, delta: int)
    requires b.meta.Some? && Bounded(b) && |b.entries| <= MAX_SAFE
    requires Fits(b, e, delta) && RoomFor(b, e, delta) && SaveEntry(b, e, delta).Some?
    requires SaveEntry(b, e, delta).value.meta.Some?
    ensures Bounded(SaveEntry(b, e, delta).value)
  {
    hide Usd, AccountOf, StrategyOf, NextRecord, SaveEntry, Fits, Parseable;
    SavedParts(b, e, delta);
    FitsSign(b, e, delta);
    var c := SaveEntry(b, e, delta).value;
    InsertSize(b.entries, e.key, e);
    SameKeysSameSize(b.meta.value.accounts[AccountOf(e) := 0], c.meta.value.accounts);
    if delta <= 0 {
      SmallerReadable(b.meta.value.occupiedUsdt, delta);
    }
    SameSizeWhenPresent(b.entries, e.key, e);
  }

  lemma SmallerReadable(v: nat, delta: int)
    requires Parseable(v) && delta <= 0 && v + delta >= 0
    ensures Parseable(v + delta)
  {
  }

  lemma SameSizeWhenPresent<K, V>(m: map<K, V>, k: K, v: V)
    ensures k in m ==> |m[k := v]| == |m|
  {
    if k in m {
      SameKeysSameSize(m[k := v], m);
    }
  }

  lemma SaveSound(b: Book, e: Entry, delta: int)
    requires b.meta.Some? && Sound(b) && |b.entries| <= MAX_SAFE
    requires Fits(b, e, delta) && RoomFor(b, e, delta) && SoundEntry(e) && e.key !in b.fences
    ensures SaveEntry(b, e, delta).Some? && Sound(SaveEntry(b, e, delta).value)
  {
    hide Usd, AccountOf, StrategyOf, NextRecord, SaveEntry, SoundEntry, Balanced, Bounded, RoomFor, Fits, EntriesSound;
    SaveConserves(b, e, delta);
    SavedParts(b, e, delta);
    SavedBounded(b, e, delta);
    EntriesSoundInsert(b, SaveEntry(b, e, delta).value, e);
  }

  lemma SameKeysSameSize<K, V>(m: map<K, V>, n: map<K, V>)
    requires m.Keys == n.Keys
    ensures |m| == |n|
  {
    assert |m| == |m.Keys| && |n| == |n.Keys|;
  }

  lemma EntriesSoundInsert(b: Book, c: Book, e: Entry)
    requires EntriesSound(b) && SoundEntry(e) && e.key !in b.fences
    requires c.entries == b.entries[e.key := e] && c.fences == b.fences
    ensures EntriesSound(c)
  {
    hide SoundEntry;
  }

  lemma FitsSign(b: Book, e: Entry, delta: int)
    requires Fits(b, e, delta)
    ensures delta > 0 <==> e.key !in b.entries
    ensures delta < 0 ==> Signed(delta, Usd(e)) <= 0
    ensures delta == 0 ==> Signed(delta, Usd(e)) == 0
    ensures delta > 0 ==> Signed(delta, Usd(e)) == Usd(e)
  {
    hide Usdt, Usd;
  }

  lemma FenceForward(b: Book, key: string, f: Fence)
    requires b.meta.Some? && key !in b.fences
    ensures Forward(b, WithFence(b, key, f))
  {
    hide Later;
    EntriesLaterSelf(b, WithFence(b, key, f));
  }

  lemma FenceSound(b: Book, key: string, f: Fence)
    requires b.meta.Some? && Sound(b) && key !in b.entries
    ensures Sound(WithFence(b, key, f))
  {
    hide Sum, Total, SoundEntry, Parseable;
    SameEntriesBalanced(b, WithFence(b, key, f));
  }

  lemma LowerForward(b: Book, limit: string)
    requires b.meta.Some? && LoweredLimit(b, limit).Some?
    ensures Forward(b, LoweredLimit(b, limit).value)
  {
    hide Later, Units;
    EntriesLaterSelf(b, LoweredLimit(b, limit).value);
  }

  lemma LowerSound(b: Book, limit: string)
    requires b.meta.Some? && Sound(b) && LoweredLimit(b, limit).Some?
    ensures Sound(LoweredLimit(b, limit).value)
  {
    hide Sum, Total, SoundEntry, Parseable, Units;
    SameEntriesBalanced(b, LoweredLimit(b, limit).value);
  }

  lemma InitialSound(installationId: string)
    ensures Sound(InitialBook(NO_BOOK, installationId))
  {
    var b := InitialBook(NO_BOOK, installationId);
    forall a ensures AccountBalanced(b, a) {
      assert Weights(b.entries, OfAccount(a), InUsdt) == map[];
    }
    forall s ensures StrategyBalanced(b, s) {
      assert Weights(b.entries, OfStrategy(s), InUsdt) == map[];
    }
  }

  // ---------- charging a terminal ledger record ----------

  lemma LedgerFacts(b: Book, account: string, loss: nat)
    requires b.meta.Some? && Get(b.losses, account) <= loss
    ensures var c := ChargeLedger(b, account, loss);
            && c.meta.Some? && c == b.(meta := c.meta, losses := b.losses[account := loss])
            && c.meta.value == b.meta.value.(consumedUsd := c.meta.value.consumedUsd)
            && c.meta.value.consumedUsd - b.meta.value.consumedUsd == Sum(c.losses) - Sum(b.losses) >= 0
  {
    SumUpdate(b.losses, account, loss);
  }

  lemma LedgerSound(b: Book, account: string, loss: nat)
    requires b.meta.Some? && Sound(b) && Get(b.losses, account) <= loss && Parseable(loss)
    ensures Sound(ChargeLedger(b, account, loss))
  {
    hide Sum, Total, SoundEntry, Parseable;
    var c := ChargeLedger(b, account, loss);
    LedgerFacts(b, account, loss);
    SameEntriesBalanced(b, c);
  }
}
