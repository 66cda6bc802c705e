/** The campaign bound: when losses are honest, the consumed loss never exceeds the campaign limit, in any run. */
module Campaign {
  import opened Options
  import opened Amounts
  import opened RiskKeys
  import opened Collections
  import opened Governance
  import opened Sums
  import opened GovernanceStore
  import opened RiskBook
  import opened Conservation
  import opened Progress
  import opened Commands
  import opened Posting
  import opened Installation
  import opened Runs
  import opened RunTheorems
  import opened Fences

  // ---------- realised losses ----------

  /** What each reservation has really lost so far, by key; nothing where absent. */
  type World = map<string, nat>

  datatype Filter = Any | One(account: string) | Among(accounts: set<string>)

  predicate Matches(e: Entry, f: Filter) {
    match f
    case Any => true
    case One(a) => Same(AccountOf(e), a)
    case Among(s) => AccountOf(e) in s
  }

  function Due(e: Entry, v: nat, f: Filter, released: bool): nat {
    if (released ==> e.state.Released?) && Matches(e, f) then v else 0
  }

  function Dues(entries: map<string, Entry>, w: World, f: Filter, released: bool): (r: map<string, nat>)
    ensures r.Keys == entries.Keys
  {
    map k | k in entries :: Due(entries[k], Get(w, k), f, released)
  }

  /** Realised loss of the matching entries, or only of the released ones among them. */
  ghost function Realised(entries: map<string, Entry>, w: World, f: Filter, released: bool): nat {
    Sum(Dues(entries, w, f, released))
  }

  lemma RealisedUpdate(entries: map<string, Entry>, w: World, key: string, e: Entry, f: Filter, released: bool)
    ensures Realised(entries[key := e], w, f, released) ==
            Realised(entries, w, f, released)
            - (if key in entries then Due(entries[key], Get(w, key), f, released) else 0)
            + Due(e, Get(w, key), f, released)
    ensures key in entries ==> Due(entries[key], Get(w, key), f, released) <= Realised(entries, w, f, released)
  {
    hide Sum, Due;
    var d := Dues(entries, w, f, released);
    assert Dues(entries[key := e], w, f, released) == d[key := Due(e, Get(w, key), f, released)];
    SumUpdate(d, key, Due(e, Get(w, key), f, released));
  }

  lemma RealisedGrows(entries: map<string, Entry>, v: World, w: World, f: Filter)
    requires forall k :: k in entries ==> Get(v, k) <= Get(w, k)
    ensures Realised(entries, v, f, false) <= Realised(entries, w, f, false)
  {
    hide Sum, Matches;
    SumMonotone(Dues(entries, v, f, false), Dues(entries, w, f, false));
  }

  lemma RealisedFrozen(entries: map<string, Entry>, v: World, w: World, f: Filter)
    requires forall k :: k in entries && entries[k].state.Released? ==> Get(v, k) == Get(w, k)
    ensures Realised(entries, v, f, true) == Realised(entries, w, f, true)
  {
    hide Sum, Matches;
    assert Dues(entries, v, f, true) == Dues(entries, w, f, true);
  }

  // ---------- by account and in all ----------

  /** Taking one account out of a set of accounts takes out its realised loss. */
  lemma RealisedAmong(entries: map<string, Entry>, w: World, s: set<string>, a: string, released: bool)
    requires a in s
    ensures Realised(entries, w, Among(s), released) == Realised(entries, w, One(a), released) + Realised(entries, w, Among(s - {a}), released)
  {
    hide Sum, AccountOf;
    SumAdd(Dues(entries, w, One(a), released), Dues(entries, w, Among(s - {a}), released), Dues(entries, w, Among(s), released));
  }

  /** The recorded loss of an account lies between what its released entries and what all its entries have lost. */
  ghost predicate Recorded(losses: map<string, nat>, entries: map<string, Entry>, w: World, a: string) {
    Realised(entries, w, One(a), true) <= Get(losses, a) <= Realised(entries, w, One(a), false)
  }

  ghost predicate AllRecorded(losses: map<string, nat>, entries: map<string, Entry>, w: World) {
    forall a {:trigger Recorded(losses, entries, w, a)} :: Recorded(losses, entries, w, a)
  }

  lemma {:induction false} RecordedSum(losses: map<string, nat>, part: map<string, nat>, entries: map<string, Entry>, w: World)
    requires AllRecorded(losses, entries, w)
    requires forall a :: a in part ==> a in losses && part[a] == losses[a]
    ensures Realised(entries, w, Among(part.Keys), true) <= Sum(part) <= Realised(entries, w, Among(part.Keys), false)
    decreases |part|
  {
    if |part| == 0 {
      NoneAmong(entries, w);
      assert part.Keys == {};
    } else {
      hide Realised;
      var a := Pick(part);
      SumTake(part, a);
      assert Recorded(losses, entries, w, a);
      RecordedSum(losses, Without(part, a), entries, w);
      RealisedAmong(entries, w, part.Keys, a, true);
      RealisedAmong(entries, w, part.Keys, a, false);
    }
  }

  lemma NoneAmong(entries: map<string, Entry>, w: World)
    ensures Realised(entries, w, Among({}), true) == 0
  {
    hide Sum, AccountOf;
    SumZero(Dues(entries, w, Among({}), true));
  }

  lemma AmongAtMostAll(entries: map<string, Entry>, w: World, s: set<string>)
    ensures Realised(entries, w, Among(s), false) <= Realised(entries, w, Any, false)
  {
    hide Sum, AccountOf;
    SumMonotone(Dues(entries, w, Among(s), false), Dues(entries, w, Any, false));
  }

  lemma UnrecordedDue(losses: map<string, nat>, entries: map<string, Entry>, w: World, k: string)
    requires AllRecorded(losses, entries, w) && k in entries
    ensures Due(entries[k], Get(w, k), Any, true) == Due(entries[k], Get(w, k), Among(losses.Keys), true)
  {
    hide Realised, AccountOf;
    var a := AccountOf(entries[k]);
    if a !in losses {
      assert Recorded(losses, entries, w, a);
      RealisedUpdate(entries, w, k, entries[k], One(a), true);
    }
  }

  /** Accounts without a recorded loss have released nothing that lost. */
  lemma AllAmongRecorded(losses: map<string, nat>, entries: map<string, Entry>, w: World)
    requires AllRecorded(losses, entries, w)
    ensures Realised(entries, w, Any, true) == Realised(entries, w, Among(losses.Keys), true)
  {
    hide Sum, Due, AllRecorded;
    forall k | k in entries ensures Due(entries[k], Get(w, k), Any, true) == Due(entries[k], Get(w, k), Among(losses.Keys), true) {
      UnrecordedDue(losses, entries, w, k);
    }
    assert Dues(entries, w, Any, true) == Dues(entries, w, Among(losses.Keys), true);
  }

  /** The consumed loss lies between what the released entries and what all entries have lost. */
  lemma ConsumedBetween(losses: map<string, nat>, entries: map<string, Entry>, w: World)
    requires AllRecorded(losses, entries, w)
    ensures Realised(entries, w, Any, true) <= Sum(losses) <= Realised(entries, w, Any, false)
  {
    hide Realised, AllRecorded, Sum;
    RecordedSum(losses, losses, entries, w);
    AllAmongRecorded(losses, entries, w);
    AmongAtMostAll(entries, w, losses.Keys);
  }

  // ---------- the potential ----------

  /** No reservation loses more than it reserved, and only reservations lose. */
  ghost predicate WithinReserved(entries: map<string, Entry>, w: World) {
    && (forall k :: k in entries ==> Get(w, k) <= Usd(entries[k]))
    && (forall k :: k in w && k !in entries ==> w[k] == 0)
  }

  /** Losses of released entries plus reservations of the others: what the campaign could still come to. */
  ghost function Potential(b: Book, w: World): nat {
    Realised(b.entries, w, Any, true) + Total(b.entries, Everything, InUsd)
  }

  lemma AllWithinPotential(entries: map<string, Entry>, w: World)
    requires WithinReserved(entries, w)
    ensures Realised(entries, w, Any, false) <= Realised(entries, w, Any, true) + Total(entries, Everything, InUsd)
  {
    hide Sum, Usd, Usdt;
    var all, released, reserved := Dues(entries, w, Any, false), Dues(entries, w, Any, true), Weights(entries, Everything, InUsd);
    var both := map k | k in entries :: released[k] + reserved[k];
    SumAdd(released, reserved, both);
    SumMonotone(all, both);
  }

  /** What the bound rests on: recorded losses are honest and the potential fits the campaign. */
  ghost predicate Bound(b: Book, w: World) {
    b.meta.Some? ==> AllRecorded(b.losses, b.entries, w) && Potential(b, w) <= b.meta.value.campaignUsd
  }

  /** Then the consumed loss fits too. */
  lemma BoundConsumed(b: Book, w: World)
    requires b.meta.Some? && Sound(b) && Bound(b, w) && WithinReserved(b.entries, w)
    ensures b.meta.value.consumedUsd <= b.meta.value.campaignUsd
  {
    hide Realised, Total, AllRecorded, WithinReserved, EntriesSound, Bounded, AccountBalanced, StrategyBalanced;
    ConsumedBetween(b.losses, b.entries, w);
    AllWithinPotential(b.entries, w);
  }

  // ---------- honest inputs ----------

  /** No row reports more than its account's reservations have lost. */
  ghost predicate HonestCensus(entries: map<string, Entry>, c: Census, w: World) {
    forall i :: 0 <= i < |c.rows| ==> Reported(c.rows[i]) <= Realised(entries, w, One(c.rows[i].account), false)
  }

  ghost function InputCensus(c: Command): Option<Census> {
    match c
    case BeginRiskPost(_, _, _, _, post) => if post.Some? then Some(post.value.census) else None
    case _ => CensusOf(c)
  }

  /** A terminal record covers the losses of its account's released entries and of the one it releases, and no more than all of them. */
  ghost predicate HonestRecord(b: Book, key: string, loss: nat, w: World) {
    key in b.entries && !b.entries[key].state.Released? ==>
      var a := AccountOf(b.entries[key]);
      Realised(b.entries, w, One(a), true) + Get(w, key) <= loss <= Realised(b.entries, w, One(a), false)
  }

  /** An entry proved unsent has lost nothing. */
  ghost predicate HonestUnsent(b: Book, key: string, w: World) {
    key in b.entries && (b.entries[key].state.Held? || b.entries[key].state.Posted?) ==> Get(w, key) == 0
  }

  /** The command's evidence agrees with what has really been lost. */
  ghost predicate Honest(s: State, c: Command, w: World) {
    && (InputCensus(c).Some? ==> HonestCensus(s.book.entries, InputCensus(c).value, w))
    && (c.ResolveRisk? && c.to.Released? && c.terminal.Some? ==> HonestRecord(s.book, c.key, Units(c.terminal.value.ledger.loss).GetOr(0), w))
    && (c.ReleaseUnsentRisk? ==> HonestUnsent(s.book, c.key, w))
  }

  /** Charging an honest census keeps the records between their bounds. */
  lemma ChargedRecorded(b: Book, c: Census, w: World)
    requires b.meta.Some? && Distinct(RowAccounts(c.rows)) && ChargeCensus(b, c).Some?
    requires AllRecorded(b.losses, b.entries, w) && HonestCensus(b.entries, c, w)
    ensures AllRecorded(ChargeCensus(b, c).value.losses, b.entries, w)
  {
    hide Realised, Reported, ChargeCensus, Distinct, AllRecorded, HonestCensus;
    var after := ChargeCensus(b, c).value.losses;
    forall a ensures Recorded(after, b.entries, w, a) {
      RecordedOf(b.losses, b.entries, w, a);
      ChargedAccount(b, c, a);
      HonestRow(b.entries, c, w, a);
    }
    AllRecordedFrom(after, b.entries, w);
  }

  lemma RecordedOf(losses: map<string, nat>, entries: map<string, Entry>, w: World, a: string)
    requires AllRecorded(losses, entries, w)
    ensures Recorded(losses, entries, w, a)
  {
    hide Recorded;
  }

  lemma AllRecordedFrom(losses: map<string, nat>, entries: map<string, Entry>, w: World)
    requires forall a :: Recorded(losses, entries, w, a)
    ensures AllRecorded(losses, entries, w)
  {
    hide Recorded;
  }

  lemma HonestRow(entries: map<string, Entry>, c: Census, w: World, a: string)
    requires HonestCensus(entries, c, w)
    ensures forall i :: 0 <= i < |c.rows| && RowAccounts(c.rows)[i] == a ==> Reported(c.rows[i]) <= Realised(entries, w, One(a), false)
  {
    hide Realised, Reported;
  }

  /** After a charge, an account's record is what it was or what its row reports, and never less than it was. */
  lemma ChargedAccount(b: Book, c: Census, a: string)
    requires b.meta.Some? && Distinct(RowAccounts(c.rows)) && ChargeCensus(b, c).Some?
    ensures var after := ChargeCensus(b, c).value.losses;
            && Get(b.losses, a) <= Get(after, a)
            && (Get(after, a) == Get(b.losses, a) || exists i :: 0 <= i < |c.rows| && RowAccounts(c.rows)[i] == a && Get(after, a) == Reported(c.rows[i]))
  {
    hide Reported, Parseable, RaiseAll, Excess;
    RaisedValues(b.losses, RowAccounts(c.rows), RowLosses(c.rows));
    NoRegressionIsNoneLower(b.losses, c.rows);
    if a in RowAccounts(c.rows) {
      var i :| 0 <= i < |c.rows| && RowAccounts(c.rows)[i] == a;
      ChargedRow(b, c, i);
      assert c.rows[i].account == a;
      assert Get(b.losses, RowAccounts(c.rows)[i]) <= RowLosses(c.rows)[i];
    }
  }
}
