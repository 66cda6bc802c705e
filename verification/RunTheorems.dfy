/** What holds in every run: one policy from hold to post, one post per key, retirement for good, and a sequence that fences. */
module RunTheorems {
  import opened Options
  import opened Amounts
  import opened RiskKeys
  import opened Governance
  import opened Sums
  import opened GovernanceStore
  import opened RiskBook
  import opened Conservation
  import opened Progress
  import opened Commands
  import opened Posting
  import opened Installation
  import opened Runs

  // ---------- conservation and readability ----------

  /** In every reachable state, every aggregate is the sum it stands for, for any account and any strategy. */
  lemma RunConserves(r: Run, i: nat, account: string, strategy: string)
    requires IsRun(r) && i < |r.states| && r.states[i].book.meta.Some?
    ensures var b := r.states[i].book;
            MetaBalanced(b) && AccountBalanced(b, account) && StrategyBalanced(b, strategy)
  {
    hide Step, MetaBalanced, AccountBalanced, StrategyBalanced, Bounded, EntriesSound, IsRun;
    RunInv(r, i);
    InvParts(r.states[i]);
    SoundParts(r.states[i].book);
    BalancedParts(r.states[i].book, account, strategy);
  }

  lemma InvParts(s: State)
    requires Inv(s)
    ensures Sound(s.book) && (s.access.policy.Some? <==> s.book.meta.Some?)
    ensures s.access.policy.Some? ==> Paired(s.access.policy.value, s.book)
  {
    hide Sound, Paired;
  }

  /** A reachable book is readable exactly while its consumed loss is below 10^15 and its sequence is a safe integer. */
  lemma RunReadable(r: Run, i: nat)
    requires IsRun(r) && i < |r.states| && r.states[i].book.meta.Some?
    ensures var m := r.states[i].book.meta.value;
            Readable(r.states[i].book) <==> Parseable(m.consumedUsd) && SafeInt(m.sequence)
  {
    hide Step, Sound, Parseable, Readable, IsRun;
    RunInv(r, i);
    InvParts(r.states[i]);
    ReadableExactly(r.states[i].book);
  }

  /** The census of a command whose losses are charged. */
  ghost function CensusOf(c: Command): Option<Census> {
    match c
    case ReserveRisk(_, census, _, _, _) => Some(census)
    case ResolveRisk(_, _, _, _, _, _, terminal) => if terminal.Some? then Some(terminal.value.census) else None
    case _ => None
  }

  /** The only transaction of a reachable state that throws is one whose own census reports more loss than can be read back. */
  lemma RunThrows(r: Run, i: nat)
    requires IsRun(r) && i < |r.commands| && OutputAt(r, i) == Risk(Thrown)
    ensures r.states[i + 1] == r.states[i]
    ensures CensusOf(r.commands[i]).Some? && Overflows(r.states[i].book, CensusOf(r.commands[i]).value)
  {
    hide Sound, Forward, Reserve, BeginPost, Resolve, ReleaseUnsent, Overflows, Paired, IsRun, Registered;
    RunStep(r, i);
    RunInv(r, i);
    var s, c := r.states[i], r.commands[i];
    InvParts(s);
    RegisteredAt(s);
    match c
    case ReserveRisk(policy, census, order, now, native) =>
      ReserveSafe(s.book, s.access.policy, s.generation, policy, census, order, now, native);
    case BeginRiskPost(key, plan, revision, digest, post) =>
      BeginPostSafe(s.book, s.access.policy, s.generation, key, plan, revision, digest, post);
    case ResolveRisk(key, plan, to, digest, session, expected, terminal) =>
      ResolveSafe(s.book, s.access.policy, s.generation, key, plan, to, digest, session, expected, terminal);
    case ReleaseUnsentRisk(key, plan, expected, session, proof) =>
      ReleaseUnsentSafe(s.book, s.access.policy, s.generation, key, plan, expected, session, proof);
    case _ =>
  }

  lemma RegisteredAt(s: State)
    requires Inv(s)
    ensures s.access.policy.Some? ==> Registered(s.book, s.access.policy.value)
  {
    hide Sound, ValidPolicy, AllVerified, EntriesCurrent;
  }

  // ---------- what a held or authorized reply rests on ----------

  /** A held reply at step `i`, with everything it stands for. */
  lemma HeldAt(r: Run, i: nat)
    requires IsRun(r) && i < |r.commands| && r.commands[i].ReserveRisk?
    requires OutputAt(r, i).Risk? && OutputAt(r, i).reply.HeldReply?
    ensures |r.states| == |r.commands| + 1 && Inv(r.states[i])
    ensures var s, c := r.states[i], r.commands[i];
            && s.access.policy.Some? && c.native.Some? && s.generation == c.native.value.generation
            && r.states[i + 1] == s.(book := RiskOutcome(s, c).book)
            && OutputAt(r, i) == Risk(RiskOutcome(s, c).reply)
            && HeldMeaning(s.book, s.access.policy.value, c.policy, c.census, c.order, c.now, RiskOutcome(s, c))
  {
    hide Sound, Forward, Reserve, Overflows, Paired, IsRun, Registered, HeldMeaning, Inv;
    RunStep(r, i);
    RunInv(r, i);
    var s, c := r.states[i], r.commands[i];
    InvParts(s);
    RegisteredAt(s);
    ReserveSafe(s.book, s.access.policy, s.generation, c.policy, c.census, c.order, c.now, c.native);
  }

  /** A post authorization at step `i`, with everything it stands for. */
  lemma PostedAt(r: Run, i: nat)
    requires IsRun(r) && i < |r.commands| && r.commands[i].BeginRiskPost?
    requires OutputAt(r, i).Risk? && OutputAt(r, i).reply.PostAuthorized?
    ensures |r.states| == |r.commands| + 1 && Inv(r.states[i])
    ensures var s, c := r.states[i], r.commands[i];
            && s.access.policy.Some? && c.post.Some? && s.generation == c.post.value.generation
            && r.states[i + 1] == s.(book := RiskOutcome(s, c).book)
            && OutputAt(r, i) == Risk(RiskOutcome(s, c).reply)
            && PostMeaning(s.book, s.access.policy.value, c.key, c.plan, c.revision, c.post.value, RiskOutcome(s, c))
  {
    hide Sound, Forward, BeginPost, Paired, IsRun, Registered, PostMeaning, Inv;
    RunStep(r, i);
    RunInv(r, i);
    var s, c := r.states[i], r.commands[i];
    InvParts(s);
    RegisteredAt(s);
    BeginPostSafe(s.book, s.access.policy, s.generation, c.key, c.plan, c.revision, c.digest, c.post);
  }

  /** No held reply, first or repeated, is ever given while its account is paused, disabled or lacks the instrument. */
  lemma HeldOnlyWhileTrading(r: Run, i: nat)
    requires IsRun(r) && i < |r.commands| && r.commands[i].ReserveRisk?
    requires OutputAt(r, i).Risk? && OutputAt(r, i).reply.HeldReply?
    ensures |r.states| > i && r.states[i].access.policy.Some?
    ensures var p, o := r.states[i].access.policy.value, r.commands[i].order;
            && o.revision == p.revision
            && exists a :: a in p.accounts && Grants(a, o)
  {
    hide Step, RiskOutcome, IsRun, Sound, Grants, HeldMeaning, Paired;
    HeldAt(r, i);
    var s, c := r.states[i], r.commands[i];
    InvParts(s);
    HeldGrants(s.book, s.access.policy.value, c.policy, c.census, c.order, c.now, RiskOutcome(s, c));
  }

  lemma HeldGrants(b: Book, p: Policy, policy: RiskPolicy, c: Census, o: Order, now: int, out: Outcome)
    requires Paired(p, b) && HeldMeaning(b, p, policy, c, o, now, out)
    ensures o.revision == p.revision && exists a :: a in p.accounts && Grants(a, o)
  {
    hide Grants, ValidPolicy, Authoritative, WithinCaps, AccountAllows, KeyOf, NewEntry, AllVerified, Registered, Units;
    if KeyOf(o) in b.entries {
      assert EntryCurrent(b.entries[KeyOf(o)], p);
    } else {
      AllowsIsGranted(p, out.book, o);
    }
  }

  // ---------- one policy from hold to post ----------

  /** An entry appears only by a reservation under its key that answered held. */
  lemma StepCreates(s: State, c: Command, key: string)
    requires Inv(s) && key !in s.book.entries && key in Step(s, c).0.book.entries
    ensures c.ReserveRisk? && KeyOf(c.order) == key && RiskOutcome(s, c).reply.HeldReply?
    ensures s.access.policy.Some? && c.order.revision == s.access.policy.value.revision
    ensures Step(s, c).0.book.entries[key].order == c.order
  {
    hide Sound, Paired, Mutate, Reserve, BeginPost, Resolve, ReleaseUnsent, HeldMeaning, KeyOf, Inv, InstallStep, CampaignStep, Registered;
    InvParts(s);
    RegisteredAt(s);
    match c {
      case ReserveRisk(policy, census, order, now, native) =>
        ReserveEntries(s.book, s.access.policy, s.generation, policy, census, order, now, native);
        ReserveSafe(s.book, s.access.policy, s.generation, policy, census, order, now, native);
        NewEntryHeld(order, census, now);
        HeldRevision(s.book, s.access.policy.value, policy, census, order, now, RiskOutcome(s, c));
      case BeginRiskPost(k, plan, revision, digest, post) => KeysKept(s, c);
      case ResolveRisk(k, plan, to, digest, session, expected, terminal) => KeysKept(s, c);
      case ReleaseUnsentRisk(k, plan, expected, session, proof) => KeysKept(s, c);
      case Install(body) => InstallEntries(s, body);
      case LowerCampaign(body) => CampaignEntries(s, body);
      case _ =>
    }
  }

  lemma HeldRevision(b: Book, p: Policy, policy: RiskPolicy, c: Census, o: Order, now: int, out: Outcome)
    requires HeldMeaning(b, p, policy, c, o, now, out)
    ensures o.revision == p.revision
  {
    hide ValidPolicy, Authoritative, Created, KeyOf, NewEntry;
  }

  lemma KeysKept(s: State, c: Command)
    requires Inv(s) && (c.BeginRiskPost? || c.ResolveRisk? || c.ReleaseUnsentRisk?)
    ensures RiskOutcome(s, c).book.entries.Keys == s.book.entries.Keys
  {
    hide Sound, Paired, BeginPost, Resolve, ReleaseUnsent, Inv, Forward;
    InvParts(s);
    if s.access.policy.None? {
      NoBookYet(s);
      NoBookNoRisk(s, c);
    } else {
      var p := s.access.policy.value;
      match c {
        case BeginRiskPost(key, plan, revision, digest, post) =>
          PostInv(s.book, p, s.generation, key, plan, revision, digest, post);
        case ResolveRisk(key, plan, to, digest, session, expected, terminal) =>
          ResolveInv(s.book, p, s.generation, key, plan, to, digest, session, expected, terminal);
        case ReleaseUnsentRisk(key, plan, expected, session, proof) =>
          UnsentInv(s.book, p, s.generation, key, plan, expected, session, proof);
      }
    }
  }

  lemma InstallEntries(s: State, body: InstallBody)
    ensures InstallStep(s, body).0.book.entries == s.book.entries
  {
    hide Installable;
  }

  lemma CampaignEntries(s: State, body: CampaignBody)
    ensures CampaignStep(s, body).0.book.entries == s.book.entries
  {
    hide CampaignWellFormed, ValidPolicy, LowerRiskBookLimit, Units;
    LoweredEntries(s.book, body.limit);
  }

  lemma LoweredEntries(b: Book, limit: string)
    ensures LowerRiskBookLimit(b, limit).Some? ==> LowerRiskBookLimit(b, limit).value.entries == b.entries
  {
    hide ValidMeta, Units;
  }

  /** Every stored entry goes back to the one step of the run that first held it. */
  lemma {:induction false} FirstHeld(r: Run, j: nat, key: string) returns (i: nat)
    requires IsRun(r) && j < |r.states| && key in r.states[j].book.entries
    ensures i < j && i < |r.commands| && r.commands[i].ReserveRisk? && KeyOf(r.commands[i].order) == key
    ensures OutputAt(r, i).Risk? && OutputAt(r, i).reply.HeldReply?
    ensures key !in r.states[i].book.entries && key in r.states[i + 1].book.entries
    ensures r.states[i + 1].book.entries[key].order == r.commands[i].order
    ensures r.states[i].access.policy.Some? && r.commands[i].order.revision == r.states[i].access.policy.value.revision
  {
    hide KeyOf, RiskOutcome, Inv, InstallStep, CampaignStep, Mutate;
    var k := j - 1;
    RunInv(r, k);
    RunStep(r, k);
    if key in r.states[k].book.entries {
      i := FirstHeld(r, k, key);
    } else {
      StepCreates(r.states[k], r.commands[k], key);
      i := k;
    }
  }

  lemma LaterOrder(s: State, t: State, key: string)
    requires StateLater(s, t) && s.book.meta.Some? && key in s.book.entries
    ensures key in t.book.entries && Later(s.book.entries[key], t.book.entries[key])
  {
    hide Later, PolicyLater;
  }

  lemma EntriesNeedBook(s: State, key: string)
    requires Inv(s) && key in s.book.entries
    ensures s.book.meta.Some?
  {
    hide Balanced, Bounded, EntriesSound, Paired;
  }

  /** The policy at `i` and `j` is one value when it has one revision. */
  lemma SamePolicy(r: Run, i: nat, j: nat)
    requires IsRun(r) && i <= j < |r.states|
    requires r.states[i].access.policy.Some? && r.states[j].access.policy.Some?
    requires r.states[i].access.policy.value.revision == r.states[j].access.policy.value.revision
    ensures r.states[i].access.policy == r.states[j].access.policy
  {
    hide Forward, Identities;
    RunLater(r, i, j);
  }

  /** Every post is authorized under exactly the policy stored when its key was first held; the account trades at both moments. */
  lemma PostUnderHeldPolicy(r: Run, j: nat) returns (i: nat)
    requires IsRun(r) && j < |r.commands| && r.commands[j].BeginRiskPost?
    requires OutputAt(r, j).Risk? && OutputAt(r, j).reply.PostAuthorized?
    ensures i < j && r.commands[i].ReserveRisk? && KeyOf(r.commands[i].order) == r.commands[j].key
    ensures OutputAt(r, i).Risk? && OutputAt(r, i).reply.HeldReply?
    ensures |r.states| == |r.commands| + 1 && r.commands[j].key !in r.states[i].book.entries
    ensures r.states[i].access.policy == r.states[j].access.policy && r.states[j].access.policy.Some?
    ensures exists a :: a in r.states[j].access.policy.value.accounts && Grants(a, r.commands[i].order)
  {
    hide KeyOf, RiskOutcome, Inv, Step, IsRun, Grants, PostCapsHold, ValidPolicy, Projected, NextSequence, StateLater, Later;
    PostedAt(r, j);
    var key := r.commands[j].key;
    i := FirstHeld(r, j, key);
    RunLater(r, i + 1, j);
    RunInv(r, i + 1);
    EntriesNeedBook(r.states[i + 1], key);
    LaterOrder(r.states[i + 1], r.states[j], key);
    LaterSame(r.states[i + 1].book.entries[key], r.states[j].book.entries[key]);
    SamePolicy(r, i, j);
  }

  lemma LaterSame(e: Entry, f: Entry)
    requires Later(e, f)
    ensures f.order == e.order && f.key == e.key
  {
  }
}
