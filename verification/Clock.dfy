/** The one way a stored entry becomes invalid: a post authorized in the very millisecond its reservation was created. */
module Clock {
  import opened Options
  import opened Amounts
  import opened RiskKeys
  import opened Governance
  import opened Sums
  import opened GovernanceStore
  import opened RiskBook
  import opened Conservation
  import opened Progress
  import opened Commands
  import opened Posting
  import opened Installation
  import opened Runs
  import opened RunTheorems
  import opened Fences

  ghost predicate AllValid(b: Book) {
    forall k :: k in b.entries ==> ValidEntry(b.entries[k])
  }

  /** The step authorizes a post whose clock reads what it read when the reservation was created. */
  ghost predicate PostsAtCreation(s: State, c: Command) {
    && c.BeginRiskPost? && RiskOutcome(s, c).reply.PostAuthorized? && c.post.Some? && c.key in s.book.entries
    && c.post.value.now == s.book.entries[c.key].createdAt
  }

  // ---------- which steps set a post time ----------

  /** Stored entries keep their post time, and new ones have none. */
  ghost predicate PostTimesKept(b: Book, c: Book) {
    forall k :: k in c.entries ==>
      if k in b.entries then c.entries[k].postedAt == b.entries[k].postedAt && c.entries[k].createdAt == b.entries[k].createdAt
      else c.entries[k].postedAt.None?
  }

  lemma ReservePostTimes(s: State, c: Command)
    requires c.ReserveRisk?
    ensures PostTimesKept(s.book, RiskOutcome(s, c).book)
  {
    hide Reserve, KeyOf;
    ReserveEntries(s.book, s.access.policy, s.generation, c.policy, c.census, c.order, c.now, c.native);
  }

  lemma ReleasePostTimes(s: State, c: Command)
    requires Inv(s) && (c.ResolveRisk? || c.ReleaseUnsentRisk?)
    ensures PostTimesKept(s.book, RiskOutcome(s, c).book)
  {
    hide Sound, Forward, Resolve, ReleaseUnsent, Inv, Registered, Safe, ResolveAnswer, PostTimesKept, Retired, MovedTo;
    InvParts(s);
    RegisteredAt(s);
    if c.ResolveRisk? {
      ResolveSafe(s.book, s.access.policy, s.generation, c.key, c.plan, c.to, c.digest, c.session, c.expected, c.terminal);
      ResolvedTimes(s.book, s.access.policy, s.generation, c.key, c.to, c.digest, c.session, c.expected, c.terminal, RiskOutcome(s, c));
    } else {
      ReleaseUnsentSafe(s.book, s.access.policy, s.generation, c.key, c.plan, c.expected, c.session, c.proof);
      UnsentTimes(s.book, c.key, c.proof.digest, RiskOutcome(s, c));
    }
  }

  lemma ResolvedTimes(b: Book, access: Option<Policy>, generation: int, key: string, to: EntryState, digest: string, session: int, expected: int,
                      terminal: Option<TerminalProof>, out: Outcome)
    requires Safe(b, access, out) && ResolveAnswer(b, generation, key, to, digest, session, expected, terminal, out)
    ensures PostTimesKept(b, out.book)
  {
    hide Sound, Forward, Registered, TerminalAnswer, Overflows, Allowed;
  }

  lemma UnsentTimes(b: Book, key: string, digest: string, out: Outcome)
    requires (key in b.entries && MovedTo(b, key, Released, digest, out)) || out.book.entries == b.entries
    ensures PostTimesKept(b, out.book)
  {
  }

  lemma OtherPostTimes(s: State, c: Command)
    requires Inv(s) && !c.BeginRiskPost?
    ensures PostTimesKept(s.book, Step(s, c).0.book)
  {
    hide Inv, RiskOutcome, Mutate, InstallStep, CampaignStep;
    match c {
      case Install(body) => InstallEntries(s, body);
      case LowerCampaign(body) => CampaignEntries(s, body);
      case ReserveRisk(_, _, _, _, _) => ReservePostTimes(s, c);
      case ResolveRisk(_, _, _, _, _, _, _) => ReleasePostTimes(s, c);
      case ReleaseUnsentRisk(_, _, _, _, _) => ReleasePostTimes(s, c);
      case _ =>
    }
  }

  /** What a post step does to the entries. */
  lemma PostStep(s: State, c: Command)
    requires Inv(s) && c.BeginRiskPost?
    ensures var out := RiskOutcome(s, c);
            if out.reply.PostAuthorized? then
              && c.post.Some? && c.key in s.book.entries && c.post.value.now >= s.book.entries[c.key].createdAt
              && (out.book.entries == s.book.entries || out.book.entries == s.book.entries[c.key := PostedEntry(s.book.entries[c.key], c.post.value.now, c.digest)])
              && c.key in out.book.entries && out.book.entries[c.key].postedAt == Some(c.post.value.now)
              && out.book.entries[c.key].createdAt == s.book.entries[c.key].createdAt
            else out.book.entries == s.book.entries
  {
    hide Sound, Forward, BeginPost, Inv, Registered, PostCapsHold, ValidPolicy, Projected, Grants, NextSequence;
    InvParts(s);
    RegisteredAt(s);
    PostEntries(s.book, s.access.policy, s.generation, c.key, c.plan, c.revision, c.digest, c.post);
    BeginPostSafe(s.book, s.access.policy, s.generation, c.key, c.plan, c.revision, c.digest, c.post);
    if c.key in s.book.entries {
      EntriesNeedBook(s, c.key);
      OwnKey(s.book, c.key);
    }
  }

  lemma SoundIsButClock(b: Book)
    requires Sound(b)
    ensures forall k :: k in b.entries ==> ValidButClock(b.entries[k])
  {
    hide Balanced, Bounded, ValidButClock, Usd;
  }

  lemma ValidFromTimes(b: Book, c: Book)
    requires AllValid(b) && Sound(c) && PostTimesKept(b, c)
    ensures AllValid(c)
  {
    hide Sound, ValidButClock;
    SoundIsButClock(c);
  }

  lemma ValidPostStep(s: State, c: Command)
    requires Inv(s) && AllValid(s.book) && c.BeginRiskPost? && Sound(RiskOutcome(s, c).book)
    ensures AllValid(RiskOutcome(s, c).book) <==> !PostsAtCreation(s, c)
  {
    hide Inv, Sound, RiskOutcome, ValidButClock;
    PostStep(s, c);
    SoundIsButClock(RiskOutcome(s, c).book);
    var out := RiskOutcome(s, c);
    if PostsAtCreation(s, c) {
      assert !ValidEntry(out.book.entries[c.key]);
    }
  }

  /** A step keeps every stored entry valid exactly when it does not authorize a post at the creation time. */
  lemma StepValid(s: State, c: Command)
    requires Inv(s) && AllValid(s.book)
    ensures AllValid(Step(s, c).0.book) <==> !PostsAtCreation(s, c)
  {
    hide Inv, Sound, RiskOutcome, AllValid, Step, StateLater;
    StepInv(s, c);
    InvParts(Step(s, c).0);
    if c.BeginRiskPost? {
      StepRisk(s, c);
      ValidPostStep(s, c);
    } else {
      OtherPostTimes(s, c);
      ValidFromTimes(s.book, Step(s, c).0.book);
      assert !PostsAtCreation(s, c);
    }
  }

  /** A run keeps every stored entry valid in every state exactly when none of its steps posts at the creation time. */
  lemma {:induction false} RunValid(r: Run, n: nat)
    requires IsRun(r) && n < |r.states|
    ensures (forall i :: 0 <= i <= n ==> AllValid(r.states[i].book)) <==> (forall i :: 0 <= i < n ==> !PostsAtCreation(r.states[i], r.commands[i]))
  {
    hide Inv, AllValid, Step, PostsAtCreation;
    RunLength(r);
    if n == 0 {
      assert AllValid(r.states[0].book) by { NothingValid(r); }
    } else {
      RunValid(r, n - 1);
      RunInv(r, n - 1);
      RunStep(r, n - 1);
      if AllValid(r.states[n - 1].book) {
        StepValid(r.states[n - 1], r.commands[n - 1]);
      }
    }
  }

  /** Under a clock that has moved on by every post since its reservation, every stored entry of every state is valid. */
  lemma StrictClockKeepsValid(r: Run, i: nat)
    requires IsRun(r) && i < |r.states|
    requires forall j :: 0 <= j < |r.commands| < |r.states| && r.commands[j].BeginRiskPost? && r.commands[j].post.Some? && r.commands[j].key in r.states[j].book.entries ==>
               r.commands[j].post.value.now > r.states[j].book.entries[r.commands[j].key].createdAt
    ensures AllValid(r.states[i].book)
  {
    hide Step, RiskOutcome, AllValid;
    RunValid(r, i);
  }

  lemma NothingValid(r: Run)
    requires IsRun(r)
    ensures |r.states| > 0 && AllValid(r.states[0].book)
  {
    hide Step;
  }

  // ---------- the family of failures ----------

  lemma RetimedCensus(c: Census, policy: RiskPolicy, now: int, when: int)
    requires SafeInt(now) && SafeInt(when)
    ensures CensusRisk(c, policy, now, true) == CensusRisk(c, policy, when, true)
  {
    hide CompleteCensus, Hex;
  }

  lemma RetimedArguments(key: string, plan: string, revision: int, digest: string, n: PostProof, when: int)
    requires PostArguments(key, plan, revision, digest, n) && SafeInt(when) && when > 0
    ensures PostArguments(key, plan, revision, digest, n.(now := when))
  {
    hide Hex, ValidPostProof;
  }

  lemma RetimedCharged(before: Book, b: Book, p: Policy, policy: RiskPolicy, key: string, plan: string, revision: int, digest: string, n: PostProof)
    requires b.meta.Some? && PostCharged(before, b, p, policy, key, plan, revision, digest, n).reply.PostAuthorized?
    requires SafeInt(n.now) && Hex(digest)
    ensures key in b.entries
    ensures PostCharged(before, b, p, policy, key, plan, revision, digest, n.(now := b.entries[key].createdAt)).reply.PostAuthorized?
  {
    hide ValidEntry, PostCaps, External, FindTrading, Usdt, AccountOf, StrategyOf, NextRecord, Usd;
    HeldKey(b, key, plan, revision);
    var e := b.entries[key];
    SameSave(b, PostedEntry(e, n.now, digest), PostedEntry(e, e.createdAt, digest));
    hide SaveEntry;
  }

  /** Whether a save throws does not depend on the post time. */
  lemma SameSave(b: Book, e: Entry, f: Entry)
    requires b.meta.Some? && f.order == e.order
    ensures SaveEntry(b, e, 0).Some? <==> SaveEntry(b, f, 0).Some?
  {
    hide Units, NextRecord, AccountKey;
  }

  lemma AtCreationIsAuthorized(b: Book, access: Option<Policy>, generation: int, key: string, plan: string, revision: int, digest: string, n: PostProof)
    requires BeginPost(b, access, generation, key, plan, revision, digest, Some(n)).reply.PostAuthorized?
    ensures key in b.entries
    ensures BeginPost(b, access, generation, key, plan, revision, digest, Some(n.(now := b.entries[key].createdAt))).reply.PostAuthorized?
  {
    hide PostArguments, ValidPolicy, Projected, CensusRisk, ValidMeta, ChargeCensus, PostCharged;
    PostArgumentsFacts(key, plan, revision, digest, n);
    var p, policy := access.value, Projected(access.value).value;
    var d := ChargeCensus(b, n.census).value;
    RetimedCharged(b, d, p, policy, key, plan, revision, digest, n);
    ChargeEntries(b, n.census);
    HeldCreated(b, d, p, policy, key, plan, revision, digest, n);
    RetimedCensus(n.census, policy, n.now, b.entries[key].createdAt);
    RetimedArguments(key, plan, revision, digest, n, b.entries[key].createdAt);
  }

  lemma HeldCreated(b: Book, d: Book, p: Policy, policy: RiskPolicy, key: string, plan: string, revision: int, digest: string, n: PostProof)
    requires d.meta.Some? && d.entries == b.entries && PostCharged(b, d, p, policy, key, plan, revision, digest, n).reply.PostAuthorized?
    ensures key in b.entries && SafeInt(b.entries[key].createdAt) && b.entries[key].createdAt > 0
  {
    hide PostAdmission, SaveEntry, Usdt, ValidOrder, Hex, KeyOf, PostedEntry;
  }

  // ---------- what becomes of such an entry ----------

  /** Posted and never valid again. */
  predicate Frozen(e: Entry) {
    e.postedAt.Some? && e.postedAt.value <= e.createdAt && !e.state.Released?
  }

  lemma FrozenIsInvalid(e: Entry)
    requires Frozen(e)
    ensures !ValidEntry(e)
  {
    hide ValidButClock;
  }

  /** The same post with its clock set back to the creation of its reservation. */
  function AtCreation(s: State, c: Command): Command
    requires c.BeginRiskPost? && c.post.Some? && c.key in s.book.entries
  {
    c.(post := Some(c.post.value.(now := s.book.entries[c.key].createdAt)))
  }

  /** Whatever post is authorized is authorized at the creation time too, and then leaves an entry that is no longer valid. */
  lemma AtCreationFreezes(s: State, c: Command)
    requires Inv(s) && c.BeginRiskPost? && RiskOutcome(s, c).reply.PostAuthorized?
    ensures c.post.Some? && c.key in s.book.entries
    ensures var out := RiskOutcome(s, AtCreation(s, c));
            out.reply.PostAuthorized? && c.key in out.book.entries && Frozen(out.book.entries[c.key]) && !ValidEntry(out.book.entries[c.key])
  {
    hide Inv, Sound, BeginPost, ValidEntry;
    PostStep(s, c);
    AtCreationIsAuthorized(s.book, s.access.policy, s.generation, c.key, c.plan, c.revision, c.digest, c.post.value);
    PostStep(s, AtCreation(s, c));
    PostedState(s, AtCreation(s, c));
    FrozenIsInvalid(RiskOutcome(s, AtCreation(s, c)).book.entries[c.key]);
  }

  lemma PostedState(s: State, c: Command)
    requires Inv(s) && c.BeginRiskPost? && RiskOutcome(s, c).reply.PostAuthorized?
    ensures c.key in RiskOutcome(s, c).book.entries && RiskOutcome(s, c).book.entries[c.key].state.Posted?
  {
    hide Sound, Forward, BeginPost, Inv, Registered, PostCapsHold, ValidPolicy, Projected, Grants, NextSequence;
    InvParts(s);
    RegisteredAt(s);
    BeginPostSafe(s.book, s.access.policy, s.generation, c.key, c.plan, c.revision, c.digest, c.post);
  }

  /** No resolution and no unsent release accepts it. */
  lemma FrozenRelease(s: State, c: Command, key: string)
    requires Inv(s) && key in s.book.entries && Frozen(s.book.entries[key]) && (c.ResolveRisk? || c.ReleaseUnsentRisk?) && c.key == key
    ensures RiskOutcome(s, c).book == s.book
  {
    hide Inv, Hex, ValidMeta, ValidEntry, ReleaseTerminal, MoveEntry, UnsentArguments, FenceKey, SaveEntry;
    FrozenIsInvalid(s.book.entries[key]);
  }

  /** An entry posted at its creation time is never resolved and never released: its occupancy is charged for ever. */
  lemma {:induction false} FrozenForEver(r: Run, i: nat, j: nat, key: string)
    requires IsRun(r) && i <= j < |r.states| && key in r.states[i].book.entries && Frozen(r.states[i].book.entries[key])
    ensures key in r.states[j].book.entries && Frozen(r.states[j].book.entries[key])
    decreases j - i
  {
    hide Inv, Step, IsRun, StateLater;
    if i < j {
      FrozenForEver(r, i, j - 1, key);
      RunLength(r);
      RunInv(r, j - 1);
      RunStep(r, j - 1);
      EntriesNeedBook(r.states[j - 1], key);
      RunLater(r, j - 1, j);
      LaterOrder(r.states[j - 1], r.states[j], key);
      if r.states[j].book.entries[key].state.Released? {
        FrozenStep(r.states[j - 1], r.commands[j - 1], key);
      }
    }
  }

  lemma FrozenStep(s: State, c: Command, key: string)
    requires Inv(s) && key in s.book.entries && Frozen(s.book.entries[key])
    ensures key in Step(s, c).0.book.entries ==> !Step(s, c).0.book.entries[key].state.Released?
  {
    hide Inv, Step, RiskOutcome, LawfulRelease, IsRisk, Sound;
    var t := Step(s, c).0;
    if key in t.book.entries && t.book.entries[key].state.Released? {
      FrozenTarget(s, c, key);
      FrozenRelease(s, c, key);
    }
  }

  /** Only a release of this very entry could have released it. */
  lemma FrozenTarget(s: State, c: Command, key: string)
    requires Inv(s) && key in s.book.entries && !s.book.entries[key].state.Released?
    requires key in Step(s, c).0.book.entries && Step(s, c).0.book.entries[key].state.Released?
    ensures (c.ResolveRisk? || c.ReleaseUnsentRisk?) && c.key == key && Step(s, c).0.book == RiskOutcome(s, c).book
  {
    hide Inv, Step, RiskOutcome, LawfulRelease, Sound;
    StepReleases(s, c, key);
    EntriesNeedBook(s, key);
    InvParts(s);
    OwnKey(s.book, key);
    LawfulKey(s, c, s.book.entries[key]);
    StepRisk(s, c);
  }

  lemma LawfulKey(s: State, c: Command, e: Entry)
    requires LawfulRelease(s, c, e)
    ensures (c.ResolveRisk? || c.ReleaseUnsentRisk?) && c.key == e.key
  {
  }
}
