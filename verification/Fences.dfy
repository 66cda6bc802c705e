/** Retirement, single posting, release discipline, and what the sequence and the session generation fence off, in every run. */
module Fences {
  import opened Options
  import opened Amounts
  import opened RiskKeys
  import opened Governance
  import opened GovernanceStore
  import opened RiskBook
  import opened Conservation
  import opened Progress
  import opened Commands
  import opened Posting
  import opened Installation
  import opened Runs
  import opened RunTheorems

  // ---------- RESERVE against RELEASE_UNSENT ----------

  lemma UnsentAt(r: Run, i: nat)
    requires IsRun(r) && i < |r.commands| && r.commands[i].ReleaseUnsentRisk?
    requires OutputAt(r, i) == Risk(Updated)
    ensures |r.states| == |r.commands| + 1
    ensures Retired(r.states[i + 1].book, r.commands[i].key)
  {
    hide Sound, Forward, ReleaseUnsent, Paired, IsRun, Registered, Inv, Retired;
    RunStep(r, i);
    RunInv(r, i);
    var s, c := r.states[i], r.commands[i];
    InvParts(s);
    RegisteredAt(s);
    ReleaseUnsentSafe(s.book, s.access.policy, s.generation, c.key, c.plan, c.expected, c.session, c.proof);
  }

  lemma RetiredStays(b: Book, c: Book, key: string)
    requires b.meta.Some? && Forward(b, c) && Retired(b, key)
    ensures Retired(c, key)
  {
    hide Substance, Sequenced;
  }

  lemma RetiredNeedsBook(s: State, key: string)
    requires Inv(s) && Retired(s.book, key)
    ensures s.book.meta.Some?
  {
    hide Balanced, Bounded, EntriesSound, Paired;
  }

  /** A retired key is neither held nor authorized by a step that would leave it in that state. */
  lemma RetiredIsNotHeld(b: Book, key: string)
    requires b.meta.Some? && Sound(b) && Retired(b, key) && key in b.entries
    ensures b.entries[key].state.Released? && key !in b.fences
  {
    hide Balanced, Bounded, SoundEntry;
  }

  /** Once an unsent release has been confirmed for a key, no later step of any interleaving holds it or authorizes its post. */
  lemma RetiredForGood(r: Run, i: nat, j: nat)
    requires IsRun(r) && i < j < |r.commands| && r.commands[i].ReleaseUnsentRisk? && OutputAt(r, i) == Risk(Updated)
    requires OutputAt(r, j).Risk?
    ensures r.commands[j].ReserveRisk? && KeyOf(r.commands[j].order) == r.commands[i].key ==> !OutputAt(r, j).reply.HeldReply?
    ensures r.commands[j].BeginRiskPost? && r.commands[j].key == r.commands[i].key ==> !OutputAt(r, j).reply.PostAuthorized?
  {
    hide KeyOf, RiskOutcome, Inv, Step, IsRun, Forward, Sound, Retired, PostCapsHold, ValidPolicy, Projected, Created, Authoritative, NewEntry, Later;
    var key := r.commands[i].key;
    UnsentAt(r, i);
    RunInv(r, i + 1);
    RetiredNeedsBook(r.states[i + 1], key);
    RunLater(r, i + 1, j);
    RunInv(r, j);
    InvParts(r.states[j]);
    RetiredStays(r.states[i + 1].book, r.states[j].book, key);
    var b := r.states[j].book;
    RetiredNeedsBook(r.states[j], key);
    if r.commands[j].ReserveRisk? && KeyOf(r.commands[j].order) == key && OutputAt(r, j).reply.HeldReply? {
      HeldAt(r, j);
      RetiredEntry(b, key);
      RetiredIsNotHeld(b, key);
    }
    if r.commands[j].BeginRiskPost? && r.commands[j].key == key && OutputAt(r, j).reply.PostAuthorized? {
      PostedAt(r, j);
      RetiredIsNotHeld(b, key);
    }
  }

  lemma RetiredEntry(b: Book, key: string)
    requires Retired(b, key) && key !in b.fences
    ensures key in b.entries
  {
  }

  /** No key ever has both an entry and a fence, and neither is ever taken away. */
  lemma EntryOrFence(r: Run, i: nat, j: nat, key: string)
    requires IsRun(r) && i <= j < |r.states|
    ensures !(key in r.states[i].book.entries && key in r.states[i].book.fences)
    ensures key in r.states[i].book.entries ==> key in r.states[j].book.entries
    ensures key in r.states[i].book.fences ==> key in r.states[j].book.fences && r.states[j].book.fences[key] == r.states[i].book.fences[key]
  {
    hide Step, Inv, IsRun, SoundEntry, Balanced, Bounded, Later, Sequenced, PolicyLater, Paired;
    RunInv(r, i);
    InvParts(r.states[i]);
    RunLater(r, i, j);
  }

  // ---------- one post, one release ----------

  lemma PostedNow(r: Run, i: nat)
    requires IsRun(r) && i < |r.commands| && r.commands[i].BeginRiskPost?
    requires OutputAt(r, i).Risk? && OutputAt(r, i).reply.PostAuthorized?
    ensures |r.states| == |r.commands| + 1
    ensures var key := r.commands[i].key;
            && key in r.states[i].book.entries && r.states[i].book.entries[key].state.Held?
            && key in r.states[i + 1].book.entries && r.states[i + 1].book.entries[key].state.Posted?
  {
    hide RiskOutcome, Inv, Step, IsRun, PostCapsHold, ValidPolicy, Projected, Grants, NextSequence;
    PostedAt(r, i);
  }

  /** At most one post is ever authorized for a key. */
  lemma PostedOnce(r: Run, i: nat, j: nat)
    requires IsRun(r) && i < j < |r.commands|
    requires r.commands[i].BeginRiskPost? && OutputAt(r, i).Risk? && OutputAt(r, i).reply.PostAuthorized?
    requires r.commands[j].BeginRiskPost? && OutputAt(r, j).Risk? && OutputAt(r, j).reply.PostAuthorized?
    ensures r.commands[i].key != r.commands[j].key
  {
    hide Inv, Step, IsRun, StateLater, RiskOutcome;
    PostedNow(r, i);
    PostedNow(r, j);
    if r.commands[i].key == r.commands[j].key {
      var key := r.commands[i].key;
      RunInv(r, i + 1);
      EntriesNeedBook(r.states[i + 1], key);
      RunLater(r, i + 1, j);
      LaterOrder(r.states[i + 1], r.states[j], key);
    }
  }

  /** States only move forward; a released entry never changes again, so its occupancy is returned at most once. */
  lemma EntriesOnlyAdvance(r: Run, i: nat, j: nat, key: string)
    requires IsRun(r) && i <= j < |r.states| && key in r.states[i].book.entries
    ensures key in r.states[j].book.entries
    ensures var e, f := r.states[i].book.entries[key], r.states[j].book.entries[key];
            && f.order == e.order && f.createdAt == e.createdAt && Rank(e.state) <= Rank(f.state)
            && (e.state.Released? ==> f == e)
  {
    hide Inv, Step, IsRun, StateLater;
    RunInv(r, i);
    EntriesNeedBook(r.states[i], key);
    RunLater(r, i, j);
    LaterOrder(r.states[i], r.states[j], key);
  }

  /** The three ways an entry may be released. */
  ghost predicate LawfulRelease(s: State, c: Command, e: Entry) {
    || (c.ReleaseUnsentRisk? && c.key == e.key && (e.state.Held? || e.state.Posted?))
    || (c.ResolveRisk? && c.key == e.key && c.to.Released? && c.terminal.Some?
        && e.postedAt.Some? && c.terminal.value.census.floor > e.postedAt.value)
    || (c.ResolveRisk? && c.key == e.key && c.to.Released? && c.terminal.Some?
        && e.state.Held? && c.terminal.value.ledger.state.Rejected? && c.terminal.value.census.floor > e.createdAt)
  }

  /** Every release is an unsent one from held or posted, a terminal one whose census was read after the post, or a rejected hold. */
  lemma ReleasesAreLawful(r: Run, i: nat, key: string)
    requires IsRun(r) && i < |r.commands| < |r.states|
    requires key in r.states[i].book.entries && !r.states[i].book.entries[key].state.Released?
    requires key in r.states[i + 1].book.entries && r.states[i + 1].book.entries[key].state.Released?
    ensures LawfulRelease(r.states[i], r.commands[i], r.states[i].book.entries[key])
  {
    hide Step, IsRun, Inv, LawfulRelease;
    RunStep(r, i);
    RunInv(r, i);
    StepReleases(r.states[i], r.commands[i], key);
  }

  lemma TerminalIsLawful(s: State, c: Command, e: Entry)
    requires c.ResolveRisk? && c.key == e.key && c.to.Released? && c.terminal.Some? && TerminalProven(e, c.session, c.terminal.value)
    ensures LawfulRelease(s, c, e)
  {
    hide Hex, Units;
  }

  /** Only resolutions and unsent releases release. */
  lemma OthersRelease(s: State, c: Command, key: string)
    requires Inv(s) && key in s.book.entries && !s.book.entries[key].state.Released?
    requires key in Step(s, c).0.book.entries && Step(s, c).0.book.entries[key].state.Released?
    ensures c.ResolveRisk? || c.ReleaseUnsentRisk?
  {
    hide Sound, Paired, Mutate, Reserve, BeginPost, Resolve, ReleaseUnsent, KeyOf, Inv, InstallStep, CampaignStep, NewEntry, Token, Hex;
    match c {
      case ReserveRisk(policy, census, order, now, native) =>
        ReserveEntries(s.book, s.access.policy, s.generation, policy, census, order, now, native);
      case BeginRiskPost(k, plan, revision, digest, post) =>
        PostEntries(s.book, s.access.policy, s.generation, k, plan, revision, digest, post);
      case Install(body) => InstallEntries(s, body);
      case LowerCampaign(body) => CampaignEntries(s, body);
      case _ =>
    }
  }

  lemma ResolveReleases(b: Book, generation: int, k: string, to: EntryState, digest: string, session: int, expected: int, terminal: Option<TerminalProof>, out: Outcome, key: string)
    requires ResolveAnswer(b, generation, k, to, digest, session, expected, terminal, out) && (out.reply.Thrown? ==> out.book == b)
    requires key in b.entries && !b.entries[key].state.Released?
    requires key in out.book.entries && out.book.entries[key].state.Released?
    ensures k == key && to.Released? && terminal.Some? && TerminalProven(b.entries[key], session, terminal.value)
  {
    hide TerminalProven, Overflows, Allowed, TerminalMeaning, LossesAfter;
  }

  lemma StepResolves(s: State, c: Command, key: string)
    requires Inv(s) && c.ResolveRisk? && key in s.book.entries && !s.book.entries[key].state.Released? && s.book.entries[key].key == key
    requires key in RiskOutcome(s, c).book.entries && RiskOutcome(s, c).book.entries[key].state.Released?
    ensures LawfulRelease(s, c, s.book.entries[key])
  {
    hide Sound, Forward, Resolve, Inv, Registered, TerminalProven, ResolveAnswer, LawfulRelease;
    InvParts(s);
    RegisteredAt(s);
    ResolveSafe(s.book, s.access.policy, s.generation, c.key, c.plan, c.to, c.digest, c.session, c.expected, c.terminal);
    ResolveReleases(s.book, s.generation, c.key, c.to, c.digest, c.session, c.expected, c.terminal, RiskOutcome(s, c), key);
    TerminalIsLawful(s, c, s.book.entries[key]);
  }

  lemma StepUnsends(s: State, c: Command, key: string)
    requires Inv(s) && c.ReleaseUnsentRisk? && key in s.book.entries && !s.book.entries[key].state.Released? && s.book.entries[key].key == key
    requires key in RiskOutcome(s, c).book.entries && RiskOutcome(s, c).book.entries[key].state.Released?
    ensures LawfulRelease(s, c, s.book.entries[key])
  {
    hide Sound, Forward, ReleaseUnsent, Inv, Registered, Retired;
    InvParts(s);
    RegisteredAt(s);
    ReleaseUnsentSafe(s.book, s.access.policy, s.generation, c.key, c.plan, c.expected, c.session, c.proof);
  }

  lemma StepReleases(s: State, c: Command, key: string)
    requires Inv(s) && key in s.book.entries && !s.book.entries[key].state.Released?
    requires key in Step(s, c).0.book.entries && Step(s, c).0.book.entries[key].state.Released?
    ensures LawfulRelease(s, c, s.book.entries[key])
  {
    hide Step, LawfulRelease, RiskOutcome, Sound, Paired;
    OthersRelease(s, c, key);
    StepRisk(s, c);
    InvParts(s);
    EntriesNeedBook(s, key);
    OwnKey(s.book, key);
    if c.ResolveRisk? {
      StepResolves(s, c, key);
    } else {
      StepUnsends(s, c, key);
    }
  }

  lemma OwnKey(b: Book, key: string)
    requires b.meta.Some? && Sound(b) && key in b.entries
    ensures b.entries[key].key == key
  {
    hide EntriesSound, Balanced, Bounded, SoundEntry, KeyOf;
    SoundParts(b);
    KeyOfSound(b, key);
  }

  lemma StepRisk(s: State, c: Command)
    ensures IsRisk(c) ==> Step(s, c) == (s.(book := RiskOutcome(s, c).book), Risk(RiskOutcome(s, c).reply))
  {
    hide RiskOutcome;
  }

  /** An entry whose outcome is unknown or open without ever having been posted. */
  predicate Stranded(e: Entry) {
    (e.state.Unknown? || e.state.Open?) && e.postedAt.None?
  }

  /** A hold resolved to unknown without a post keeps its occupancy for ever: no continuation releases it. */
  lemma {:induction false} StrandedForEver(r: Run, i: nat, j: nat, key: string)
    requires IsRun(r) && i <= j < |r.states| && key in r.states[i].book.entries && Stranded(r.states[i].book.entries[key])
    ensures key in r.states[j].book.entries && Stranded(r.states[j].book.entries[key])
    decreases j - i
  {
    hide Inv, Step, IsRun, StateLater;
    if i < j {
      StrandedForEver(r, i, j - 1, key);
      RunLength(r);
      RunInv(r, j - 1);
      EntriesNeedBook(r.states[j - 1], key);
      RunLater(r, j - 1, j);
      LaterOrder(r.states[j - 1], r.states[j], key);
      if r.states[j].book.entries[key].state.Released? {
        ReleasesAreLawful(r, j - 1, key);
      }
    }
  }

  lemma RunLength(r: Run)
    requires IsRun(r)
    ensures |r.states| == |r.commands| + 1
  {
    hide Step;
  }
}
