/** Theorems over every run of an installation: any commands, in any order, from empty storage. */
module Runs {
  import opened Options
  import opened Amounts
  import opened RiskKeys
  import opened Governance
  import opened Sums
  import opened GovernanceStore
  import opened RiskBook
  import opened Conservation
  import opened Progress
  import opened Commands
  import opened Posting
  import opened Installation

  // ---------- one step ----------

  /** A policy stands for good, or gives way to lawful successors of higher revision. */
  ghost predicate PolicyLater(p: Policy, q: Policy) {
    && p.revision <= q.revision
    && (p.revision == q.revision ==> p == q)
    && Identities(p) <= Identities(q)
    && q.installationId == p.installationId
  }

  ghost predicate StateLater(s: State, t: State) {
    && Forward(s.book, t.book)
    && (s.access.policy.Some? ==> t.access.policy.Some? && PolicyLater(s.access.policy.value, t.access.policy.value))
  }

  lemma SucceedsIsLater(p: Policy, q: Policy)
    requires Succeeds(p, q)
    ensures PolicyLater(p, q)
  {
    hide ValidPolicy, Identities;
  }

  predicate IsRisk(c: Command) {
    c.ReserveRisk? || c.BeginRiskPost? || c.ResolveRisk? || c.ReleaseUnsentRisk?
  }

  /** Before installation no ledger command changes anything. */
  lemma NoBookNoRisk(s: State, c: Command)
    requires IsRisk(c) && s.book == NO_BOOK && s.access.policy.None?
    ensures RiskOutcome(s, c).book == s.book && RiskOutcome(s, c).reply.Denied?
  {
    hide ReserveArguments, PostArguments, UnsentArguments, Hex;
  }

  lemma RiskInv(s: State, c: Command)
    requires Inv(s) && IsRisk(c)
    ensures Inv(s.(book := RiskOutcome(s, c).book))
    ensures Forward(s.book, RiskOutcome(s, c).book)
  {
    hide Sound, Paired, Forward, Reserve, BeginPost, Resolve, ReleaseUnsent;
    if s.access.policy.None? {
      NoBookYet(s);
      NoBookNoRisk(s, c);
      ForwardSelf(s.book);
    } else {
      var p := s.access.policy.value;
      match c {
      case ReserveRisk(policy, census, order, now, native) =>
        ReserveInv(s.book, p, s.generation, policy, census, order, now, native);
      case BeginRiskPost(key, plan, revision, digest, post) =>
        PostInv(s.book, p, s.generation, key, plan, revision, digest, post);
      case ResolveRisk(key, plan, to, digest, session, expected, terminal) =>
        ResolveInv(s.book, p, s.generation, key, plan, to, digest, session, expected, terminal);
      case ReleaseUnsentRisk(key, plan, expected, session, proof) =>
        UnsentInv(s.book, p, s.generation, key, plan, expected, session, proof);
      }
      PairedMeta(p, RiskOutcome(s, c).book);
    }
  }

  lemma PairedMeta(p: Policy, b: Book)
    requires Paired(p, b)
    ensures b.meta.Some?
  {
    hide ValidPolicy, AllVerified, Registered, EntriesCurrent;
  }

  /** Every command keeps the invariant and moves book and policy only forward. */
  lemma StepInv(s: State, c: Command)
    requires Inv(s)
    ensures Inv(Step(s, c).0) && StateLater(s, Step(s, c).0)
  {
    hide Sound, Paired, Forward, RiskOutcome, Mutate, InstallStep, CampaignStep, Succeeds, Inv;
    ForwardSelf(s.book);
    PolicySelf(s);
    match c
    case AcceptRuntime => InvSame(s, Step(s, c).0);
    case Install(body) =>
      InstallInv(s, body);
      InstallKeepsPolicy(s, body);
    case Govern(request) => GovernStep(s, request);
    case LowerCampaign(body) => CampaignStepLater(s, body);
    case _ => RiskInv(s, c);
  }

  lemma InvSame(s: State, t: State)
    requires Inv(s) && t.book == s.book && t.access == s.access
    ensures Inv(t)
  {
    hide Sound, Paired;
  }

  lemma PolicySelf(s: State)
    ensures s.access.policy.Some? ==> PolicyLater(s.access.policy.value, s.access.policy.value)
  {
  }

  lemma GovernStep(s: State, r: Request)
    requires Inv(s)
    ensures var t := s.(access := Mutate(s.access, r).0); Inv(t) && StateLater(s, t)
  {
    hide Sound, Paired, Forward, Mutate, Succeeds, Inv;
    GovernInv(s, r);
    ForwardSelf(s.book);
    if s.access.policy.Some? {
      SucceedsIsLater(s.access.policy.value, Mutate(s.access, r).0.policy.value);
    }
  }

  lemma CampaignStepLater(s: State, body: CampaignBody)
    requires Inv(s)
    ensures Inv(CampaignStep(s, body).0) && StateLater(s, CampaignStep(s, body).0)
  {
    hide Sound, Paired, Forward, CampaignStep, Succeeds, Inv;
    CampaignInv(s, body);
    if s.access.policy.Some? {
      SucceedsIsLater(s.access.policy.value, CampaignStep(s, body).0.access.policy.value);
    }
  }

  lemma InstallKeepsPolicy(s: State, body: InstallBody)
    ensures s.access.policy.Some? ==> InstallStep(s, body).0.access.policy == s.access.policy
  {
    hide Installable;
  }

  // ---------- runs ----------

  /** A run: the states passed through and the commands between them. */
  datatype Run = Run(states: seq<State>, commands: seq<Command>)

  ghost predicate IsRun(r: Run) {
    && |r.states| == |r.commands| + 1
    && r.states[0] == EMPTY
    && forall i :: 0 <= i < |r.commands| ==> r.states[i + 1] == Step(r.states[i], r.commands[i]).0
  }

  ghost function OutputAt(r: Run, i: nat): Output
    requires i < |r.commands| <= |r.states|
  {
    Step(r.states[i], r.commands[i]).1
  }

  lemma {:induction false} RunInv(r: Run, i: nat)
    requires IsRun(r) && i < |r.states|
    ensures Inv(r.states[i])
  {
    hide Inv, Step;
    if i == 0 {
      EmptyInv();
    } else {
      RunInv(r, i - 1);
      StepInv(r.states[i - 1], r.commands[i - 1]);
      RunStep(r, i - 1);
    }
  }

  lemma RunStep(r: Run, i: nat)
    requires IsRun(r) && i < |r.commands|
    ensures |r.states| == |r.commands| + 1
    ensures r.states[i + 1] == Step(r.states[i], r.commands[i]).0
  {
    hide Step;
  }

  lemma StateLaterSelf(s: State)
    ensures StateLater(s, s)
  {
    hide Forward;
    ForwardSelf(s.book);
  }

  lemma StateLaterTwice(s: State, t: State, u: State)
    requires StateLater(s, t) && StateLater(t, u)
    ensures StateLater(s, u)
  {
    hide Forward;
    ForwardTwice(s.book, t.book, u.book);
  }

  /** Along a run, book and policy only move forward. */
  lemma {:induction false} RunLater(r: Run, i: nat, j: nat)
    requires IsRun(r) && i <= j < |r.states|
    ensures StateLater(r.states[i], r.states[j])
    decreases j - i
  {
    hide StateLater, Step, Inv;
    if i == j {
      StateLaterSelf(r.states[i]);
    } else {
      RunLater(r, i, j - 1);
      RunInv(r, j - 1);
      StepInv(r.states[j - 1], r.commands[j - 1]);
      RunStep(r, j - 1);
      StateLaterTwice(r.states[i], r.states[j - 1], r.states[j]);
    }
  }

  // ---------- the run of a list of commands ----------

  /** The state a list of commands leads to from empty storage. */
  ghost function After(commands: seq<Command>): State {
    if |commands| == 0 then EMPTY else Step(After(commands[..|commands| - 1]), commands[|commands| - 1]).0
  }

  ghost function Running(commands: seq<Command>): Run {
    Run(seq(|commands| + 1, i requires 0 <= i <= |commands| => After(commands[..i])), commands)
  }

  lemma RunningIsRun(commands: seq<Command>)
    ensures IsRun(Running(commands)) && |Running(commands).states| == |commands| + 1
    ensures forall i :: 0 <= i <= |commands| ==> Running(commands).states[i] == After(commands[..i])
    ensures Running(commands).states[|commands|] == After(commands)
  {
    hide Step;
    var r := Running(commands);
    assert commands[..|commands|] == commands;
    forall i | 0 <= i < |commands| ensures r.states[i + 1] == Step(r.states[i], r.commands[i]).0 {
      AfterNext(commands[..i], commands[i]);
      assert commands[..i] + [commands[i]] == commands[..i + 1];
    }
  }

  lemma AfterNext(commands: seq<Command>, c: Command)
    ensures After(commands + [c]) == Step(After(commands), c).0
  {
    hide Step;
    assert (commands + [c])[..|commands|] == commands;
  }
}
