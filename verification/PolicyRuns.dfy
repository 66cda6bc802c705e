/** In every run: caps at every hold and post, one outcome per governance key, accounts for good, a campaign limit that only falls. */
module PolicyRuns {
  import opened Options
  import opened Amounts
  import opened RiskKeys
  import opened Governance
  import opened Sums
  import opened GovernanceStore
  import opened RiskBook
  import opened Conservation
  import opened Progress
  import opened Commands
  import opened Posting
  import opened Installation
  import opened Runs
  import opened RunTheorems

  // ---------- caps ----------

  /** Under the stored policy, every account and all of them together stay within their caps: the census's occupancy plus the book's. */
  ghost predicate RespectsCaps(p: Policy, c: Census, b: Book) {
    && Projected(p).Some? && b.meta.Some?
    && WithinCaps(External(c.rows), b.meta.value.accounts, Projected(p).value)
  }

  lemma CreatedRespects(b: Book, p: Policy, policy: RiskPolicy, c: Census, o: Order, now: int, out: Outcome)
    requires HeldMeaning(b, p, policy, c, o, now, out) && KeyOf(o) !in b.entries
    ensures RespectsCaps(p, c, out.book)
    ensures out.book.meta.value.consumedUsd + out.book.meta.value.occupiedUsd <= out.book.meta.value.campaignUsd
    ensures exists account :: AccountAllows(p, account, out.book, o)
  {
    hide ValidPolicy, Projected, AccountAllows, KeyOf, NewEntry, Overlay, Sum, Units, External;
    assert forall a :: LimitOf(policy, a) == LimitOf(Projected(p).value, a);
  }

  /** A newly created hold leaves every account cap, the global cap, the campaign, and its own order and strategy caps respected. */
  lemma HeldWithinCaps(r: Run, i: nat)
    requires IsRun(r) && i < |r.commands| < |r.states| && r.commands[i].ReserveRisk?
    requires OutputAt(r, i).Risk? && OutputAt(r, i).reply.HeldReply? && KeyOf(r.commands[i].order) !in r.states[i].book.entries
    ensures r.states[i].access.policy.Some? && r.states[i + 1].book.meta.Some?
    ensures var p, c, b := r.states[i].access.policy.value, r.commands[i], r.states[i + 1].book;
            && RespectsCaps(p, c.census, b)
            && b.meta.value.consumedUsd + b.meta.value.occupiedUsd <= b.meta.value.campaignUsd
            && exists account :: AccountAllows(p, account, b, c.order)
  {
    hide Step, RiskOutcome, IsRun, Inv, HeldMeaning, KeyOf, RespectsCaps, AccountAllows;
    HeldAt(r, i);
    var s, c := r.states[i], r.commands[i];
    CreatedRespects(s.book, s.access.policy.value, c.policy, c.census, c.order, c.now, RiskOutcome(s, c));
    HasMeta(s.access.policy.value, c.census, r.states[i + 1].book);
  }

  lemma HasMeta(p: Policy, c: Census, b: Book)
    requires RespectsCaps(p, c, b)
    ensures b.meta.Some?
  {
    hide WithinCaps;
  }

  /** An authorized post finds every cap respected, and reports exactly the checked total less its own loss. */
  lemma PostWithinCaps(r: Run, j: nat)
    requires IsRun(r) && j < |r.commands| < |r.states| && r.commands[j].BeginRiskPost?
    requires OutputAt(r, j).Risk? && OutputAt(r, j).reply.PostAuthorized?
    ensures r.states[j].access.policy.Some? && r.states[j + 1].book.meta.Some? && r.commands[j].post.Some?
    ensures var p, c, b := r.states[j].access.policy.value, r.commands[j], r.states[j + 1].book;
            && RespectsCaps(p, c.post.value.census, b)
            && c.key in r.states[j].book.entries
            && OutputAt(r, j).reply.existing + Usdt(r.states[j].book.entries[c.key]) == Sum(Overlay(External(c.post.value.census.rows), b.meta.value.accounts))
  {
    hide Step, RiskOutcome, IsRun, Inv, PostMeaning, Sum, Overlay, External, Usdt, RespectsCaps;
    PostedAt(r, j);
    var s, c := r.states[j], r.commands[j];
    PostRespects(s.book, s.access.policy.value, c.key, c.plan, c.revision, c.post.value, RiskOutcome(s, c));
    HasMeta(s.access.policy.value, c.post.value.census, r.states[j + 1].book);
  }

  lemma PostRespects(b: Book, p: Policy, key: string, plan: string, revision: int, n: PostProof, out: Outcome)
    requires PostMeaning(b, p, key, plan, revision, n, out)
    ensures b.meta.Some? && key in b.entries && out.reply.PostAuthorized? && RespectsCaps(p, n.census, out.book)
    ensures out.reply.existing + Usdt(b.entries[key]) == Sum(Overlay(External(n.census.rows), out.book.meta.value.accounts))
  {
    hide ValidPolicy, Projected, Grants, NextSequence, WithinCaps, Sum, Overlay, External, Usdt;
  }

  // ---------- one outcome per governance key ----------

  /** Every receipt is of a well-formed request under its own key. */
  ghost predicate LawfulReceipts(s: State) {
    forall k :: k in s.access.operations ==>
      var q := s.access.operations[k].body;
      q.key == k && Malformed(q).None? && Token(k)
  }

  ghost predicate ReceiptsKept(s: State, t: State) {
    forall k :: k in s.access.operations ==> k in t.access.operations && t.access.operations[k] == s.access.operations[k]
  }

  lemma StepReceipts(s: State, c: Command)
    requires LawfulReceipts(s)
    ensures LawfulReceipts(Step(s, c).0) && ReceiptsKept(s, Step(s, c).0)
  {
    hide RiskOutcome, Installable, CampaignWellFormed, ValidPolicy, ChangeOf, LowerRiskBookLimit, Malformed, Token, Units;
  }

  lemma {:induction false} RunReceipts(r: Run, i: nat, j: nat)
    requires IsRun(r) && i <= j < |r.states|
    ensures LawfulReceipts(r.states[j]) && ReceiptsKept(r.states[i], r.states[j])
    decreases j
  {
    hide Step, Malformed, Token;
    if j > 0 {
      var k := if i == j then i - 1 else i;
      RunReceipts(r, k, j - 1);
      RunStep(r, j - 1);
      StepReceipts(r.states[j - 1], r.commands[j - 1]);
    }
  }

  /** What a step answers under a key that already has a receipt: the recorded outcome, or a conflict, and no change of state. */
  lemma ReplayedRequest(s: State, q: Request)
    requires LawfulReceipts(s) && q.key in s.access.operations
    ensures Step(s, Govern(q)).0 == s
    ensures var receipt := s.access.operations[q.key];
            Step(s, Govern(q)).1 ==
              if q == receipt.body then Governed(receipt.answer)
              else Governed(Failed(Malformed(q).GetOr(Failure.IdempotencyConflict)))
  {
    hide RiskOutcome, InstallStep, CampaignStep, Malformed, Token, ChangeOf, ValidPolicy;
  }

  /** A receipt records the request it was made for and the answer given. */
  lemma FirstReceipt(s: State, q: Request)
    requires q.key !in s.access.operations && q.key in Step(s, Govern(q)).0.access.operations
    ensures Step(s, Govern(q)).1 == Governed(Step(s, Govern(q)).0.access.operations[q.key].answer)
    ensures Step(s, Govern(q)).0.access.operations[q.key].body == q
  {
    hide RiskOutcome, InstallStep, CampaignStep, Malformed, Token, ChangeOf, ValidPolicy;
  }

  /** Once a governance request has been receipted, its key has that one outcome for ever: repeating the request repeats the
      answer, any other request under the key is refused, and neither changes anything. */
  lemma OneOutcome(r: Run, i: nat, j: nat)
    requires IsRun(r) && i < j < |r.commands| < |r.states| && r.commands[i].Govern? && r.commands[j].Govern?
    requires r.commands[i].request.key == r.commands[j].request.key
    requires r.commands[i].request.key !in r.states[i].access.operations && r.commands[i].request.key in r.states[i + 1].access.operations
    ensures r.states[j + 1] == r.states[j]
    ensures r.commands[j].request == r.commands[i].request ==> OutputAt(r, j) == OutputAt(r, i)
    ensures r.commands[j].request != r.commands[i].request ==> OutputAt(r, j).Governed? && OutputAt(r, j).answer.Failed?
  {
    hide Step, Malformed, LawfulReceipts, IsRun;
    var q := r.commands[i].request;
    RunStep(r, i);
    RunStep(r, j);
    FirstReceipt(r.states[i], q);
    RunReceipts(r, i + 1, j);
    ReplayedRequest(r.states[j], r.commands[j].request);
  }

  // ---------- campaign operations ----------

  ghost predicate LawfulCampaigns(s: State) {
    forall k :: k in s.campaignOperations ==> s.campaignOperations[k].body.key == k && CampaignWellFormed(s.campaignOperations[k].body)
  }

  ghost predicate CampaignsKept(s: State, t: State) {
    forall k :: k in s.campaignOperations ==> k in t.campaignOperations && t.campaignOperations[k] == s.campaignOperations[k]
  }

  lemma StepCampaigns(s: State, c: Command)
    requires LawfulCampaigns(s)
    ensures LawfulCampaigns(Step(s, c).0) && CampaignsKept(s, Step(s, c).0)
  {
    hide RiskOutcome, Installable, CampaignWellFormed, ValidPolicy, Mutate, LowerRiskBookLimit, Units;
  }

  lemma {:induction false} RunCampaigns(r: Run, i: nat, j: nat)
    requires IsRun(r) && i <= j < |r.states|
    ensures LawfulCampaigns(r.states[j]) && CampaignsKept(r.states[i], r.states[j])
    decreases j
  {
    hide Step, CampaignWellFormed;
    if j > 0 {
      var k := if i == j then i - 1 else i;
      RunCampaigns(r, k, j - 1);
      RunStep(r, j - 1);
      StepCampaigns(r.states[j - 1], r.commands[j - 1]);
    }
  }

  lemma ReplayedCampaign(s: State, q: CampaignBody)
    requires LawfulCampaigns(s) && q.key in s.campaignOperations
    ensures Step(s, LowerCampaign(q)).0 == s
    ensures var receipt := s.campaignOperations[q.key];
            Step(s, LowerCampaign(q)).1 ==
              if q == receipt.body then Governed(receipt.answer)
              else Governed(Failed(if CampaignWellFormed(q) then Failure.IdempotencyConflict else InvalidCampaignRequest))
  {
    hide RiskOutcome, InstallStep, Mutate, CampaignWellFormed, ValidPolicy, LowerRiskBookLimit, Units;
  }

  lemma FirstCampaign(s: State, q: CampaignBody)
    requires q.key !in s.campaignOperations && q.key in Step(s, LowerCampaign(q)).0.campaignOperations
    ensures Step(s, LowerCampaign(q)).1 == Governed(Step(s, LowerCampaign(q)).0.campaignOperations[q.key].answer)
    ensures Step(s, LowerCampaign(q)).0.campaignOperations[q.key].body == q
  {
    hide RiskOutcome, InstallStep, Mutate, CampaignWellFormed, ValidPolicy, LowerRiskBookLimit, Units;
  }

  /** The same for a lowering of the campaign limit: a repeat lowers nothing. */
  lemma OneLowering(r: Run, i: nat, j: nat)
    requires IsRun(r) && i < j < |r.commands| < |r.states| && r.commands[i].LowerCampaign? && r.commands[j].LowerCampaign?
    requires r.commands[i].campaign.key == r.commands[j].campaign.key
    requires r.commands[i].campaign.key !in r.states[i].campaignOperations && r.commands[i].campaign.key in r.states[i + 1].campaignOperations
    ensures r.states[j + 1] == r.states[j]
    ensures r.commands[j].campaign == r.commands[i].campaign ==> OutputAt(r, j) == OutputAt(r, i)
    ensures r.commands[j].campaign != r.commands[i].campaign ==> OutputAt(r, j).Governed? && OutputAt(r, j).answer.Failed?
  {
    hide Step, CampaignWellFormed, LawfulCampaigns, IsRun;
    var q := r.commands[i].campaign;
    RunStep(r, i);
    RunStep(r, j);
    FirstCampaign(r.states[i], q);
    RunCampaigns(r, i + 1, j);
    ReplayedCampaign(r.states[j], r.commands[j].campaign);
  }

  // ---------- accounts and the campaign limit ----------

  lemma PairedLimit(p: Policy, b: Book)
    requires Paired(p, b) && Sound(b)
    ensures ValidPolicy(p) && b.meta.Some? && Units(p.campaignLimit) == Some(b.meta.value.campaignUsd) && b.meta.value.campaignUsd <= INITIAL_CAMPAIGN
  {
    hide ValidPolicy, Units, AllVerified, Registered, EntriesCurrent, Balanced, EntriesSound;
    SoundParts(b);
  }

  /** Every stored policy is valid, names the book's own campaign limit, and that limit never rises above "10" nor at all. */
  lemma CampaignOnlyFalls(r: Run, i: nat, j: nat)
    requires IsRun(r) && i <= j < |r.states| && r.states[i].access.policy.Some?
    ensures r.states[j].access.policy.Some? && r.states[i].book.meta.Some? && r.states[j].book.meta.Some?
    ensures var p, q, before, after := r.states[i].access.policy.value, r.states[j].access.policy.value,
                                       r.states[i].book.meta.value.campaignUsd, r.states[j].book.meta.value.campaignUsd;
            && ValidPolicy(p) && ValidPolicy(q)
            && Units(p.campaignLimit) == Some(before) && Units(q.campaignLimit) == Some(after)
            && after <= before <= INITIAL_CAMPAIGN
  {
    hide Inv, Step, IsRun, Sound, Paired, ValidPolicy, Units, Identities, EntriesLater, FencesKept, Sequenced;
    RunInv(r, i);
    RunInv(r, j);
    InvParts(r.states[i]);
    InvParts(r.states[j]);
    RunLater(r, i, j);
    PairedLimit(r.states[i].access.policy.value, r.states[i].book);
    PairedLimit(r.states[j].access.policy.value, r.states[j].book);
  }

  /** No account is ever removed, and its id, venue, environment, uid, key and verification never change. */
  lemma AccountsAreForGood(r: Run, i: nat, j: nat, a: Account)
    requires IsRun(r) && i <= j < |r.states| && r.states[i].access.policy.Some? && a in r.states[i].access.policy.value.accounts
    ensures r.states[j].access.policy.Some?
    ensures exists b :: b in r.states[j].access.policy.value.accounts && IdentityOf(b) == IdentityOf(a)
  {
    hide Step, IsRun, Forward, IdentityOf;
    RunLater(r, i, j);
    assert IdentityOf(a) in Identities(r.states[i].access.policy.value);
    assert IdentityOf(a) in Identities(r.states[j].access.policy.value);
  }
}
