/** The book sequence and the session generation as fences, and the receipt of the two-phase native client. */
module Sequencing {
  import opened Options
  import opened Amounts
  import opened RiskKeys
  import opened Governance
  import opened GovernanceStore
  import opened RiskBook
  import opened Conservation
  import opened Progress
  import opened Commands
  import opened Posting
  import opened Installation
  import opened Runs
  import opened RunTheorems
  import opened Fences

  // ---------- the sequence ----------

  /** A book that cannot be read is never written again. */
  lemma UnreadableIsFrozen(s: State, c: Command)
    requires s.book.meta.Some? && !Readable(s.book) && s.access.policy.Some?
    ensures Step(s, c).0.book == s.book
  {
    hide ReserveArguments, PostArguments, UnsentArguments, Hex, ValidMeta, ValidPolicy, Authoritative, Projected, CensusRisk, Mutate, Installable, CampaignWellFormed, Units;
  }

  /** The sequence stands still over a step only when the substance of the book does. */
  lemma StepSequence(s: State, c: Command)
    requires Inv(s) && s.book.meta.Some?
    ensures var t := Step(s, c).0;
            && t.book.meta.Some?
            && s.book.meta.value.sequence <= t.book.meta.value.sequence
            && (s.book.meta.value.sequence == t.book.meta.value.sequence ==> Substance(s.book) == Substance(t.book))
  {
    hide Step, Inv, Sound, ValidMeta, Paired, EntriesLater, FencesKept, PolicyLater, Substance;
    StepInv(s, c);
    InvParts(s);
    if Readable(s.book) {
      ReadableRoom(s.book);
    } else {
      UnreadableIsFrozen(s, c);
    }
  }

  /** In every run the sequence never falls, and two states of one sequence have the same entries, occupancy, losses, limit and fences. */
  lemma {:induction false} SequenceFences(r: Run, i: nat, j: nat)
    requires IsRun(r) && i <= j < |r.states| && r.states[i].book.meta.Some?
    ensures r.states[j].book.meta.Some?
    ensures r.states[i].book.meta.value.sequence <= r.states[j].book.meta.value.sequence
    ensures r.states[i].book.meta.value.sequence == r.states[j].book.meta.value.sequence ==> Substance(r.states[i].book) == Substance(r.states[j].book)
    decreases j - i
  {
    hide Step, Inv, Substance;
    if i < j {
      SequenceFences(r, i, j - 1);
      RunInv(r, j - 1);
      RunStep(r, j - 1);
      StepSequence(r.states[j - 1], r.commands[j - 1]);
    }
  }

  // ---------- the session ----------

  /** The session generation a ledger command speaks for; 0 when it shows none. */
  function SessionOf(c: Command): int {
    match c
    case ReserveRisk(_, _, _, _, native) => if native.Some? then native.value.generation else 0
    case BeginRiskPost(_, _, _, _, post) => if post.Some? then post.value.generation else 0
    case ResolveRisk(_, _, _, _, session, _, _) => session
    case ReleaseUnsentRisk(_, _, _, session, _) => session
    case _ => 0
  }

  /** A ledger command of any session but the current one changes nothing at all. */
  lemma StaleSession(r: Run, i: nat)
    requires IsRun(r) && i < |r.commands| && IsRisk(r.commands[i])
    requires |r.states| > i && SessionOf(r.commands[i]) != r.states[i].generation
    ensures |r.states| > i + 1 && r.states[i + 1] == r.states[i]
  {
    hide Sound, Forward, Reserve, BeginPost, Resolve, ReleaseUnsent, Paired, IsRun, Registered, HeldMeaning, PostMeaning, Overflows, Inv, ResolveAnswer, Retired;
    RunStep(r, i);
    RunInv(r, i);
    var s, c := r.states[i], r.commands[i];
    InvParts(s);
    RegisteredAt(s);
    match c {
      case ReserveRisk(policy, census, order, now, native) =>
        ReserveSafe(s.book, s.access.policy, s.generation, policy, census, order, now, native);
      case BeginRiskPost(key, plan, revision, digest, post) =>
        BeginPostSafe(s.book, s.access.policy, s.generation, key, plan, revision, digest, post);
      case ResolveRisk(key, plan, to, digest, session, expected, terminal) =>
        ResolveSafe(s.book, s.access.policy, s.generation, key, plan, to, digest, session, expected, terminal);
      case ReleaseUnsentRisk(key, plan, expected, session, proof) =>
        ReleaseUnsentSafe(s.book, s.access.policy, s.generation, key, plan, expected, session, proof);
    }
  }

  // ---------- hold, then post ----------

  /** A held reply at `i` and a post of the same key at `j` that expects the held reply's sequence. */
  ghost predicate HoldThenPost(r: Run, i: nat, j: nat) {
    && IsRun(r) && i < j < |r.commands|
    && r.commands[i].ReserveRisk? && OutputAt(r, i).Risk? && OutputAt(r, i).reply.HeldReply?
    && r.commands[j].BeginRiskPost? && OutputAt(r, j).Risk? && OutputAt(r, j).reply.PostAuthorized?
    && r.commands[j].key == OutputAt(r, i).reply.entry.key
    && r.commands[j].post.Some? && r.commands[j].post.value.expected == OutputAt(r, i).reply.sequence
  }

  lemma HeldSequence(r: Run, i: nat)
    requires IsRun(r) && i < |r.commands| && r.commands[i].ReserveRisk?
    requires OutputAt(r, i).Risk? && OutputAt(r, i).reply.HeldReply?
    ensures |r.states| == |r.commands| + 1 && r.states[i + 1].book.meta.Some?
    ensures r.states[i + 1].book.meta.value.sequence == OutputAt(r, i).reply.sequence
  {
    hide RiskOutcome, Inv, Step, IsRun, Created, Authoritative, ValidPolicy, KeyOf, NewEntry;
    HeldAt(r, i);
  }

  lemma PostSequence(r: Run, j: nat)
    requires IsRun(r) && j < |r.commands| && r.commands[j].BeginRiskPost?
    requires OutputAt(r, j).Risk? && OutputAt(r, j).reply.PostAuthorized?
    ensures r.commands[j].post.Some? && |r.states| == |r.commands| + 1
    ensures r.states[j].book.meta.Some? && r.states[j + 1].book.meta.Some?
    ensures var b, c, expected := r.states[j].book, r.states[j + 1].book, r.commands[j].post.value.expected;
            && c.meta.value.sequence == OutputAt(r, j).reply.bookSequence == NextSequence(expected)
            && (if c.meta.value.consumedUsd == b.meta.value.consumedUsd
                then b.meta.value.sequence == expected && c.losses == b.losses
                else NextSequence(b.meta.value.sequence) == expected)
    ensures r.states[j].book.meta.value.sequence <= MAX_SAFE
  {
    hide RiskOutcome, Inv, Step, IsRun, PostCapsHold, ValidPolicy, Projected, Grants, NextSequence;
    PostedAt(r, j);
    PostedReadable(r, j);
  }

  /** A post is authorized only from a book that can be read. */
  lemma PostedReadable(r: Run, j: nat)
    requires IsRun(r) && j < |r.commands| && r.commands[j].BeginRiskPost?
    requires OutputAt(r, j).Risk? && OutputAt(r, j).reply.PostAuthorized?
    ensures |r.states| == |r.commands| + 1 && r.states[j].book.meta.Some? && r.states[j].book.meta.value.sequence <= MAX_SAFE
  {
    hide RiskOutcome, Step, IsRun, PostCapsHold, ValidPolicy, Projected, Grants, NextSequence, Sound, ValidMeta, Paired;
    PostedAt(r, j);
    var s, c := r.states[j], r.commands[j];
    InvParts(s);
    PostNeedsReadable(s, c);
    ReadableRoom(s.book);
  }

  lemma PostNeedsReadable(s: State, c: Command)
    requires c.BeginRiskPost? && RiskOutcome(s, c).reply.PostAuthorized?
    ensures Readable(s.book)
  {
    hide PostArguments, ValidPolicy, Projected, CensusRisk, ValidMeta, ChargeCensus, PostCharged;
  }

  /** Between a held reply and the post that expects its sequence, nothing reserves, releases, records a loss, lowers the limit or
      fences; nor does the post itself record a loss. */
  lemma ReceiptFences(r: Run, i: nat, j: nat)
    requires HoldThenPost(r, i, j)
    ensures |r.states| == |r.commands| + 1
    ensures forall k :: i < k <= j ==> Substance(r.states[k].book) == Substance(r.states[i + 1].book)
    ensures r.states[j + 1].book.losses == r.states[i + 1].book.losses
    ensures OutputAt(r, j).reply.bookSequence > OutputAt(r, i).reply.sequence
  {
    hide Step, IsRun, Substance;
    HeldSequence(r, i);
    PostSequence(r, j);
    SequenceFences(r, i + 1, j);
    forall k | i < k <= j ensures Substance(r.states[k].book) == Substance(r.states[i + 1].book) {
      SequenceFences(r, i + 1, k);
      SequenceFences(r, k, j);
    }
    SubstanceLosses(r.states[i + 1].book, r.states[j].book);
  }

  lemma SubstanceLosses(b: Book, c: Book)
    requires b.meta.Some? && c.meta.Some? && Substance(b) == Substance(c)
    ensures b.losses == c.losses
  {
  }
}
