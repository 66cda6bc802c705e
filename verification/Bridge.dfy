/** The native two-phase client of the ledger, over a worker that serves other callers before, between and after its two requests. */
module Bridge {
  import opened Options
  import opened Amounts
  import opened RiskKeys
  import opened Governance
  import opened Sums
  import opened GovernanceStore
  import opened RiskBook
  import opened Conservation
  import opened Progress
  import opened Commands
  import opened Posting
  import opened Installation
  import opened Runs
  import opened RunTheorems
  import opened Fences
  import opened Sequencing
  import opened Storage

  // ---------- the two requests ----------

  datatype Ask =
    | AskReserve(order: Order, census: Census)
    | AskPost(key: string, plan: string, revision: int, digest: string, expected: int, census: Census, causal: CausalProof)

  /** What the worker adds to a request: its session, its clock, and the policy it projected beforehand. */
  datatype Context = Context(generation: int, now: int, policy: RiskPolicy)

  function CommandOf(ask: Ask, x: Context): Command {
    match ask
    case AskReserve(order, census) =>
      ReserveRisk(x.policy, census, order, x.now, Some(Evidence(x.generation, census.digest, true, true, true)))
    case AskPost(key, plan, revision, digest, expected, census, causal) =>
      BeginRiskPost(key, plan, revision, digest,
        Some(PostProof(x.generation, expected, census, Evidence(x.generation, census.digest, true, true, true), x.now, causal)))
  }

  datatype Answered =
    | HeldAnswer(key: string, sequence: int, revision: int)
    | AuthorizedAnswer(key: string, sequence: int, revision: int, existing: nat)
    | Refusal

  function AnswerOf(ask: Ask, out: Output): Answered {
    if !out.Risk? then Refusal
    else
      match out.reply
      case HeldReply(entry, sequence, _) => HeldAnswer(entry.key, sequence, entry.order.revision)
      case PostAuthorized(sequence, existing) => if ask.AskPost? then AuthorizedAnswer(ask.key, sequence, ask.revision, existing) else Refusal
      case _ => Refusal
  }

  datatype Problem =
    | InvalidCommand | TransportUnavailable | OutcomeUnknown | TransportLost | IdentityMismatch | ReserveCommandRequired | NotHeld | NoFreshPost | NotFresh
    | NotAuthorized

  /** The request was served as the `at`-th command of the run. */
  ghost predicate ServedAt(r: Run, ask: Ask, x: Context, at: nat) {
    at < |r.commands| < |r.states| && r.commands[at] == CommandOf(ask, x)
  }

  /** The end of the wait for an answer: it comes, five seconds pass, or whoever should answer is gone. */
  datatype Wait = InTime | TimedOut | Dropped

  /** What happens to one request: others are served before and after it; the client may find its form wrong, it may not be taken, be refused
      before it reaches the ledger, or served; the answer may stay out or be given up, or be malformed or another request's. */
  datatype Fate = Fate(
    before: seq<Command>, wellFormed: bool, delivered: bool, refused: bool, context: Context, after: seq<Command>, wait: Wait, matching: bool)
  {
    /** An answer of its own comes back. */
    predicate Comes() {
      wellFormed && delivered && wait.InTime? && matching
    }
  }

  /** How a request without an answer of its own fails. */
  function LostAs(fate: Fate): Problem {
    if !fate.wellFormed then InvalidCommand else if !fate.delivered then TransportUnavailable
    else if fate.wait.TimedOut? then OutcomeUnknown else if fate.wait.Dropped? then TransportLost else IdentityMismatch
  }

  // ---------- the worker ----------

  ghost predicate Extends(r: Run, q: Run) {
    r.states <= q.states && r.commands <= q.commands
  }

  lemma ExtendRun(r: Run, c: Command)
    requires IsRun(r)
    ensures |r.states| > 0
    ensures IsRun(Run(r.states + [Step(r.states[|r.states| - 1], c).0], r.commands + [c]))
  {
    hide Step;
  }

  lemma OutputKept(r: Run, q: Run, i: nat)
    requires IsRun(r) && Extends(r, q) && i < |r.commands| <= |q.commands| <= |q.states|
    ensures q.commands[i] == r.commands[i] && |r.commands| < |r.states| && OutputAt(q, i) == OutputAt(r, i)
  {
    hide Step;
  }

  /** The durable storage, with the run it has been through. */
  class Worker {
    const storage: DurableStorage
    ghost var run: Run

    ghost predicate Valid()
      reads this, storage
    {
      IsRun(run) && storage.Stored() == run.states[|run.states| - 1]
    }

    constructor ()
      ensures Valid() && fresh(storage)
    {
      storage := new DurableStorage();
      run := Run([EMPTY], []);
    }

    method Serve(c: Command) returns (out: Output)
      requires Valid()
      modifies this, storage
      ensures Valid() && Extends(old(run), run)
      ensures run.commands == old(run).commands + [c] && |run.states| == |run.commands| + 1
      ensures out == OutputAt(run, |run.commands| - 1)
    {
      hide Step;
      ghost var before := storage.Stored();
      ExtendRun(run, c);
      out := storage.Handle(c);
      run := Run(run.states + [Step(before, c).0], run.commands + [c]);
    }

    method ServeAll(commands: seq<Command>)
      requires Valid()
      modifies this, storage
      ensures Valid() && Extends(old(run), run)
    {
      hide IsRun;
      for n := 0 to |commands|
        invariant Valid() && Extends(old(run), run)
      {
        var out := Serve(commands[n]);
      }
    }

    /** One request and its fate. An answer is the worker's own, for the step at which the request was served. */
    method Request(ask: Ask, fate: Fate) returns (result: Result<Answered, Problem>, ghost at: nat)
      requires Valid()
      modifies this, storage
      ensures Valid() && Extends(old(run), run)
      ensures result.Err? ==> result.error == LostAs(fate)
      ensures result.Ok? <==> fate.Comes()
      ensures fate.Comes() && fate.refused ==> result == Ok(Refusal)
      ensures fate.wellFormed && fate.delivered && !fate.refused ==>
                |old(run).commands| <= at < |run.commands| && ServedAt(run, ask, fate.context, at)
      ensures fate.Comes() && !fate.refused ==> result == Ok(AnswerOf(ask, OutputAt(run, at)))
    {
      hide IsRun, Step, AnswerOf, CommandOf;
      at := 0;
      if !fate.wellFormed {
        return Err(InvalidCommand), at;
      }
      ServeAll(fate.before);
      if !fate.delivered {
        return Err(TransportUnavailable), at;
      }
      var answer := Refusal;
      if !fate.refused {
        at := |run.commands|;
        var out := Serve(CommandOf(ask, fate.context));
        answer := AnswerOf(ask, out);
      }
      ghost var served := run;
      ServedRun();
      ServeAll(fate.after);
      ServedRun();
      if !fate.refused {
        OutputKept(served, run, at);
      }
      result := if fate.wait.TimedOut? then Err(OutcomeUnknown) else if fate.wait.Dropped? then Err(TransportLost) else if !fate.matching then Err(IdentityMismatch) else Ok(answer);
    }

    lemma ServedRun()
      requires Valid()
      ensures IsRun(run) && |run.states| == |run.commands| + 1
    {
      hide Step;
      RunLength(run);
    }

    /** Reserve, then fence: a receipt names a hold and a later post of this run between which the ledger stood still. */
    method ReserveThenFence(reserve: Ask, supply: Answered -> Option<Ask>, first: Fate, second: Fate)
      returns (result: Result<Answered, Problem>, ghost i: nat, ghost j: nat)
      requires Valid()
      modifies this, storage
      ensures Valid() && Extends(old(run), run)
      ensures result.Ok? ==> reserve.AskReserve? && ReceiptFor(run, reserve, result.value, i, j) && |old(run).commands| <= i
      ensures result.Err? ==> Explained(run, reserve, supply, first, second, result.error, i, j)
    {
      hide IsRun, Step, AnswerOf, CommandOf, ServedAt, HeldAtStep, Explained, LostAs, Authorizes, FreshPost;
      i, j := 0, 0;
      NoReserve(run, reserve, supply, first, second, i, j);
      if !reserve.AskReserve? {
        return Err(ReserveCommandRequired), i, j;
      }
      var answer, at := Request(reserve, first);
      if answer.Err? {
        FirstLost(run, reserve, supply, first, second, i, j);
        return Err(answer.error), i, j;
      }
      i := at;
      var held := answer.value;
      FirstAnswered(run, reserve, supply, first, second, held, i, j);
      if !HoldsFor(reserve, held) {
        return Err(NotHeld), i, j;
      }
      ghost var once := run;
      ServedRun();
      var post := supply(held);
      PostSupplied(run, reserve, supply, first, second, held, i, j);
      if post.None? {
        return Err(NoFreshPost), i, j;
      }
      if !FreshPost(reserve, held, post.value) {
        return Err(NotFresh), i, j;
      }
      FreshFacts(reserve, held, post.value);
      var reply, later := Request(post.value, second);
      ServedRun();
      HeldKept(once, run, reserve, first, i);
      HeldServed(run, reserve, first, i);
      if reply.Err? {
        SecondLost(run, reserve, supply, first, second, i, j);
        return Err(reply.error), i, j;
      }
      j := later;
      var authorized := reply.value;
      SecondAnswered(run, reserve, supply, first, second, held, post.value, authorized, i, j);
      if !Authorizes(held, authorized) {
        return Err(NotAuthorized), i, j;
      }
      Receipted(run, reserve, held, post.value, authorized, first.context, second.context, i, j);
      result := Ok(authorized);
    }
  }

  /** The answer to a reservation that is worth following up. */
  predicate HoldsFor(reserve: Ask, held: Answered) {
    reserve.AskReserve? && held.HeldAnswer? && held.revision == reserve.order.revision && |held.key| > 0
  }

  /** The post a receipt needs: for the held reservation, at its very sequence, on a census read anew since. */
  predicate FreshPost(reserve: Ask, held: Answered, post: Ask)
    requires reserve.AskReserve? && held.HeldAnswer?
  {
    && post.AskPost?
    && post.key == held.key && post.plan == reserve.order.plan && post.revision == reserve.order.revision && post.expected == held.sequence
    && post.census.generatedAt > reserve.census.generatedAt
    && post.census.floor > reserve.census.floor
    && post.census.digest != reserve.census.digest
  }

  lemma FreshFacts(reserve: Ask, held: Answered, post: Ask)
    requires reserve.AskReserve? && held.HeldAnswer? && FreshPost(reserve, held, post)
    ensures post.AskPost? && post.key == held.key && post.expected == held.sequence
    ensures post.census.floor > reserve.census.floor && post.census.digest != reserve.census.digest
  {
  }

  predicate Authorizes(held: Answered, authorized: Answered)
    requires held.HeldAnswer?
  {
    authorized.AuthorizedAnswer? && authorized.key == held.key && authorized.revision == held.revision && authorized.sequence > held.sequence
  }

  /** The hold was served and answered as the `i`-th command. */
  ghost predicate HeldAtStep(r: Run, reserve: Ask, first: Fate, i: nat) {
    && first.Comes() && !first.refused && ServedAt(r, reserve, first.context, i)
    && HoldsFor(reserve, AnswerOf(reserve, OutputAt(r, i)))
  }

  /** Why no receipt was given: each failure has its one cause. */
  ghost predicate Explained(r: Run, reserve: Ask, supply: Answered -> Option<Ask>, first: Fate, second: Fate, problem: Problem, i: nat, j: nat) {
    match problem
    case ReserveCommandRequired => !reserve.AskReserve?
    case InvalidCommand | TransportUnavailable | OutcomeUnknown | TransportLost | IdentityMismatch =>
      && reserve.AskReserve?
      && ((!first.Comes() && problem == LostAs(first)) || (HeldAtStep(r, reserve, first, i) && !second.Comes() && problem == LostAs(second)))
    case NotHeld =>
      reserve.AskReserve? && first.Comes() &&
      (first.refused || (ServedAt(r, reserve, first.context, i) && !HoldsFor(reserve, AnswerOf(reserve, OutputAt(r, i)))))
    case NoFreshPost => HeldAtStep(r, reserve, first, i) && supply(AnswerOf(reserve, OutputAt(r, i))).None?
    case NotFresh =>
      && HeldAtStep(r, reserve, first, i) && supply(AnswerOf(reserve, OutputAt(r, i))).Some?
      && !FreshPost(reserve, AnswerOf(reserve, OutputAt(r, i)), supply(AnswerOf(reserve, OutputAt(r, i))).value)
    case NotAuthorized =>
      && HeldAtStep(r, reserve, first, i) && supply(AnswerOf(reserve, OutputAt(r, i))).Some?
      && var post := supply(AnswerOf(reserve, OutputAt(r, i))).value;
         second.Comes() && (second.refused || (ServedAt(r, post, second.context, j) && !Authorizes(AnswerOf(reserve, OutputAt(r, i)), AnswerOf(post, OutputAt(r, j)))))
  }

  lemma NoReserve(r: Run, reserve: Ask, supply: Answered -> Option<Ask>, first: Fate, second: Fate, i: nat, j: nat)
    ensures !reserve.AskReserve? ==> Explained(r, reserve, supply, first, second, ReserveCommandRequired, i, j)
  {
  }

  lemma FirstLost(r: Run, reserve: Ask, supply: Answered -> Option<Ask>, first: Fate, second: Fate, i: nat, j: nat)
    requires reserve.AskReserve? && !first.Comes()
    ensures Explained(r, reserve, supply, first, second, LostAs(first), i, j)
  {
  }

  lemma FirstAnswered(r: Run, reserve: Ask, supply: Answered -> Option<Ask>, first: Fate, second: Fate, held: Answered, i: nat, j: nat)
    requires reserve.AskReserve? && first.Comes() && (first.refused ==> held == Refusal)
    requires !first.refused ==> ServedAt(r, reserve, first.context, i) && held == AnswerOf(reserve, OutputAt(r, i))
    ensures if HoldsFor(reserve, held) then HeldAtStep(r, reserve, first, i) && held == AnswerOf(reserve, OutputAt(r, i))
            else Explained(r, reserve, supply, first, second, NotHeld, i, j)
  {
    hide AnswerOf, Step, CommandOf;
  }

  lemma PostSupplied(r: Run, reserve: Ask, supply: Answered -> Option<Ask>, first: Fate, second: Fate, held: Answered, i: nat, j: nat)
    requires HeldAtStep(r, reserve, first, i) && held == AnswerOf(reserve, OutputAt(r, i)) && HoldsFor(reserve, held)
    ensures supply(held).None? ==> Explained(r, reserve, supply, first, second, NoFreshPost, i, j)
    ensures supply(held).Some? && !FreshPost(reserve, held, supply(held).value) ==> Explained(r, reserve, supply, first, second, NotFresh, i, j)
  {
    hide AnswerOf, Step, CommandOf, FreshPost;
  }

  lemma SecondLost(r: Run, reserve: Ask, supply: Answered -> Option<Ask>, first: Fate, second: Fate, i: nat, j: nat)
    requires HeldAtStep(r, reserve, first, i) && !second.Comes()
    ensures Explained(r, reserve, supply, first, second, LostAs(second), i, j)
  {
    hide AnswerOf, Step, CommandOf;
  }

  lemma SecondAnswered(r: Run, reserve: Ask, supply: Answered -> Option<Ask>, first: Fate, second: Fate, held: Answered, post: Ask, authorized: Answered,
                       i: nat, j: nat)
    requires HeldAtStep(r, reserve, first, i) && held == AnswerOf(reserve, OutputAt(r, i)) && held.HeldAnswer? && supply(held) == Some(post)
    requires second.Comes() && (second.refused ==> authorized == Refusal)
    requires !second.refused ==> ServedAt(r, post, second.context, j) && authorized == AnswerOf(post, OutputAt(r, j))
    ensures if Authorizes(held, authorized) then !second.refused && authorized.AuthorizedAnswer? && authorized.key == held.key
            else Explained(r, reserve, supply, first, second, NotAuthorized, i, j)
  {
    hide AnswerOf, Step, CommandOf;
  }

  lemma HeldServed(r: Run, reserve: Ask, first: Fate, i: nat)
    requires HeldAtStep(r, reserve, first, i)
    ensures ServedAt(r, reserve, first.context, i) && i < |r.commands| && !first.refused && reserve.AskReserve?
    ensures AnswerOf(reserve, OutputAt(r, i)).HeldAnswer? && AnswerOf(reserve, OutputAt(r, i)).revision == reserve.order.revision
  {
    hide AnswerOf, Step, CommandOf;
  }

  lemma HeldKept(r: Run, q: Run, reserve: Ask, first: Fate, i: nat)
    requires IsRun(r) && IsRun(q) && Extends(r, q) && HeldAtStep(r, reserve, first, i)
    ensures HeldAtStep(q, reserve, first, i) && OutputAt(q, i) == OutputAt(r, i)
  {
    hide AnswerOf, Step, CommandOf, ServedAt, IsRun;
    ServedKept(r, q, reserve, first.context, i);
  }

  lemma ServedKept(r: Run, q: Run, ask: Ask, x: Context, i: nat)
    requires IsRun(r) && IsRun(q) && Extends(r, q) && ServedAt(r, ask, x, i)
    ensures ServedAt(q, ask, x, i) && OutputAt(q, i) == OutputAt(r, i)
  {
    hide Step, CommandOf;
    OutputKept(r, q, i);
  }

  /** What a receipt stands for. */
  ghost predicate ReceiptFor(r: Run, reserve: Ask, receipt: Answered, i: nat, j: nat) {
    && reserve.AskReserve? && receipt.AuthorizedAnswer?
    && HoldThenPost(r, i, j) && |r.states| == |r.commands| + 1
    && r.commands[i].order == reserve.order && r.commands[i].census == reserve.census
    && receipt.key == KeyOf(reserve.order) == r.commands[j].key
    && r.commands[j].post.value.census.floor > reserve.census.floor
    && r.commands[j].post.value.census.digest != reserve.census.digest
    && receipt.existing == OutputAt(r, j).reply.existing
    && (forall k :: i < k <= j ==> Substance(r.states[k].book) == Substance(r.states[i + 1].book))
    && r.states[j + 1].book.losses == r.states[i + 1].book.losses
  }

  lemma HeldKeyOf(r: Run, i: nat)
    requires IsRun(r) && i < |r.commands| && r.commands[i].ReserveRisk?
    requires OutputAt(r, i).Risk? && OutputAt(r, i).reply.HeldReply?
    ensures OutputAt(r, i).reply.entry.key == KeyOf(r.commands[i].order)
  {
    hide Step, RiskOutcome, IsRun, KeyOf, Inv;
    HeldEntry(r, i);
    RunInv(r, i + 1);
    HeldOwnKey(r.states[i + 1], KeyOf(r.commands[i].order));
  }

  lemma HeldEntry(r: Run, i: nat)
    requires IsRun(r) && i < |r.commands| && r.commands[i].ReserveRisk?
    requires OutputAt(r, i).Risk? && OutputAt(r, i).reply.HeldReply?
    ensures |r.states| == |r.commands| + 1
    ensures KeyOf(r.commands[i].order) in r.states[i + 1].book.entries
    ensures r.states[i + 1].book.entries[KeyOf(r.commands[i].order)] == OutputAt(r, i).reply.entry
  {
    hide Step, RiskOutcome, IsRun, KeyOf, Inv, Created, Authoritative, ValidPolicy, NewEntry;
    HeldAt(r, i);
  }

  lemma HeldOwnKey(s: State, key: string)
    requires Inv(s)
    ensures key in s.book.entries ==> s.book.entries[key].key == key
  {
    hide Sound, Paired;
    if key in s.book.entries {
      EntriesNeedBook(s, key);
      InvParts(s);
      OwnKey(s.book, key);
    }
  }

  lemma AnswerFacts(ask: Ask, out: Output)
    ensures AnswerOf(ask, out).HeldAnswer? ==>
              out.Risk? && out.reply.HeldReply? && AnswerOf(ask, out) == HeldAnswer(out.reply.entry.key, out.reply.sequence, out.reply.entry.order.revision)
    ensures AnswerOf(ask, out).AuthorizedAnswer? ==>
              ask.AskPost? && out.Risk? && out.reply.PostAuthorized? && AnswerOf(ask, out) == AuthorizedAnswer(ask.key, out.reply.bookSequence, ask.revision, out.reply.existing)
  {
  }

  lemma Receipted(r: Run, reserve: Ask, held: Answered, post: Ask, authorized: Answered, x: Context, y: Context, i: nat, j: nat)
    requires IsRun(r) && reserve.AskReserve? && post.AskPost? && held.HeldAnswer? && authorized.AuthorizedAnswer?
    requires ServedAt(r, reserve, x, i) && held == AnswerOf(reserve, OutputAt(r, i))
    requires i < j && ServedAt(r, post, y, j) && authorized == AnswerOf(post, OutputAt(r, j))
    requires post.key == held.key == authorized.key && post.expected == held.sequence
    requires post.census.floor > reserve.census.floor && post.census.digest != reserve.census.digest
    ensures ReceiptFor(r, reserve, authorized, i, j)
  {
    hide Step, IsRun, KeyOf, Substance, AnswerOf;
    AnswerFacts(reserve, OutputAt(r, i));
    AnswerFacts(post, OutputAt(r, j));
    HeldKeyOf(r, i);
    assert HoldThenPost(r, i, j);
    ReceiptFences(r, i, j);
  }
}
