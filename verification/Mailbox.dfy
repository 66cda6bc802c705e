/** The mailbox agent over a comment thread: requests are answered by comments, and a checkpoint file remembers how far it has come.
    A poll may end at any point, and the file may be lost. */
module Mailbox {
  import opened Options

  /** What a comment's body parses to. A response counts only when its envelope is valid. */
  datatype Body = Request(id: string) | Response(id: string, valid: bool) | OtherText

  datatype Comment = Comment(byOwner: bool, body: Body)

  /** How far the thread has been dealt with, and the requests known to have a response. */
  datatype Checkpoint = Checkpoint(cursor: nat, terminal: set<string>, initialized: bool)

  /** What becomes of one request: a response is posted; the input is malformed for good; it fails for now; posting fails, with or
      without the comment having been created, and the poll ends. */
  datatype Fate = Answered | PermanentlyMalformed | FailsForNow | DiesBeforePost | DiesAfterPost

  /** What becomes of writing the checkpoint: the old file is removed before the new one takes its place. */
  datatype SaveFate = Saved | NotSaved | FileGone

  // ---------- the thread ----------

  predicate IsTerminal(c: Comment, id: string) {
    c.byOwner && c.body.Response? && c.body.valid && c.body.id == id
  }

  predicate HasResponse(issue: seq<Comment>, id: string) {
    exists i :: 0 <= i < |issue| && IsTerminal(issue[i], id)
  }

  predicate IsRequest(c: Comment) {
    c.byOwner && c.body.Request?
  }

  /** The requests that have a response among the comments. */
  function TerminalIds(comments: seq<Comment>): (r: set<string>)
    ensures forall id :: id in r <==> HasResponse(comments, id)
  {
    if |comments| == 0 then {}
    else
      var last := comments[|comments| - 1];
      var before := TerminalIds(comments[..|comments| - 1]);
      assert forall i :: 0 <= i < |comments| - 1 ==> comments[..|comments| - 1][i] == comments[i];
      if last.byOwner && last.body.Response? && last.body.valid then before + {last.body.id} else before
  }

  lemma ResponseKept(issue: seq<Comment>, more: seq<Comment>, id: string)
    requires HasResponse(issue, id)
    ensures HasResponse(issue + more, id)
  {
    var i :| 0 <= i < |issue| && IsTerminal(issue[i], id);
    assert (issue + more)[i] == issue[i];
  }

  lemma ResponseSplit(issue: seq<Comment>, n: nat, id: string)
    requires n <= |issue| && HasResponse(issue, id)
    ensures HasResponse(issue[..n], id) || HasResponse(issue[n..], id)
  {
    var i :| 0 <= i < |issue| && IsTerminal(issue[i], id);
    if i < n {
      assert issue[..n][i] == issue[i];
    } else {
      assert issue[n..][i - n] == issue[i];
    }
  }

  lemma ResponseWithin(issue: seq<Comment>, n: nat, id: string)
    requires n <= |issue|
    ensures HasResponse(issue[..n], id) || HasResponse(issue[n..], id) ==> HasResponse(issue, id)
  {
    if HasResponse(issue[..n], id) {
      var i :| 0 <= i < n && IsTerminal(issue[..n][i], id);
      assert issue[i] == issue[..n][i];
    } else if HasResponse(issue[n..], id) {
      var i :| 0 <= i < |issue[n..]| && IsTerminal(issue[n..][i], id);
      assert issue[n + i] == issue[n..][i];
    }
  }

  // ---------- the invariant ----------

  predicate Distinct(ids: seq<string>) {
    forall i, j :: 0 <= i < j < |ids| ==> ids[i] != ids[j]
  }

  /** Every response the agent ever posted is on the thread, and none answers the same request twice. */
  ghost predicate PostedOnce(issue: seq<Comment>, posted: seq<string>) {
    Distinct(posted) && forall i :: 0 <= i < |posted| ==> HasResponse(issue, posted[i])
  }

  /** The request is answered, or its input has been found malformed for good. */
  ghost predicate Settled(issue: seq<Comment>, dropped: set<string>, id: string) {
    HasResponse(issue, id) || id in dropped
  }

  /** No owner request of the first `n` comments is left unsettled. */
  ghost predicate SettledUpTo(issue: seq<Comment>, dropped: set<string>, n: nat) {
    n <= |issue| && forall i :: 0 <= i < n && IsRequest(issue[i]) ==> Settled(issue, dropped, issue[i].body.id)
  }

  /** The known responses are on the thread; an initialized ledger knows all those up to the cursor. */
  ghost predicate LedgerFits(issue: seq<Comment>, c: Checkpoint) {
    && c.cursor <= |issue|
    && (forall id :: id in c.terminal ==> HasResponse(issue, id))
    && (c.initialized ==> forall id :: HasResponse(issue[..c.cursor], id) ==> id in c.terminal)
  }

  ghost predicate MailboxInv(issue: seq<Comment>, file: Option<Checkpoint>, posted: seq<string>, dropped: set<string>) {
    && PostedOnce(issue, posted)
    && (file.Some? ==> LedgerFits(issue, file.value) && SettledUpTo(issue, dropped, file.value.cursor))
  }

  lemma SettledGrows(issue: seq<Comment>, more: seq<Comment>, dropped: set<string>, wider: set<string>, n: nat)
    requires SettledUpTo(issue, dropped, n) && dropped <= wider
    ensures SettledUpTo(issue + more, wider, n)
  {
    hide HasResponse;
    forall i | 0 <= i < n && IsRequest((issue + more)[i]) ensures Settled(issue + more, wider, (issue + more)[i].body.id) {
      assert (issue + more)[i] == issue[i];
      if HasResponse(issue, issue[i].body.id) {
        ResponseKept(issue, more, issue[i].body.id);
      }
    }
  }

  lemma PostedGrows(issue: seq<Comment>, more: seq<Comment>, posted: seq<string>)
    requires PostedOnce(issue, posted)
    ensures PostedOnce(issue + more, posted)
  {
    hide HasResponse;
    forall i | 0 <= i < |posted| ensures HasResponse(issue + more, posted[i]) {
      ResponseKept(issue, more, posted[i]);
    }
  }

  lemma LedgerGrows(issue: seq<Comment>, more: seq<Comment>, c: Checkpoint)
    requires LedgerFits(issue, c)
    ensures LedgerFits(issue + more, c)
  {
    hide HasResponse;
    assert (issue + more)[..c.cursor] == issue[..c.cursor];
    forall id | id in c.terminal ensures HasResponse(issue + more, id) {
      ResponseKept(issue, more, id);
    }
  }

  /** The thread only grows, and nothing that was settled, known or posted comes undone. */
  lemma ThreadGrows(issue: seq<Comment>, more: seq<Comment>, file: Option<Checkpoint>, posted: seq<string>, dropped: set<string>, wider: set<string>)
    requires MailboxInv(issue, file, posted, dropped) && dropped <= wider
    ensures MailboxInv(issue + more, file, posted, wider)
  {
    hide PostedOnce, LedgerFits, SettledUpTo;
    PostedGrows(issue, more, posted);
    if file.Some? {
      LedgerGrows(issue, more, file.value);
      SettledGrows(issue, more, dropped, wider, file.value.cursor);
    }
  }

  // ---------- a poll in progress ----------

  /** While a poll works through the comments it listed: what it takes to be answered is exactly what was at listing time or has been
      answered by it since, and the first `k` listed requests are settled unless one failed for now. */
  ghost predicate Polling(listed: seq<Comment>, issue: seq<Comment>, posted: seq<string>, dropped: set<string>, terminal: set<string>, start: nat, k: nat, complete: bool) {
    && start + k <= |listed| && listed <= issue
    && PostedOnce(issue, posted)
    && (forall id :: id in terminal ==> HasResponse(issue, id))
    && (forall id :: HasResponse(listed, id) ==> id in terminal)
    && (forall i :: 0 <= i < |posted| ==> posted[i] in terminal)
    && (complete ==> SettledUpTo(issue, dropped, start + k))
  }

  lemma PollingStarts(issue: seq<Comment>, posted: seq<string>, dropped: set<string>, known: set<string>, start: nat)
    requires start <= |issue| && PostedOnce(issue, posted) && SettledUpTo(issue, dropped, start)
    requires forall id :: id in known ==> HasResponse(issue, id)
    requires forall id :: HasResponse(issue[..start], id) ==> id in known
    ensures Polling(issue, issue, posted, dropped, known + TerminalIds(issue[start..]), start, 0, true)
  {
    hide HasResponse;
    forall id ensures HasResponse(issue, id) <==> id in known + TerminalIds(issue[start..]) {
      ResponseWithin(issue, start, id);
      if HasResponse(issue, id) {
        ResponseSplit(issue, start, id);
      }
    }
  }

  /** Others comment meanwhile, or an input is found malformed. */
  lemma PollingGrows(listed: seq<Comment>, issue: seq<Comment>, more: seq<Comment>, posted: seq<string>, dropped: set<string>, wider: set<string>,
                     terminal: set<string>, start: nat, k: nat, complete: bool)
    requires Polling(listed, issue, posted, dropped, terminal, start, k, complete) && dropped <= wider
    ensures Polling(listed, issue + more, posted, wider, terminal, start, k, complete)
  {
    hide HasResponse, PostedOnce, SettledUpTo;
    PostedGrows(issue, more, posted);
    forall id | id in terminal ensures HasResponse(issue + more, id) {
      ResponseKept(issue, more, id);
    }
    if complete {
      SettledGrows(issue, more, dropped, wider, start + k);
    }
  }

  /** A request without a known response is answered once more than never. */
  lemma PollingPosts(listed: seq<Comment>, issue: seq<Comment>, posted: seq<string>, dropped: set<string>, terminal: set<string>, start: nat, k: nat, complete: bool, id: string)
    requires Polling(listed, issue, posted, dropped, terminal, start, k, complete) && id !in terminal
    ensures Polling(listed, issue + [Comment(true, Response(id, true))], posted + [id], dropped, terminal + {id}, start, k, complete)
  {
    hide HasResponse, PostedOnce, SettledUpTo;
    var more := [Comment(true, Response(id, true))];
    PollingGrows(listed, issue, more, posted, dropped, dropped, terminal, start, k, complete);
    NewResponse(issue, id);
    PostedJoins(issue + more, posted, id);
  }

  lemma PostedJoins(issue: seq<Comment>, posted: seq<string>, id: string)
    requires PostedOnce(issue, posted) && HasResponse(issue, id) && forall i :: 0 <= i < |posted| ==> posted[i] != id
    ensures PostedOnce(issue, posted + [id])
  {
    hide HasResponse;
  }

  lemma NewResponse(issue: seq<Comment>, id: string)
    ensures HasResponse(issue + [Comment(true, Response(id, true))], id)
  {
    assert IsTerminal((issue + [Comment(true, Response(id, true))])[|issue|], id);
  }

  /** The next listed comment is dealt with. */
  lemma PollingAdvances(listed: seq<Comment>, issue: seq<Comment>, posted: seq<string>, dropped: set<string>, terminal: set<string>, start: nat, k: nat, complete: bool)
    requires Polling(listed, issue, posted, dropped, terminal, start, k, complete) && start + k < |listed|
    requires IsRequest(listed[start + k]) && complete ==> listed[start + k].body.id in terminal || listed[start + k].body.id in dropped
    ensures Polling(listed, issue, posted, dropped, terminal, start, k + 1, complete)
  {
    hide HasResponse, PostedOnce;
    assert issue[start + k] == listed[start + k];
  }

  lemma PollingFails(listed: seq<Comment>, issue: seq<Comment>, posted: seq<string>, dropped: set<string>, terminal: set<string>, start: nat, k: nat, complete: bool)
    requires Polling(listed, issue, posted, dropped, terminal, start, k, complete)
    ensures Polling(listed, issue, posted, dropped, terminal, start, k, false)
  {
  }

  /** The poll may stop here: nothing it did contradicts the file. */
  lemma PollingStops(listed: seq<Comment>, issue: seq<Comment>, file: Option<Checkpoint>, posted: seq<string>, dropped: set<string>, terminal: set<string>, start: nat, k: nat, complete: bool)
    requires Polling(listed, issue, posted, dropped, terminal, start, k, complete)
    requires file.Some? ==> LedgerFits(issue, file.value) && SettledUpTo(issue, dropped, file.value.cursor)
    ensures MailboxInv(issue, file, posted, dropped)
  {
  }

  /** A completed batch moves the cursor to the end of what was listed. */
  lemma PollingCompletes(listed: seq<Comment>, issue: seq<Comment>, posted: seq<string>, dropped: set<string>, terminal: set<string>, start: nat)
    requires start <= |listed| && Polling(listed, issue, posted, dropped, terminal, start, |listed| - start, true)
    ensures LedgerFits(issue, Checkpoint(|listed|, terminal, true)) && SettledUpTo(issue, dropped, |listed|)
  {
    hide HasResponse;
    assert issue[..|listed|] == listed;
  }

  ghost predicate NothingFails(fate: nat -> Fate) {
    forall n: nat :: fate(n).Answered? || fate(n).PermanentlyMalformed?
  }

  lemma SettledLess(issue: seq<Comment>, dropped: set<string>, m: nat, n: nat)
    requires SettledUpTo(issue, dropped, n) && m <= n
    ensures SettledUpTo(issue, dropped, m)
  {
    hide HasResponse;
  }

  // ---------- listing ----------

  /** Ten pages of a hundred comments: a listing that fills them all is refused. */
  const HISTORY_LIMIT := 1000

  /** How many comments a listing brings: those after the cursor, and up to `recent` before it, which the server lists again. */
  function Fetched(issue: seq<Comment>, start: nat, recent: nat): nat
    requires start <= |issue|
  {
    |issue| - start + if recent < start then recent else start
  }

  /** Whether a poll gets its listings: from the cursor, and without a ledger of the whole thread before that. */
  predicate Listable(issue: seq<Comment>, file: Option<Checkpoint>, between: seq<Comment>, recent: nat)
    requires file.Some? ==> file.value.cursor <= |issue|
  {
    if file.Some? && file.value.initialized then Fetched(issue, file.value.cursor, recent) < HISTORY_LIMIT
    else |issue| < HISTORY_LIMIT && (file.Some? ==> Fetched(issue + between, file.value.cursor, recent) < HISTORY_LIMIT)
  }

  /** A backlog of that many comments, or without a ledger a thread of that many, is never listed again, however the thread goes on. */
  lemma NeverListed(issue: seq<Comment>, more: seq<Comment>, file: Option<Checkpoint>, between: seq<Comment>, recent: nat)
    requires file.Some? ==> file.value.cursor <= |issue|
    requires |issue| - (if file.Some? && file.value.initialized then file.value.cursor else 0) >= HISTORY_LIMIT
    ensures !Listable(issue + more, file, between, recent)
  {
  }

  // ---------- the agent ----------

  /** The thread, the checkpoint file, and two histories: what the agent has posted and what it has dropped as malformed. */
  class Agent {
    var issue: seq<Comment>
    var file: Option<Checkpoint>
    ghost var posted: seq<string>
    ghost var dropped: set<string>

    ghost predicate Valid()
      reads this
    {
      MailboxInv(issue, file, posted, dropped)
    }

    /** The thread and the histories only grow. */
    twostate predicate Grown()
      reads this
    {
      old(issue) <= issue && old(posted) <= posted && old(dropped) <= dropped
    }

    /** Starts with a thread, and perhaps a file of the old form, whose cursor was kept but no ledger. */
    constructor (thread: seq<Comment>, legacy: Option<nat>, ghost malformed: set<string>)
      requires legacy.Some? ==> SettledUpTo(thread, malformed, legacy.value)
      ensures Valid() && issue == thread && posted == [] && dropped == malformed
    {
      issue := thread;
      file := if legacy.Some? then Some(Checkpoint(legacy.value, {}, false)) else None;
      posted, dropped := [], malformed;
    }

    /** Anyone may comment at any time. */
    method Arrive(more: seq<Comment>)
      requires Valid()
      modifies `issue
      ensures Valid() && issue == old(issue) + more
    {
      ThreadGrows(issue, more, file, posted, dropped, dropped);
      issue := issue + more;
    }

    /** The file is lost, or found corrupt or for another mailbox. */
    method LoseCheckpoint()
      requires Valid()
      modifies `file
      ensures Valid() && file.None?
    {
      file := None;
    }

    method Save(c: Checkpoint, fate: SaveFate)
      requires Valid() && LedgerFits(issue, c) && SettledUpTo(issue, dropped, c.cursor)
      modifies `file
      ensures Valid() && file == if fate.Saved? then Some(c) else if fate.FileGone? then None else old(file)
    {
      hide LedgerFits, SettledUpTo, PostedOnce;
      if fate.Saved? {
        file := Some(c);
      } else if fate.FileGone? {
        file := None;
      }
    }

    /** What is known when a poll starts, and what it listed: by the file's ledger, or, without one, by a scan of the whole thread. The
        scan is the listing itself when there is no cursor; otherwise others may comment in between. */
    method LoadLedger(between: seq<Comment>, recent: nat) returns (failed: bool, start: nat, known: set<string>, listed: seq<Comment>)
      requires Valid()
      modifies `issue
      ensures Valid() && old(issue) <= issue
      ensures failed <==> !Listable(old(issue), file, between, recent)
      ensures !failed ==>
                && old(issue) <= listed <= issue
                && start == (if file.Some? then file.value.cursor else 0) && start <= |listed|
                && MailboxInv(listed, file, posted, dropped)
                && (forall id :: id in known ==> HasResponse(listed, id))
                && (forall id :: HasResponse(listed[..start], id) ==> id in known)
    {
      hide HasResponse, PostedOnce, SettledUpTo;
      failed, known := false, {};
      start := if file.Some? then file.value.cursor else 0;
      listed := issue;
      if file.Some? && file.value.initialized {
        known := file.value.terminal;
        failed := Fetched(issue, start, recent) >= HISTORY_LIMIT;
        Arrive(between);
        return;
      }
      if |issue| >= HISTORY_LIMIT {
        failed := true;
        return;
      }
      known := TerminalIds(issue);
      Arrive(between);
      if file.Some? {
        ghost var scanned := listed;
        listed := issue;
        failed := Fetched(issue, start, recent) >= HISTORY_LIMIT;
        forall id | id in known ensures HasResponse(listed, id) {
          ResponseKept(scanned, between, id);
        }
        assert listed[..start] == scanned[..start];
        forall id | HasResponse(listed[..start], id) ensures id in known {
          ResponseWithin(scanned, start, id);
        }
      } else {
        forall id | HasResponse(listed[..start], id) ensures id in known {
          ResponseWithin(listed, start, id);
        }
      }
    }

    /** One poll: list what is after the cursor, answer what has no response yet, and move the cursor if nothing failed for now. */
    method Poll(between: seq<Comment>, recent: nat, fate: nat -> Fate, arrivals: nat -> seq<Comment>, save: SaveFate) returns (failed: bool, processed: nat)
      requires Valid()
      modifies this
      ensures Valid() && Grown()
      ensures !Listable(old(issue), old(file), between, recent) ==> failed && file == old(file) && posted == old(posted) && dropped == old(dropped) && processed == 0
      ensures NothingFails(fate) && save.Saved? ==> (failed <==> !Listable(old(issue), old(file), between, recent))
      ensures file == old(file) || file.None? || file.value.cursor >= |old(issue)|
      ensures NothingFails(fate) && Listable(old(issue), old(file), between, recent) ==> SettledUpTo(issue, dropped, |old(issue)|) && |posted| == |old(posted)| + processed
      ensures NothingFails(fate) && !failed && |old(issue)| > 0 ==> file.Some? && file.value.cursor >= |old(issue)|
      ensures (forall n: nat :: fate(n).Answered?) ==> dropped == old(dropped)
    {
      hide HasResponse, PostedOnce, SettledUpTo, LedgerFits, TerminalIds, Polling;
      failed, processed := false, 0;
      ghost var asked := |old(issue)|;
      var lost, start, known, listed := LoadLedger(between, recent);
      if lost {
        failed := true;
        return;
      }
      if start == |listed| {
        SettledStart(issue, file, posted, dropped, start);
        SettledLess(issue, dropped, asked, start);
        if file.Some? {
          IdleSave(issue, listed, known);
          Save(Checkpoint(start, known, true), save);
          failed := !save.Saved?;
        }
        return;
      }
      SettledStart(listed, file, posted, dropped, start);
      PollingStarts(listed, posted, dropped, known, start);
      var terminal := known + TerminalIds(listed[start..]);
      PollingGrows(listed, listed, issue[|listed|..], posted, dropped, dropped, terminal, start, 0, true);
      assert listed + issue[|listed|..] == issue;
      var complete := true;
      var k := 0;
      while k < |listed| - start
        invariant k <= |listed| - start
        invariant Polling(listed, issue, posted, dropped, terminal, start, k, complete)
        invariant Valid() && Grown() && file == old(file)
        invariant NothingFails(fate) ==> complete
        invariant |posted| == |old(posted)| + processed && !failed
        invariant (forall n: nat :: fate(n).Answered?) ==> dropped == old(dropped)
      {
        var died, answered;
        died, answered, terminal, complete := Deal(listed, start, k, terminal, complete, fate(k));
        if answered {
          processed := processed + 1;
        }
        if died {
          failed := true;
          return;
        }
        PollingGrows(listed, issue, arrivals(k), posted, dropped, dropped, terminal, start, k + 1, complete);
        Arrive(arrivals(k));
        k := k + 1;
      }
      if complete {
        PollingCompletes(listed, issue, posted, dropped, terminal, start);
        SettledLess(issue, dropped, asked, |listed|);
        Save(Checkpoint(|listed|, terminal, true), save);
        failed := !save.Saved?;
      }
    }

    /** Deals with one listed comment: only an owner's request without a known response is acted on. */
    method Deal(listed: seq<Comment>, start: nat, k: nat, terminal: set<string>, complete: bool, fate: Fate)
      returns (died: bool, answered: bool, known: set<string>, still: bool)
      requires Valid() && Polling(listed, issue, posted, dropped, terminal, start, k, complete) && start + k < |listed|
      modifies `issue, `posted, `dropped
      ensures Valid() && Grown()
      ensures died ==> fate.DiesBeforePost? || fate.DiesAfterPost?
      ensures !died ==> Polling(listed, issue, posted, dropped, known, start, k + 1, still) && |posted| == |old(posted)| + if answered then 1 else 0
      ensures complete && !still ==> fate.FailsForNow?
      ensures fate.Answered? ==> dropped == old(dropped)
      ensures answered <==> IsRequest(listed[start + k]) && listed[start + k].body.id !in terminal && fate.Answered?
      ensures answered ==> posted == old(posted) + [listed[start + k].body.id]
    {
      hide HasResponse, PostedOnce, SettledUpTo, LedgerFits, Polling;
      died, answered, known, still := false, false, terminal, complete;
      var comment := listed[start + k];
      if comment.byOwner && comment.body.Request? && comment.body.id !in terminal {
        var id := comment.body.id;
        match fate {
          case Answered =>
            Post(id, listed, terminal, start, k, complete);
            known, answered := terminal + {id}, true;
          case PermanentlyMalformed =>
            Drop(id, listed, terminal, start, k, complete);
          case FailsForNow =>
            PollingFails(listed, issue, posted, dropped, terminal, start, k, complete);
            still := false;
          case DiesBeforePost =>
            died := true;
            return;
          case DiesAfterPost =>
            Post(id, listed, terminal, start, k, complete);
            died := true;
            return;
        }
      }
      PollingAdvances(listed, issue, posted, dropped, known, start, k, still);
    }

    /** Posts the response to a request that has none. */
    method Post(id: string, ghost listed: seq<Comment>, ghost terminal: set<string>, ghost start: nat, ghost k: nat, ghost complete: bool)
      requires Valid() && Polling(listed, issue, posted, dropped, terminal, start, k, complete) && id !in terminal
      modifies `issue, `posted
      ensures Valid() && issue == old(issue) + [Comment(true, Response(id, true))] && posted == old(posted) + [id]
      ensures Polling(listed, issue, posted, dropped, terminal + {id}, start, k, complete)
    {
      hide HasResponse, PostedOnce, SettledUpTo, LedgerFits;
      PollingPosts(listed, issue, posted, dropped, terminal, start, k, complete, id);
      ThreadGrows(issue, [Comment(true, Response(id, true))], file, posted, dropped, dropped);
      issue := issue + [Comment(true, Response(id, true))];
      posted := posted + [id];
      PollingStops(listed, issue, file, posted, dropped, terminal + {id}, start, k, complete);
    }

    ghost method Drop(id: string, listed: seq<Comment>, terminal: set<string>, start: nat, k: nat, complete: bool)
      requires Valid() && Polling(listed, issue, posted, dropped, terminal, start, k, complete)
      modifies `dropped
      ensures Valid() && dropped == old(dropped) + {id}
      ensures Polling(listed, issue, posted, dropped, terminal, start, k, complete)
    {
      hide HasResponse, PostedOnce, SettledUpTo, LedgerFits, Polling;
      assert issue + [] == issue;
      PollingGrows(listed, issue, [], posted, dropped, dropped + {id}, terminal, start, k, complete);
      ThreadGrows(issue, [], file, posted, dropped, dropped + {id});
      dropped := dropped + {id};
    }
  }

  lemma SettledStart(issue: seq<Comment>, file: Option<Checkpoint>, posted: seq<string>, dropped: set<string>, start: nat)
    requires MailboxInv(issue, file, posted, dropped) && start == if file.Some? then file.value.cursor else 0
    ensures PostedOnce(issue, posted) && SettledUpTo(issue, dropped, start)
  {
    hide PostedOnce, LedgerFits;
  }

  lemma IdleSave(issue: seq<Comment>, listed: seq<Comment>, known: set<string>)
    requires listed <= issue
    requires forall id :: id in known ==> HasResponse(listed, id)
    requires forall id :: HasResponse(listed[..|listed|], id) ==> id in known
    ensures LedgerFits(issue, Checkpoint(|listed|, known, true))
  {
    hide HasResponse;
    assert listed[..|listed|] == listed == issue[..|listed|] && listed + issue[|listed|..] == issue;
    forall id | id in known ensures HasResponse(issue, id) {
      ResponseKept(listed, issue[|listed|..], id);
    }
  }
}
