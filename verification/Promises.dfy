/** The worker's pending replies: what each waits for, and which session may settle it. */
module Promises {

  datatype Settlement = Resolved(generation: int, value: string) | TimedOut | Finished | Rejected(reason: string)

  /** A reply waited for under a key, on behalf of one session generation. */
  datatype Pending = Pending(generation: int, ticket: nat)

  /** What a promise was made for, and how it has been settled, if it has. */
  datatype Record = Record(key: string, generation: int, settled: seq<Settlement>)

  /** The pending replies, and the record of every promise ever made. */
  datatype Board = Board(pending: map<string, Pending>, records: seq<Record>)

  function Settled(records: seq<Record>, ticket: nat, how: Settlement): (r: seq<Record>)
    ensures |r| == |records|
  {
    if ticket < |records| then records[ticket := records[ticket].(settled := records[ticket].settled + [how])] else records
  }

  /** A pending reply is the one unsettled promise made under its key; every other promise has been settled exactly once. */
  predicate BoardInv(b: Board) {
    && (forall key :: key in b.pending ==> Open(b, key))
    && (forall t :: 0 <= t < |b.records| ==> |b.records[t].settled| <= 1)
    && (forall t :: 0 <= t < |b.records| && |b.records[t].settled| == 0 ==> Registered(b, t))
  }

  predicate Open(b: Board, key: string)
    requires key in b.pending
  {
    var p := b.pending[key];
    p.ticket < |b.records| && b.records[p.ticket] == Record(key, p.generation, [])
  }

  predicate Registered(b: Board, t: nat)
    requires t < |b.records|
  {
    b.records[t].key in b.pending && b.pending[b.records[t].key].ticket == t
  }

  /** Promises keep what they were made for, and a settled one its settlement. */
  predicate Kept(b: Board, c: Board) {
    && |b.records| <= |c.records|
    && forall t :: 0 <= t < |b.records| ==>
         && c.records[t].key == b.records[t].key && c.records[t].generation == b.records[t].generation
         && (|b.records[t].settled| > 0 ==> c.records[t] == b.records[t])
  }

  function Drop(b: Board, key: string, how: Settlement): Board
    requires key in b.pending
  {
    Board(b.pending - {key}, Settled(b.records, b.pending[key].ticket, how))
  }

  lemma DropKeeps(b: Board, key: string, how: Settlement)
    requires BoardInv(b) && key in b.pending
    ensures BoardInv(Drop(b, key, how)) && Kept(b, Drop(b, key, how))
    ensures |Drop(b, key, how).records| == |b.records|
    ensures Drop(b, key, how).records == b.records[b.pending[key].ticket := Record(key, b.pending[key].generation, [how])]
  {
    var c, ticket := Drop(b, key, how), b.pending[key].ticket;
    assert Open(b, key);
    assert b.records[ticket].settled + [how] == [how];
    forall k | k in c.pending ensures Open(c, k) {
      assert Open(b, k);
      assert b.pending[k].ticket != ticket;
    }
    forall t | 0 <= t < |c.records| && |c.records[t].settled| == 0 ensures Registered(c, t) {
      assert Registered(b, t);
    }
  }

  function RejectedRecord(r: Record, generation: int, reason: string): Record {
    if |r.settled| == 0 && r.generation == generation then Record(r.key, generation, [Rejected(reason)]) else r
  }

  /** Part of the way through rejecting a generation: the keys in `rest` are still to be looked at. */
  ghost predicate Rejecting(b: Board, c: Board, rest: set<string>, generation: int, reason: string) {
    && BoardInv(c) && |c.records| == |b.records| && rest <= c.pending.Keys
    && (forall key :: key in c.pending <==> key in b.pending && (key in rest || b.pending[key].generation != generation))
    && (forall key :: key in c.pending ==> c.pending[key] == b.pending[key])
    && (forall t :: 0 <= t < |b.records| ==> c.records[t] == b.records[t] || c.records[t] == RejectedRecord(b.records[t], generation, reason))
  }

  lemma RejectStep(b: Board, c: Board, rest: set<string>, key: string, generation: int, reason: string)
    requires Rejecting(b, c, rest, generation, reason) && key in rest
    ensures key in c.pending
    ensures var d := if c.pending[key].generation == generation then Drop(c, key, Rejected(reason)) else c;
            Rejecting(b, d, rest - {key}, generation, reason)
  {
    hide BoardInv, Registered;
    if c.pending[key].generation == generation {
      OpenOf(c, key);
      DropKeeps(c, key, Rejected(reason));
    }
  }

  lemma OpenOf(b: Board, key: string)
    requires BoardInv(b) && key in b.pending
    ensures Open(b, key)
  {
  }

  /** When a session ends, every promise made for it is settled, and no other. */
  lemma RejectDone(b: Board, c: Board, generation: int, reason: string)
    requires Rejecting(b, c, {}, generation, reason)
    ensures forall key :: key in c.pending <==> key in b.pending && b.pending[key].generation != generation
    ensures |c.records| == |b.records| && forall t :: 0 <= t < |b.records| ==> c.records[t] == RejectedRecord(b.records[t], generation, reason)
    ensures Kept(b, c) && BoardInv(c)
  {
    forall t | 0 <= t < |b.records| ensures c.records[t] == RejectedRecord(b.records[t], generation, reason) {
      if |c.records[t].settled| == 0 {
        assert Registered(c, t);
        OpenOf(c, c.records[t].key);
      }
    }
  }

  class PendingReplies {
    var pending: map<string, Pending>
    ghost var records: seq<Record>
    var made: nat

    ghost function View(): Board
      reads this
    {
      Board(pending, records)
    }

    ghost predicate Valid()
      reads this
    {
      BoardInv(View()) && made == |records|
    }

    constructor ()
      ensures Valid() && View() == Board(map[], [])
    {
      pending, records, made := map[], [], 0;
    }

    /** Registers a promise, unless one is pending under the key. */
    method WaitFor(key: string, generation: int) returns (ticket: nat, registered: bool)
      requires Valid()
      modifies this
      ensures Valid() && Kept(old(View()), View())
      ensures registered <==> key !in old(pending)
      ensures registered ==> records == old(records) + [Record(key, generation, [])] && pending == old(pending)[key := Pending(generation, ticket)]
      ensures !registered ==> View() == old(View())
    {
      ticket, registered := made, key !in pending;
      if registered {
        ghost var b := View();
        pending := pending[key := Pending(generation, made)];
        records := records + [Record(key, generation, [])];
        made := made + 1;
        Joined(b, View(), key);
      }
    }

    lemma Joined(b: Board, c: Board, key: string)
      requires BoardInv(b) && key !in b.pending && key in c.pending
      requires c == Board(b.pending[key := Pending(c.pending[key].generation, |b.records|)], b.records + [Record(key, c.pending[key].generation, [])])
      ensures BoardInv(c) && Kept(b, c)
    {
      forall k | k in c.pending ensures Open(c, k) {
        if k != key {
          assert Open(b, k);
        }
      }
      forall t | 0 <= t < |c.records| && |c.records[t].settled| == 0 ensures Registered(c, t) {
        if t < |b.records| {
          assert Registered(b, t);
        }
      }
    }

    /** A reply settles the pending promise under its key, but only from the generation the promise was made for. */
    method Resolve(key: string, generation: int, value: string)
      requires Valid()
      modifies this
      ensures Valid() && Kept(old(View()), View())
      ensures View() == if key in old(pending) && old(pending)[key].generation == generation then Drop(old(View()), key, Resolved(generation, value)) else old(View())
    {
      if key !in pending || pending[key].generation != generation {
        return;
      }
      DropKeeps(View(), key, Resolved(generation, value));
      records := Settled(records, pending[key].ticket, Resolved(generation, value));
      pending := pending - {key};
    }

    /** The timer of a pending promise; a settled one has none. */
    method TimerFires(key: string)
      requires Valid() && key in pending
      modifies this
      ensures Valid() && Kept(old(View()), View()) && View() == Drop(old(View()), key, TimedOut)
    {
      DropKeeps(View(), key, TimedOut);
      records := Settled(records, pending[key].ticket, TimedOut);
      pending := pending - {key};
    }

    /** The end of a request's handling settles and drops what is still pending for it, but only what its own generation made. */
    method Clear(key: string, generation: int)
      requires Valid()
      modifies this
      ensures Valid() && Kept(old(View()), View())
      ensures View() == if key in old(pending) && old(pending)[key].generation == generation then Drop(old(View()), key, Finished) else old(View())
    {
      if key !in pending || pending[key].generation != generation {
        return;
      }
      DropKeeps(View(), key, Finished);
      records := Settled(records, pending[key].ticket, Finished);
      pending := pending - {key};
    }

    /** When a session ends, every promise made for it is settled, and no other. */
    method RejectGeneration(generation: int, reason: string)
      requires Valid()
      modifies this
      ensures Valid() && Kept(old(View()), View())
      ensures forall key :: key in pending <==> key in old(pending) && old(pending)[key].generation != generation
      ensures |records| == |old(records)| && forall t :: 0 <= t < |records| ==> records[t] == RejectedRecord(old(records)[t], generation, reason)
    {
      hide BoardInv, Rejecting, Kept;
      var rest := pending.Keys;
      ghost var before := View();
      RejectNone(before, generation, reason);
      while rest != {}
        invariant Rejecting(before, View(), rest, generation, reason) && made == |records|
        decreases |rest|
      {
        var key :| key in rest;
        RejectStep(before, View(), rest, key, generation, reason);
        rest := rest - {key};
        if pending[key].generation == generation {
          records := Settled(records, pending[key].ticket, Rejected(reason));
          pending := pending - {key};
        }
      }
      RejectDone(before, View(), generation, reason);
    }
  }

  lemma RejectNone(b: Board, generation: int, reason: string)
    requires BoardInv(b)
    ensures Rejecting(b, b, b.pending.Keys, generation, reason)
  {
  }
}
