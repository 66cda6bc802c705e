/** The worker's bounded admission of requests: seven shared slots, an eighth for protective commands, and a queue for reads. */
module Admission {

  const MAX_INFLIGHT := 8
  const MAX_READ_INFLIGHT := 7
  const MAX_READ_WAITERS := 100

  /** Reads may queue, ordinary work is refused at once when there is no room, protective commands may use the eighth slot. */
  datatype Kind = Read | Ordinary | Protective

  /** A queued read: the position it was queued at, and its request. */
  datatype Waiter = Waiter(ticket: nat, id: string)

  /** Where the handling of an active request stands. */
  datatype Stage = InQueue(ticket: nat) | Holding(kind: Kind) | TurnedAway

  datatype Fate = Waiting | Granted | Expired

  /** The counters and the queue, the requests being handled, and what has become of every queued read so far. */
  datatype Gate = Gate(
    inflight: int, readonly: int, normal: int, waiters: seq<Waiter>, requests: map<string, Stage>, fates: seq<Fate>)

  const OPEN := Gate(0, 0, 0, [], map[], [])

  /** A request arrives; the timer of a queued read fires; the handling of a request ends. */
  datatype Event = Arrive(id: string, kind: Kind) | Expire(ticket: nat) | Leave(id: string)

  datatype Outcome = Admitted | Queued(ticket: nat) | Busy | AlreadyInFlight | Done

  // ---------- transitions ----------

  predicate Roomy(g: Gate) {
    g.normal < MAX_READ_INFLIGHT && g.inflight < MAX_INFLIGHT
  }

  function Hold(g: Gate, id: string, kind: Kind): Gate {
    g.(inflight := g.inflight + 1,
       normal := if kind.Protective? then g.normal else g.normal + 1,
       readonly := if kind.Read? then g.readonly + 1 else g.readonly,
       requests := g.requests[id := Holding(kind)])
  }

  function Enqueue(g: Gate, id: string): Gate {
    g.(waiters := g.waiters + [Waiter(|g.fates|, id)], requests := g.requests[id := InQueue(|g.fates|)], fates := g.fates + [Waiting])
  }

  function Admit(g: Gate, id: string, kind: Kind): (Gate, Outcome) {
    if id in g.requests then (g, AlreadyInFlight)
    else
      match kind
      case Read =>
        if |g.waiters| == 0 && Roomy(g) then (Hold(g, id, Read), Admitted)
        else if |g.waiters| >= MAX_READ_WAITERS then (g, Busy)
        else (Enqueue(g, id), Queued(|g.fates|))
      case Protective =>
        if g.inflight >= MAX_INFLIGHT then (g, Busy) else (Hold(g, id, Protective), Admitted)
      case Ordinary =>
        if !Roomy(g) then (g, Busy) else (Hold(g, id, Ordinary), Admitted)
  }

  function Settle(fates: seq<Fate>, ticket: nat, fate: Fate): (r: seq<Fate>)
    ensures |r| == |fates|
  {
    if ticket < |fates| then fates[ticket := fate] else fates
  }

  /** The first waiting read takes a slot. */
  function GrantFirst(g: Gate): Gate
    requires |g.waiters| > 0
  {
    var w := g.waiters[0];
    Hold(g, w.id, Read).(waiters := g.waiters[1..], fates := Settle(g.fates, w.ticket, Granted))
  }

  function GrantWaiting(g: Gate): Gate
    decreases |g.waiters|
  {
    if |g.waiters| > 0 && Roomy(g) then GrantWaiting(GrantFirst(g)) else g
  }

  /** The place of a ticket in the queue, or the length of the queue. */
  function Position(waiters: seq<Waiter>, ticket: nat): (i: nat)
    ensures i <= |waiters|
    ensures i < |waiters| ==> waiters[i].ticket == ticket
    ensures i == |waiters| ==> forall j :: 0 <= j < |waiters| ==> waiters[j].ticket != ticket
  {
    if |waiters| == 0 || waiters[0].ticket == ticket then 0 else 1 + Position(waiters[1..], ticket)
  }

  function TimeOut(g: Gate, ticket: nat): Gate {
    var i := Position(g.waiters, ticket);
    if i == |g.waiters| then g
    else
      g.(waiters := g.waiters[..i] + g.waiters[i + 1..], fates := Settle(g.fates, ticket, Expired),
         requests := g.requests[g.waiters[i].id := TurnedAway])
  }

  function Release(g: Gate, id: string, kind: Kind): Gate {
    g.(inflight := g.inflight - 1,
       normal := if kind.Protective? then g.normal else g.normal - 1,
       readonly := if kind.Read? then g.readonly - 1 else g.readonly,
       requests := g.requests - {id})
  }

  /** The end of a request: a held slot is given back and passed on; a read still in the queue does not end. */
  function Finish(g: Gate, id: string): Gate {
    if id !in g.requests || g.requests[id].InQueue? then g
    else if g.requests[id].TurnedAway? then g.(requests := g.requests - {id})
    else GrantWaiting(Release(g, id, g.requests[id].kind))
  }

  function Next(g: Gate, e: Event): (Gate, Outcome) {
    match e
    case Arrive(id, kind) => Admit(g, id, kind)
    case Expire(ticket) => (TimeOut(g, ticket), Done)
    case Leave(id) => (Finish(g, id), Done)
  }

  // ---------- the invariant ----------

  function Having<K, V(==)>(m: map<K, V>, v: V): set<K> {
    set k | k in m && m[k] == v
  }

  /** The requests holding a slot of this kind. */
  function Holders(g: Gate, kind: Kind): set<string> {
    Having(g.requests, Holding(kind))
  }

  /** Each counter is the number of requests it counts. */
  predicate Counted(g: Gate) {
    && g.readonly == |Holders(g, Read)|
    && g.normal == |Holders(g, Read)| + |Holders(g, Ordinary)|
    && g.inflight == g.normal + |Holders(g, Protective)|
  }

  predicate Limited(g: Gate) {
    && 0 <= g.readonly <= g.normal <= MAX_READ_INFLIGHT
    && g.normal <= g.inflight <= MAX_INFLIGHT
    && |g.waiters| <= MAX_READ_WAITERS
  }

  predicate OldestFirst(waiters: seq<Waiter>) {
    forall i, j :: 0 <= i < j < |waiters| ==> waiters[i].ticket < waiters[j].ticket
  }

  predicate AllWait(g: Gate) {
    forall i :: 0 <= i < |g.waiters| ==> Waits(g, g.waiters[i])
  }

  predicate AllListed(waiters: seq<Waiter>, fates: seq<Fate>) {
    forall t :: 0 <= t < |fates| && fates[t].Waiting? ==> Position(waiters, t) < |waiters|
  }

  predicate AllPlaced(waiters: seq<Waiter>, requests: map<string, Stage>) {
    forall id :: id in requests && requests[id].InQueue? ==> Placed(waiters, requests[id].ticket, id)
  }

  predicate Placed(waiters: seq<Waiter>, ticket: nat, id: string) {
    exists i :: 0 <= i < |waiters| && waiters[i].ticket == ticket && waiters[i].id == id
  }

  /** The queue holds exactly the unsettled tickets, oldest first, each owned by the one request that waits on it. */
  predicate Queueing(g: Gate) {
    OldestFirst(g.waiters) && AllWait(g) && AllListed(g.waiters, g.fates) && AllPlaced(g.waiters, g.requests)
  }

  predicate Waits(g: Gate, w: Waiter) {
    w.ticket < |g.fates| && g.fates[w.ticket].Waiting? && w.id in g.requests && g.requests[w.id] == InQueue(w.ticket)
  }

  /** Reads wait only while every slot they could take is taken. */
  predicate NoIdleSlot(g: Gate) {
    |g.waiters| > 0 ==> !Roomy(g)
  }

  predicate GateInv(g: Gate) {
    Counted(g) && Limited(g) && Queueing(g) && NoIdleSlot(g)
  }

  // ---------- counting ----------

  lemma HavingPut<K, V>(m: map<K, V>, k: K, v: V, x: V)
    requires k in m ==> m[k] != x
    ensures |Having(m[k := v], x)| == |Having(m, x)| + if v == x then 1 else 0
  {
    assert k !in Having(m, x);
    assert Having(m[k := v], x) == Having(m, x) + if v == x then {k} else {};
  }

  lemma HavingRemove<K, V>(m: map<K, V>, k: K, x: V)
    requires k in m
    ensures |Having(m - {k}, x)| == |Having(m, x)| - if m[k] == x then 1 else 0
  {
    assert m[k] == x <==> k in Having(m, x);
    assert Having(m - {k}, x) == Having(m, x) - if m[k] == x then {k} else {};
  }

  lemma HoldCounts(g: Gate, id: string, kind: Kind)
    requires Counted(g) && (id in g.requests ==> !g.requests[id].Holding?)
    ensures Counted(Hold(g, id, kind))
  {
    hide Having;
    HavingPut(g.requests, id, Holding(kind), Holding(Read));
    HavingPut(g.requests, id, Holding(kind), Holding(Ordinary));
    HavingPut(g.requests, id, Holding(kind), Holding(Protective));
  }

  lemma RemoveCounts(g: Gate, id: string)
    requires Counted(g) && id in g.requests
    ensures g.requests[id].Holding? ==> Counted(Release(g, id, g.requests[id].kind))
    ensures !g.requests[id].Holding? ==> Counted(g.(requests := g.requests - {id}))
  {
    hide Having;
    HavingRemove(g.requests, id, Holding(Read));
    HavingRemove(g.requests, id, Holding(Ordinary));
    HavingRemove(g.requests, id, Holding(Protective));
  }

  /** Queueing a request, or turning it away, changes no count. */
  lemma StageCounts(g: Gate, h: Gate, id: string, stage: Stage)
    requires Counted(g) && (id in g.requests ==> !g.requests[id].Holding?) && !stage.Holding?
    requires h == g.(requests := g.requests[id := stage], waiters := h.waiters, fates := h.fates)
    ensures Counted(h)
  {
    hide Having;
    HavingPut(g.requests, id, stage, Holding(Read));
    HavingPut(g.requests, id, stage, Holding(Ordinary));
    HavingPut(g.requests, id, stage, Holding(Protective));
  }

  lemma SameCounts(g: Gate, h: Gate)
    requires Counted(g) && h == g.(waiters := h.waiters, fates := h.fates)
    ensures Counted(h)
  {
    hide Having;
  }

  // ---------- the queue ----------

  lemma {:induction false} PositionFound(waiters: seq<Waiter>, i: nat)
    requires i < |waiters|
    ensures Position(waiters, waiters[i].ticket) < |waiters|
  {
  }

  /** Whatever is in one queue at `i` is in the other at `At(i)`. */
  lemma ListedMoves(a: seq<Waiter>, b: seq<Waiter>, t: nat, k: nat)
    requires Position(a, t) < |a| && k < |b| && b[k] == a[Position(a, t)]
    ensures Position(b, t) < |b|
  {
    PositionFound(b, k);
  }

  lemma EnqueueListed(g: Gate, id: string)
    requires AllListed(g.waiters, g.fates)
    ensures AllListed(Enqueue(g, id).waiters, Enqueue(g, id).fates)
  {
    hide Position;
    var h, n := Enqueue(g, id), |g.waiters|;
    forall t | 0 <= t < |h.fates| && h.fates[t].Waiting? ensures Position(h.waiters, t) < |h.waiters| {
      if t < |g.fates| {
        ListedMoves(g.waiters, h.waiters, t, Position(g.waiters, t));
      } else {
        PositionFound(h.waiters, n);
      }
    }
  }

  lemma EnqueuePlaced(g: Gate, id: string)
    requires AllPlaced(g.waiters, g.requests)
    ensures AllPlaced(Enqueue(g, id).waiters, Enqueue(g, id).requests)
  {
    var h := Enqueue(g, id);
    assert h.waiters[|g.waiters|] == Waiter(|g.fates|, id);
    forall k | k in h.requests && h.requests[k].InQueue? ensures Placed(h.waiters, h.requests[k].ticket, k) {
      if k != id {
        var i :| 0 <= i < |g.waiters| && g.waiters[i].ticket == g.requests[k].ticket && g.waiters[i].id == k;
        assert h.waiters[i] == g.waiters[i];
      }
    }
  }

  lemma EnqueueWait(g: Gate, id: string)
    requires AllWait(g) && OldestFirst(g.waiters) && id !in g.requests
    ensures AllWait(Enqueue(g, id)) && OldestFirst(Enqueue(g, id).waiters)
  {
    var h := Enqueue(g, id);
    forall i | 0 <= i < |h.waiters| ensures Waits(h, h.waiters[i]) {
      if i < |g.waiters| {
        assert Waits(g, g.waiters[i]);
      }
    }
    forall i, j | 0 <= i < j < |h.waiters| ensures h.waiters[i].ticket < h.waiters[j].ticket {
      assert Waits(g, g.waiters[i]);
    }
  }

  lemma EnqueueQueueing(g: Gate, id: string)
    requires Queueing(g) && id !in g.requests
    ensures Queueing(Enqueue(g, id))
  {
    hide OldestFirst, AllWait, AllListed, AllPlaced;
    EnqueueWait(g, id);
    EnqueueListed(g, id);
    EnqueuePlaced(g, id);
  }

  /** Where the waiter at `k` is once the one at `i` has gone. */
  function Shifted(k: nat, i: nat): nat
    requires k != i
  {
    if k < i then k else k - 1
  }

  function Without(waiters: seq<Waiter>, i: nat): (r: seq<Waiter>)
    requires i < |waiters|
    ensures |r| == |waiters| - 1
    ensures forall k :: 0 <= k < |waiters| && k != i ==> r[Shifted(k, i)] == waiters[k]
    ensures forall k :: 0 <= k < |r| ==> r[k] == waiters[if k < i then k else k + 1]
  {
    waiters[..i] + waiters[i + 1..]
  }

  lemma RemovedListed(waiters: seq<Waiter>, fates: seq<Fate>, i: nat, fate: Fate)
    requires AllListed(waiters, fates) && i < |waiters| && !fate.Waiting? && waiters[i].ticket < |fates|
    ensures AllListed(Without(waiters, i), fates[waiters[i].ticket := fate])
  {
    hide Position;
    var rest, after := Without(waiters, i), fates[waiters[i].ticket := fate];
    forall t | 0 <= t < |after| && after[t].Waiting? ensures Position(rest, t) < |rest| {
      var k := Position(waiters, t);
      ListedMoves(waiters, rest, t, Shifted(k, i));
    }
  }

  lemma RemovedPlaced(waiters: seq<Waiter>, requests: map<string, Stage>, i: nat, stage: Stage)
    requires AllPlaced(waiters, requests) && i < |waiters| && !stage.InQueue?
    ensures AllPlaced(Without(waiters, i), requests[waiters[i].id := stage])
  {
    var rest, after := Without(waiters, i), requests[waiters[i].id := stage];
    forall id | id in after && after[id].InQueue? ensures Placed(rest, after[id].ticket, id) {
      var k :| 0 <= k < |waiters| && waiters[k].ticket == requests[id].ticket && waiters[k].id == id;
      assert rest[Shifted(k, i)] == waiters[k];
    }
  }

  lemma OtherWaits(g: Gate, h: Gate, w: Waiter, v: Waiter, fate: Fate, stage: Stage)
    requires Waits(g, w) && Waits(g, v) && w.ticket != v.ticket
    requires h.fates == g.fates[w.ticket := fate] && h.requests == g.requests[w.id := stage]
    ensures Waits(h, v)
  {
  }

  lemma RemovedWait(g: Gate, h: Gate, i: nat, fate: Fate, stage: Stage)
    requires AllWait(g) && OldestFirst(g.waiters) && i < |g.waiters| && g.waiters[i].ticket < |g.fates|
    requires h.waiters == Without(g.waiters, i) && h.fates == g.fates[g.waiters[i].ticket := fate]
    requires h.requests == g.requests[g.waiters[i].id := stage]
    ensures AllWait(h) && OldestFirst(h.waiters)
  {
    hide Waits;
    forall j | 0 <= j < |h.waiters| ensures Waits(h, h.waiters[j]) {
      var k := if j < i then j else j + 1;
      OtherWaits(g, h, g.waiters[i], g.waiters[k], fate, stage);
    }
  }

  /** The queue without its `i`-th waiter, whose ticket is settled and whose request moves on. */
  lemma RemovedQueueing(g: Gate, h: Gate, i: nat, fate: Fate, stage: Stage)
    requires Queueing(g) && i < |g.waiters| && !fate.Waiting? && !stage.InQueue?
    requires h.waiters == g.waiters[..i] + g.waiters[i + 1..] && h.fates == Settle(g.fates, g.waiters[i].ticket, fate)
    requires h.requests == g.requests[g.waiters[i].id := stage]
    ensures Queueing(h)
  {
    hide OldestFirst, AllWait, AllListed, AllPlaced;
    WaiterWaits(g, i);
    RemovedListed(g.waiters, g.fates, i, fate);
    RemovedPlaced(g.waiters, g.requests, i, stage);
    RemovedWait(g, h, i, fate, stage);
  }

  lemma QueueingKept(g: Gate, h: Gate)
    requires Queueing(g) && h.waiters == g.waiters && h.fates == g.fates
    requires forall id :: id in g.requests && g.requests[id].InQueue? ==> id in h.requests && h.requests[id] == g.requests[id]
    requires forall id :: id in h.requests && h.requests[id].InQueue? ==> id in g.requests && h.requests[id] == g.requests[id]
    ensures Queueing(h)
  {
    hide Position, Placed;
    forall i | 0 <= i < |h.waiters| ensures Waits(h, h.waiters[i]) {
      assert Waits(g, g.waiters[i]);
    }
  }

  lemma FirstWaits(g: Gate)
    requires Queueing(g) && |g.waiters| > 0
    ensures Waits(g, g.waiters[0])
    ensures forall t :: 0 <= t < g.waiters[0].ticket && t < |g.fates| ==> !g.fates[t].Waiting?
  {
    hide Waits;
  }

  lemma GrantParts(g: Gate)
    requires Counted(g) && Queueing(g) && |g.waiters| > 0
    ensures Counted(GrantFirst(g)) && Queueing(GrantFirst(g))
  {
    hide Counted, Queueing;
    var w := g.waiters[0];
    FirstWaits(g);
    HoldCounts(g, w.id, Read);
    SameCounts(Hold(g, w.id, Read), GrantFirst(g));
    assert g.waiters[..0] + g.waiters[0 + 1..] == g.waiters[1..];
    RemovedQueueing(g, GrantFirst(g), 0, Granted, Holding(Read));
  }

  /** Granting keeps the invariant, and stops only when the queue is empty or no slot is left for a read. */
  lemma {:induction false} GrantKeeps(g: Gate)
    requires Counted(g) && Limited(g) && Queueing(g)
    ensures GateInv(GrantWaiting(g))
    decreases |g.waiters|
  {
    if |g.waiters| > 0 && Roomy(g) {
      hide Counted, Queueing;
      GrantParts(g);
      GrantKeeps(GrantFirst(g));
    }
  }

  lemma AdmitKeeps(g: Gate, id: string, kind: Kind)
    requires GateInv(g)
    ensures GateInv(Admit(g, id, kind).0)
  {
    hide Counted, Queueing;
    if id !in g.requests {
      HoldCounts(g, id, kind);
      QueueingKept(g, Hold(g, id, kind));
      EnqueueQueueing(g, id);
      StageCounts(g, Enqueue(g, id), id, InQueue(|g.fates|));
    }
  }

  lemma ReleaseParts(g: Gate, id: string)
    requires GateInv(g) && id in g.requests && g.requests[id].Holding?
    ensures var h := Release(g, id, g.requests[id].kind); Counted(h) && Limited(h) && Queueing(h)
  {
    hide Queueing;
    RemoveCounts(g, id);
    QueueingKept(g, Release(g, id, g.requests[id].kind));
  }

  lemma FinishKeeps(g: Gate, id: string)
    requires GateInv(g)
    ensures GateInv(Finish(g, id))
  {
    hide Counted, Queueing;
    if id in g.requests && !g.requests[id].InQueue? {
      if g.requests[id].TurnedAway? {
        RemoveCounts(g, id);
        QueueingKept(g, Finish(g, id));
      } else {
        ReleaseParts(g, id);
        GrantKeeps(Release(g, id, g.requests[id].kind));
      }
    }
  }

  lemma TimeOutKeeps(g: Gate, ticket: nat)
    requires GateInv(g)
    ensures GateInv(TimeOut(g, ticket))
  {
    hide Counted, Queueing;
    var i := Position(g.waiters, ticket);
    if i < |g.waiters| {
      WaiterWaits(g, i);
      StageCounts(g, TimeOut(g, ticket), g.waiters[i].id, TurnedAway);
      RemovedQueueing(g, TimeOut(g, ticket), i, Expired, TurnedAway);
    }
  }

  lemma WaiterWaits(g: Gate, i: nat)
    requires Queueing(g) && i < |g.waiters|
    ensures Waits(g, g.waiters[i])
  {
    hide Waits, Position;
  }

  /** Every event keeps every limit, every count and the queue's order, and never leaves a slot idle while a read waits. */
  lemma NextKeeps(g: Gate, e: Event)
    requires GateInv(g)
    ensures GateInv(Next(g, e).0)
  {
    hide GateInv, Admit, TimeOut, Finish;
    match e
    case Arrive(id, kind) => AdmitKeeps(g, id, kind);
    case Expire(ticket) => TimeOutKeeps(g, ticket);
    case Leave(id) => FinishKeeps(g, id);
  }

  // ---------- what becomes of a queued read ----------

  /** Settled tickets keep their fate, none is granted while an older one waits, and new ones wait. */
  predicate Fair(before: seq<Fate>, after: seq<Fate>) {
    && |before| <= |after|
    && (forall t :: 0 <= t < |before| && !before[t].Waiting? ==> after[t] == before[t])
    && (forall t, u :: 0 <= t < u < |before| && before[u].Waiting? && after[u].Granted? ==> !after[t].Waiting?)
    && (forall t :: |before| <= t < |after| ==> after[t].Waiting?)
  }

  lemma FairGrant(fates: seq<Fate>, k: nat, after: seq<Fate>)
    requires k < |fates| == |after| && fates[k].Waiting? && (forall t :: 0 <= t < k ==> !fates[t].Waiting?)
    requires Fair(fates[k := Granted], after)
    ensures Fair(fates, after)
  {
    var first := fates[k := Granted];
    assert after[k] == first[k];
    forall t | 0 <= t < |fates| && !fates[t].Waiting? ensures after[t] == fates[t] {
      assert first[t] == fates[t];
    }
    forall t, u | 0 <= t < u < |fates| && fates[u].Waiting? && after[u].Granted? ensures !after[t].Waiting? {
      if t < k {
        assert first[t] == fates[t];
      } else if t > k {
        assert first[u] == fates[u];
      }
    }
  }

  lemma {:induction false} GrantFair(g: Gate)
    requires Counted(g) && Queueing(g)
    ensures Fair(g.fates, GrantWaiting(g).fates) && |GrantWaiting(g).fates| == |g.fates|
    decreases |g.waiters|
  {
    hide Counted, Queueing;
    if |g.waiters| > 0 && Roomy(g) {
      GrantParts(g);
      FirstWaits(g);
      GrantFair(GrantFirst(g));
      FairGrant(g.fates, g.waiters[0].ticket, GrantWaiting(g).fates);
    }
  }

  lemma NextFair(g: Gate, e: Event)
    requires GateInv(g)
    ensures Fair(g.fates, Next(g, e).0.fates)
  {
    hide Counted, Queueing;
    match e {
      case Leave(id) =>
        if id in g.requests && g.requests[id].Holding? {
          ReleaseParts(g, id);
          GrantFair(Release(g, id, g.requests[id].kind));
        }
      case Expire(ticket) =>
        var i := Position(g.waiters, ticket);
        if i < |g.waiters| {
          WaiterWaits(g, i);
        }
      case _ =>
    }
  }

  // ---------- runs ----------

  ghost predicate IsGateRun(gates: seq<Gate>, events: seq<Event>) {
    && |gates| == |events| + 1 && gates[0] == OPEN
    && forall i :: 0 <= i < |events| ==> gates[i + 1] == Next(gates[i], events[i]).0
  }

  lemma GateRunStep(gates: seq<Gate>, events: seq<Event>, i: nat)
    requires IsGateRun(gates, events) && i < |events|
    ensures |gates| == |events| + 1 && gates[i + 1] == Next(gates[i], events[i]).0
  {
    hide Next;
  }

  lemma OpenInv()
    ensures GateInv(OPEN)
  {
    assert Holders(OPEN, Read) == {} && Holders(OPEN, Ordinary) == {} && Holders(OPEN, Protective) == {};
  }

  lemma {:induction false} GateRunInv(gates: seq<Gate>, events: seq<Event>, i: nat)
    requires IsGateRun(gates, events) && i < |gates|
    ensures GateInv(gates[i])
  {
    hide Next, GateInv;
    if i == 0 {
      OpenInv();
    } else {
      GateRunInv(gates, events, i - 1);
      GateRunStep(gates, events, i - 1);
      NextKeeps(gates[i - 1], events[i - 1]);
    }
  }

  /** In every reachable state: read slots within shared slots within seven, all slots within eight, at most a hundred waiters, and
      waiters only while seven shared or eight slots are taken. */
  lemma GateLimits(gates: seq<Gate>, events: seq<Event>, i: nat)
    requires IsGateRun(gates, events) && i < |gates|
    ensures var g := gates[i];
            && g.readonly == |Holders(g, Read)| <= g.normal == |Holders(g, Read)| + |Holders(g, Ordinary)| <= MAX_READ_INFLIGHT
            && g.inflight == g.normal + |Holders(g, Protective)| <= MAX_INFLIGHT
            && |g.waiters| <= MAX_READ_WAITERS
            && (|g.waiters| > 0 ==> g.normal == MAX_READ_INFLIGHT || g.inflight == MAX_INFLIGHT)
  {
    hide IsGateRun, Queueing, Holders;
    GateRunInv(gates, events, i);
  }

  /** A protective command is refused only while another one holds a slot; ordinary work and fresh reads never pass a waiting read. */
  lemma AdmissionOrder(gates: seq<Gate>, events: seq<Event>, i: nat)
    requires IsGateRun(gates, events) && i < |events| < |gates| && events[i].Arrive?
    ensures var g, e, outcome := gates[i], events[i], Next(gates[i], events[i]).1;
            && (outcome.Busy? && e.kind.Protective? ==> Holders(g, Protective) != {})
            && (outcome.Admitted? && !e.kind.Protective? ==> |g.waiters| == 0)
            && (outcome.Busy? && e.kind.Read? ==> |g.waiters| == MAX_READ_WAITERS)
            && (outcome.Busy? || outcome.AlreadyInFlight? ==> gates[i + 1] == g)
  {
    hide IsGateRun, Queueing, Holders;
    GateRunInv(gates, events, i);
    GateRunStep(gates, events, i);
    assert Holders(gates[i], Protective) == {} ==> |Holders(gates[i], Protective)| == 0;
  }

  /** Every queued read is settled at most once, for good; and once a read has been granted no older one is still waiting, ever. */
  lemma {:induction false} GrantsAreFifo(gates: seq<Gate>, events: seq<Event>, i: nat, j: nat)
    requires IsGateRun(gates, events) && i <= j < |gates|
    ensures var before, after := gates[i].fates, gates[j].fates;
            && |before| <= |after|
            && (forall t :: 0 <= t < |before| && !before[t].Waiting? ==> after[t] == before[t])
            && (forall t, u :: 0 <= t < u < |after| && after[u].Granted? ==> !after[t].Waiting?)
    decreases j
  {
    hide Next, GateInv;
    if j > 0 {
      GrantsAreFifo(gates, events, if i == j then i - 1 else i, j - 1);
      GateRunInv(gates, events, j - 1);
      GateRunStep(gates, events, j - 1);
      NextFair(gates[j - 1], events[j - 1]);
    }
  }

  /** A read still waiting is the queue's own: when it is granted next depends only on those before it, and every slot given up is
      passed to the head of the queue in the same step. */
  lemma SlotIsPassedOn(gates: seq<Gate>, events: seq<Event>, i: nat, id: string)
    requires IsGateRun(gates, events) && i < |events| < |gates| && events[i] == Leave(id)
    requires id in gates[i].requests && gates[i].requests[id].Holding? && !gates[i].requests[id].kind.Protective?
    requires |gates[i].waiters| > 0
    ensures gates[i].waiters[0].ticket < |gates[i + 1].fates| && gates[i + 1].fates[gates[i].waiters[0].ticket].Granted?
    ensures gates[i + 1].normal == gates[i].normal || gates[i + 1].waiters == []
  {
    hide Queueing, IsGateRun, Next, Holders;
    GateRunInv(gates, events, i);
    GateRunStep(gates, events, i);
    var g := gates[i];
    var h := Release(g, id, g.requests[id].kind);
    ReleaseParts(g, id);
    LeaveIs(g, id);
    GrantHead(h);
    GateRunInv(gates, events, i + 1);
    GrantSlots(h);
  }

  lemma LeaveIs(g: Gate, id: string)
    requires id in g.requests && g.requests[id].Holding?
    ensures Next(g, Leave(id)).0 == GrantWaiting(Release(g, id, g.requests[id].kind))
  {
    hide GrantWaiting;
  }

  lemma GrantHead(g: Gate)
    requires Counted(g) && Queueing(g) && |g.waiters| > 0 && Roomy(g)
    ensures g.waiters[0].ticket < |GrantWaiting(g).fates| && GrantWaiting(g).fates[g.waiters[0].ticket].Granted?
  {
    hide Counted, Queueing;
    FirstWaits(g);
    GrantParts(g);
    GrantFair(GrantFirst(g));
  }

  lemma {:induction false} GrantSlots(g: Gate)
    ensures var h := GrantWaiting(g); h.normal - g.normal == h.inflight - g.inflight == |g.waiters| - |h.waiters| >= 0
    ensures var h := GrantWaiting(g); |h.waiters| == 0 || !Roomy(h)
    decreases |g.waiters|
  {
    if |g.waiters| > 0 && Roomy(g) {
      GrantSlots(GrantFirst(g));
    }
  }

  // ---------- the controller ----------

  /** The counters and the queue as the worker keeps and updates them. */
  class Controller {
    var inflight: int
    var readonlyInflight: int
    var normalInflight: int
    var waiters: seq<Waiter>
    var requests: map<string, Stage>
    var nextTicket: nat
    ghost var fates: seq<Fate>

    ghost function State(): Gate
      reads this
    {
      Gate(inflight, readonlyInflight, normalInflight, waiters, requests, fates)
    }

    ghost predicate Valid()
      reads this
    {
      GateInv(State()) && nextTicket == |fates|
    }

    constructor ()
      ensures Valid() && State() == OPEN
    {
      inflight, readonlyInflight, normalInflight := 0, 0, 0;
      waiters, requests, nextTicket, fates := [], map[], 0, [];
      OpenInv();
    }

    /** Hands free slots to waiting reads, oldest first. */
    method GrantWaitingReads()
      requires Counted(State()) && Limited(State()) && Queueing(State()) && nextTicket == |fates|
      modifies this
      ensures Valid() && State() == GrantWaiting(old(State()))
    {
      hide Counted, Queueing, Limited;
      GrantKeeps(State());
      while |waiters| > 0 && normalInflight < MAX_READ_INFLIGHT && inflight < MAX_INFLIGHT
        invariant GrantWaiting(State()) == GrantWaiting(old(State())) && nextTicket == |fates|
        decreases |waiters|
      {
        var next := waiters[0];
        waiters := waiters[1..];
        readonlyInflight := readonlyInflight + 1;
        normalInflight := normalInflight + 1;
        inflight := inflight + 1;
        requests := requests[next.id := Holding(Read)];
        fates := Settle(fates, next.ticket, Granted);
      }
    }

    /** Admits, queues or refuses a request, or refuses it as one already being handled. */
    method Dispatch(id: string, kind: Kind) returns (outcome: Outcome)
      requires Valid()
      modifies this
      ensures Valid() && (State(), outcome) == Next(old(State()), Arrive(id, kind))
    {
      hide GateInv;
      AdmitKeeps(State(), id, kind);
      if id in requests {
        return AlreadyInFlight;
      }
      match kind {
        case Read =>
          if |waiters| == 0 && normalInflight < MAX_READ_INFLIGHT && inflight < MAX_INFLIGHT {
            readonlyInflight, normalInflight, inflight := readonlyInflight + 1, normalInflight + 1, inflight + 1;
            requests := requests[id := Holding(Read)];
            outcome := Admitted;
          } else if |waiters| >= MAX_READ_WAITERS {
            outcome := Busy;
          } else {
            outcome := Queued(nextTicket);
            waiters := waiters + [Waiter(nextTicket, id)];
            requests := requests[id := InQueue(nextTicket)];
            fates := fates + [Waiting];
            nextTicket := nextTicket + 1;
          }
        case Protective =>
          if inflight >= MAX_INFLIGHT {
            return Busy;
          }
          inflight := inflight + 1;
          requests := requests[id := Holding(Protective)];
          outcome := Admitted;
        case Ordinary =>
          if normalInflight >= MAX_READ_INFLIGHT || inflight >= MAX_INFLIGHT {
            return Busy;
          }
          normalInflight, inflight := normalInflight + 1, inflight + 1;
          requests := requests[id := Holding(Ordinary)];
          outcome := Admitted;
      }
    }

    /** The timer of a queued read: it does nothing once the read has been granted. */
    method TimerFires(ticket: nat)
      requires Valid()
      modifies this
      ensures Valid() && State() == Next(old(State()), Expire(ticket)).0
    {
      hide GateInv, Position;
      TimeOutKeeps(State(), ticket);
      var index := Position(waiters, ticket);
      if index < |waiters| {
        requests := requests[waiters[index].id := TurnedAway];
        waiters := waiters[..index] + waiters[index + 1..];
        fates := Settle(fates, ticket, Expired);
      }
    }

    /** The end of a request's handling, however it ended. */
    method Finally(id: string)
      requires Valid()
      modifies this
      ensures Valid() && State() == Next(old(State()), Leave(id)).0
    {
      hide GateInv, Counted, Limited, Queueing, GrantWaiting;
      FinishKeeps(State(), id);
      if id in requests && requests[id].TurnedAway? {
        requests := requests - {id};
      } else if id in requests && requests[id].Holding? {
        var kind := requests[id].kind;
        ReleaseParts(State(), id);
        inflight := inflight - 1;
        if !kind.Protective? {
          normalInflight := normalInflight - 1;
        }
        if kind.Read? {
          readonlyInflight := readonlyInflight - 1;
        }
        requests := requests - {id};
        GrantWaitingReads();
      }
    }
  }
}
