/** The search for forbidden transitive dependencies: breadth first from each pure crate, never through a forbidden one. */
module Architecture {

  datatype Crate = Crate(name: string)

  type Graph = map<Crate, set<Crate>>

  /** A dependency in the workspace that is not forbidden. */
  predicate Follows(graph: Graph, forbidden: set<Crate>, u: Crate, v: Crate) {
    u in graph && v in graph[u] && v in graph && v !in forbidden
  }

  /** A way from the target along dependencies that are in the workspace and not forbidden. */
  predicate IsPath(graph: Graph, forbidden: set<Crate>, target: Crate, p: seq<Crate>) {
    && |p| > 0 && p[0] == target && target in graph
    && forall i, j :: 0 <= i && j == i + 1 < |p| ==> Follows(graph, forbidden, p[i], p[j])
  }

  predicate Leads(graph: Graph, forbidden: set<Crate>, target: Crate, p: seq<Crate>, u: Crate) {
    IsPath(graph, forbidden, target, p) && p[|p| - 1] == u
  }

  ghost predicate Reachable(graph: Graph, forbidden: set<Crate>, target: Crate, u: Crate) {
    exists p :: Leads(graph, forbidden, target, p, u)
  }

  ghost predicate Shortest(graph: Graph, forbidden: set<Crate>, target: Crate, p: seq<Crate>, u: Crate) {
    Leads(graph, forbidden, target, p, u) && forall q :: Leads(graph, forbidden, target, q, u) ==> |p| <= |q|
  }

  /** A reported violation: the way to the owner, and the forbidden dependency at its end. */
  function OwnerPath(e: seq<Crate>): (p: seq<Crate>)
    requires |e| >= 2
    ensures |p| == |e| - 1 > 0
  {
    e[..|e| - 1]
  }

  function Owner(e: seq<Crate>): Crate
    requires |e| >= 2
  {
    e[|e| - 2]
  }

  function Dependency(e: seq<Crate>): Crate
    requires |e| >= 2
  {
    e[|e| - 1]
  }

  /** The edge leads from its owner into a forbidden crate, along a shortest way to the owner. */
  ghost predicate Justified(graph: Graph, forbidden: set<Crate>, target: Crate, e: seq<Crate>) {
    && |e| >= 2 && Owner(e) in graph && Dependency(e) in graph[Owner(e)] && Dependency(e) in forbidden
    && Shortest(graph, forbidden, target, OwnerPath(e), Owner(e))
  }

  predicate Reports(e: seq<Crate>, u: Crate, dep: Crate) {
    |e| >= 2 && Owner(e) == u && Dependency(e) == dep
  }

  predicate Reported(errors: seq<seq<Crate>>, u: Crate, dep: Crate) {
    exists i :: 0 <= i < |errors| && Reports(errors[i], u, dep)
  }

  predicate NoRepeats(errors: seq<seq<Crate>>) {
    forall i, j :: 0 <= i < j < |errors| && |errors[i]| >= 2 && |errors[j]| >= 2 ==> Owner(errors[i]) != Owner(errors[j]) || Dependency(errors[i]) != Dependency(errors[j])
  }

  // ---------- the search in progress ----------

  datatype Item = Item(owner: Crate, path: seq<Crate>)

  /** The queue is ordered by length, its lengths differ by at most one, and holds shortest ways. */
  ghost predicate QueueFits(graph: Graph, forbidden: set<Crate>, target: Crate, queue: seq<Item>, d: nat) {
    && (forall i :: 0 <= i < |queue| ==> Shortest(graph, forbidden, target, queue[i].path, queue[i].owner) && d <= |queue[i].path| <= d + 1)
    && (forall i, j :: 0 <= i < j < |queue| ==> |queue[i].path| <= |queue[j].path|)
  }

  /** Every visited crate is dealt with or waits in the queue exactly once. */
  ghost predicate QueueHolds(queue: seq<Item>, visited: set<Crate>, done: set<Crate>) {
    && (forall u :: u in visited <==> u in done || Waits(queue, u))
    && (forall i :: 0 <= i < |queue| ==> queue[i].owner !in done)
    && (forall i, j :: 0 <= i < j < |queue| ==> queue[i].owner != queue[j].owner)
  }

  predicate Waits(queue: seq<Item>, u: Crate) {
    exists i :: 0 <= i < |queue| && queue[i].owner == u
  }

  /** Everything within distance `d` has been visited. */
  ghost predicate VisitedWithin(graph: Graph, forbidden: set<Crate>, target: Crate, visited: set<Crate>, d: nat) {
    forall p, u :: Leads(graph, forbidden, target, p, u) && |p| <= d ==> u in visited
  }

  /** Whatever a dealt-with crate depends on has been visited. */
  ghost predicate Closed(graph: Graph, forbidden: set<Crate>, visited: set<Crate>, done: set<Crate>) {
    forall u, v :: u in done && Follows(graph, forbidden, u, v) ==> v in visited
  }

  /** Exactly the forbidden dependencies of the dealt-with crates have been reported, each once. */
  ghost predicate ErrorsFit(graph: Graph, forbidden: set<Crate>, target: Crate, errors: seq<seq<Crate>>, done: set<Crate>) {
    && (forall i :: 0 <= i < |errors| ==> Justified(graph, forbidden, target, errors[i]) && Owner(errors[i]) in done)
    && (forall u, dep :: u in done && u in graph && dep in graph[u] && dep in forbidden ==> Reported(errors, u, dep))
    && NoRepeats(errors)
  }

  lemma PathStep(graph: Graph, forbidden: set<Crate>, target: Crate, p: seq<Crate>, u: Crate, v: Crate)
    requires Leads(graph, forbidden, target, p, u) && Follows(graph, forbidden, u, v)
    ensures Leads(graph, forbidden, target, p + [v], v)
  {
    var q := p + [v];
    forall i, j | 0 <= i && j == i + 1 < |q| ensures Follows(graph, forbidden, q[i], q[j]) {
      if j < |p| {
        assert q[i] == p[i] && q[j] == p[j];
      }
    }
  }

  lemma PathBack(graph: Graph, forbidden: set<Crate>, target: Crate, p: seq<Crate>, v: Crate)
    requires Leads(graph, forbidden, target, p, v) && |p| >= 2
    ensures Leads(graph, forbidden, target, p[..|p| - 1], p[|p| - 2]) && Follows(graph, forbidden, p[|p| - 2], v)
  {
    var q := p[..|p| - 1];
    assert forall i :: 0 <= i < |q| ==> q[i] == p[i];
  }

  lemma PathInGraph(graph: Graph, forbidden: set<Crate>, target: Crate, p: seq<Crate>, u: Crate)
    requires Leads(graph, forbidden, target, p, u)
    ensures u in graph && |p| > 0
  {
    if |p| >= 2 {
      PathBack(graph, forbidden, target, p, u);
    }
  }

  /** A crate first seen from a crate at distance `d` is at distance `d + 1`. */
  lemma NewIsShortest(graph: Graph, forbidden: set<Crate>, target: Crate, visited: set<Crate>, p: seq<Crate>, u: Crate, v: Crate)
    requires Shortest(graph, forbidden, target, p, u) && VisitedWithin(graph, forbidden, target, visited, |p|)
    requires Follows(graph, forbidden, u, v) && v !in visited
    ensures Shortest(graph, forbidden, target, p + [v], v)
  {
    hide IsPath;
    PathStep(graph, forbidden, target, p, u, v);
  }

  /** Once nothing at distance `d` waits any more, everything within `d + 1` has been visited. */
  lemma NextDistance(graph: Graph, forbidden: set<Crate>, target: Crate, queue: seq<Item>, visited: set<Crate>, done: set<Crate>, d: nat)
    requires d > 0 && VisitedWithin(graph, forbidden, target, visited, d) && Closed(graph, forbidden, visited, done)
    requires QueueHolds(queue, visited, done)
    requires forall i :: 0 <= i < |queue| ==> Shortest(graph, forbidden, target, queue[i].path, queue[i].owner) && |queue[i].path| > d
    ensures VisitedWithin(graph, forbidden, target, visited, d + 1)
  {
    hide IsPath;
    forall p, v | Leads(graph, forbidden, target, p, v) && |p| <= d + 1 ensures v in visited {
      if |p| == d + 1 {
        PathBack(graph, forbidden, target, p, v);
        var w := p[|p| - 2];
        assert w in visited;
      }
    }
  }

  /** Once the queue is empty everything reachable has been dealt with. */
  lemma {:induction false} AllDone(graph: Graph, forbidden: set<Crate>, target: Crate, visited: set<Crate>, done: set<Crate>, p: seq<Crate>, u: Crate)
    requires target in visited && Closed(graph, forbidden, visited, done) && visited == done
    requires Leads(graph, forbidden, target, p, u)
    ensures u in done
    decreases |p|
  {
    if |p| >= 2 {
      PathBack(graph, forbidden, target, p, u);
      AllDone(graph, forbidden, target, visited, done, p[..|p| - 1], p[|p| - 2]);
    }
  }

  // ---------- the search ----------

  /** What holds between two turns of the search: `u` at the head of the queue is at distance `d`. */
  ghost predicate Searching(graph: Graph, forbidden: set<Crate>, target: Crate, queue: seq<Item>, visited: set<Crate>, done: set<Crate>, errors: seq<seq<Crate>>, d: nat) {
    && d > 0 && target in visited && visited <= graph.Keys
    && QueueFits(graph, forbidden, target, queue, d) && QueueHolds(queue, visited, done)
    && VisitedWithin(graph, forbidden, target, visited, d) && Closed(graph, forbidden, visited, done)
    && ErrorsFit(graph, forbidden, target, errors, done)
  }

  /** Within a turn: `rest` of the head's dependencies are still to be looked at. */
  ghost predicate Turning(graph: Graph, forbidden: set<Crate>, target: Crate, item: Item, rest: set<Crate>, queue: seq<Item>, visited: set<Crate>, done: set<Crate>, errors: seq<seq<Crate>>) {
    && item.owner in graph && rest <= graph[item.owner] && item.owner !in done && item.owner in visited
    && Shortest(graph, forbidden, target, item.path, item.owner)
    && target in visited && visited <= graph.Keys
    && QueueFits(graph, forbidden, target, queue, |item.path|) && QueueHolds(queue, visited, done + {item.owner})
    && VisitedWithin(graph, forbidden, target, visited, |item.path|) && Closed(graph, forbidden, visited, done)
    && (forall v :: v in graph[item.owner] && v !in rest && Follows(graph, forbidden, item.owner, v) ==> v in visited)
    && TurnErrors(graph, forbidden, target, item, rest, errors, done)
  }

  ghost predicate TurnErrors(graph: Graph, forbidden: set<Crate>, target: Crate, item: Item, rest: set<Crate>, errors: seq<seq<Crate>>, done: set<Crate>)
    requires item.owner in graph
  {
    && (forall i :: 0 <= i < |errors| ==>
          && Justified(graph, forbidden, target, errors[i])
          && (Owner(errors[i]) in done || (Owner(errors[i]) == item.owner && Dependency(errors[i]) !in rest)))
    && (forall u, dep :: u in done && u in graph && dep in graph[u] && dep in forbidden ==> Reported(errors, u, dep))
    && (forall dep :: dep in graph[item.owner] && dep !in rest && dep in forbidden ==> Reported(errors, item.owner, dep))
    && NoRepeats(errors)
  }

  lemma TurnStarts(graph: Graph, forbidden: set<Crate>, target: Crate, queue: seq<Item>, visited: set<Crate>, done: set<Crate>, errors: seq<seq<Crate>>, d: nat)
    requires Searching(graph, forbidden, target, queue, visited, done, errors, d) && |queue| > 0 && |queue[0].path| == d
    ensures queue[0].owner in graph
    ensures Turning(graph, forbidden, target, queue[0], graph[queue[0].owner], queue[1..], visited, done, errors)
  {
    hide IsPath, QueueFits, QueueHolds, VisitedWithin, Closed, Justified, Reported, NoRepeats, Shortest;
    var item := queue[0];
    PopFits(graph, forbidden, target, queue, d);
    PopHolds(queue, visited, done);
    ShortestInGraph(graph, forbidden, target, item.path, item.owner);
  }

  lemma ShortestInGraph(graph: Graph, forbidden: set<Crate>, target: Crate, p: seq<Crate>, u: Crate)
    requires Shortest(graph, forbidden, target, p, u)
    ensures u in graph && |p| > 0
  {
    hide IsPath;
    PathInGraph(graph, forbidden, target, p, u);
  }

  lemma PopFits(graph: Graph, forbidden: set<Crate>, target: Crate, queue: seq<Item>, d: nat)
    requires QueueFits(graph, forbidden, target, queue, d) && |queue| > 0
    ensures QueueFits(graph, forbidden, target, queue[1..], d) && Shortest(graph, forbidden, target, queue[0].path, queue[0].owner)
  {
    hide Shortest;
    assert forall i :: 0 <= i < |queue[1..]| ==> queue[1..][i] == queue[i + 1];
  }

  lemma PopHolds(queue: seq<Item>, visited: set<Crate>, done: set<Crate>)
    requires QueueHolds(queue, visited, done) && |queue| > 0
    ensures QueueHolds(queue[1..], visited, done + {queue[0].owner}) && queue[0].owner in visited && queue[0].owner !in done
  {
    var item, rest := queue[0], queue[1..];
    assert Waits(queue, item.owner);
    assert forall i :: 0 <= i < |rest| ==> rest[i] == queue[i + 1];
    forall u | u in visited ensures u in done + {item.owner} || Waits(rest, u) {
      if u !in done && u != item.owner {
        var i :| 0 <= i < |queue| && queue[i].owner == u;
        assert rest[i - 1].owner == u;
      }
    }
    forall u | Waits(rest, u) ensures Waits(queue, u) {
      var i :| 0 <= i < |rest| && rest[i].owner == u;
      assert queue[i + 1].owner == u;
    }
  }

  lemma Forbids(graph: Graph, forbidden: set<Crate>, target: Crate, item: Item, rest: set<Crate>, queue: seq<Item>, visited: set<Crate>, done: set<Crate>, errors: seq<seq<Crate>>, dep: Crate)
    requires Turning(graph, forbidden, target, item, rest, queue, visited, done, errors) && dep in rest && dep in forbidden
    ensures Turning(graph, forbidden, target, item, rest - {dep}, queue, visited, done, errors + [item.path + [dep]])
  {
    hide IsPath, QueueFits, QueueHolds, VisitedWithin, Closed;
    PathInGraph(graph, forbidden, target, item.path, item.owner);
    var e, all := item.path + [dep], errors + [item.path + [dep]];
    assert OwnerPath(e) == item.path && Owner(e) == item.owner && Dependency(e) == dep;
    assert Reports(all[|errors|], item.owner, dep);
    forall u, x | Reported(errors, u, x) ensures Reported(all, u, x) {
      var i :| 0 <= i < |errors| && Reports(errors[i], u, x);
      assert Reports(all[i], u, x);
    }
  }

  lemma Visits(graph: Graph, forbidden: set<Crate>, target: Crate, item: Item, rest: set<Crate>, queue: seq<Item>, visited: set<Crate>, done: set<Crate>, errors: seq<seq<Crate>>, dep: Crate)
    requires Turning(graph, forbidden, target, item, rest, queue, visited, done, errors)
    requires dep in rest && dep !in forbidden && dep in graph && dep !in visited
    ensures Turning(graph, forbidden, target, item, rest - {dep}, queue + [Item(dep, item.path + [dep])], visited + {dep}, done, errors)
  {
    hide IsPath, TurnErrors;
    NewIsShortest(graph, forbidden, target, visited, item.path, item.owner, dep);
    TurnErrorsLess(graph, forbidden, target, item, rest, errors, done, dep);
    QueueGrows(graph, forbidden, target, queue, visited, done + {item.owner}, |item.path|, Item(dep, item.path + [dep]));
  }

  lemma QueueGrows(graph: Graph, forbidden: set<Crate>, target: Crate, queue: seq<Item>, visited: set<Crate>, done: set<Crate>, d: nat, next: Item)
    requires QueueFits(graph, forbidden, target, queue, d) && QueueHolds(queue, visited, done)
    requires Shortest(graph, forbidden, target, next.path, next.owner) && |next.path| == d + 1 && next.owner !in visited
    ensures QueueFits(graph, forbidden, target, queue + [next], d) && QueueHolds(queue + [next], visited + {next.owner}, done)
  {
    hide Shortest;
    var after := queue + [next];
    assert after[|queue|] == next;
    forall u ensures Waits(after, u) <==> Waits(queue, u) || u == next.owner {
      if Waits(queue, u) {
        var i :| 0 <= i < |queue| && queue[i].owner == u;
        assert after[i].owner == u;
      }
    }
    assert forall i :: 0 <= i < |queue| ==> Waits(queue, queue[i].owner);
  }

  lemma TurnErrorsLess(graph: Graph, forbidden: set<Crate>, target: Crate, item: Item, rest: set<Crate>, errors: seq<seq<Crate>>, done: set<Crate>, dep: Crate)
    requires item.owner in graph && TurnErrors(graph, forbidden, target, item, rest, errors, done) && dep !in forbidden
    ensures TurnErrors(graph, forbidden, target, item, rest - {dep}, errors, done)
  {
    hide Reported;
  }

  lemma Passes(graph: Graph, forbidden: set<Crate>, target: Crate, item: Item, rest: set<Crate>, queue: seq<Item>, visited: set<Crate>, done: set<Crate>, errors: seq<seq<Crate>>, dep: Crate)
    requires Turning(graph, forbidden, target, item, rest, queue, visited, done, errors)
    requires dep in rest && dep !in forbidden && (dep !in graph || dep in visited)
    ensures Turning(graph, forbidden, target, item, rest - {dep}, queue, visited, done, errors)
  {
    hide IsPath, QueueFits, QueueHolds, VisitedWithin, Closed, TurnErrors;
    TurnErrorsLess(graph, forbidden, target, item, rest, errors, done, dep);
  }

  lemma TurnEnds(graph: Graph, forbidden: set<Crate>, target: Crate, item: Item, queue: seq<Item>, visited: set<Crate>, done: set<Crate>, errors: seq<seq<Crate>>)
    requires Turning(graph, forbidden, target, item, {}, queue, visited, done, errors)
    ensures |queue| > 0 && |queue[0].path| == |item.path| ==> Searching(graph, forbidden, target, queue, visited, done + {item.owner}, errors, |item.path|)
    ensures !(|queue| > 0 && |queue[0].path| == |item.path|) ==> Searching(graph, forbidden, target, queue, visited, done + {item.owner}, errors, |item.path| + 1)
  {
    hide IsPath, QueueHolds, VisitedWithin;
    PathInGraph(graph, forbidden, target, item.path, item.owner);
    assert forall i :: 0 < i < |queue| ==> |queue[0].path| <= |queue[i].path|;
    if !(|queue| > 0 && |queue[0].path| == |item.path|) {
      NextDistance(graph, forbidden, target, queue, visited, done + {item.owner}, |item.path|);
    }
  }

  lemma SearchStarts(graph: Graph, forbidden: set<Crate>, target: Crate)
    requires target in graph
    ensures Searching(graph, forbidden, target, [Item(target, [target])], {target}, {}, [], 1)
  {
    assert Leads(graph, forbidden, target, [target], target);
    assert Waits([Item(target, [target])], target) by {
      assert [Item(target, [target])][0].owner == target;
    }
  }

  /** What is reported for one pure crate: an edge into a forbidden crate exactly when its owner is reachable without crossing one, once,
      along a shortest way. */
  ghost predicate Complete(graph: Graph, forbidden: set<Crate>, target: Crate, errors: seq<seq<Crate>>) {
    && (forall i :: 0 <= i < |errors| ==> Justified(graph, forbidden, target, errors[i]))
    && (forall u, dep :: Reachable(graph, forbidden, target, u) && u in graph && dep in graph[u] && dep in forbidden ==> Reported(errors, u, dep))
    && NoRepeats(errors)
  }

  lemma SearchEnds(graph: Graph, forbidden: set<Crate>, target: Crate, visited: set<Crate>, done: set<Crate>, errors: seq<seq<Crate>>, d: nat)
    requires Searching(graph, forbidden, target, [], visited, done, errors, d)
    ensures Complete(graph, forbidden, target, errors)
  {
    hide IsPath, Reported, Justified;
    var none: seq<Item> := [];
    assert forall u :: !Waits(none, u);
    assert visited == done;
    forall u | Reachable(graph, forbidden, target, u) ensures u in done {
      var p :| Leads(graph, forbidden, target, p, u);
      AllDone(graph, forbidden, target, visited, done, p, u);
    }
  }

  /** The search from one crate. */
  method Search(graph: Graph, forbidden: set<Crate>, target: Crate) returns (errors: seq<seq<Crate>>)
    requires target in graph
    ensures Complete(graph, forbidden, target, errors)
  {
    hide *;
    errors := [];
    var visited := {target};
    var queue := [Item(target, [target])];
    ghost var done: set<Crate> := {};
    ghost var d: nat := 1;
    SearchStarts(graph, forbidden, target);
    while |queue| > 0
      invariant Searching(graph, forbidden, target, queue, visited, done, errors, d)
      decreases |graph.Keys - done|
    {
      var item := queue[0];
      HeadDistance(graph, forbidden, target, queue, visited, done, errors, d);
      d := |item.path|;
      TurnStarts(graph, forbidden, target, queue, visited, done, errors, d);
      queue := queue[1..];
      var rest := graph[item.owner];
      while rest != {}
        invariant Turning(graph, forbidden, target, item, rest, queue, visited, done, errors)
        decreases |rest|
      {
        var dep :| dep in rest;
        if dep in forbidden {
          Forbids(graph, forbidden, target, item, rest, queue, visited, done, errors, dep);
          errors := errors + [item.path + [dep]];
        } else if dep in graph && dep !in visited {
          Visits(graph, forbidden, target, item, rest, queue, visited, done, errors, dep);
          visited := visited + {dep};
          queue := queue + [Item(dep, item.path + [dep])];
        } else {
          Passes(graph, forbidden, target, item, rest, queue, visited, done, errors, dep);
        }
        rest := rest - {dep};
      }
      TurnEnds(graph, forbidden, target, item, queue, visited, done, errors);
      FewerLeft(graph, forbidden, target, item, rest, queue, visited, done, errors);
      d := if |queue| > 0 && |queue[0].path| == |item.path| then |item.path| else |item.path| + 1;
      done := done + {item.owner};
    }
    SearchEnds(graph, forbidden, target, visited, done, errors, d);
  }

  lemma FewerLeft(graph: Graph, forbidden: set<Crate>, target: Crate, item: Item, rest: set<Crate>, queue: seq<Item>, visited: set<Crate>, done: set<Crate>, errors: seq<seq<Crate>>)
    requires Turning(graph, forbidden, target, item, rest, queue, visited, done, errors)
    ensures |graph.Keys - (done + {item.owner})| < |graph.Keys - done|
  {
    hide IsPath, QueueFits, QueueHolds, VisitedWithin, Closed, TurnErrors, Shortest;
    assert graph.Keys - done == (graph.Keys - (done + {item.owner})) + {item.owner};
  }

  /** The head of the queue may already be one step further than `d`. */
  lemma HeadDistance(graph: Graph, forbidden: set<Crate>, target: Crate, queue: seq<Item>, visited: set<Crate>, done: set<Crate>, errors: seq<seq<Crate>>, d: nat)
    requires Searching(graph, forbidden, target, queue, visited, done, errors, d) && |queue| > 0
    ensures Searching(graph, forbidden, target, queue, visited, done, errors, |queue[0].path|)
  {
    hide IsPath, Closed, ErrorsFit;
    if |queue[0].path| != d {
      NextDistance(graph, forbidden, target, queue, visited, done, d);
    }
  }

  // ---------- all pure crates ----------

  datatype Finding = MissingCrate(target: Crate) | ForbiddenDependency(path: seq<Crate>)

  /** A finding tells of a pure crate missing from the workspace, or of one justified violation. */
  ghost predicate Explained(graph: Graph, forbidden: set<Crate>, target: Crate, f: Finding) {
    match f
    case MissingCrate(x) => x == target && target !in graph
    case ForbiddenDependency(e) => target in graph && Justified(graph, forbidden, target, e)
  }

  ghost predicate AnyExplained(graph: Graph, forbidden: set<Crate>, targets: seq<Crate>, f: Finding) {
    exists k :: 0 <= k < |targets| && Explained(graph, forbidden, targets[k], f)
  }

  predicate Lists(findings: seq<Finding>, f: Finding) {
    f in findings
  }

  ghost predicate AllListed(findings: seq<Finding>, errors: seq<seq<Crate>>) {
    forall i :: 0 <= i < |errors| ==> Lists(findings, ForbiddenDependency(errors[i]))
  }

  /** Everything there is to find for one pure crate has been found. */
  ghost predicate Found(graph: Graph, forbidden: set<Crate>, target: Crate, findings: seq<Finding>) {
    if target !in graph then Lists(findings, MissingCrate(target))
    else exists errors :: Complete(graph, forbidden, target, errors) && AllListed(findings, errors)
  }

  function Wrapped(errors: seq<seq<Crate>>): (r: seq<Finding>)
    ensures |r| == |errors| && forall i :: 0 <= i < |r| ==> r[i] == ForbiddenDependency(errors[i])
  {
    seq(|errors|, i requires 0 <= i < |errors| => ForbiddenDependency(errors[i]))
  }

  lemma FoundStays(graph: Graph, forbidden: set<Crate>, target: Crate, findings: seq<Finding>, more: seq<Finding>)
    requires Found(graph, forbidden, target, findings)
    ensures Found(graph, forbidden, target, findings + more)
  {
    hide Complete;
    if target in graph {
      var errors :| Complete(graph, forbidden, target, errors) && AllListed(findings, errors);
      assert forall f :: Lists(findings, f) ==> Lists(findings + more, f);
      assert AllListed(findings + more, errors);
    }
  }

  lemma FoundNow(graph: Graph, forbidden: set<Crate>, target: Crate, findings: seq<Finding>, errors: seq<seq<Crate>>)
    requires target in graph && Complete(graph, forbidden, target, errors)
    ensures Found(graph, forbidden, target, findings + Wrapped(errors))
    ensures forall i :: 0 <= i < |errors| ==> Explained(graph, forbidden, target, Wrapped(errors)[i])
  {
    hide Reachable, Reported, NoRepeats, Justified;
    var after := findings + Wrapped(errors);
    forall i | 0 <= i < |errors| ensures Lists(after, ForbiddenDependency(errors[i])) {
      assert after[|findings| + i] == ForbiddenDependency(errors[i]);
    }
    assert AllListed(after, errors);
  }

  /** For every pure crate: that it is missing from the workspace, or all its violations and nothing else. */
  method PureDependencyViolations(graph: Graph, targets: seq<Crate>, forbidden: set<Crate>) returns (findings: seq<Finding>)
    ensures forall i :: 0 <= i < |findings| ==> AnyExplained(graph, forbidden, targets, findings[i])
    ensures forall k :: 0 <= k < |targets| ==> Found(graph, forbidden, targets[k], findings)
  {
    hide Complete, Justified;
    findings := [];
    for n := 0 to |targets|
      invariant forall i :: 0 <= i < |findings| ==> AnyExplained(graph, forbidden, targets, findings[i])
      invariant forall k :: 0 <= k < n ==> Found(graph, forbidden, targets[k], findings)
    {
      var target := targets[n];
      var more: seq<Finding> := [MissingCrate(target)];
      if target in graph {
        var errors := Search(graph, forbidden, target);
        more := Wrapped(errors);
        FoundNow(graph, forbidden, target, findings, errors);
      } else {
        assert (findings + more)[|findings|] == MissingCrate(target);
      }
      forall k | 0 <= k < n ensures Found(graph, forbidden, targets[k], findings + more) {
        FoundStays(graph, forbidden, targets[k], findings, more);
      }
      forall i | 0 <= i < |more| ensures AnyExplained(graph, forbidden, targets, more[i]) {
        assert Explained(graph, forbidden, targets[n], more[i]);
      }
      findings := findings + more;
    }
  }
}
