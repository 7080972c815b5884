/** The compiler's breadth-first walks, each proved to decide a statement about paths. */
module Walks {
  import opened Graphs

  /** How many nodes a walk has still to mark. */
  function Unmarked(visited: seq<bool>): (r: nat)
    ensures r <= |visited|
  {
    if visited == [] then 0 else Unmarked(visited[..|visited| - 1]) + (if visited[|visited| - 1] then 0 else 1)
  }

  lemma {:induction false} MarkOne(visited: seq<bool>, v: nat)
    requires v < |visited| && !visited[v]
    ensures Unmarked(visited[v := true]) + 1 == Unmarked(visited)
  {
    var last := |visited| - 1;
    if v == last {
      assert visited[v := true][..last] == visited[..last];
    } else {
      MarkOne(visited[..last], v);
      assert visited[v := true][..last] == visited[..last][v := true];
    }
  }

  /** Every marked node is reached, and the edges out of marked nodes lead to marked nodes, except
      from the nodes still waiting in `queue`. */
  ghost predicate Frontier(g: Graph, start: nat, visited: seq<bool>, queue: seq<nat>) {
    && start < |visited| == g.size
    && (forall v | 0 <= v < g.size && visited[v] :: Reaches(g, start, v))
    && (forall e | 0 <= e < |g.edges| :: g.edges[e].from < g.size && g.edges[e].to < g.size
          && (visited[g.edges[e].from] && g.edges[e].from !in queue ==> visited[g.edges[e].to]))
  }

  /** With nothing left to visit, the marks are exactly the reachable nodes. */
  lemma FrontierDone(g: Graph, start: nat, visited: seq<bool>)
    requires Frontier(g, start, visited, []) && visited[start]
    ensures forall v | 0 <= v < g.size :: visited[v] <==> Reaches(g, start, v)
  {
    var closed := MarkedSet(visited);
    forall v | 0 <= v < g.size && Reaches(g, start, v) ensures visited[v] {
      ReachedStaysIn(g, start, v, closed);
    }
  }

  ghost function MarkedSet(visited: seq<bool>): (r: set<nat>)
    ensures forall v: nat :: v in r <==> v < |visited| && visited[v]
  {
    if visited == [] then {}
    else
      var last := |visited| - 1;
      MarkedSet(visited[..last]) + (if visited[last] then {last} else {})
  }

  /** What one visit does: the unmarked successors of `current` are marked and queued. */
  ghost predicate Expanded(g: Graph, current: nat, visited: seq<bool>, queue: seq<nat>, visited': seq<bool>, queue': seq<nat>) {
    && |visited'| == |visited| == g.size
    && (forall v | 0 <= v < g.size && visited[v] :: visited'[v])
    && (forall v | 0 <= v < g.size && visited'[v] && !visited[v] :: v in queue' && Adjoins(g, current, v))
    && (forall q <- queue :: q in queue')
    && (forall q <- queue' :: q in queue || (q < g.size && visited'[q]))
    && (forall e: nat | OutOf(g, current, e) :: g.edges[e].to < g.size && visited'[g.edges[e].to])
    && (Unmarked(visited') < Unmarked(visited) || (visited' == visited && queue' == queue))
  }

  ghost predicate Adjoins(g: Graph, v: nat, w: nat) {
    exists e :: 0 <= e < |g.edges| && g.edges[e].from == v && g.edges[e].to == w
  }

  lemma AdjoinsReaches(g: Graph, start: nat, v: nat, w: nat)
    requires Reaches(g, start, v) && Adjoins(g, v, w)
    ensures Reaches(g, start, w)
  {
    var e :| 0 <= e < |g.edges| && g.edges[e].from == v && g.edges[e].to == w;
    EdgeReaches(g, e);
    ReachesTrans(g, start, v, w);
  }

  lemma FrontierNext(g: Graph, start: nat, visited: seq<bool>, current: nat, queue: seq<nat>, visited': seq<bool>, queue': seq<nat>)
    requires Indexed(g) && current < g.size
    requires Frontier(g, start, visited, [current] + queue) && visited[current]
    requires Expanded(g, current, visited, queue, visited', queue')
    ensures Frontier(g, start, visited', queue')
  {
    forall v | 0 <= v < g.size && visited'[v] ensures Reaches(g, start, v) {
      if !visited[v] {
        AdjoinsReaches(g, start, current, v);
      }
    }
  }

  method Expand(g: Graph, current: nat, visited: seq<bool>, queue: seq<nat>) returns (visited': seq<bool>, queue': seq<nat>)
    requires Indexed(g) && current < g.size == |visited|
    ensures Expanded(g, current, visited, queue, visited', queue')
  {
    visited', queue' := visited, queue;
    var adjacent := g.outgoing[current];
    for i := 0 to |adjacent|
      invariant |visited'| == g.size
      invariant forall v | 0 <= v < g.size && visited[v] :: visited'[v]
      invariant forall v | 0 <= v < g.size && visited'[v] && !visited[v] :: v in queue' && Adjoins(g, current, v)
      invariant forall q <- queue :: q in queue'
      invariant forall q <- queue' :: q in queue || (q < g.size && visited'[q])
      invariant forall j | 0 <= j < i :: OutOf(g, current, adjacent[j]) && g.edges[adjacent[j]].to < g.size && visited'[g.edges[adjacent[j]].to]
      invariant Unmarked(visited') < Unmarked(visited) || (visited' == visited && queue' == queue)
    {
      var e := adjacent[i];
      assert OutOf(g, current, e);
      var candidate := g.edges[e].to;
      if !visited'[candidate] {
        MarkOne(visited', candidate);
        visited' := visited'[candidate := true];
        queue' := queue' + [candidate];
      }
    }
  }

  /** `Plan.walk` along outgoing edges. */
  method Walk(g: Graph, start: nat) returns (visited: seq<bool>)
    requires Indexed(g) && start < g.size
    ensures |visited| == g.size
    ensures forall v | 0 <= v < g.size :: visited[v] <==> Reaches(g, start, v)
  {
    visited := seq(g.size, _ => false)[start := true];
    var queue: seq<nat> := [start];
    ReachesSelf(g, start);
    while queue != []
      invariant Frontier(g, start, visited, queue) && visited[start]
      invariant forall q <- queue :: q < g.size && visited[q]
      decreases Unmarked(visited), |queue|
    {
      var current := queue[0];
      assert current in queue && queue == [current] + queue[1..];
      assert forall q <- queue[1..] :: q in queue;
      var visited', queue' := Expand(g, current, visited, queue[1..]);
      FrontierNext(g, start, visited, current, queue[1..], visited', queue');
      visited, queue := visited', queue';
    }
    FrontierDone(g, start, visited);
  }

  /** `Plan.reachable`: the same walk, stopping as soon as the target is seen. */
  method Reachable(g: Graph, source: nat, target: nat) returns (found: bool)
    requires Indexed(g) && source < g.size && target < g.size
    ensures found <==> Reaches(g, source, target)
  {
    ReachesSelf(g, source);
    if source == target {
      return true;
    }
    var visited := seq(g.size, _ => false)[source := true];
    var queue: seq<nat> := [source];
    while queue != []
      invariant Frontier(g, source, visited, queue) && visited[source]
      invariant !visited[target]
      invariant forall q <- queue :: q < g.size && visited[q]
      decreases Unmarked(visited), |queue|
    {
      var current := queue[0];
      assert current in queue && queue == [current] + queue[1..];
      assert forall q <- queue[1..] :: q in queue;
      var hit := PointsAt(g, current, target);
      if hit {
        AdjoinsReaches(g, source, current, target);
        return true;
      }
      var visited', queue' := Expand(g, current, visited, queue[1..]);
      FrontierNext(g, source, visited, current, queue[1..], visited', queue');
      visited, queue := visited', queue';
    }
    FrontierDone(g, source, visited);
    return false;
  }

  /** The check `next == target` that `Plan.reachable` makes on each edge it follows. */
  method PointsAt(g: Graph, current: nat, target: nat) returns (hit: bool)
    requires Indexed(g) && current < g.size
    ensures hit <==> Adjoins(g, current, target)
  {
    var adjacent := g.outgoing[current];
    for i := 0 to |adjacent|
      invariant forall j | 0 <= j < i :: OutOf(g, current, adjacent[j]) && g.edges[adjacent[j]].to != target
    {
      assert OutOf(g, current, adjacent[i]);
      if g.edges[adjacent[i]].to == target {
        return true;
      }
    }
    return false;
  }

  /** `Plan.hasOutgoingRoute`. */
  method HasOutgoingRoute(g: Graph, node: nat, route: string) returns (found: bool)
    requires Indexed(g) && node < g.size
    ensures found <==> HasRoute(g, node, route)
  {
    var adjacent := g.outgoing[node];
    assert forall e: nat | RouteEdge(g, node, route, e) :: e in adjacent;
    for i := 0 to |adjacent|
      invariant forall j | 0 <= j < i :: OutOf(g, node, adjacent[j]) && g.edges[adjacent[j]].route != route
    {
      assert OutOf(g, node, adjacent[i]);
      if g.edges[adjacent[i]].route == route {
        assert RouteEdge(g, node, route, adjacent[i]);
        return true;
      }
    }
    return false;
  }

  ghost predicate HasRoute(g: Graph, node: nat, route: string) {
    exists e: nat :: RouteEdge(g, node, route, e)
  }

  /** `Plan.reachableFromRoute`: nodes are marked when they leave the queue, so the queue may repeat them. */
  method ReachableFromRoute(g: Graph, source: nat, route: string, target: nat) returns (found: bool)
    requires Indexed(g) && source < g.size && target < g.size
    ensures found <==> ReachesBy(g, source, route, target)
  {
    var some := HasOutgoingRoute(g, source, route);
    if !some {
      NoRoute(g, source, route, target);
      return false;
    }
    var visited := seq(g.size, _ => false);
    var queue := RouteTargets(g, source, route);
    RouteStart(g, source, route, target, visited, queue);
    while queue != []
      invariant RouteFrontier(g, source, route, target, visited, queue)
      decreases Unmarked(visited), |queue|
    {
      var current := queue[0];
      RouteHead(g, source, route, target, visited, queue);
      if current == target {
        return true;
      }
      if visited[current] {
        RouteSkip(g, source, route, target, visited, queue);
        queue := queue[1..];
        continue;
      }
      var queue' := QueueSuccessors(g, source, route, current, queue[1..]);
      MarkOne(visited, current);
      RouteVisit(g, source, route, target, visited, queue, queue');
      visited, queue := visited[current := true], queue';
    }
    RouteDone(g, source, route, target, visited);
    return false;
  }

  lemma NoRoute(g: Graph, source: nat, route: string, target: nat)
    requires !HasRoute(g, source, route)
    ensures !ReachesBy(g, source, route, target)
  {
    if ReachesBy(g, source, route, target) {
      var e :| 0 <= e < |g.edges| && g.edges[e].from == source && g.edges[e].route == route && Reaches(g, g.edges[e].to, target);
      assert RouteEdge(g, source, route, e);
    }
  }

  /** Everything queued begins with the route, and what the route or a marked node leads to is marked or queued. */
  ghost predicate RouteFrontier(g: Graph, source: nat, route: string, target: nat, visited: seq<bool>, queue: seq<nat>) {
    && |visited| == g.size && target < g.size && !visited[target]
    && (forall q <- queue :: Begins(g, source, route, q))
    && (forall e: nat | RouteEdge(g, source, route, e) :: Seen(visited, queue, g.edges[e].to))
    && (forall e: nat | e < |g.edges| && Seen(visited, [], g.edges[e].from) :: Seen(visited, queue, g.edges[e].to))
  }

  lemma RouteStart(g: Graph, source: nat, route: string, target: nat, visited: seq<bool>, queue: seq<nat>)
    requires |visited| == g.size && target < g.size && forall v | 0 <= v < g.size :: !visited[v]
    requires forall q <- queue :: Begins(g, source, route, q)
    requires forall e: nat | RouteEdge(g, source, route, e) :: g.edges[e].to in queue
    ensures RouteFrontier(g, source, route, target, visited, queue)
  {}

  lemma RouteHead(g: Graph, source: nat, route: string, target: nat, visited: seq<bool>, queue: seq<nat>)
    requires RouteFrontier(g, source, route, target, visited, queue) && queue != []
    ensures Begins(g, source, route, queue[0])
    ensures forall q <- queue[1..] :: Begins(g, source, route, q)
  {
    assert forall q <- queue[1..] :: q in queue;
  }

  lemma RouteSkip(g: Graph, source: nat, route: string, target: nat, visited: seq<bool>, queue: seq<nat>)
    requires RouteFrontier(g, source, route, target, visited, queue)
    requires queue != [] && queue[0] < |visited| && visited[queue[0]]
    ensures RouteFrontier(g, source, route, target, visited, queue[1..])
  {
    assert queue == [queue[0]] + queue[1..];
    assert forall v | Seen(visited, queue, v) :: Seen(visited, queue[1..], v);
  }

  lemma RouteVisit(g: Graph, source: nat, route: string, target: nat, visited: seq<bool>, queue: seq<nat>, queue': seq<nat>)
    requires RouteFrontier(g, source, route, target, visited, queue)
    requires queue != [] && queue[0] < |visited| && !visited[queue[0]] && queue[0] != target
    requires forall q <- queue' :: Begins(g, source, route, q)
    requires forall q <- queue[1..] :: q in queue'
    requires forall e: nat | OutOf(g, queue[0], e) :: g.edges[e].to in queue'
    ensures RouteFrontier(g, source, route, target, visited[queue[0] := true], queue')
  {
    var current, visited' := queue[0], visited[queue[0] := true];
    assert queue == [current] + queue[1..];
    assert forall v | Seen(visited, queue, v) :: Seen(visited', queue', v);
    forall e: nat | e < |g.edges| && Seen(visited', [], g.edges[e].from) ensures Seen(visited', queue', g.edges[e].to) {
      if g.edges[e].from == current {
        assert OutOf(g, current, e);
      } else {
        assert Seen(visited, [], g.edges[e].from);
      }
    }
  }

  ghost predicate Seen(visited: seq<bool>, queue: seq<nat>, v: nat) {
    v in queue || (v < |visited| && visited[v])
  }

  ghost predicate RouteEdge(g: Graph, source: nat, route: string, e: nat) {
    e < |g.edges| && g.edges[e].from == source && g.edges[e].route == route
  }

  lemma RouteDone(g: Graph, source: nat, route: string, target: nat, visited: seq<bool>)
    requires RouteFrontier(g, source, route, target, visited, [])
    ensures !ReachesBy(g, source, route, target)
  {
    if ReachesBy(g, source, route, target) {
      var e :| 0 <= e < |g.edges| && g.edges[e].from == source && g.edges[e].route == route && Reaches(g, g.edges[e].to, target);
      assert RouteEdge(g, source, route, e);
      ReachedStaysIn(g, g.edges[e].to, target, MarkedSet(visited));
    }
  }

  /** The loop that queues the targets of the source's edges on the route. */
  method RouteTargets(g: Graph, source: nat, route: string) returns (queue: seq<nat>)
    requires Indexed(g) && source < g.size
    ensures forall q <- queue :: Begins(g, source, route, q)
    ensures forall e: nat | RouteEdge(g, source, route, e) :: g.edges[e].to in queue
  {
    queue := [];
    var adjacent := g.outgoing[source];
    for i := 0 to |adjacent|
      invariant forall q <- queue :: Begins(g, source, route, q)
      invariant forall j | 0 <= j < i :: OutOf(g, source, adjacent[j]) && (g.edges[adjacent[j]].route == route ==> g.edges[adjacent[j]].to in queue)
    {
      assert OutOf(g, source, adjacent[i]);
      if g.edges[adjacent[i]].route == route {
        ReachesSelf(g, g.edges[adjacent[i]].to);
        queue := queue + [g.edges[adjacent[i]].to];
      }
    }
  }

  /** The loop that queues every successor, marked or not. */
  method QueueSuccessors(g: Graph, source: nat, route: string, current: nat, queue: seq<nat>) returns (queue': seq<nat>)
    requires Indexed(g) && Begins(g, source, route, current)
    requires forall q <- queue :: Begins(g, source, route, q)
    ensures forall q <- queue' :: Begins(g, source, route, q)
    ensures forall q <- queue :: q in queue'
    ensures forall e: nat | OutOf(g, current, e) :: g.edges[e].to in queue'
  {
    queue' := queue;
    var adjacent := g.outgoing[current];
    for i := 0 to |adjacent|
      invariant forall q <- queue' :: Begins(g, source, route, q)
      invariant forall q <- queue :: q in queue'
      invariant forall j | 0 <= j < i :: OutOf(g, current, adjacent[j]) && g.edges[adjacent[j]].to in queue'
    {
      assert OutOf(g, current, adjacent[i]);
      BeginsStep(g, source, route, adjacent[i]);
      queue' := queue' + [g.edges[adjacent[i]].to];
    }
  }

  ghost predicate Begins(g: Graph, source: nat, route: string, q: nat) {
    q < g.size && ReachesBy(g, source, route, q)
  }

  lemma BeginsStep(g: Graph, source: nat, route: string, e: nat)
    requires Indexed(g) && e < |g.edges| && Begins(g, source, route, g.edges[e].from)
    ensures Begins(g, source, route, g.edges[e].to)
  {
    var f :| 0 <= f < |g.edges| && g.edges[f].from == source && g.edges[f].route == route && Reaches(g, g.edges[f].to, g.edges[e].from);
    EdgeReaches(g, e);
    ReachesTrans(g, g.edges[f].to, g.edges[e].from, g.edges[e].to);
  }

  // ---------------------------------------------------------------- Walking backwards

  /** The same graph with every edge turned round. */
  function Reversed(g: Graph): Graph {
    Graph(g.size, Turned(g.edges), g.outgoing, g.incoming, g.end, g.start)
  }

  function Turned(edges: seq<Edge>): (r: seq<Edge>)
    ensures |r| == |edges|
    ensures forall i | 0 <= i < |r| :: r[i] == Edge(edges[i].to, edges[i].from, edges[i].route)
  {
    seq(|edges|, i requires 0 <= i < |edges| => Edge(edges[i].to, edges[i].from, edges[i].route))
  }

  lemma ReversedIndexed(g: Graph)
    requires Indexed(g)
    ensures Indexed(Reversed(g))
  {
    var r := Reversed(g);
    forall v, j | 0 <= v < g.size && 0 <= j < |r.outgoing[v]| ensures OutOf(r, v, r.outgoing[v][j]) {
      assert Into(g, v, g.incoming[v][j]);
    }
    forall v, j | 0 <= v < g.size && 0 <= j < |r.incoming[v]| ensures Into(r, v, r.incoming[v][j]) {
      assert OutOf(g, v, g.outgoing[v][j]);
    }
  }

  lemma {:induction false} ReversedPath(g: Graph, a: nat, es: seq<nat>, b: nat)
    requires IsPath(g, a, es, b)
    ensures Reaches(Reversed(g), b, a)
    decreases |es|
  {
    var r := Reversed(g);
    if es == [] {
      ReachesSelf(r, a);
    } else {
      var e := es[|es| - 1];
      ReversedPath(g, a, es[..|es| - 1], g.edges[e].from);
      EdgeReaches(r, e);
      ReachesTrans(r, b, g.edges[e].from, a);
    }
  }

  lemma ReversedReaches(g: Graph, a: nat, b: nat)
    ensures Reaches(Reversed(g), b, a) <==> Reaches(g, a, b)
  {
    if Reaches(g, a, b) {
      var es :| IsPath(g, a, es, b);
      ReversedPath(g, a, es, b);
    }
    if Reaches(Reversed(g), b, a) {
      var es :| IsPath(Reversed(g), b, es, a);
      ReversedPath(Reversed(g), b, es, a);
      assert Turned(Turned(g.edges)) == g.edges;
      assert Reversed(Reversed(g)) == g;
    }
  }

  /** `Plan.walk` along incoming edges. */
  method WalkBack(g: Graph, start: nat) returns (visited: seq<bool>)
    requires Indexed(g) && start < g.size
    ensures |visited| == g.size
    ensures forall v | 0 <= v < g.size :: visited[v] <==> Reaches(g, v, start)
  {
    ReversedIndexed(g);
    visited := Walk(Reversed(g), start);
    forall v | 0 <= v < g.size ensures visited[v] <==> Reaches(g, v, start) {
      ReversedReaches(g, v, start);
    }
  }
}
