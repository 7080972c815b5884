/** The slice of a plan that settles one node: everything upstream of it, renumbered
    (workflow/partial_run_plan.go), and the workflow inputs the slice reads (workflow/partial_run_data.go:387-425). */
module Slices {
  import opened Graphs
  import opened Walks
  import opened Topology
  import opened Options
  import opened Plans
  import opened Acceptance
  import opened Edges

  /** How a slice lies in its source: the new index of each node (-1 when left out), and the old index of each
      node and edge kept. */
  datatype Cut = Cut(oldToNew: seq<int>, kept: seq<nat>, lines: seq<nat>)

  /** New and old indexes are inverse to each other, for the first `k` old nodes. */
  ghost predicate Numbered(included: seq<bool>, k: nat, oldToNew: seq<int>, kept: seq<nat>) {
    && k <= |included| == |oldToNew|
    && (forall v: nat | v < |oldToNew| :: -1 <= oldToNew[v] < |kept| && (oldToNew[v] >= 0 <==> v < k && included[v]))
    && (forall v: nat | v < |oldToNew| && oldToNew[v] >= 0 :: kept[oldToNew[v]] == v)
    && (forall i: nat | i < |kept| :: kept[i] < |oldToNew| && oldToNew[kept[i]] == i)
  }

  lemma NumberOne(included: seq<bool>, k: nat, oldToNew: seq<int>, kept: seq<nat>)
    requires Numbered(included, k, oldToNew, kept) && k < |included| && included[k]
    ensures Numbered(included, k + 1, oldToNew[k := |kept|], kept + [k])
  {
    var after, all := oldToNew[k := |kept|], kept + [k];
    assert oldToNew[k] < 0;
    forall i: nat | i < |all| ensures all[i] < |after| && after[all[i]] == i {
      if i < |kept| {
        assert oldToNew[kept[i]] == i;
      }
    }
  }

  /** `cloneSelectedPartialNodes`: the selected nodes in their old order, and which nodes they are. */
  method CloneSelectedNodes(p: Plan, included: seq<bool>) returns (nodes: seq<Node>, oldToNew: seq<int>, kept: seq<nat>)
    requires |included| == |p.nodes|
    ensures Numbered(included, |included|, oldToNew, kept)
    ensures |nodes| == |kept| && forall i: nat | i < |kept| :: kept[i] < |p.nodes| && nodes[i] == p.nodes[kept[i]]
  {
    oldToNew, nodes, kept := seq(|p.nodes|, _ => -1), [], [];
    for k := 0 to |included|
      invariant Numbered(included, k, oldToNew, kept)
      invariant |nodes| == |kept| && forall i: nat | i < |kept| :: kept[i] < |p.nodes| && nodes[i] == p.nodes[kept[i]]
    {
      if included[k] {
        NumberOne(included, k, oldToNew, kept);
        oldToNew, nodes, kept := oldToNew[k := |nodes|], nodes + [p.nodes[k]], kept + [k];
      }
    }
  }

  predicate Selected(oldToNew: seq<int>, v: nat) {
    v < |oldToNew| && oldToNew[v] >= 0
  }

  predicate Inside(oldToNew: seq<int>, edge: Edge) {
    Selected(oldToNew, edge.from) && Selected(oldToNew, edge.to)
  }

  function Moved(oldToNew: seq<int>, edge: Edge): Edge
    requires Inside(oldToNew, edge)
  {
    Edge(oldToNew[edge.from], oldToNew[edge.to], edge.route)
  }

  /** The new edges are the old ones with both ends selected, moved, in their old order. */
  ghost predicate EdgesKept(all: seq<Edge>, oldToNew: seq<int>, edges: seq<Edge>, lines: seq<nat>) {
    && |lines| == |edges| && Increasing(lines)
    && (forall j: nat | j < |lines| :: lines[j] < |all| && Inside(oldToNew, all[lines[j]]) && edges[j] == Moved(oldToNew, all[lines[j]]))
    && (forall e: nat | e < |all| && Inside(oldToNew, all[e]) :: e in lines)
  }

  /** `cloneSelectedPartialEdges`, its first loop. */
  method CloneSelectedEdges(all: seq<Edge>, oldToNew: seq<int>) returns (edges: seq<Edge>, lines: seq<nat>)
    ensures EdgesKept(all, oldToNew, edges, lines)
  {
    edges, lines := [], [];
    for e := 0 to |all|
      invariant EdgesKept(all[..e], oldToNew, edges, lines)
      invariant forall j: nat | j < |lines| :: lines[j] < e
    {
      assert all[..e + 1] == all[..e] + [all[e]];
      if Inside(oldToNew, all[e]) {
        edges, lines := edges + [Moved(oldToNew, all[e])], lines + [e];
      }
    }
    assert all[..|all|] == all;
  }

  // ---------------------------------------------------------------- The slice

  /** A source named by a binding, looked up in the slice: an identifier the slice lacks yields index 0. */
  function Located(oldToNew: seq<int>, v: nat): nat {
    if Selected(oldToNew, v) then oldToNew[v] else 0
  }

  function MovedBinding(oldToNew: seq<int>, b: Binding): Binding {
    match b.source
    case NodeOutput(v, port) => b.(source := NodeOutput(Located(oldToNew, v), port))
    case NodeError(v, port) => b.(source := NodeError(Located(oldToNew, v), port))
    case _ => b
  }

  function MovedNode(oldToNew: seq<int>, node: Node): Node {
    node.(bindings := map name | name in node.bindings :: MovedBinding(oldToNew, node.bindings[name]))
  }

  /** `remapInterruptSet`. */
  function MovedSet(oldToNew: seq<int>, s: set<nat>): (r: set<nat>)
    ensures forall i: nat :: i in r <==> exists v: nat :: v in s && Selected(oldToNew, v) && oldToNew[v] == i
  {
    set v | v in s && Selected(oldToNew, v) :: oldToNew[v] as nat
  }

  /** `q` is the slice of `p` that settles `destination`: what reaches the destination, and every edge between. */
  ghost predicate Sliced(p: Plan, destination: nat, q: Plan, cut: Cut) {
    && destination < |p.nodes| && Selected(cut.oldToNew, p.graph.start) && Selected(cut.oldToNew, destination)
    && |cut.oldToNew| == |p.nodes|
    && (forall v: nat | v < |p.nodes| :: Selected(cut.oldToNew, v) <==> Reaches(p.graph, v, destination))
    && (forall v: nat | Selected(cut.oldToNew, v) :: cut.oldToNew[v] < |cut.kept| && cut.kept[cut.oldToNew[v]] == v)
    && (forall i: nat | i < |cut.kept| :: Selected(cut.oldToNew, cut.kept[i]) && cut.oldToNew[cut.kept[i]] == i)
    && EdgesKept(p.graph.edges, cut.oldToNew, q.graph.edges, cut.lines)
    && Indexed(q.graph) && q.graph.size == |q.nodes| == |cut.kept|
    && q.graph.start == cut.oldToNew[p.graph.start] && q.graph.end == cut.oldToNew[destination]
    && (forall i: nat | i < |q.nodes| :: q.nodes[i] == MovedNode(cut.oldToNew, p.nodes[cut.kept[i]]))
    && q.inputs == p.inputs && q.variables == None && q.maxConcurrency == p.maxConcurrency
    && q.before == MovedSet(cut.oldToNew, p.before) && q.after == MovedSet(cut.oldToNew, p.after)
  }

  /** `derivePartialRunPlan`: there is a slice exactly when Start reaches the destination. */
  method DerivePartialRunPlan(p: Plan, destination: nat) returns (r: Option<Plan>, cut: Cut)
    requires Built(p)
    ensures r.Some? <==> destination < |p.nodes| && Reaches(p.graph, p.graph.start, destination)
    ensures r.Some? ==> Sliced(p, destination, r.value, cut)
  {
    cut := Cut([], [], []);
    if destination >= |p.nodes| {
      return None, cut;
    }
    var included := WalkBack(p.graph, destination);
    if !included[p.graph.start] {
      return None, cut;
    }
    ReachesSelf(p.graph, destination);
    var nodes, oldToNew, kept := CloneSelectedNodes(p, included);
    var edges, lines := CloneSelectedEdges(p.graph.edges, oldToNew);
    var incoming, outgoing := IndexEdges(|nodes|, edges);
    var g := Graph(|nodes|, edges, incoming, outgoing, oldToNew[p.graph.start], oldToNew[destination]);
    r := Some(Plan(g, seq(|nodes|, i requires 0 <= i < |nodes| => MovedNode(oldToNew, nodes[i])), p.inputs, None, p.maxConcurrency,
                   MovedSet(oldToNew, p.before), MovedSet(oldToNew, p.after)));
    cut := Cut(oldToNew, kept, lines);
  }

  /** The selection is closed under predecessors: every edge into a selected node is kept. */
  lemma PredecessorsKept(p: Plan, destination: nat, q: Plan, cut: Cut, e: nat)
    requires Built(p) && Sliced(p, destination, q, cut) && e < |p.graph.edges| && Selected(cut.oldToNew, p.graph.edges[e].to)
    ensures Selected(cut.oldToNew, p.graph.edges[e].from) && e in cut.lines
  {
    EdgeReaches(p.graph, e);
    ReachesTrans(p.graph, p.graph.edges[e].from, p.graph.edges[e].to, destination);
  }

  /** A path to a selected node lies in the slice. */
  lemma {:induction false} PathKept(p: Plan, destination: nat, q: Plan, cut: Cut, a: nat, es: seq<nat>, b: nat)
    requires Built(p) && Sliced(p, destination, q, cut) && IsPath(p.graph, a, es, b) && Selected(cut.oldToNew, b)
    ensures Selected(cut.oldToNew, a) && Reaches(q.graph, cut.oldToNew[a], cut.oldToNew[b])
    decreases |es|
  {
    if es == [] {
      ReachesSelf(q.graph, cut.oldToNew[b]);
    } else {
      var e := es[|es| - 1];
      PredecessorsKept(p, destination, q, cut, e);
      PathKept(p, destination, q, cut, a, es[..|es| - 1], p.graph.edges[e].from);
      var j :| 0 <= j < |cut.lines| && cut.lines[j] == e;
      EdgeReaches(q.graph, j);
      ReachesTrans(q.graph, cut.oldToNew[a], q.graph.edges[j].from, q.graph.edges[j].to);
    }
  }

  function OldEdges(cut: Cut, es: seq<nat>): seq<nat>
    requires forall i | 0 <= i < |es| :: es[i] < |cut.lines|
  {
    if es == [] then []
    else
      OldEdges(cut, es[..|es| - 1]) + [cut.lines[es[|es| - 1]]]
  }

  /** A path of the slice is a path of the source. */
  lemma {:induction false} PathLifted(p: Plan, destination: nat, q: Plan, cut: Cut, a: nat, es: seq<nat>, b: nat)
    requires Sliced(p, destination, q, cut) && a < |q.nodes| && IsPath(q.graph, a, es, b)
    ensures b < |q.nodes| && forall i | 0 <= i < |es| :: es[i] < |cut.lines|
    ensures IsPath(p.graph, cut.kept[a], OldEdges(cut, es), cut.kept[b])
    decreases |es|
  {
    if es != [] {
      var j := es[|es| - 1];
      PathLifted(p, destination, q, cut, a, es[..|es| - 1], q.graph.edges[j].from);
      assert es == es[..|es| - 1] + [j];
    }
  }

  lemma CycleLifted(p: Plan, destination: nat, q: Plan, cut: Cut, v: nat, es: seq<nat>)
    requires Sliced(p, destination, q, cut) && es != [] && IsPath(q.graph, v, es, v)
    ensures !Acyclic(p.graph)
  {
    assert q.graph.edges[es[|es| - 1]] in q.graph.edges;
    PathLifted(p, destination, q, cut, v, es, v);
    assert OldEdges(cut, es) != [];
  }

  lemma SliceAcyclic(p: Plan, destination: nat, q: Plan, cut: Cut)
    requires Sliced(p, destination, q, cut) && Acyclic(p.graph)
    ensures Acyclic(q.graph)
  {
    forall v, es | es != [] ensures !IsPath(q.graph, v, es, v) {
      if IsPath(q.graph, v, es, v) {
        CycleLifted(p, destination, q, cut, v, es);
      }
    }
  }

  // ---------------------------------------------------------------- The inputs a slice reads

  /** The edges a walk follows when some nodes have data already: all those out of a node without data, and of a
      node with data those of its route. */
  function Open(edges: seq<Edge>, routes: seq<Option<string>>): (r: seq<Edge>)
    ensures forall edge :: edge in r <==> edge in edges && Followed(routes, edge)
  {
    if edges == [] then []
    else (if Followed(routes, edges[0]) then [edges[0]] else []) + Open(edges[1..], routes)
  }

  predicate Followed(routes: seq<Option<string>>, edge: Edge) {
    edge.from < |routes| && (routes[edge.from].None? || routes[edge.from] == Some(edge.route))
  }

  function Opened(g: Graph, routes: seq<Option<string>>): Graph {
    g.(edges := Open(g.edges, routes))
  }

  /** A node that will have to run asks for the workflow inputs it binds, also those it takes from Start. */
  ghost predicate Asks(q: Plan, routes: seq<Option<string>>, n: nat, port: string) {
    && n < |q.nodes| == |routes| && q.graph.start < |routes| && routes[n].None? && n != q.graph.start
    && exists name <- q.nodes[n].bindings :: AsksBy(q, routes, q.nodes[n].bindings[name].source, port)
  }

  predicate AsksBy(q: Plan, routes: seq<Option<string>>, source: Source, port: string)
    requires q.graph.start < |routes|
  {
    source == WorkflowInput(port) || (source == NodeOutput(q.graph.start, port) && routes[q.graph.start].None?)
  }

  /** The loop over the bindings of one node. */
  method PortsAsked(q: Plan, routes: seq<Option<string>>, n: nat) returns (ports: set<string>)
    requires n < |q.nodes| == |routes| && q.graph.start < |routes|
    ensures forall port :: port in ports <==> Asks(q, routes, n, port)
  {
    ports := {};
    if routes[n].Some? || n == q.graph.start {
      return;
    }
    var bindings := q.nodes[n].bindings;
    var names := bindings.Keys;
    while names != {}
      invariant names <= bindings.Keys
      invariant forall port <- ports :: Asks(q, routes, n, port)
      invariant forall name, port | name in bindings.Keys - names && AsksBy(q, routes, bindings[name].source, port) :: port in ports
    {
      var name :| name in names;
      match bindings[name].source {
        case WorkflowInput(port) =>
          assert AsksBy(q, routes, bindings[name].source, port);
          ports := ports + {port};
        case NodeOutput(node, port) =>
          if node == q.graph.start && routes[q.graph.start].None? {
            assert AsksBy(q, routes, bindings[name].source, port);
            ports := ports + {port};
          }
        case _ =>
      }
      names := names - {name};
    }
  }

  /** What is queued or visited is reached, and what a visited node leads to is queued or visited. */
  ghost predicate Sweeping(g: Graph, routes: seq<Option<string>>, visited: seq<bool>, queue: seq<nat>) {
    && |visited| == g.size && Seen(visited, queue, g.start)
    && (forall v: nat | Seen(visited, queue, v) :: v < g.size && Reaches(Opened(g, routes), g.start, v))
    && (forall edge <- Open(g.edges, routes) | Seen(visited, [], edge.from) :: Seen(visited, queue, edge.to))
  }

  lemma SweptExactly(g: Graph, routes: seq<Option<string>>, visited: seq<bool>)
    requires Sweeping(g, routes, visited, [])
    ensures forall v: nat | v < g.size :: visited[v] <==> Reaches(Opened(g, routes), g.start, v)
  {
    var o := Opened(g, routes);
    forall v: nat | v < g.size ensures visited[v] <==> Reaches(o, g.start, v) {
      assert visited[v] ==> Seen(visited, [], v);
      if Reaches(o, g.start, v) {
        assert forall e | 0 <= e < |o.edges| :: o.edges[e] in o.edges;
        ReachedStaysIn(o, g.start, v, MarkedSet(visited));
      }
    }
  }

  /** The loop that queues the targets of the edges followed out of a node. */
  method FollowOut(g: Graph, routes: seq<Option<string>>, current: nat, queue: seq<nat>) returns (queue': seq<nat>)
    requires Indexed(g) && |routes| == g.size && current < g.size && Reaches(Opened(g, routes), g.start, current)
    ensures forall v <- queue :: v in queue'
    ensures forall v <- queue' :: v in queue || (v < g.size && Reaches(Opened(g, routes), g.start, v))
    ensures forall edge <- Open(g.edges, routes) | edge.from == current :: edge.to in queue'
  {
    queue' := queue;
    var adjacent := g.outgoing[current];
    for i := 0 to |adjacent|
      invariant forall v <- queue :: v in queue'
      invariant forall v <- queue' :: v in queue || (v < g.size && Reaches(Opened(g, routes), g.start, v))
      invariant forall j | 0 <= j < i :: OutOf(g, current, adjacent[j]) && (Followed(routes, g.edges[adjacent[j]]) ==> g.edges[adjacent[j]].to in queue')
    {
      assert OutOf(g, current, adjacent[i]);
      var edge := g.edges[adjacent[i]];
      if routes[current].None? || routes[current] == Some(edge.route) {
        OpenReaches(g, routes, edge);
        queue' := queue' + [edge.to];
      }
    }
    forall edge <- Open(g.edges, routes) | edge.from == current ensures edge.to in queue' {
      var e: nat :| e < |g.edges| && g.edges[e] == edge;
      assert e in adjacent;
    }
  }

  lemma OpenReaches(g: Graph, routes: seq<Option<string>>, edge: Edge)
    requires edge in g.edges && Followed(routes, edge) && Reaches(Opened(g, routes), g.start, edge.from)
    ensures Reaches(Opened(g, routes), g.start, edge.to)
  {
    var o := Opened(g, routes);
    var e: nat :| e < |o.edges| && o.edges[e] == edge;
    EdgeReaches(o, e);
    ReachesTrans(o, g.start, edge.from, edge.to);
  }

  lemma SweepSkip(g: Graph, routes: seq<Option<string>>, visited: seq<bool>, queue: seq<nat>)
    requires Sweeping(g, routes, visited, queue) && queue != [] && queue[0] < |visited| && visited[queue[0]]
    ensures Sweeping(g, routes, visited, queue[1..])
  {
    assert queue == [queue[0]] + queue[1..];
    assert forall v: nat | Seen(visited, queue, v) :: Seen(visited, queue[1..], v);
    assert forall v: nat | Seen(visited, queue[1..], v) :: Seen(visited, queue, v);
  }

  lemma SweepVisit(g: Graph, routes: seq<Option<string>>, visited: seq<bool>, queue: seq<nat>, queue': seq<nat>)
    requires Sweeping(g, routes, visited, queue) && queue != [] && queue[0] < |visited| && !visited[queue[0]]
    requires forall v <- queue[1..] :: v in queue'
    requires forall v <- queue' :: v in queue[1..] || (v < g.size && Reaches(Opened(g, routes), g.start, v))
    requires forall edge <- Open(g.edges, routes) | edge.from == queue[0] :: edge.to in queue'
    ensures Sweeping(g, routes, visited[queue[0] := true], queue')
  {
    var visited' := visited[queue[0] := true];
    assert queue == [queue[0]] + queue[1..];
    assert forall v: nat | Seen(visited, queue, v) :: Seen(visited', queue', v);
    forall v: nat | Seen(visited', queue', v) ensures v < g.size && Reaches(Opened(g, routes), g.start, v) {
      assert v in queue' || Seen(visited, queue, v);
      if v in queue[1..] {
        assert v in queue && Seen(visited, queue, v);
      }
    }
    forall edge <- Open(g.edges, routes) | Seen(visited', [], edge.from) ensures Seen(visited', queue', edge.to) {
      if edge.from != queue[0] {
        assert Seen(visited, [], edge.from);
      }
    }
  }

  /** `requiredWorkflowInputs`: exactly the ports asked for by nodes that the walk from Start reaches. */
  method RequiredWorkflowInputs(q: Plan, routes: seq<Option<string>>) returns (required: set<string>)
    requires Indexed(q.graph) && |q.nodes| == q.graph.size == |routes|
    ensures forall port :: port in required <==> Requires(q, routes, port)
  {
    var g := q.graph;
    required := {};
    var visited, queue: seq<nat> := seq(g.size, _ => false), [g.start];
    ReachesSelf(Opened(g, routes), g.start);
    assert Seen(visited, queue, g.start);
    while queue != []
      invariant Sweeping(g, routes, visited, queue)
      invariant forall port :: port in required <==> exists n: nat :: Seen(visited, [], n) && Asks(q, routes, n, port)
      decreases Unmarked(visited), |queue|
    {
      var current := queue[0];
      assert Seen(visited, queue, current);
      if visited[current] {
        SweepSkip(g, routes, visited, queue);
        queue := queue[1..];
        continue;
      }
      var ports := PortsAsked(q, routes, current);
      var queue' := FollowOut(g, routes, current, queue[1..]);
      SweepVisit(g, routes, visited, queue, queue');
      MarkOne(visited, current);
      AskedMore(q, routes, visited, current, required, ports);
      required, visited, queue := required + ports, visited[current := true], queue';
    }
    SweptExactly(g, routes, visited);
    forall port ensures port in required <==> Requires(q, routes, port) {
      assert forall n: nat :: Seen(visited, [], n) <==> n < g.size && Reaches(Opened(g, routes), g.start, n);
    }
  }

  lemma AskedMore(q: Plan, routes: seq<Option<string>>, visited: seq<bool>, current: nat, required: set<string>, ports: set<string>)
    requires current < |visited|
    requires forall port :: port in required <==> exists n: nat :: Seen(visited, [], n) && Asks(q, routes, n, port)
    requires forall port :: port in ports <==> Asks(q, routes, current, port)
    ensures forall port :: port in required + ports <==> exists n: nat :: Seen(visited[current := true], [], n) && Asks(q, routes, n, port)
  {
    var visited' := visited[current := true];
    assert Seen(visited', [], current);
    assert forall n: nat :: Seen(visited', [], n) <==> Seen(visited, [], n) || n == current;
  }

  ghost predicate Requires(q: Plan, routes: seq<Option<string>>, port: string) {
    exists n: nat :: n < q.graph.size && Reaches(Opened(q.graph, routes), q.graph.start, n) && Asks(q, routes, n, port)
  }
}
