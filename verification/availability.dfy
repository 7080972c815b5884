/** What acceptance means for every state of every run, interrupted and resumed runs included: the compiler's
    statements about paths become statements about which data is there when a node is launched
    (workflow/compiler_binding.go, workflow/runner_binding.go). */
module Availability {
  import opened Graphs
  import opened Walks
  import opened Topology
  import opened Options
  import opened Plans
  import opened Acceptance
  import opened Evaluation
  import opened Guarantees
  import opened Scheduler
  import opened Agreement

  /** A node that control has reached. */
  ghost predicate Active(s: State, n: nat) {
    n < |s.nodes| && !s.nodes[n].Pending? && !s.nodes[n].Skipped?
  }

  // ---------------------------------------------------------------- Taken paths

  ghost predicate TakenPath(c: Setup, s: State, es: seq<nat>, n: nat) {
    IsPath(c.plan.graph, c.plan.graph.start, es, n) && forall e <- es :: e < |s.edges| && s.edges[e].EdgeTaken?
  }

  /** A node that control has reached ends a path from Start of which every edge is taken. */
  lemma {:induction false} TakenPathTo(c: Setup, s: State, n: nat) returns (es: seq<nat>)
    requires Begun(c, s) && n < |c.plan.nodes| && Active(s, n)
    ensures TakenPath(c, s, es, n)
    decreases Position(c.order, n)
  {
    var g := c.plan.graph;
    assert FlowRight(c, s, n);
    if n == g.start {
      es := [];
    } else {
      var e: nat :| e < |s.edges| && Into(g, n, e) && s.edges[e].EdgeTaken?;
      assert EdgeRight(c, s, e);
      EdgeForward(g, c.order, e);
      var before := TakenPathTo(c, s, g.edges[e].from);
      PathSnoc(g, g.start, before, e);
      es := before + [e];
    }
  }

  /** A dominator of a node that control has reached has taken an edge that leads there. */
  lemma DominatorTaken(c: Setup, s: State, d: nat, n: nat) returns (e: nat)
    requires Begun(c, s) && n < |c.plan.nodes| && Active(s, n) && d != n && Dominates(c.plan.graph, d, n)
    ensures e < |s.edges| && s.edges[e].EdgeTaken? && c.plan.graph.edges[e].from == d
    ensures ReachesBy(c.plan.graph, d, c.plan.graph.edges[e].route, n)
  {
    var g := c.plan.graph;
    var es := TakenPathTo(c, s, n);
    var i := PathSplit(g, g.start, es, n, d);
    var rest := es[i..];
    assert rest != [];
    PathHead(g, d, rest, n);
    e := rest[0];
    assert e in es;
    assert Reaches(g, g.edges[e].to, n);
  }

  // ---------------------------------------------------------------- Race freedom

  lemma SharedRoute(c: Setup, s: State, d: nat, a: nat, b: nat) returns (route: string)
    requires Begun(c, s) && a < |c.plan.nodes| && b < |c.plan.nodes| && Active(s, a) && Active(s, b)
    requires d != a && d != b && Dominates(c.plan.graph, d, a) && Dominates(c.plan.graph, d, b)
    ensures ReachesBy(c.plan.graph, d, route, a) && ReachesBy(c.plan.graph, d, route, b)
  {
    var e := DominatorTaken(c, s, d, a);
    var f := DominatorTaken(c, s, d, b);
    TakenShare(c, s, e, f);
    route := c.plan.graph.edges[e].route;
  }

  /** Control never reaches both of two nodes the compiler calls mutually exclusive. */
  lemma ExclusiveApart(c: Setup, s: State, a: nat, b: nat)
    requires Begun(c, s) && a < |c.plan.nodes| && b < |c.plan.nodes| && Exclusive(c.plan.graph, a, b)
    ensures !(Active(s, a) && Active(s, b))
  {
    var g := c.plan.graph;
    OrderedAcyclic(g, c.order);
    var branch: nat :| branch < g.size && Branches(g, branch, a, b);
    if branch == a {
      var route :| ReachesBy(g, branch, route, a);
      NoReturn(g, a, route);
    } else if branch == b {
      var route :| ReachesBy(g, branch, route, b);
      NoReturn(g, b, route);
    } else if Active(s, a) && Active(s, b) {
      var route := SharedRoute(c, s, branch, a, b);
    }
  }

  /** In every state of every run, of two nodes that contend for a loop variable and that control has reached,
      one has settled, and it is upstream of the other. */
  lemma ContendersApart(c: Setup, s: State, x: string, a: nat, b: nat)
    requires Begun(c, s) && a < |c.plan.nodes| && b < |c.plan.nodes| && a != b && Contends(c.plan, x, a, b)
    requires Active(s, a) && Active(s, b)
    ensures || (Reaches(c.plan.graph, a, b) && Settled(s.nodes[a]))
            || (Reaches(c.plan.graph, b, a) && Settled(s.nodes[b]))
  {
    var p := c.plan;
    assert SetterBuilt(p, p.nodes[a]);
    assert x in p.variables.value && RaceFreeOn(p, x);
    if Reaches(p.graph, a, b) {
      AncestorSettled(c, s, a, b);
    } else if Reaches(p.graph, b, a) {
      AncestorSettled(c, s, b, a);
    } else {
      ExclusiveApart(c, s, a, b);
    }
  }

  // ---------------------------------------------------------------- Availability

  /** The dominator check is sound: when control has reached a node that is not a Merge, the source of each of its
      output bindings other than itself has its declared outputs. */
  lemma OutputsPresent(c: Setup, s: State, src: nat, n: nat)
    requires Begun(c, s) && src < |c.plan.nodes| && n < |c.plan.nodes| && src != n && Active(s, n)
    requires Dominates(c.plan.graph, src, n) && !ReachesBy(c.plan.graph, src, ERROR, n)
    ensures s.outputs[src].Some? && PortsValid(c.world, s.outputs[src].value, c.plan.nodes[src].outputs)
  {
    var e := DominatorTaken(c, s, src, n);
    assert EdgeRight(c, s, e) && NodeRight(c, s, src) && NodeRunnable(c.world, c.plan, src);
  }

  /** The error-route check is sound: the source has failed, and its failure data is there. */
  lemma FailurePresent(c: Setup, s: State, src: nat, n: nat)
    requires Begun(c, s) && src < |c.plan.nodes| && n < |c.plan.nodes| && Active(s, n)
    requires ErrorGuaranteed(c.plan, src, n)
    ensures s.failures[src].Some?
  {
    if src == n {
      OrderedAcyclic(c.plan.graph, c.order);
      NoReturn(c.plan.graph, n, ERROR);
    } else {
      var e := DominatorTaken(c, s, src, n);
      assert EdgeRight(c, s, e) && NodeRight(c, s, src);
    }
  }

  ghost predicate BoundToItself(node: Node, n: nat) {
    exists name <- node.bindings :: node.bindings[name].source.NodeOutput? && node.bindings[name].source.node == n
  }

  /** What a node that is not a Merge has when it is launched. */
  lemma OutputUsable(c: Setup, s: State, n: nat, name: string, src: nat, port: string)
    requires Accepted(c.world, c.plan) && Begun(c, s) && n < |c.plan.nodes| && Active(s, n) && name in c.plan.nodes[n].bindings
    requires c.plan.nodes[n].bindings[name] == Binding(NodeOutput(src, port), []) && src != n
    ensures Usable(c.world, ViewOf(c, s), c.plan.nodes[n], name)
  {
    assert NodeBindingsAccepted(c.world, c.plan, n) && BindingAccepted(c.world, c.plan, n, name);
    assert NodeRight(c, s, src) && NodeRunnable(c.world, c.plan, src);
    if !c.plan.nodes[n].kind.Merge? {
      OutputsPresent(c, s, src, n);
    }
  }

  lemma ErrorUsable(c: Setup, s: State, n: nat, name: string, src: nat, port: string)
    requires Accepted(c.world, c.plan) && Begun(c, s) && n < |c.plan.nodes| && Active(s, n) && name in c.plan.nodes[n].bindings
    requires c.plan.nodes[n].bindings[name] == Binding(NodeError(src, port), [])
    ensures Usable(c.world, ViewOf(c, s), c.plan.nodes[n], name)
  {
    assert NodeBindingsAccepted(c.world, c.plan, n) && BindingAccepted(c.world, c.plan, n, name);
    if !c.plan.nodes[n].kind.Merge? {
      FailurePresent(c, s, src, n);
    }
  }

  lemma PlainUsable(c: Setup, s: State, n: nat, name: string)
    requires Accepted(c.world, c.plan) && Begun(c, s) && n < |c.plan.nodes| && name in c.plan.nodes[n].bindings
    requires c.plan.nodes[n].bindings[name].path == []
    requires !c.plan.nodes[n].bindings[name].source.NodeOutput? && !c.plan.nodes[n].bindings[name].source.NodeError?
    ensures Usable(c.world, ViewOf(c, s), c.plan.nodes[n], name)
  {
    assert NodeBindingsAccepted(c.world, c.plan, n) && BindingAccepted(c.world, c.plan, n, name);
  }

  lemma MergeNotBoundToItself(c: Setup, n: nat, name: string)
    requires Accepted(c.world, c.plan) && n < |c.plan.nodes| && name in c.plan.nodes[n].bindings
    requires c.plan.nodes[n].bindings[name].source.NodeOutput? && c.plan.nodes[n].bindings[name].source.node == n
    ensures !c.plan.nodes[n].kind.Merge?
  {
    var p := c.plan;
    assert NodeBindingsAccepted(c.world, p, n) && BindingAccepted(c.world, p, n, name);
    forall e: nat | e < |p.graph.edges| ensures p.graph.edges[e].from != p.graph.edges[e].to {
      assert EdgeBuilt(p, e);
    }
    forall route ensures !ReachesBy(p.graph, n, route, n) {
      NoReturn(p.graph, n, route);
    }
  }

  lemma SelfUnusable(c: Setup, s: State, n: nat, name: string)
    requires Accepted(c.world, c.plan) && Begun(c, s) && n < |c.plan.nodes| && !Settled(s.nodes[n]) && name in c.plan.nodes[n].bindings
    requires c.plan.nodes[n].bindings[name].source.NodeOutput? && c.plan.nodes[n].bindings[name].source.node == n
    ensures !Usable(c.world, ViewOf(c, s), c.plan.nodes[n], name)
  {
    MergeNotBoundToItself(c, n, name);
    assert NodeRight(c, s, n);
  }

  /** Acceptance is exactly enough, in every run: when a node whose bindings have no paths is launched, its inputs
      resolve, unless it is bound to its own output. */
  lemma InputsResolve(c: Setup, s: State, n: nat)
    requires Accepted(c.world, c.plan) && Begun(c, s) && n < |c.plan.nodes| && Active(s, n) && !Settled(s.nodes[n])
    requires forall name <- c.plan.nodes[n].bindings :: c.plan.nodes[n].bindings[name].path == []
    ensures ResolveInputs(c.world, ViewOf(c, s), c.plan.nodes[n]).Some? <==> !BoundToItself(c.plan.nodes[n], n)
  {
    var node, view := c.plan.nodes[n], ViewOf(c, s);
    if BoundToItself(node, n) {
      var name :| name in node.bindings && node.bindings[name].source.NodeOutput? && node.bindings[name].source.node == n;
      SelfUnusable(c, s, n, name);
    } else {
      forall name <- node.bindings ensures Usable(c.world, view, node, name) {
        match node.bindings[name].source {
          case NodeOutput(src, port) => OutputUsable(c, s, n, name, src, port);
          case NodeError(src, port) => ErrorUsable(c, s, n, name, src, port);
          case _ => PlainUsable(c, s, n, name);
        }
      }
    }
  }
}
