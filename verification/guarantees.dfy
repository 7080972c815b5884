/** What acceptance means for the reference evaluation: bindings name upstream nodes, mutually exclusive nodes
    never both run, completed nodes have their declared outputs (workflow/compiler_binding.go). */
module Guarantees {
  import opened Graphs
  import opened Walks
  import opened Topology
  import opened Options
  import opened Plans
  import opened Acceptance
  import opened Evaluation

  function VariableSchemas(p: Plan): map<string, Schema> {
    if p.variables.Some? then p.variables.value else map[]
  }

  ghost predicate Names(source: Source, src: nat) {
    (source.NodeOutput? || source.NodeError?) && source.node == src
  }

  /** What a run needs of a node: only Start has no edge into it, every input has a binding, and a binding names
      only nodes upstream. */
  ghost predicate NodeRunnable(w: World, p: Plan, n: nat)
    requires Built(p) && n < |p.nodes|
  {
    var g, node := p.graph, p.nodes[n];
    && (n == g.start <==> g.incoming[n] == [])
    && node.bindings.Keys == node.inputs.Keys
    && (node.policy.ContinueWithDefault? ==> PortsValid(w, node.defaults, node.outputs))
    && forall name <- node.bindings :: SourceSettlesFirst(p, node.bindings[name].source, n)
  }

  /** A binding names no node, or one upstream. */
  ghost predicate SourceSettlesFirst(p: Plan, source: Source, n: nat) {
    source.NodeOutput? || source.NodeError? ==> source.node < |p.nodes| && Reaches(p.graph, source.node, n)
  }

  lemma SourceRunnable(w: World, p: Plan, n: nat, name: string, src: nat)
    requires Runnable(w, p) && n < |p.nodes| && name in p.nodes[n].bindings && Names(p.nodes[n].bindings[name].source, src)
    ensures src < |p.nodes| && Reaches(p.graph, src, n)
  {
    assert NodeRunnable(w, p, n);
    assert SourceSettlesFirst(p, p.nodes[n].bindings[name].source, n);
  }

  /** The part of acceptance that a run rests on. A slice of an accepted plan has it too, although the slice itself
      would not be accepted. */
  ghost predicate Runnable(w: World, p: Plan) {
    Built(p) && RaceFree(p) && forall n: nat | n < |p.nodes| :: NodeRunnable(w, p, n)
  }

  /** A runnable plan on inputs of the declared schemas, with a host that knows the error ports. */
  ghost predicate Equipped(c: Setup) {
    Runnable(c.world, c.plan) && KnowsErrorPorts(c.world) && PortsValid(c.world, c.input, c.plan.inputs)
  }

  /** A run as the runner starts it: loop variables, too, are of the declared schemas. */
  ghost predicate Admitted(c: Setup) {
    Sound(c) && Equipped(c) && PortsValid(c.world, c.variables, VariableSchemas(c.plan))
  }

  // ---------------------------------------------------------------- Sources are upstream

  lemma ReachesByReaches(g: Graph, a: nat, route: string, b: nat)
    requires ReachesBy(g, a, route, b)
    ensures Reaches(g, a, b)
  {
    var e :| 0 <= e < |g.edges| && g.edges[e].from == a && g.edges[e].route == route && Reaches(g, g.edges[e].to, b);
    EdgeReaches(g, e);
    ReachesTrans(g, a, g.edges[e].to, b);
  }

  lemma DominatorReaches(g: Graph, d: nat, n: nat)
    requires Dominates(g, d, n) && Reaches(g, g.start, n)
    ensures Reaches(g, d, n)
  {
    var es :| IsPath(g, g.start, es, n);
    var i := PathSplit(g, g.start, es, n, d);
  }

  lemma ReturnCycles(g: Graph, n: nat, route: string)
    requires ReachesBy(g, n, route, n)
    ensures !Acyclic(g)
  {
    var e :| 0 <= e < |g.edges| && g.edges[e].from == n && g.edges[e].route == route && Reaches(g, g.edges[e].to, n);
    var es :| IsPath(g, g.edges[e].to, es, n);
    EdgePath(g, e);
    PathConcat(g, n, [e], g.edges[e].to, es, n);
    assert [e] + es != [];
  }

  lemma NoReturn(g: Graph, n: nat, route: string)
    requires Acyclic(g)
    ensures !ReachesBy(g, n, route, n)
  {
    if ReachesBy(g, n, route, n) {
      ReturnCycles(g, n, route);
    }
  }

  /** Whatever node an accepted binding names is upstream of the node that has the binding. */
  lemma SourceUpstream(w: World, p: Plan, n: nat, name: string, src: nat)
    requires Accepted(w, p) && n < |p.nodes| && name in p.nodes[n].bindings && Names(p.nodes[n].bindings[name].source, src)
    ensures src < |p.nodes| && Reaches(p.graph, src, n)
  {
    var g, b := p.graph, p.nodes[n].bindings[name];
    assert NodeBindingsAccepted(w, p, n) && BindingAccepted(w, p, n, name);
    assert OnMainPath(g, n);
    if Dominates(g, src, n) {
      DominatorReaches(g, src, n);
    } else if exists route :: ReachesBy(g, src, route, n) {
      var route :| ReachesBy(g, src, route, n);
      ReachesByReaches(g, src, route, n);
    } else {
      assert Adjoins(g, src, n) || AdjoinsBy(g, src, ERROR, n);
      var e: nat :| e < |g.edges| && g.edges[e].from == src && g.edges[e].to == n;
      EdgeReaches(g, e);
    }
  }

  /** What the compiler accepts can be run. */
  lemma AcceptedRunnable(w: World, p: Plan)
    requires Accepted(w, p)
    ensures Runnable(w, p)
  {
    forall n: nat | n < |p.nodes| ensures NodeRunnable(w, p, n) {
      assert DegreeAccepted(p, n) && NodeBindingsAccepted(w, p, n);
      forall name <- p.nodes[n].bindings ensures SourceSettlesFirst(p, p.nodes[n].bindings[name].source, n) {
        var source := p.nodes[n].bindings[name].source;
        if source.NodeOutput? || source.NodeError? {
          SourceUpstream(w, p, n, name, source.node);
        }
      }
    }
  }

  // ---------------------------------------------------------------- Mutual exclusion

  /** Nodes the compiler calls mutually exclusive never both run. */
  lemma ExclusiveNeverBoth(c: Setup, a: nat, b: nat)
    requires Sound(c) && Acyclic(c.plan.graph) && a < |c.plan.nodes| && b < |c.plan.nodes|
    requires Exclusive(c.plan.graph, a, b)
    ensures !(Runs(c, a) && Runs(c, b))
  {
    var g := c.plan.graph;
    var branch: nat :| branch < g.size && Branches(g, branch, a, b);
    if branch == a {
      var route :| ReachesBy(g, branch, route, a);
      NoReturn(g, a, route);
    } else if branch == b {
      var route :| ReachesBy(g, branch, route, b);
      NoReturn(g, b, route);
    } else if Runs(c, a) && Runs(c, b) {
      var first := DominatorRoute(c, branch, a);
      var second := DominatorRoute(c, branch, b);
    }
  }

  /** Of two nodes that contend for a loop variable and both run, one comes first on every path. */
  lemma ContendersOrdered(c: Setup, x: string, a: nat, b: nat)
    requires Admitted(c) && a < |c.plan.nodes| && b < |c.plan.nodes| && a != b
    requires Contends(c.plan, x, a, b) && Runs(c, a) && Runs(c, b)
    ensures Reaches(c.plan.graph, a, b) || Reaches(c.plan.graph, b, a)
  {
    var p := c.plan;
    assert SetterBuilt(p, p.nodes[a]);
    assert x in p.variables.value && RaceFreeOn(p, x);
    if Exclusive(p.graph, a, b) {
      OrderedAcyclic(p.graph, c.order);
      ExclusiveNeverBoth(c, a, b);
    }
  }

  // ---------------------------------------------------------------- What a completed node leaves behind

  lemma {:induction false} LastAttemptChecked(w: World, node: Node, n: nat, inputs: Ports, from: nat)
    requires 1 <= from <= MaxAttempts(node)
    requires node.kind.SetVariable? ==> node.outputs == map[] && node.routes == [SUCCESS]
    ensures var a := LastAttempt(w, node, n, inputs, from).0;
            a.Succeed? ==> PortsValid(w, a.values, node.outputs) && a.route in node.routes
    decreases MaxAttempts(node) - from
  {
    var a := AttemptNode(w, node, n, from, inputs);
    if a.Fail? && !Terminal(from, MaxAttempts(node), a.failure.kind) {
      LastAttemptChecked(w, node, n, inputs, from + 1);
    }
  }

  /** A completed node has exactly its declared outputs, on one of its declared routes. */
  lemma FinishedDeclares(c: Setup, n: nat)
    requires Sound(c) && Built(c.plan) && n < |c.plan.nodes| && Reference(c, n).Finished?
    ensures PortsValid(c.world, Reference(c, n).values, c.plan.nodes[n].outputs)
    ensures Reference(c, n).route in c.plan.nodes[n].routes
  {
    var node := c.plan.nodes[n];
    assert SetterBuilt(c.plan, node);
    RunsWhen(c, n);
    LastAttemptChecked(c.world, node, n, ReferenceInputs(c, n).value, 1);
  }

  /** How a node that runs can end, by its error policy. */
  lemma PolicyDecides(c: Setup, n: nat)
    requires Sound(c) && n < |c.plan.nodes|
    ensures Reference(c, n).Rerouted? ==> c.plan.nodes[n].policy.RouteError?
    ensures Reference(c, n).Defaulted? ==> c.plan.nodes[n].policy.ContinueWithDefault?
    ensures Reference(c, n).Halted? ==> c.plan.nodes[n].policy.Stop?
  {
    RunsWhen(c, n);
  }

  /** The view a node's inputs are resolved on holds the reference result of every node before it. */
  lemma ShownBefore(c: Setup, n: nat, src: nat)
    requires Sound(c) && n < |c.plan.nodes| && src < |c.plan.nodes|
    ensures var v, before := Shown(c, Before(c, n)), Position(c.order, src) < Position(c.order, n);
            && v.outputs[src] == (if before then OutputsOf(c.plan.nodes[src], Reference(c, src)) else None)
            && v.failures[src] == (if before then FailureOf(Reference(c, src)) else None)
  {
    EvaluateHolds(c, Position(c.order, n), src);
  }

  /** An accepted binding that looks into a value does so where the source's schema declares what is there, and that is what
      the input asks for or the input takes anything. */
  lemma PathDeclared(w: World, p: Plan, n: nat, name: string)
    requires n < |p.nodes| && name in p.nodes[n].bindings && name in p.nodes[n].inputs && BindingAccepted(w, p, n, name)
    requires !p.nodes[n].bindings[name].source.Literal? && p.nodes[n].bindings[name].path != []
    ensures var b := p.nodes[n].bindings[name];
            && SourceSchema(p, b.source).Some? && SourceSchema(p, b.source).value.Declared?
            && var found := w.project(SourceSchema(p, b.source).value.id, b.path);
               found.Some? && (p.nodes[n].inputs[name] == found.value || p.nodes[n].inputs[name].Anything?)
  {}

  /** What a binding may name: an input of the workflow, an output the node declares, the error ports of a node that routes
      errors, or a variable of the body. */
  lemma MayName(p: Plan, source: Source)
    ensures SourceSchema(p, source).Some?
       <==> match source
            case Literal(_) => false
            case WorkflowInput(port) => port in p.inputs
            case NodeOutput(node, port) => node < |p.nodes| && port in p.nodes[node].outputs
            case NodeError(node, port) => node < |p.nodes| && p.nodes[node].policy.RouteError? && port in {ERROR_MESSAGE, ERROR_TYPE}
            case LoopVariable(port) => p.variables.Some? && port in p.variables.value
  {}
}
