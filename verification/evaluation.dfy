/** The reference meaning of a plan: one pass over its nodes in topological order, with no queue,
    no concurrency and no partial state. */
module Evaluation {
  import opened Graphs
  import opened Topology
  import opened Options
  import opened Plans

  /** How a node ends up: passed over, completed on a route, failed and routed, failed and defaulted,
      failed with the stop policy, or suspended by a dynamic interruption. */
  datatype Outcome = Bypassed | Finished(values: Ports, route: string) | Rerouted(failure: Failure)
                   | Defaulted(failure: Failure) | Halted(failure: Failure) | Suspended(points: seq<Point>)

  function Settle(node: Node, result: Attempt): Outcome {
    match result
    case Succeed(values, route) => Finished(values, route)
    case Interrupt(points) => Suspended(points)
    case Fail(failure) =>
      match node.policy
      case RouteError => Rerouted(failure)
      case ContinueWithDefault => Defaulted(failure)
      case Stop => Halted(failure)
  }

  function RouteOf(o: Outcome): Option<string> {
    match o
    case Finished(_, route) => Some(route)
    case Rerouted(_) => Some(ERROR)
    case Defaulted(_) => Some(SUCCESS)
    case _ => None
  }

  function OutputsOf(node: Node, o: Outcome): Option<Ports> {
    match o
    case Finished(values, _) => Some(values)
    case Defaulted(_) => Some(node.defaults)
    case _ => None
  }

  function FailureOf(o: Outcome): Option<Failure> {
    if o.Rerouted? || o.Defaulted? then Some(o.failure) else None
  }

  const BAD_INPUTS := Failure(Errored, "input is unavailable")

  /** The outcome of a node once its inputs have, or have not, been resolved. */
  function OutcomeOn(w: World, node: Node, n: nat, inputs: Option<Ports>): Outcome {
    Settle(node, if inputs.Some? then Invocation(w, node, n, inputs.value) else Fail(BAD_INPUTS))
  }

  /** The loop variables a SetVariable node writes. */
  function Updates(node: Node, inputs: Ports): Ports {
    if node.kind.SetVariable? then
      map x | x in node.kind.assignments && node.kind.assignments[x] in inputs :: inputs[node.kind.assignments[x]]
    else map[]
  }

  // ---------------------------------------------------------------- The sequential pass

  /** One run to evaluate: the plan, its host, its inputs, a topological order and the loop variables it starts with. */
  datatype Setup = Setup(plan: Plan, world: World, input: Ports, order: seq<nat>, variables: Ports)

  datatype Trace = Trace(outcomes: seq<Option<Outcome>>, variables: Ports)

  ghost predicate Sound(c: Setup) {
    && Indexed(c.plan.graph)
    && |c.plan.nodes| == c.plan.graph.size
    && IsTopological(c.plan.graph, c.order)
  }

  ghost function Shown(c: Setup, t: Trace): View
    requires |t.outcomes| == |c.plan.nodes|
  {
    View(seq(|t.outcomes|, i requires 0 <= i < |t.outcomes| =>
           if t.outcomes[i].Some? then OutputsOf(c.plan.nodes[i], t.outcomes[i].value) else None),
         seq(|t.outcomes|, i requires 0 <= i < |t.outcomes| =>
           if t.outcomes[i].Some? then FailureOf(t.outcomes[i].value) else None),
         c.input, t.variables)
  }

  ghost predicate TakenIn(g: Graph, t: Trace, e: nat) {
    && e < |g.edges| && g.edges[e].from < |t.outcomes|
    && t.outcomes[g.edges[e].from].Some?
    && RouteOf(t.outcomes[g.edges[e].from].value) == Some(g.edges[e].route)
  }

  /** A node runs when it is Start or some edge into it has been taken. */
  ghost predicate Triggered(g: Graph, t: Trace, n: nat) {
    n == g.start || exists e: nat :: Into(g, n, e) && TakenIn(g, t, e)
  }

  ghost function InputsAt(c: Setup, t: Trace, n: nat): Option<Ports>
    requires |t.outcomes| == |c.plan.nodes| && n < |c.plan.nodes|
  {
    ResolveInputs(c.world, Shown(c, t), c.plan.nodes[n])
  }

  ghost function Visit(c: Setup, t: Trace, n: nat): Outcome
    requires |t.outcomes| == |c.plan.nodes| && n < |c.plan.nodes|
  {
    if Triggered(c.plan.graph, t, n) then OutcomeOn(c.world, c.plan.nodes[n], n, InputsAt(c, t, n)) else Bypassed
  }

  ghost function Written(c: Setup, t: Trace, n: nat): Ports
    requires |t.outcomes| == |c.plan.nodes| && n < |c.plan.nodes|
  {
    if Visit(c, t, n).Finished? && InputsAt(c, t, n).Some? then Updates(c.plan.nodes[n], InputsAt(c, t, n).value) else map[]
  }

  /** The trace after the first `k` nodes of the order. */
  ghost function Evaluate(c: Setup, k: nat): (t: Trace)
    requires Sound(c) && k <= |c.order|
    ensures |t.outcomes| == |c.plan.nodes|
  {
    if k == 0 then Trace(seq(|c.plan.nodes|, _ => None), c.variables)
    else
      var t, n := Evaluate(c, k - 1), c.order[k - 1];
      assert n in c.order;
      Trace(t.outcomes[n := Some(Visit(c, t, n))], t.variables + Written(c, t, n))
  }

  /** The trace a node is evaluated on: everything before it in the order. */
  ghost function Before(c: Setup, n: nat): (t: Trace)
    requires Sound(c) && n < |c.plan.nodes|
    ensures |t.outcomes| == |c.plan.nodes|
  {
    Evaluate(c, Position(c.order, n))
  }

  /** The outcome of node `n` in the reference evaluation. */
  ghost function Reference(c: Setup, n: nat): Outcome
    requires Sound(c) && n < |c.plan.nodes|
  {
    Visit(c, Before(c, n), n)
  }

  ghost function ReferenceInputs(c: Setup, n: nat): Option<Ports>
    requires Sound(c) && n < |c.plan.nodes|
  {
    InputsAt(c, Before(c, n), n)
  }

  /** The loop variables node `n` writes in the reference evaluation. */
  ghost function ReferenceWrites(c: Setup, n: nat): Ports
    requires Sound(c) && n < |c.plan.nodes|
  {
    Written(c, Before(c, n), n)
  }

  /** After `k` nodes the trace holds the reference outcomes of exactly those nodes. */
  lemma {:induction false} EvaluateHolds(c: Setup, k: nat, n: nat)
    requires Sound(c) && k <= |c.order| && n < |c.plan.nodes|
    ensures Evaluate(c, k).outcomes[n] == if Position(c.order, n) < k then Some(Reference(c, n)) else None
    decreases k
  {
    if k > 0 {
      var m := c.order[k - 1];
      assert m in c.order;
      EvaluateHolds(c, k - 1, n);
      PositionOf(c.order, k - 1);
      assert Before(c, m) == Evaluate(c, k - 1);
    }
  }

  /** An edge is taken in the reference evaluation when its source selects its route. */
  ghost predicate Flows(c: Setup, e: nat)
    requires Sound(c)
  {
    var g := c.plan.graph;
    e < |g.edges| && g.edges[e].from < |c.plan.nodes| && RouteOf(Reference(c, g.edges[e].from)) == Some(g.edges[e].route)
  }

  ghost predicate Runs(c: Setup, n: nat)
    requires Sound(c) && n < |c.plan.nodes|
  {
    !Reference(c, n).Bypassed?
  }

  lemma OutcomeOnRuns(w: World, node: Node, n: nat, inputs: Option<Ports>)
    ensures !OutcomeOn(w, node, n, inputs).Bypassed?
  {}

  /** A node runs in the reference evaluation exactly when it is Start or an edge into it flows. */
  lemma RunsWhen(c: Setup, n: nat)
    requires Sound(c) && n < |c.plan.nodes|
    ensures Runs(c, n) <==> n == c.plan.graph.start || exists e: nat :: Into(c.plan.graph, n, e) && Flows(c, e)
    ensures Runs(c, n) ==> Reference(c, n) == OutcomeOn(c.world, c.plan.nodes[n], n, ReferenceInputs(c, n))
  {
    var g, t := c.plan.graph, Before(c, n);
    forall e: nat | Into(g, n, e) ensures TakenIn(g, t, e) <==> Flows(c, e) {
      EdgeForward(g, c.order, e);
      EvaluateHolds(c, Position(c.order, n), g.edges[e].from);
    }
    OutcomeOnRuns(c.world, c.plan.nodes[n], n, ReferenceInputs(c, n));
  }

  // ---------------------------------------------------------------- Taken paths

  ghost predicate FlowPath(c: Setup, es: seq<nat>, n: nat)
    requires Sound(c)
  {
    IsPath(c.plan.graph, c.plan.graph.start, es, n) && forall e <- es :: Flows(c, e)
  }

  /** A node that runs is at the end of a path from Start of which every edge is taken. */
  lemma {:induction false} FlowPathTo(c: Setup, n: nat) returns (es: seq<nat>)
    requires Sound(c) && n < |c.plan.nodes| && Runs(c, n)
    ensures FlowPath(c, es, n)
    decreases Position(c.order, n)
  {
    var g := c.plan.graph;
    RunsWhen(c, n);
    if n == g.start {
      es := [];
    } else {
      var e: nat :| Into(g, n, e) && Flows(c, e);
      EdgeForward(g, c.order, e);
      var before := FlowPathTo(c, g.edges[e].from);
      PathSnoc(g, g.start, before, e);
      es := before + [e];
    }
  }

  /** What runs has all its dominators running, each on a route that leads to it. */
  lemma DominatorRoute(c: Setup, d: nat, n: nat) returns (route: string)
    requires Sound(c) && n < |c.plan.nodes| && d < |c.plan.nodes| && d != n
    requires Runs(c, n) && Dominates(c.plan.graph, d, n)
    ensures RouteOf(Reference(c, d)) == Some(route)
    ensures ReachesBy(c.plan.graph, d, route, n)
  {
    var g := c.plan.graph;
    var es := FlowPathTo(c, n);
    var i := PathSplit(g, g.start, es, n, d);
    var rest := es[i..];
    assert rest != [];
    PathHead(g, d, rest, n);
    var e := rest[0];
    assert e in es && Flows(c, e);
    route := g.edges[e].route;
    assert Reaches(g, g.edges[e].to, n);
  }
}
