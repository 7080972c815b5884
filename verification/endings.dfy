/** When End is executed: the exact condition on the plan under which every run that succeeds executes it
    (workflow/runner_execution.go, workflow/compiler_graph.go). */
module Endings {
  import opened Graphs
  import opened Walks
  import opened Topology
  import opened Options
  import opened Plans
  import opened Acceptance
  import opened Evaluation
  import opened Guarantees
  import opened Scheduler
  import opened Agreement
  import opened Availability
  import opened Lacking

  // ---------------------------------------------------------------- Ways out of a node

  /** A failure of the node can be handled, and a SetVariable node must lack inputs to fail. */
  ghost predicate CanFail(node: Node, n: nat) {
    !node.policy.Stop? && (node.kind.SetVariable? ==> MayLack(node, n))
  }

  /** A route on which node `n` may send control on: a declared one if it can have its inputs, or that of a handled failure. */
  ghost predicate Exit(p: Plan, n: nat, route: string)
    requires n < |p.nodes|
  {
    var node := p.nodes[n];
    (route in node.routes && !BoundToItself(node, n)) || (CanFail(node, n) && route == HandledRoute(node))
  }

  /** A plan and an order of its nodes. */
  ghost predicate Ordered(p: Plan, order: seq<nat>) {
    Indexed(p.graph) && |p.nodes| == p.graph.size && IsTopological(p.graph, order)
  }

  /** Control that reaches node `n` can end without reaching End: on some way out of `n`, all edges, if there are any,
      lead to nodes of which the same is true. */
  ghost predicate Avoidable(p: Plan, order: seq<nat>, n: nat)
    requires Ordered(p, order) && n < |p.nodes|
    decreases |order| - Position(order, n)
  {
    n != p.graph.end
    && exists route :: Exit(p, n, route)
         && forall e: nat | RouteEdge(p.graph, n, route, e) :: (EdgeForward(p.graph, order, e); Avoidable(p, order, p.graph.edges[e].to))
  }

  /** Which way out to take of every node control reaches, so that it does not reach End. */
  ghost predicate Escapes(p: Plan, escape: map<nat, string>) {
    && p.graph.start in escape && p.graph.end !in escape
    && (forall n <- escape :: n < |p.nodes| && Exit(p, n, escape[n]))
    && forall e: nat | EscapeEdge(p.graph, escape, e) :: p.graph.edges[e].to in escape
  }

  ghost predicate EscapeEdge(g: Graph, escape: map<nat, string>, e: nat) {
    e < |g.edges| && g.edges[e].from in escape && g.edges[e].route == escape[g.edges[e].from]
  }

  lemma {:induction false} EscapeAvoids(p: Plan, order: seq<nat>, escape: map<nat, string>, n: nat)
    requires Ordered(p, order) && Escapes(p, escape) && n in escape
    ensures n < |p.nodes| && Avoidable(p, order, n)
    decreases if n in order then |order| - Position(order, n) else 0
  {
    assert Exit(p, n, escape[n]);
    forall e: nat | RouteEdge(p.graph, n, escape[n], e) ensures p.graph.edges[e].to < |p.nodes| && Avoidable(p, order, p.graph.edges[e].to) {
      EdgeForward(p.graph, order, e);
      assert EscapeEdge(p.graph, escape, e);
      EscapeAvoids(p, order, escape, p.graph.edges[e].to);
    }
  }

  ghost predicate WayOut(p: Plan, order: seq<nat>, n: nat, route: string)
    requires Ordered(p, order) && n < |p.nodes|
  {
    Exit(p, n, route) && forall e: nat | RouteEdge(p.graph, n, route, e) :: Avoidable(p, order, p.graph.edges[e].to)
  }

  ghost function Way(p: Plan, order: seq<nat>, n: nat): (route: string)
    requires Ordered(p, order) && n < |p.nodes| && Avoidable(p, order, n)
    ensures WayOut(p, order, n, route)
  {
    assert exists r :: WayOut(p, order, n, r) by {
      var r :| Exit(p, n, r) && forall e: nat | RouteEdge(p.graph, n, r, e) :: Avoidable(p, order, p.graph.edges[e].to);
      assert WayOut(p, order, n, r);
    }
    var r :| WayOut(p, order, n, r); r
  }

  lemma AvoidableEscapes(p: Plan, order: seq<nat>) returns (escape: map<nat, string>)
    requires Ordered(p, order) && Avoidable(p, order, p.graph.start)
    ensures Escapes(p, escape)
  {
    escape := map n: nat | n < |p.nodes| && Avoidable(p, order, n) :: Way(p, order, n);
    forall e: nat | EscapeEdge(p.graph, escape, e) ensures p.graph.edges[e].to in escape {
      var n := p.graph.edges[e].from;
      assert WayOut(p, order, n, escape[n]) && RouteEdge(p.graph, n, escape[n], e);
    }
  }

  // ---------------------------------------------------------------- Inputs in the reference evaluation

  lemma {:induction false} VariablesValid(c: Setup, k: nat)
    requires Admitted(c) && k <= |c.order|
    ensures PortsValid(c.world, Evaluate(c, k).variables, VariableSchemas(c.plan))
    decreases k
  {
    if k > 0 {
      VariablesValid(c, k - 1);
      var t, n := Evaluate(c, k - 1), c.order[k - 1];
      assert n in c.order;
      if InputsAt(c, t, n).Some? {
        ResolvedRight(c, Shown(c, t), n);
        UpdatesValid(c, n, InputsAt(c, t, n).value);
      }
    }
  }

  /** What a node shows of itself is of its declared schemas. */
  lemma ReferenceOutputs(c: Setup, src: nat)
    requires Admitted(c) && src < |c.plan.nodes| && OutputsOf(c.plan.nodes[src], Reference(c, src)).Some?
    ensures PortsValid(c.world, OutputsOf(c.plan.nodes[src], Reference(c, src)).value, c.plan.nodes[src].outputs)
  {
    assert NodeRunnable(c.world, c.plan, src);
    PolicyDecides(c, src);
    if Reference(c, src).Finished? {
      FinishedDeclares(c, src);
    }
  }

  lemma ReferenceOutputPresent(c: Setup, src: nat, n: nat)
    requires Admitted(c) && src < |c.plan.nodes| && n < |c.plan.nodes| && src != n && Runs(c, n)
    requires Dominates(c.plan.graph, src, n) && !ReachesBy(c.plan.graph, src, ERROR, n)
    ensures Shown(c, Before(c, n)).outputs[src].Some?
  {
    var route := DominatorRoute(c, src, n);
    ReachesByReaches(c.plan.graph, src, route, n);
    ReachesForward(c.plan.graph, c.order, src, n);
    ShownBefore(c, n, src);
  }

  lemma ReferenceFailurePresent(c: Setup, src: nat, n: nat)
    requires Admitted(c) && src < |c.plan.nodes| && n < |c.plan.nodes| && Runs(c, n) && ErrorGuaranteed(c.plan, src, n)
    ensures Shown(c, Before(c, n)).failures[src].Some?
  {
    var g := c.plan.graph;
    if src == n {
      OrderedAcyclic(g, c.order);
      NoReturn(g, n, ERROR);
    } else {
      var route := DominatorRoute(c, src, n);
      ReachesByReaches(g, src, route, n);
      ReachesForward(g, c.order, src, n);
      ShownBefore(c, n, src);
      if Reference(c, src).Finished? {
        FinishedDeclares(c, src);
      }
    }
  }

  lemma ReferenceOutputUsable(c: Setup, n: nat, name: string, src: nat, port: string)
    requires Accepted(c.world, c.plan) && Admitted(c) && n < |c.plan.nodes| && Runs(c, n) && name in c.plan.nodes[n].bindings
    requires c.plan.nodes[n].bindings[name] == Binding(NodeOutput(src, port), []) && src != n
    ensures Usable(c.world, Shown(c, Before(c, n)), c.plan.nodes[n], name)
  {
    assert NodeBindingsAccepted(c.world, c.plan, n) && BindingAccepted(c.world, c.plan, n, name);
    ShownBefore(c, n, src);
    if OutputsOf(c.plan.nodes[src], Reference(c, src)).Some? {
      ReferenceOutputs(c, src);
    }
    if !c.plan.nodes[n].kind.Merge? {
      ReferenceOutputPresent(c, src, n);
    }
  }

  lemma ReferenceErrorUsable(c: Setup, n: nat, name: string, src: nat, port: string)
    requires Accepted(c.world, c.plan) && Admitted(c) && n < |c.plan.nodes| && Runs(c, n) && name in c.plan.nodes[n].bindings
    requires c.plan.nodes[n].bindings[name] == Binding(NodeError(src, port), [])
    ensures Usable(c.world, Shown(c, Before(c, n)), c.plan.nodes[n], name)
  {
    assert NodeBindingsAccepted(c.world, c.plan, n) && BindingAccepted(c.world, c.plan, n, name);
    if !c.plan.nodes[n].kind.Merge? {
      ReferenceFailurePresent(c, src, n);
    }
  }

  lemma ReferencePlainUsable(c: Setup, n: nat, name: string)
    requires Accepted(c.world, c.plan) && Admitted(c) && n < |c.plan.nodes| && name in c.plan.nodes[n].bindings
    requires c.plan.nodes[n].bindings[name].path == []
    requires !c.plan.nodes[n].bindings[name].source.NodeOutput? && !c.plan.nodes[n].bindings[name].source.NodeError?
    ensures Usable(c.world, Shown(c, Before(c, n)), c.plan.nodes[n], name)
  {
    assert NodeBindingsAccepted(c.world, c.plan, n) && BindingAccepted(c.world, c.plan, n, name);
    VariablesValid(c, Position(c.order, n));
  }

  /** A node bound to its own output never has its inputs. */
  lemma ReferenceSelf(c: Setup, n: nat)
    requires Accepted(c.world, c.plan) && Admitted(c) && n < |c.plan.nodes| && BoundToItself(c.plan.nodes[n], n)
    ensures ReferenceInputs(c, n).None?
  {
    var node := c.plan.nodes[n];
    var name :| name in node.bindings && node.bindings[name].source.NodeOutput? && node.bindings[name].source.node == n;
    MergeNotBoundToItself(c, n, name);
    ShownBefore(c, n, n);
    assert !Usable(c.world, Shown(c, Before(c, n)), node, name);
  }

  /** Any other node that runs has its inputs, if no binding looks into a value. */
  lemma ReferenceFed(c: Setup, n: nat)
    requires Accepted(c.world, c.plan) && Admitted(c) && n < |c.plan.nodes| && Runs(c, n) && !MayLack(c.plan.nodes[n], n)
    ensures ReferenceInputs(c, n).Some?
  {
    var node, view := c.plan.nodes[n], Shown(c, Before(c, n));
    forall name <- node.bindings ensures Usable(c.world, view, node, name) {
      match node.bindings[name].source {
        case NodeOutput(src, port) => ReferenceOutputUsable(c, n, name, src, port);
        case NodeError(src, port) => ReferenceErrorUsable(c, n, name, src, port);
        case _ => ReferencePlainUsable(c, n, name);
      }
    }
  }

  // ---------------------------------------------------------------- Passing End over is an escape

  /** A node that runs, and neither halts nor is suspended, takes one of its ways out. */
  lemma ReferenceExits(c: Setup, n: nat)
    requires Accepted(c.world, c.plan) && Admitted(c) && n < |c.plan.nodes| && Runs(c, n)
    requires !Reference(c, n).Halted? && !Reference(c, n).Suspended?
    ensures RouteOf(Reference(c, n)).Some? && Exit(c.plan, n, RouteOf(Reference(c, n)).value)
  {
    var node := c.plan.nodes[n];
    RunsWhen(c, n);
    PolicyDecides(c, n);
    if BoundToItself(node, n) {
      ReferenceSelf(c, n);
    }
    if Reference(c, n).Finished? {
      FinishedDeclares(c, n);
    } else if node.kind.SetVariable? && !MayLack(node, n) {
      ReferenceFed(c, n);
    }
  }

  lemma PassedOverEscapes(c: Setup) returns (escape: map<nat, string>)
    requires Accepted(c.world, c.plan) && Admitted(c) && Succeeds(c) && !Runs(c, c.plan.graph.end)
    ensures Escapes(c.plan, escape)
  {
    var g := c.plan.graph;
    forall n: nat | n < |c.plan.nodes| && Runs(c, n)
      ensures RouteOf(Reference(c, n)).Some? && Exit(c.plan, n, RouteOf(Reference(c, n)).value)
    {
      ReferenceExits(c, n);
    }
    RunsWhen(c, g.start);
    escape := map n: nat | n < |c.plan.nodes| && Runs(c, n) :: RouteOf(Reference(c, n)).value;
    forall e: nat | EscapeEdge(g, escape, e) ensures g.edges[e].to in escape {
      assert Flows(c, e) && Into(g, g.edges[e].to, e);
      RunsWhen(c, g.edges[e].to);
    }
  }

  // ---------------------------------------------------------------- An escape is the behaviour of some host

  ghost predicate HasValue(w: World, schema: Schema) {
    exists v :: Accepts(w, schema, v)
  }

  /** Every schema accepts some value. */
  ghost predicate Inhabited(w: World) {
    forall schema :: HasValue(w, schema)
  }

  ghost function Example(w: World, schema: Schema): (v: Value)
    requires Inhabited(w)
    ensures Accepts(w, schema, v)
  {
    assert HasValue(w, schema);
    var v :| Accepts(w, schema, v); v
  }

  ghost function Examples(w: World, schemas: map<string, Schema>): (values: Ports)
    requires Inhabited(w)
    ensures PortsValid(w, values, schemas)
  {
    map name | name in schemas :: Example(w, schemas[name])
  }

  /** What the escaping host answers at node `n`: it completes on the way out, or fails. */
  ghost function Escape(w: World, p: Plan, escape: map<nat, string>, n: nat): Attempt
    requires Inhabited(w)
  {
    if n < |p.nodes| && n in escape && escape[n] in p.nodes[n].routes then Succeed(Examples(w, p.nodes[n].outputs), escape[n])
    else Fail(Failure(Errored, "refused"))
  }

  ghost function EscapingHost(w: World, p: Plan, escape: map<nat, string>): World
    requires Inhabited(w)
  {
    w.(invoke := (n: nat, attempt: nat, inputs: Ports) => Escape(w, p, escape, n),
       resume := (n: nat, attempt: nat, inputs: Ports, points: seq<Point>, targets: set<string>) => Escape(w, p, escape, n))
  }

  /** Hosts that differ in what their nodes do, and in no schema. */
  ghost predicate SameSchemas(w: World, w': World) {
    w'.accepts == w.accepts && w'.project == w.project
  }

  lemma SameAccepts(w: World, w': World)
    requires SameSchemas(w, w')
    ensures forall schema, v :: Accepts(w', schema, v) <==> Accepts(w, schema, v)
  {}

  lemma SameBindings(w: World, w': World, p: Plan, n: nat)
    requires SameSchemas(w, w') && n < |p.nodes| && NodeBindingsAccepted(w, p, n)
    ensures NodeBindingsAccepted(w', p, n)
  {
    SameAccepts(w, w');
    forall name <- p.nodes[n].bindings ensures BindingAccepted(w', p, n, name) {
      assert BindingAccepted(w, p, n, name);
    }
  }

  lemma SameAcceptance(w: World, w': World, p: Plan)
    requires SameSchemas(w, w') && Accepted(w, p)
    ensures Accepted(w', p)
  {
    forall n: nat | n < |p.nodes| ensures NodeBindingsAccepted(w', p, n) {
      SameBindings(w, w', p, n);
    }
  }

  lemma SameAdmission(c: Setup, w: World)
    requires Admitted(c) && Accepted(c.world, c.plan) && SameSchemas(c.world, w)
    ensures Admitted(c.(world := w)) && Accepted(w, c.plan)
  {
    SameAcceptance(c.world, w, c.plan);
    SameAccepts(c.world, w);
    AcceptedRunnable(w, c.plan);
  }

  lemma {:induction false} AttemptsFail(w: World, node: Node, n: nat, inputs: Ports, from: nat)
    requires 1 <= from <= MaxAttempts(node) && !node.kind.SetVariable?
    requires forall attempt: nat :: Checked(w, node, w.invoke(n, attempt, inputs)).Fail?
    ensures LastAttempt(w, node, n, inputs, from).0.Fail?
    decreases MaxAttempts(node) - from
  {
    var a := AttemptNode(w, node, n, from, inputs);
    if !Terminal(from, MaxAttempts(node), a.failure.kind) {
      AttemptsFail(w, node, n, inputs, from + 1);
    }
  }

  /** An escape from a plan whose bindings do not look into values, and the host that takes it. */
  ghost predicate Escaping(c: Setup, w: World, escape: map<nat, string>) {
    && Inhabited(w) && c.world == EscapingHost(w, c.plan, escape) && Escapes(c.plan, escape)
    && Admitted(c) && Accepted(c.world, c.plan) && Plain(c.plan)
  }

  /** No binding looks into a value. */
  ghost predicate Plain(p: Plan) {
    forall n: nat | n < |p.nodes| :: forall name <- p.nodes[n].bindings :: p.nodes[n].bindings[name].path == []
  }

  lemma EscapeCompletes(c: Setup, w: World, escape: map<nat, string>, n: nat)
    requires Escaping(c, w, escape) && n in escape && Runs(c, n) && !BoundToItself(c.plan.nodes[n], n)
    requires escape[n] in c.plan.nodes[n].routes
    ensures RouteOf(Reference(c, n)) == Some(escape[n])
  {
    var node := c.plan.nodes[n];
    RunsWhen(c, n);
    ReferenceFed(c, n);
    assert SetterBuilt(c.plan, node);
    var inputs := ReferenceInputs(c, n).value;
    SameAccepts(w, c.world);
    assert c.world.invoke(n, 1, inputs) == Succeed(Examples(w, node.outputs), escape[n]);
  }

  lemma EscapeFails(c: Setup, w: World, escape: map<nat, string>, n: nat)
    requires Escaping(c, w, escape) && n in escape && Runs(c, n)
    requires BoundToItself(c.plan.nodes[n], n) || escape[n] !in c.plan.nodes[n].routes
    ensures RouteOf(Reference(c, n)) == Some(escape[n])
  {
    var node := c.plan.nodes[n];
    RunsWhen(c, n);
    if BoundToItself(node, n) {
      ReferenceSelf(c, n);
    } else if ReferenceInputs(c, n).Some? {
      AttemptsFail(c.world, node, n, ReferenceInputs(c, n).value, 1);
    }
  }

  lemma {:induction false} EscapeFollowed(c: Setup, w: World, escape: map<nat, string>, n: nat)
    requires Escaping(c, w, escape) && n < |c.plan.nodes| && Runs(c, n)
    ensures n in escape && RouteOf(Reference(c, n)) == Some(escape[n])
    decreases Position(c.order, n)
  {
    var g := c.plan.graph;
    RunsWhen(c, n);
    if n != g.start {
      var e: nat :| Into(g, n, e) && Flows(c, e);
      EdgeForward(g, c.order, e);
      RunsFlow(c, e);
      EscapeFollowed(c, w, escape, g.edges[e].from);
      assert EscapeEdge(g, escape, e);
    }
    if escape[n] in c.plan.nodes[n].routes && !BoundToItself(c.plan.nodes[n], n) {
      EscapeCompletes(c, w, escape, n);
    } else {
      EscapeFails(c, w, escape, n);
    }
  }

  lemma RunsFlow(c: Setup, e: nat)
    requires Sound(c) && Flows(c, e)
    ensures Runs(c, c.plan.graph.edges[e].from)
  {}

  lemma EscapeSettles(c: Setup, w: World, escape: map<nat, string>, n: nat)
    requires Escaping(c, w, escape) && n < |c.plan.nodes|
    ensures !Reference(c, n).Halted? && !Reference(c, n).Suspended? && (Runs(c, n) ==> n != c.plan.graph.end)
  {
    if Runs(c, n) {
      EscapeFollowed(c, w, escape, n);
    }
  }

  lemma EscapePassesOver(c: Setup, w: World, escape: map<nat, string>)
    requires Escaping(c, w, escape)
    ensures Succeeds(c) && !Runs(c, c.plan.graph.end)
  {
    forall n: nat | n < |c.plan.nodes|
      ensures !Reference(c, n).Halted? && !Reference(c, n).Suspended? && (Runs(c, n) ==> n != c.plan.graph.end)
    {
      EscapeSettles(c, w, escape, n);
    }
  }

  // ---------------------------------------------------------------- The theorem

  /** With this host, what succeeds executes End. */
  ghost predicate ExecutesEnd(c: Setup, w: World)
    requires Sound(c)
  {
    Succeeds(c.(world := w)) ==> Runs(c.(world := w), c.plan.graph.end)
  }

  /** If End cannot be avoided, it is executed whenever nothing halts. */
  lemma EndExecuted(c: Setup)
    requires Admitted(c) && Accepted(c.world, c.plan) && Succeeds(c) && !Avoidable(c.plan, c.order, c.plan.graph.start)
    ensures Runs(c, c.plan.graph.end)
  {
    if !Runs(c, c.plan.graph.end) {
      var escape := PassedOverEscapes(c);
      EscapeAvoids(c.plan, c.order, escape, c.plan.graph.start);
    }
  }

  lemma EndPassedOver(c: Setup) returns (w: World)
    requires Admitted(c) && Accepted(c.world, c.plan) && Plain(c.plan) && Inhabited(c.world)
    requires Avoidable(c.plan, c.order, c.plan.graph.start)
    ensures SameSchemas(c.world, w) && !ExecutesEnd(c, w)
  {
    var escape := AvoidableEscapes(c.plan, c.order);
    w := EscapingHost(c.world, c.plan, escape);
    SameAdmission(c, w);
    EscapePassesOver(c.(world := w), c.world, escape);
  }

  /** The exact condition: every host executes End of an accepted plan, unless something halts, exactly when End
      cannot be avoided. */
  lemma EndAlwaysExecuted(c: Setup)
    requires Admitted(c) && Accepted(c.world, c.plan) && Plain(c.plan) && Inhabited(c.world)
    ensures (forall w | SameSchemas(c.world, w) :: ExecutesEnd(c, w)) <==> !Avoidable(c.plan, c.order, c.plan.graph.start)
  {
    if Avoidable(c.plan, c.order, c.plan.graph.start) {
      var w := EndPassedOver(c);
    } else {
      forall w | SameSchemas(c.world, w) ensures ExecutesEnd(c, w) {
        SameAdmission(c, w);
        if Succeeds(c.(world := w)) {
          EndExecuted(c.(world := w));
        }
      }
    }
  }

  // ---------------------------------------------------------------- Every run, interrupted ones included

  ghost predicate Chose(c: Setup, s: State, n: nat, route: string)
    requires Shape(c, s) && n < |c.plan.nodes|
  {
    Exit(c.plan, n, route) && forall e: nat | e < |s.edges| && RouteEdge(c.plan.graph, n, route, e) :: s.edges[e].EdgeTaken?
  }

  lemma SettledChose(c: Setup, s: State, n: nat) returns (route: string)
    requires Inv(c, s) && LacksRight(c, s) && n < |c.plan.nodes| && Active(s, n) && Settled(s.nodes[n])
    ensures Chose(c, s, n, route)
  {
    var node := c.plan.nodes[n];
    assert LackRight(c, s, n) && RouteChosen(c, s, n) && NodeRight(c, s, n);
    if s.nodes[n].Succeeded? {
      route :| route in node.routes && TookExactly(c, s, n, route);
    } else {
      route := HandledRoute(node);
      forall e: nat | e < |s.edges| && RouteEdge(c.plan.graph, n, route, e) ensures s.edges[e].EdgeTaken? {
        assert EdgeRight(c, s, e);
      }
    }
  }

  ghost function Choice(c: Setup, s: State, n: nat): (route: string)
    requires Shape(c, s) && n < |c.plan.nodes| && exists route :: Chose(c, s, n, route)
    ensures Chose(c, s, n, route)
  {
    var route :| Chose(c, s, n, route); route
  }

  lemma SkippedEscapes(c: Setup, s: State) returns (escape: map<nat, string>)
    requires Begun(c, s) && LacksRight(c, s) && s.done == |c.plan.nodes| && !Active(s, c.plan.graph.end)
    ensures Escapes(c.plan, escape)
  {
    var g := c.plan.graph;
    AllSettled(c, s);
    forall n: nat | n < |c.plan.nodes| && Active(s, n) ensures exists route :: Chose(c, s, n, route) {
      var route := SettledChose(c, s, n);
    }
    assert FlowRight(c, s, g.start);
    escape := map n: nat | n < |c.plan.nodes| && Active(s, n) :: Choice(c, s, n);
    forall e: nat | EscapeEdge(g, escape, e) ensures g.edges[e].to in escape {
      TakenInto(c, s, e, escape[g.edges[e].from]);
    }
  }

  lemma TakenInto(c: Setup, s: State, e: nat, route: string)
    requires Begun(c, s) && e < |s.edges| && Chose(c, s, c.plan.graph.edges[e].from, route) && c.plan.graph.edges[e].route == route
    requires !s.nodes[c.plan.graph.edges[e].to].Pending?
    ensures Active(s, c.plan.graph.edges[e].to)
  {
    var g := c.plan.graph;
    assert RouteEdge(g, g.edges[e].from, route, e) && s.edges[e].EdgeTaken?;
    assert FlowRight(c, s, g.edges[e].to) && Into(g, g.edges[e].to, e);
  }

  /** In whatever order nodes completed, and however often the run was interrupted and resumed: when every node has
      settled, End has been executed unless it can be avoided. */
  lemma EndReached(c: Setup, s: State)
    requires Begun(c, s) && LacksRight(c, s) && s.done == |c.plan.nodes| && !Avoidable(c.plan, c.order, c.plan.graph.start)
    ensures Active(s, c.plan.graph.end)
  {
    if !Active(s, c.plan.graph.end) {
      var escape := SkippedEscapes(c, s);
      EscapeAvoids(c.plan, c.order, escape, c.plan.graph.start);
    }
  }

  // ---------------------------------------------------------------- A condition that is easy to check

  /** A node whose failure is defaulted has an edge for the route it then takes. */
  ghost predicate DefaultsLeadOn(p: Plan) {
    forall n: nat | n < |p.nodes| && n != p.graph.end && p.nodes[n].policy.ContinueWithDefault? :: SUCCESS in p.nodes[n].routes
  }

  /** End cannot be avoided from any node when defaults lead on. */
  lemma {:induction false} LeadsOn(w: World, p: Plan, order: seq<nat>, n: nat)
    requires Accepted(w, p) && Ordered(p, order) && DefaultsLeadOn(p) && n < |p.nodes|
    ensures !Avoidable(p, order, n)
    decreases |order| - Position(order, n)
  {
    if Avoidable(p, order, n) {
      var route := Way(p, order, n);
      assert WayOut(p, order, n, route) && RoutesAccepted(p, n);
      assert HasRoute(p.graph, n, route);
      var e: nat :| RouteEdge(p.graph, n, route, e);
      EdgeForward(p.graph, order, e);
      LeadsOn(w, p, order, p.graph.edges[e].to);
    }
  }

  lemma EndRuns(c: Setup)
    requires Admitted(c) && Accepted(c.world, c.plan) && Succeeds(c) && DefaultsLeadOn(c.plan)
    ensures Runs(c, c.plan.graph.end)
  {
    LeadsOn(c.world, c.plan, c.order, c.plan.graph.start);
    EndExecuted(c);
  }
}
