/** Accepted plans that do less than one might expect, each a concrete witness for the exception in a theorem
    (workflow/compiler_binding.go, workflow/runner_execution.go). */
module Quirks {
  import opened Graphs
  import opened Walks
  import opened Topology
  import opened Options
  import opened Plans
  import opened Acceptance
  import opened Evaluation
  import opened Guarantees
  import opened Availability
  import opened Agreement

  /** Start, one node, End, with the node's edge to End on the given route. */
  function Line(route: string): Graph {
    Graph(3, [Edge(0, 1, SUCCESS), Edge(1, 2, route)], [[], [0], [1]], [[0], [1], []], 0, 2)
  }

  function Endpoint(): Node {
    Node(Ordinary, Stop, map[], map[], map[], [SUCCESS], map[], 1)
  }

  function LinePlan(middle: Node, route: string): Plan {
    Plan(Line(route), [Endpoint(), middle, Endpoint()], map[], None, 1, {}, {})
  }

  /** A host on which every attempt at node 1 fails and everything is accepted. */
  function FailingWorld(): World {
    World((id, v) => true, (id, path) => None,
          (n: nat, attempt: nat, inputs: Ports) => if n == 1 then Fail(Failure(Errored, "refused")) else Succeed(map[], SUCCESS),
          (n: nat, attempt: nat, inputs: Ports, points: seq<Point>, targets: set<string>) => Fail(Failure(Errored, "refused")),
          id => 0)
  }

  lemma LineIndexed(route: string)
    ensures Indexed(Line(route)) && IsTopological(Line(route), [0, 1, 2])
  {
    var g := Line(route);
    assert g.edges[0] == Edge(0, 1, SUCCESS) && g.edges[1] == Edge(1, 2, route);
    assert [0, 1, 2][..1] == [0] && [0, 1, 2][..2] == [0, 1];
  }

  lemma LineBuilt(middle: Node, route: string)
    requires !middle.kind.SetVariable? && route != ERROR && middle.routes == [route]
    ensures Built(LinePlan(middle, route)) && IsTopological(Line(route), [0, 1, 2])
  {
    var p := LinePlan(middle, route);
    LineIndexed(route);
    assert p.graph.edges[0] == Edge(0, 1, SUCCESS) && p.graph.edges[1] == Edge(1, 2, route);
    forall e: nat | e < |p.graph.edges| ensures EdgeBuilt(p, e) {
      assert e == 0 || e == 1;
    }
  }

  lemma LineReaches(route: string)
    ensures forall n: nat | n < 3 :: OnMainPath(Line(route), n)
  {
    var g := Line(route);
    EdgeReaches(g, 0);
    EdgeReaches(g, 1);
    ReachesTrans(g, 0, 1, 2);
    ReachesSelf(g, 0);
    ReachesSelf(g, 2);
  }

  lemma LineAccepted(middle: Node, route: string)
    requires !middle.kind.SetVariable? && !middle.kind.Merge? && !middle.policy.RouteError? && route != ERROR && middle.routes == [route]
    ensures Built(LinePlan(middle, route)) && GraphAccepted(LinePlan(middle, route))
  {
    var g, p := Line(route), LinePlan(middle, route);
    LineBuilt(middle, route);
    LineReaches(route);
    OrderedAcyclic(g, [0, 1, 2]);
    assert RouteEdge(g, 0, SUCCESS, 0) && RouteEdge(g, 1, route, 1);
    forall n: nat | n < 3 ensures DegreeAccepted(p, n) && RoutesAccepted(p, n) && OnMainPath(g, n) {
      assert n == 0 || n == 1 || n == 2;
    }
  }

  // ---------------------------------------------------------------- A node bound to its own output

  function Narcissus(): Node {
    Node(Ordinary, Stop, map[], map["x" := Anything], map["x" := Anything], [SUCCESS], map["x" := Binding(NodeOutput(1, "x"), [])], 1)
  }

  /** The availability check passes a node bound to its own output, whose inputs then never resolve. */
  lemma SelfBindingAccepted(w: World)
    ensures Accepted(w, LinePlan(Narcissus(), SUCCESS)) && BoundToItself(Narcissus(), 1)
  {
    var p := LinePlan(Narcissus(), SUCCESS);
    LineAccepted(Narcissus(), SUCCESS);
    DominatesSelf(p.graph, 1);
    assert Narcissus().bindings["x"].source.node == 1;
    assert BindingAccepted(w, p, 1, "x");
    forall n: nat | n < 3 ensures NodeBindingsAccepted(w, p, n) {
      assert n == 0 || n == 1 || n == 2;
    }
  }

  // ---------------------------------------------------------------- A default that leads nowhere

  function Stranded(): Node {
    Node(Ordinary, ContinueWithDefault, map["x" := Null], map[], map["x" := Anything], ["go"], map[], 1)
  }

  function StrandedSetup(): Setup {
    Setup(LinePlan(Stranded(), "go"), FailingWorld(), map[], [0, 1, 2], map[])
  }

  lemma StrandedAdmitted()
    ensures Accepted(StrandedSetup().world, StrandedSetup().plan) && Admitted(StrandedSetup())
  {
    var c := StrandedSetup();
    LineBuilt(Stranded(), "go");
    LineAccepted(Stranded(), "go");
    assert "x" in Stranded().defaults;
    forall n: nat | n < 3 ensures NodeBindingsAccepted(c.world, c.plan, n) {
      assert n == 0 || n == 1 || n == 2;
    }
    AcceptedRunnable(c.world, c.plan);
  }

  lemma StrandedStart()
    requires Admitted(StrandedSetup())
    ensures Reference(StrandedSetup(), 0) == Finished(map[], SUCCESS)
  {
    RunsWhen(StrandedSetup(), 0);
  }

  lemma StrandedOutcomes()
    requires Admitted(StrandedSetup())
    ensures Reference(StrandedSetup(), 0).Finished? && Reference(StrandedSetup(), 1).Defaulted?
  {
    StrandedStart();
    StrandedRuns(StrandedSetup());
    StrandedDefaults(StrandedSetup());
  }

  lemma StrandedRuns(c: Setup)
    requires Sound(c) && c.plan.graph == Line("go") && Reference(c, 0) == Finished(map[], SUCCESS)
    ensures Runs(c, 1)
  {
    RunsWhen(c, 1);
    assert Into(c.plan.graph, 1, 0) && Flows(c, 0);
  }

  /** Whatever its inputs, an attempt that always fails is defaulted. */
  lemma StrandedDefaults(c: Setup)
    requires Sound(c) && |c.plan.nodes| > 1 && c.plan.nodes[1] == Stranded() && c.world == FailingWorld() && Runs(c, 1)
    ensures Reference(c, 1).Defaulted?
  {
    RunsWhen(c, 1);
  }

  lemma StrandedEnd(c: Setup)
    requires Sound(c) && c.plan.graph == Line("go") && Reference(c, 1).Defaulted?
    ensures !Runs(c, 2)
  {
    RunsWhen(c, 2);
    forall e: nat | Into(c.plan.graph, 2, e) ensures !Flows(c, e) {
      assert e == 1 && c.plan.graph.edges[1] == Edge(1, 2, "go");
    }
  }

  /** A defaulted failure takes the route "success", which the plan need not have: End is then passed over,
      though nothing halts. */
  lemma DefaultsCanStrand()
    ensures Accepted(StrandedSetup().world, StrandedSetup().plan) && Admitted(StrandedSetup())
    ensures Succeeds(StrandedSetup()) && !Runs(StrandedSetup(), StrandedSetup().plan.graph.end)
  {
    StrandedAdmitted();
    StrandedOutcomes();
    StrandedEnd(StrandedSetup());
    forall n: nat | n < 3 ensures !Reference(StrandedSetup(), n).Halted? && !Reference(StrandedSetup(), n).Suspended? {
      assert n == 0 || n == 1 || n == 2;
    }
  }
}
