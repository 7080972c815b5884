/** A resumed run that makes no progress: it takes a checkpoint that loads but that no chain of runs of its plan saves
    (workflow/runner_execution.go, workflow/checkpoint.go). */
module Standstills {
  import opened Graphs
  import opened Walks
  import opened Topology
  import opened Options
  import opened Plans
  import opened Acceptance
  import opened Evaluation
  import opened Guarantees
  import opened Scheduler
  import opened Agreement
  import opened Alignment
  import opened Progress
  import opened Checkpoints
  import opened Loading
  import opened Quirks
  import opened WholeRuns

  /** Start, two nodes beside each other, a Merge of them, End. */
  function Fork(): Graph {
    Graph(5, [Edge(0, 1, SUCCESS), Edge(0, 2, SUCCESS), Edge(1, 3, SUCCESS), Edge(2, 3, SUCCESS), Edge(3, 4, SUCCESS)],
          [[], [0], [1], [2, 3], [4]], [[0, 1], [2], [3], [4], []], 0, 4)
  }

  /** Nodes run one at a time. */
  function ForkPlan(): Plan {
    Plan(Fork(), [Endpoint(), Asking(), Asking(), Joining(), Endpoint()], map[], None, 1, {}, {})
  }

  function Asking(): Node {
    Endpoint().(outputs := map["x" := Anything])
  }

  /** A parallel Merge that maps an output of each of the two. */
  function Joining(): Node {
    Node(Merge(false, false), Stop, map[], map["a" := Anything, "b" := Anything], map["a" := Anything, "b" := Anything], [SUCCESS],
         map["a" := Binding(NodeOutput(1, "x"), []), "b" := Binding(NodeOutput(2, "x"), [])], 1)
  }

  function PointOf(n: nat): Point {
    Point(if n == 1 then "a" else "b", Null)
  }

  /** The two nodes interrupt themselves once, and succeed when they are resumed. */
  function AskingWorld(): World {
    World((id, v) => true, (id, path) => None,
          (n: nat, attempt: nat, inputs: Ports) => if n == 1 || n == 2 then Interrupt([PointOf(n)]) else Succeed(inputs, SUCCESS),
          (n: nat, attempt: nat, inputs: Ports, points: seq<Point>, targets: set<string>) => Succeed(map["x" := Null], SUCCESS),
          (id: string) => if id == "a" then 1 else 2)
  }

  function ForkSetup(): Setup {
    Setup(ForkPlan(), AskingWorld(), map[], [0, 1, 2, 3, 4], map[])
  }

  lemma ForkEnds(e: int)
    requires 0 <= e < 5
    ensures var g := Fork(); e in g.outgoing[g.edges[e].from] && e in g.incoming[g.edges[e].to]
  {}

  lemma ForkLists(v: int)
    requires 0 <= v < 5
    ensures var g := Fork(); Increasing(g.outgoing[v]) && Increasing(g.incoming[v])
    ensures var g := Fork(); forall j | 0 <= j < |g.outgoing[v]| :: OutOf(g, v, g.outgoing[v][j])
    ensures var g := Fork(); forall j | 0 <= j < |g.incoming[v]| :: Into(g, v, g.incoming[v][j])
  {}

  lemma ForkIndexed()
    ensures Indexed(Fork())
  {
    var g := Fork();
    forall e | 0 <= e < |g.edges| ensures e in g.outgoing[g.edges[e].from] && e in g.incoming[g.edges[e].to] {
      ForkEnds(e);
    }
    forall v | 0 <= v < g.size
      ensures Increasing(g.outgoing[v]) && Increasing(g.incoming[v])
      ensures forall j | 0 <= j < |g.outgoing[v]| :: OutOf(g, v, g.outgoing[v][j])
      ensures forall j | 0 <= j < |g.incoming[v]| :: Into(g, v, g.incoming[v][j])
    {
      ForkLists(v);
    }
  }

  lemma ForkEdges()
    ensures forall e | 0 <= e < 5 :: Fork().edges[e].from < Fork().edges[e].to < 5 && Fork().edges[e].route == SUCCESS
  {
    forall e | 0 <= e < 5 ensures Fork().edges[e].from < Fork().edges[e].to < 5 && Fork().edges[e].route == SUCCESS {
      assert e == 0 || e == 1 || e == 2 || e == 3 || e == 4;
    }
  }

  lemma ForkOrdered()
    ensures Indexed(Fork()) && IsTopological(Fork(), [0, 1, 2, 3, 4])
  {
    ForkIndexed();
    ForkEdges();
    InOrder(Fork(), [0, 1, 2, 3, 4]);
  }

  /** Numbers in their own order are a topological order of a graph whose edges go up. */
  lemma InOrder(g: Graph, order: seq<nat>)
    requires |order| == g.size && forall i | 0 <= i < |order| :: order[i] == i
    requires forall e | 0 <= e < |g.edges| :: g.edges[e].from < g.edges[e].to < g.size
    ensures IsTopological(g, order)
  {
    forall v: nat ensures v < g.size <==> v in order {
      assert v < g.size ==> order[v] == v;
    }
    forall e, j | 0 <= e < |g.edges| && 0 <= j < |order| && order[j] == g.edges[e].to ensures g.edges[e].from in order[..j] {
      assert order[..j][g.edges[e].from] == g.edges[e].from;
    }
  }

  /** Two ways from the first node to the last. */
  lemma TwoWays(g: Graph)
    requires g.start == 0 && g.end == 4 && Reaches(g, 0, 1) && Reaches(g, 0, 2) && Reaches(g, 1, 3) && Reaches(g, 2, 3) && Reaches(g, 3, 4)
    ensures forall n: nat | n < 5 :: OnMainPath(g, n)
  {
    ReachesSelf(g, 0);
    ReachesSelf(g, 4);
    ReachesTrans(g, 0, 1, 3);
    ReachesTrans(g, 0, 3, 4);
    ReachesTrans(g, 1, 3, 4);
    ReachesTrans(g, 2, 3, 4);
    forall n: nat | n < 5 ensures OnMainPath(g, n) {
      assert n == 0 || n == 1 || n == 2 || n == 3 || n == 4;
    }
  }

  lemma ForkReaches()
    ensures forall n: nat | n < 5 :: OnMainPath(Fork(), n)
  {
    var g := Fork();
    EdgeReaches(g, 0);
    EdgeReaches(g, 1);
    EdgeReaches(g, 2);
    EdgeReaches(g, 3);
    EdgeReaches(g, 4);
    TwoWays(g);
  }

  lemma ForkEdgeBuilt(e: nat)
    requires e < 5
    ensures EdgeBuilt(ForkPlan(), e)
  {}

  lemma ForkBuilt()
    ensures Built(ForkPlan())
  {
    ForkOrdered();
    forall e: nat | e < 5 ensures EdgeBuilt(ForkPlan(), e) {
      ForkEdgeBuilt(e);
    }
  }

  lemma ForkDegrees(n: nat)
    requires n < 5 && Built(ForkPlan())
    ensures DegreeAccepted(ForkPlan(), n)
  {}

  lemma ForkRoutes(n: nat)
    requires n < 5 && Built(ForkPlan())
    ensures RoutesAccepted(ForkPlan(), n)
  {
    var g := Fork();
    assert RouteEdge(g, 0, SUCCESS, 0) && RouteEdge(g, 1, SUCCESS, 2) && RouteEdge(g, 2, SUCCESS, 3) && RouteEdge(g, 3, SUCCESS, 4);
  }

  lemma JoinAdjoins()
    ensures Adjoins(Fork(), 1, 3) && Adjoins(Fork(), 2, 3)
  {
    var g := Fork();
    assert g.edges[2].from == 1 && g.edges[2].to == 3 && g.edges[3].from == 2 && g.edges[3].to == 3;
  }

  lemma JoinBindings(name: string)
    requires name in Joining().bindings
    ensures BindingAccepted(AskingWorld(), ForkPlan(), 3, name)
  {
    JoinAdjoins();
  }

  lemma ForkBindings(n: nat)
    requires n < 5
    ensures NodeBindingsAccepted(AskingWorld(), ForkPlan(), n)
  {
    if n == 3 {
      forall name <- Joining().bindings ensures BindingAccepted(AskingWorld(), ForkPlan(), 3, name) {
        JoinBindings(name);
      }
    }
  }

  lemma ForkAccepted()
    ensures Accepted(AskingWorld(), ForkPlan())
  {
    ForkOrdered();
    ForkBuilt();
    ForkReaches();
    OrderedAcyclic(Fork(), [0, 1, 2, 3, 4]);
    forall n: nat | n < 5 ensures DegreeAccepted(ForkPlan(), n) && RoutesAccepted(ForkPlan(), n) && NodeBindingsAccepted(AskingWorld(), ForkPlan(), n) {
      ForkDegrees(n);
      ForkRoutes(n);
      ForkBindings(n);
    }
  }

  lemma ForkAdmitted()
    ensures Accepted(AskingWorld(), ForkPlan()) && Admitted(ForkSetup())
  {
    ForkOrdered();
    ForkAccepted();
    AcceptedRunnable(AskingWorld(), ForkPlan());
  }

  // ---------------------------------------------------------------- The checkpoint

  /** Both nodes suspended, and both reported. */
  function Both(): State {
    State([EdgeTaken, EdgeTaken, EdgePending, EdgePending, EdgePending], [Succeeded, Interrupted, Interrupted, Pending, Pending],
          [Some(map[]), None, None, None, None], [None, None, None, None, None], [], 1, map[],
          map[1 := Paused(map[], 1, [PointOf(1)]), 2 := Paused(map[], 1, [PointOf(2)])], {},
          Info([PointOf(1), PointOf(2)], [], []), true, false, map[], {})
  }

  lemma BothNode(n: nat)
    requires Sound(ForkSetup()) && n < 5
    ensures NodeRight(ForkSetup(), Both(), n)
  {
    assert n == 0 || n == 1 || n == 2 || n == 3 || n == 4;
  }

  lemma BothFlow(n: nat)
    requires Sound(ForkSetup()) && n < 5
    ensures FlowRight(ForkSetup(), Both(), n)
  {
    assert n == 0 || n == 1 || n == 2 || n == 3 || n == 4;
    assert Into(Fork(), 1, 0) && Into(Fork(), 2, 1);
  }

  lemma BothNodes()
    requires Sound(ForkSetup())
    ensures forall n: nat | n < 5 :: NodeRight(ForkSetup(), Both(), n) && FlowRight(ForkSetup(), Both(), n)
  {
    forall n: nat | n < 5 ensures NodeRight(ForkSetup(), Both(), n) && FlowRight(ForkSetup(), Both(), n) {
      BothNode(n);
      BothFlow(n);
    }
  }

  lemma BothBooks()
    ensures Books(ForkSetup(), Both())
  {
    var s := Both();
    forall n: nat | n in SettledNodes(s) ensures n == 0 {
      assert n < 5 && (n == 0 || n == 1 || n == 2 || n == 3 || n == 4);
    }
    assert SettledNodes(s) == {0};
  }

  lemma BothRoutes()
    requires Shape(ForkSetup(), Both())
    ensures forall n: nat | n < 5 :: RouteChosen(ForkSetup(), Both(), n)
  {
    ForkEdges();
    assert TookExactly(ForkSetup(), Both(), 0, SUCCESS);
  }

  lemma BothEdges()
    requires Shape(ForkSetup(), Both())
    ensures forall e: nat | e < 5 :: EdgeRight(ForkSetup(), Both(), e)
  {
    forall e: nat | e < 5 ensures EdgeRight(ForkSetup(), Both(), e) {
      assert e == 0 || e == 1 || e == 2 || e == 3 || e == 4;
    }
  }

  lemma BothMinted()
    ensures Minted(ForkSetup(), Both())
  {
    var s := Both();
    assert forall n: nat | Asleep(s, n) :: n == 1 || n == 2;
  }

  lemma BothBegun()
    requires Admitted(ForkSetup())
    ensures Begun(ForkSetup(), Both())
  {
    BothNodes();
    BothBooks();
    BothRoutes();
    BothEdges();
  }

  // ---------------------------------------------------------------- The run

  /** The run resumed with an answer to the first node alone. */
  function Resumed(): State {
    Restore(Save(ForkSetup(), Both()), set id | id in ["a"])
  }

  function Woken(): State {
    Both().(ready := [2], paused := map[2 := Paused(map[], 1, [PointOf(2)])],
            nodes := [Succeeded, Running, Interrupted, Pending, Pending],
            inflight := map[1 := Invoked(map[], Some(Paused(map[], 1, [PointOf(1)])), false)],
            info := NO_INFO, pauseRequested := false, targets := {"a"})
  }

  lemma BothSorted(members: set<nat>)
    requires members == {1, 2}
    ensures Sorted(members, 5) == [1, 2]
  {
    assert Sorted(members, 1) == [];
    assert Sorted(members, 2) == [1];
    assert Sorted(members, 3) == [1, 2];
    assert Sorted(members, 4) == [1, 2];
  }

  lemma BothQueue()
    ensures Awake(Both().ready, Both().paused) + Sorted(Both().paused.Keys, 5) == [1, 2]
  {
    BothSorted(Both().paused.Keys);
  }

  lemma ResumedIs()
    requires Begun(ForkSetup(), Both())
    ensures Resumed() == Both().(ready := [1, 2], info := NO_INFO, pauseRequested := false, targets := {"a"})
  {
    assert (set id | id in ["a"]) == {"a"};
    BothQueue();
    RoundTrip(ForkSetup(), Both(), {"a"});
  }

  lemma ResumedWakes()
    requires Resumed() == Both().(ready := [1, 2], info := NO_INFO, pauseRequested := false, targets := {"a"})
    ensures Launched(ForkSetup(), Resumed()) == Woken()
  {
    var s := Resumed();
    assert PointOf(1) in s.paused[1].points && PointOf(1).id in s.targets;
    assert s.paused - {1} == Woken().paused;
    assert s.nodes[1 := Running] == Woken().nodes;
    assert s.ready[1..] == [2];
  }

  function Done(): Outcome {
    Finished(map["x" := Null], SUCCESS)
  }

  lemma WokenCompletes()
    ensures Settle(Asking(), Completion(ForkSetup(), Woken(), 1).0) == Done()
  {
    assert Remaining([PointOf(1)], {"a"}) == [];
  }

  /** The first node has completed. */
  function Stuck(): State {
    Settling(ForkSetup(), Woken(), 1, Done())
  }

  lemma ThenStuck()
    ensures Standstill(ForkSetup(), Stuck()) && Stuck().done != |ForkPlan().nodes|
  {
    assert Woken().inflight - {1} == map[];
  }

  lemma BothReported()
    ensures NoneQueued(Both()) && !Alone(Both()) && TargetsRight(Both().info, ["a"])
  {
    assert Asleep(Both(), 1) && Asleep(Both(), 2);
    assert PointOf(1) in Both().info.contexts;
  }

  // ---------------------------------------------------------------- The standstill

  /** What resuming makes of a saved state. */
  function Again(c: Setup, s: State, targets: seq<string>): State {
    Restore(Save(c, s), set id | id in targets)
  }

  /** A drained run that has dealt with every suspended node. */
  ghost predicate Drained(c: Setup, s: State) {
    Begun(c, s) && Minted(c, s) && s.inflight == map[] && s.pauseRequested && NoneQueued(s)
  }

  /** A run resumed from `resumed` launches the head of its queue, which completes. */
  ghost predicate FirstCompletes(c: Setup, resumed: State, n: nat, o: Outcome, s': State) {
    && |resumed.nodes| == |c.plan.nodes| && resumed.ready != [] && resumed.ready[0] < |resumed.nodes|
    && n < |c.plan.nodes| && !c.plan.nodes[n].kind.SetVariable? && n in Launched(c, resumed).inflight
    && o.Finished? && o == Settle(c.plan.nodes[n], Completion(c, Launched(c, resumed), n).0)
    && |resumed.edges| == |c.plan.graph.edges| && |resumed.outputs| == |resumed.failures| == |c.plan.nodes|
    && s' == Settling(c, Launched(c, resumed), n, o)
  }

  lemma StartableGoes(c: Setup, s: State)
    requires Startable(c, s)
    ensures Going(c, s, s)
  {}

  lemma FirstCompletesGoing(c: Setup, resumed: State, n: nat, o: Outcome, s': State)
    requires Startable(c, resumed) && Informs(c.world) && c.plan.maxConcurrency > 0 && FirstCompletes(c, resumed, n, o, s')
    ensures Going(c, resumed, s')
  {
    var woken := Launched(c, resumed);
    StartableGoes(c, resumed);
    LaunchOneKeeps(c, resumed);
    GoingMoves(c, resumed, resumed, woken);
    GoingSettles(c, resumed, woken, n, o);
  }

  /** Accepted answers to a checkpoint that loads, a first completion, and then nothing the run can do. */
  ghost predicate ComesToStandstill(c: Setup, s: State, targets: seq<string>, s': State) {
    && Loads(c, s.info, Save(c, s)) && TargetsRight(s.info, targets)
    && Startable(c, Again(c, s, targets)) && Going(c, Again(c, s, targets), s') && Standstill(c, s') && s'.done != |c.plan.nodes|
  }

  lemma StepStands(c: Setup, s: State, targets: seq<string>, n: nat, o: Outcome, s': State)
    requires Informs(c.world) && c.plan.maxConcurrency > 0 && Drained(c, s) && TargetsRight(s.info, targets)
    requires FirstCompletes(c, Again(c, s, targets), n, o, s') && Standstill(c, s') && s'.done != |c.plan.nodes|
    ensures ComesToStandstill(c, s, targets, s')
  {
    LoadsExactly(c, s);
    RestoredStartable(c, s, set id | id in targets);
    FirstCompletesGoing(c, Again(c, s, targets), n, o, s');
  }

  lemma AskingInforms()
    ensures Informs(AskingWorld())
  {}

  lemma BothDrained() returns (c: Setup, s: State, targets: seq<string>)
    ensures c == ForkSetup() && s == Both() && targets == ["a"]
    ensures Drained(c, s) && !Alone(s) && TargetsRight(s.info, targets)
    ensures Accepted(c.world, c.plan) && Admitted(c) && Informs(c.world) && c.plan.maxConcurrency == 1
  {
    c, s, targets := ForkSetup(), Both(), ["a"];
    ForkAdmitted();
    BothBegun();
    BothMinted();
    BothReported();
    AskingInforms();
  }

  lemma BothCompletes() returns (c: Setup, resumed: State, o: Outcome, s': State)
    requires Begun(ForkSetup(), Both())
    ensures c == ForkSetup() && resumed == Resumed() && s' == Stuck() && FirstCompletes(c, resumed, 1, o, s')
  {
    ResumedIs();
    ResumedWakes();
    WokenCompletes();
    c, resumed, o, s' := ForkSetup(), Resumed(), Done(), Stuck();
  }

  /** An accepted plan without concurrency, and a checkpoint that loads with two suspended nodes: a run resumed with an
      accepted answer to one of them cannot go on once that node has completed. */
  lemma LoadedStandstill() returns (c: Setup, s: State, targets: seq<string>, s': State)
    ensures Accepted(c.world, c.plan) && Admitted(c) && Informs(c.world) && Mints(c.world) && c.plan.maxConcurrency == 1
    ensures ComesToStandstill(c, s, targets, s') && !Alone(s)
  {
    c, s, targets := BothDrained();
    var c', resumed, o, after := BothCompletes();
    s' := after;
    ThenStuck();
    StepStands(c, s, targets, 1, o, s');
  }

  // ---------------------------------------------------------------- Availability is of paths, not of runs

  /** Another way from the first node to the Merge. */
  lemma WayRound(g: Graph)
    requires |g.edges| == 5 && g.edges[1] == Edge(0, 2, SUCCESS) && g.edges[3] == Edge(2, 3, SUCCESS) && g.edges[4] == Edge(3, 4, SUCCESS) && g.start == 0
    ensures !Dominates(g, 1, 4)
  {
    PathSnoc(g, 0, [], 1);
    PathSnoc(g, 0, [1], 3);
    PathSnoc(g, 0, [1, 3], 4);
    var es := [1, 3, 4];
    assert [] + [1] == [1] && [1] + [3] == [1, 3] && [1, 3] + [4] == es;
    assert IsPath(g, g.start, es, 4) && !Visits(g, g.start, es, 1);
  }

  lemma ForkLeads(c: Setup)
    requires Sound(c) && c.plan == ForkPlan() && !Reference(c, 0).Halted? && !Reference(c, 0).Suspended?
    ensures Runs(c, 1)
  {
    ForkBuilt();
    RunsWhen(c, 0);
    PolicyDecides(c, 0);
    FinishedDeclares(c, 0);
    RunsWhen(c, 1);
    assert Into(c.plan.graph, 1, 0) && Flows(c, 0);
  }

  /** What availability refuses need not fail: End may not be bound to the output of one of two nodes beside each other,
      though on every host, unless something stops the run, that node has completed with its outputs. */
  lemma RefusedThoughSafe(c: Setup)
    requires Sound(c) && c.plan == ForkPlan()
    requires forall n: nat | n < 5 :: !Reference(c, n).Halted? && !Reference(c, n).Suspended?
    ensures !OutputAvailable(c.plan, 1, 4)
    ensures Reference(c, 1).Finished? && PortsValid(c.world, Reference(c, 1).values, c.plan.nodes[1].outputs)
  {
    WayRound(Fork());
    ForkBuilt();
    ForkLeads(c);
    PolicyDecides(c, 1);
    FinishedDeclares(c, 1);
  }
}
