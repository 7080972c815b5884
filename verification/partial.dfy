/** Partial runs: the slice of a plan, run on only the workflow inputs it reads, settles every node it holds as the
    whole plan does on all its inputs (workflow/partial_run_execute.go, workflow/partial_run_data.go). A partial run
    here starts without pins and without data of a previous run. */
module PartialRuns {
  import opened Graphs
  import opened Walks
  import opened Topology
  import opened Options
  import opened Plans
  import opened Acceptance
  import opened Evaluation
  import opened Guarantees
  import opened Scheduler
  import opened Agreement
  import opened Executions
  import opened WholeRuns
  import opened Slices

  // ---------------------------------------------------------------- Start

  /** Start takes every workflow input and hands them on (`nodeBindings`, `passthroughNode`). */
  ghost predicate PassesThrough(w: World, p: Plan)
    requires p.graph.start < |p.nodes|
  {
    var node := p.nodes[p.graph.start];
    && node.kind.Ordinary? && node.inputs == node.outputs == p.inputs && node.routes == [SUCCESS]
    && node.bindings == InputBindings(p.inputs)
    && forall attempt: nat, inputs: Ports :: w.invoke(p.graph.start, attempt, inputs) == Succeed(inputs, SUCCESS)
  }

  function InputBindings(inputs: map<string, Schema>): map<string, Binding> {
    map name | name in inputs :: Binding(WorkflowInput(name), [])
  }

  lemma StartResolves(w: World, view: View, node: Node, input: Ports)
    requires view.input == input && node.bindings == InputBindings(node.inputs) && PortsValid(w, input, node.inputs)
    ensures ResolveInputs(w, view, node) == Some(input)
  {
    forall name <- node.bindings ensures ResolveBinding(view, node.bindings[name]) == Some(input[name]) {
      assert node.bindings[name] == Binding(WorkflowInput(name), []);
    }
    assert forall name <- node.bindings :: Usable(w, view, node, name);
    assert (map name | name in node.bindings && ResolveBinding(view, node.bindings[name]).Some? ::
              ResolveBinding(view, node.bindings[name]).value) == input;
  }

  /** Start ends with the workflow inputs as its outputs. */
  lemma StartOutcome(c: Setup)
    requires Sound(c) && c.plan.graph.start < |c.plan.nodes| && PassesThrough(c.world, c.plan)
    requires PortsValid(c.world, c.input, c.plan.inputs)
    ensures Reference(c, c.plan.graph.start) == Finished(c.input, SUCCESS)
  {
    var start := c.plan.graph.start;
    RunsWhen(c, start);
    StartResolves(c.world, Shown(c, Before(c, start)), c.plan.nodes[start], c.input);
    assert AttemptNode(c.world, c.plan.nodes[start], start, 1, c.input) == Succeed(c.input, SUCCESS);
  }

  // ---------------------------------------------------------------- The setup of a partial run

  /** Start of a partial run declares only the required inputs (`partialStartInputOmitted`, `invocationOutputSchemas`);
      it cannot fail, so its default outputs are never used. */
  function Trimmed(node: Node, required: set<string>): Node {
    node.(inputs := Only(node.inputs, required), outputs := Only(node.outputs, required),
          bindings := Only(node.bindings, required), defaults := Only(node.defaults, required))
  }

  function Only<T>(m: map<string, T>, names: set<string>): map<string, T> {
    map name | name in m && name in names :: m[name]
  }

  function SlicePlan(q: Plan, required: set<string>): Plan
    requires q.graph.start < |q.nodes|
  {
    q.(nodes := q.nodes[q.graph.start := Trimmed(q.nodes[q.graph.start], required)], inputs := Only(q.inputs, required))
  }

  /** The host sees the nodes of the slice under their identifiers, that is as the nodes they were. */
  function SliceWorld(w: World, kept: seq<nat>): (r: World)
    ensures r.accepts == w.accepts
    ensures forall n: nat, attempt: nat, inputs: Ports :: r.invoke(n, attempt, inputs) == w.invoke(Origin(kept, n), attempt, inputs)
    ensures forall n: nat, attempt: nat, inputs: Ports, points: seq<Point>, targets: set<string> ::
              r.resume(n, attempt, inputs, points, targets) == w.resume(Origin(kept, n), attempt, inputs, points, targets)
  {
    w.(invoke := (n: nat, attempt: nat, inputs: Ports) => w.invoke(Origin(kept, n), attempt, inputs),
       resume := (n: nat, attempt: nat, inputs: Ports, points: seq<Point>, targets: set<string>) =>
         w.resume(Origin(kept, n), attempt, inputs, points, targets))
  }

  function Origin(kept: seq<nat>, n: nat): nat {
    if n < |kept| then kept[n] else n
  }

  /** The partial run: the slice, its host, the required inputs alone, and any topological order of the slice. */
  function SliceSetup(c: Setup, q: Plan, cut: Cut, required: set<string>, order: seq<nat>): Setup
    requires q.graph.start < |q.nodes|
  {
    Setup(SlicePlan(q, required), SliceWorld(c.world, cut.kept), Only(c.input, required), order, map[])
  }

  /** `s` is a partial run of what `c` runs in full, outside loop bodies. */
  ghost predicate PartOf(c: Setup, destination: nat, q: Plan, cut: Cut, required: set<string>, s: Setup) {
    && Accepted(c.world, c.plan) && Admitted(c) && c.plan.variables.None? && PassesThrough(c.world, c.plan)
    && Sliced(c.plan, destination, q, cut)
    && (forall port :: port in required <==> Requires(q, seq(|q.nodes|, _ => None), port))
    && s == SliceSetup(c, q, cut, required, s.order) && IsTopological(q.graph, s.order)
  }

  /** Accepted bindings read declared inputs and no loop variables outside a loop body. */
  ghost predicate SourcesDeclared(p: Plan) {
    forall n: nat, name | n < |p.nodes| && name in p.nodes[n].bindings :: SourceDeclared(p, p.nodes[n].bindings[name].source)
  }

  predicate SourceDeclared(p: Plan, source: Source) {
    match source
    case WorkflowInput(port) => port in p.inputs
    case NodeOutput(node, port) => node < |p.nodes| && port in p.nodes[node].outputs
    case LoopVariable(_) => p.variables.Some?
    case _ => true
  }

  lemma AcceptedDeclared(w: World, p: Plan)
    requires Accepted(w, p)
    ensures SourcesDeclared(p)
  {
    forall n: nat, name | n < |p.nodes| && name in p.nodes[n].bindings ensures SourceDeclared(p, p.nodes[n].bindings[name].source) {
      assert NodeBindingsAccepted(w, p, n) && BindingAccepted(w, p, n, name);
    }
  }

  // ---------------------------------------------------------------- The slice can be run

  lemma RequiredDeclared(c: Setup, destination: nat, q: Plan, cut: Cut, port: string)
    requires Admitted(c) && PassesThrough(c.world, c.plan) && SourcesDeclared(c.plan) && Sliced(c.plan, destination, q, cut)
    requires Requires(q, seq(|q.nodes|, _ => None), port)
    ensures port in c.plan.inputs
  {
    var routes := seq(|q.nodes|, _ => None);
    var n: nat :| n < q.graph.size && Reaches(Opened(q.graph, routes), q.graph.start, n) && Asks(q, routes, n, port);
    var name :| name in q.nodes[n].bindings && AsksBy(q, routes, q.nodes[n].bindings[name].source, port);
    AskedSource(c, destination, q, cut, n, name, port);
  }

  /** What asks for a port in the slice is bound, in the source, to the input of that name or to Start's output. */
  lemma AskedSource(c: Setup, destination: nat, q: Plan, cut: Cut, n: nat, name: string, port: string)
    requires Admitted(c) && PassesThrough(c.world, c.plan) && SourcesDeclared(c.plan) && Sliced(c.plan, destination, q, cut)
    requires n < |q.nodes| && name in q.nodes[n].bindings
    requires q.nodes[n].bindings[name].source == WorkflowInput(port) || q.nodes[n].bindings[name].source == NodeOutput(q.graph.start, port)
    ensures port in c.plan.inputs
  {
    var v := cut.kept[n];
    var source := c.plan.nodes[v].bindings[name].source;
    assert SourceDeclared(c.plan, source);
    if source.NodeOutput? {
      SourceKept(c, destination, q, cut, v, name, source.node);
      assert cut.kept[cut.oldToNew[source.node]] == source.node;
    }
  }

  /** The source a selected node names is selected. */
  lemma SourceKept(c: Setup, destination: nat, q: Plan, cut: Cut, v: nat, name: string, src: nat)
    requires Admitted(c) && Sliced(c.plan, destination, q, cut) && Selected(cut.oldToNew, v)
    requires name in c.plan.nodes[v].bindings && Names(c.plan.nodes[v].bindings[name].source, src)
    ensures Selected(cut.oldToNew, src) && Reaches(c.plan.graph, src, v)
    ensures Reaches(q.graph, cut.oldToNew[src], cut.oldToNew[v])
  {
    SourceRunnable(c.world, c.plan, v, name, src);
    var es :| IsPath(c.plan.graph, src, es, v);
    PathKept(c.plan, destination, q, cut, src, es, v);
  }

  /** Only Start of the slice has no edge into it. */
  lemma SliceDegree(c: Setup, destination: nat, q: Plan, cut: Cut, i: nat)
    requires Admitted(c) && Sliced(c.plan, destination, q, cut) && i < |q.nodes|
    ensures i == q.graph.start <==> q.graph.incoming[i] == []
  {
    var g, v := c.plan.graph, cut.kept[i];
    assert NodeRunnable(c.world, c.plan, v);
    if q.graph.incoming[i] != [] {
      var j := q.graph.incoming[i][0];
      assert Into(q.graph, i, j);
      assert cut.lines[j] in g.incoming[v];
    }
    if g.incoming[v] != [] {
      var e := g.incoming[v][0];
      assert Into(g, v, e);
      PredecessorsKept(c.plan, destination, q, cut, e);
      var j :| 0 <= j < |cut.lines| && cut.lines[j] == e;
      assert j in q.graph.incoming[q.graph.edges[j].to];
    }
  }

  lemma SliceBuilt(c: Setup, destination: nat, q: Plan, cut: Cut, required: set<string>)
    requires Admitted(c) && c.plan.variables.None? && Sliced(c.plan, destination, q, cut)
    ensures Built(SlicePlan(q, required))
  {
    var p := SlicePlan(q, required);
    forall j: nat | j < |p.graph.edges| ensures EdgeBuilt(p, j) {
      assert EdgeBuilt(c.plan, cut.lines[j]);
    }
    forall i: nat | i < |p.nodes| ensures SetterBuilt(p, p.nodes[i]) {
      assert SetterBuilt(c.plan, c.plan.nodes[cut.kept[i]]);
    }
  }

  lemma SliceSources(c: Setup, destination: nat, q: Plan, cut: Cut, required: set<string>, i: nat, name: string)
    requires Admitted(c) && Sliced(c.plan, destination, q, cut) && PassesThrough(c.world, c.plan)
    requires i < |q.nodes| && name in SlicePlan(q, required).nodes[i].bindings
    ensures SourceSettlesFirst(SlicePlan(q, required), SlicePlan(q, required).nodes[i].bindings[name].source, i)
  {
    var v := cut.kept[i];
    var source := c.plan.nodes[v].bindings[name].source;
    assert SlicePlan(q, required).nodes[i].bindings[name].source == MovedBinding(cut.oldToNew, c.plan.nodes[v].bindings[name]).source;
    if source.NodeOutput? || source.NodeError? {
      SourceKept(c, destination, q, cut, v, name, source.node);
    }
  }

  lemma SliceNode(c: Setup, destination: nat, q: Plan, cut: Cut, required: set<string>, i: nat)
    requires Admitted(c) && Sliced(c.plan, destination, q, cut) && PassesThrough(c.world, c.plan)
    requires i < |q.nodes| && Built(SlicePlan(q, required))
    ensures NodeRunnable(SliceWorld(c.world, cut.kept), SlicePlan(q, required), i)
  {
    var p, v := SlicePlan(q, required), cut.kept[i];
    assert NodeRunnable(c.world, c.plan, v);
    SliceDegree(c, destination, q, cut, i);
    forall name <- p.nodes[i].bindings ensures SourceSettlesFirst(p, p.nodes[i].bindings[name].source, i) {
      SliceSources(c, destination, q, cut, required, i, name);
    }
    assert p.nodes[i].bindings.Keys == p.nodes[i].inputs.Keys by {
      assert q.nodes[i].bindings.Keys == c.plan.nodes[v].bindings.Keys;
    }
    SliceDefaults(c, destination, q, cut, required, i);
  }

  lemma SliceDefaults(c: Setup, destination: nat, q: Plan, cut: Cut, required: set<string>, i: nat)
    requires Admitted(c) && Sliced(c.plan, destination, q, cut) && i < |q.nodes|
    ensures var node := SlicePlan(q, required).nodes[i];
            node.policy.ContinueWithDefault? ==> PortsValid(SliceWorld(c.world, cut.kept), node.defaults, node.outputs)
  {
    var node, whole := SlicePlan(q, required).nodes[i], c.plan.nodes[cut.kept[i]];
    assert NodeRunnable(c.world, c.plan, cut.kept[i]);
    if node.policy.ContinueWithDefault? {
      OnlyValid(c.world, whole.defaults, whole.outputs, required);
    }
  }

  lemma OnlyValid(w: World, values: Ports, schemas: map<string, Schema>, names: set<string>)
    requires PortsValid(w, values, schemas)
    ensures PortsValid(w, Only(values, names), Only(schemas, names))
  {
    assert Only(values, names).Keys == Only(schemas, names).Keys;
  }

  /** A slice of a plan that can be run can be run. */
  lemma SliceAdmitted(c: Setup, destination: nat, q: Plan, cut: Cut, required: set<string>, s: Setup)
    requires PartOf(c, destination, q, cut, required, s)
    ensures Admitted(s)
  {
    SliceBuilt(c, destination, q, cut, required);
    forall i: nat | i < |s.plan.nodes| ensures NodeRunnable(s.world, s.plan, i) {
      SliceNode(c, destination, q, cut, required, i);
    }
    OnlyValid(c.world, c.input, c.plan.inputs, required);
    AcceptsSame(c, s);
  }

  lemma AcceptsSame(c: Setup, s: Setup)
    requires s.world.accepts == c.world.accepts && KnowsErrorPorts(c.world)
    ensures KnowsErrorPorts(s.world)
    ensures forall values, schemas :: PortsValid(s.world, values, schemas) <==> PortsValid(c.world, values, schemas)
  {
    assert forall schema, v :: Accepts(s.world, schema, v) <==> Accepts(c.world, schema, v);
  }

  // ---------------------------------------------------------------- The slice evaluates as the whole

  lemma {:induction false} AttemptsSame(w: World, kept: seq<nat>, m: seq<int>, node: Node, i: nat, inputs: Ports, from: nat)
    requires i < |kept| && 1 <= from <= MaxAttempts(node)
    ensures LastAttempt(SliceWorld(w, kept), MovedNode(m, node), i, inputs, from) == LastAttempt(w, node, kept[i], inputs, from)
    decreases MaxAttempts(node) - from
  {
    var a := AttemptNode(w, node, kept[i], from, inputs);
    AttemptSame(w, kept, m, node, i, inputs, from);
    if a.Fail? && !Terminal(from, MaxAttempts(node), a.failure.kind) {
      AttemptsSame(w, kept, m, node, i, inputs, from + 1);
    }
  }

  lemma AttemptSame(w: World, kept: seq<nat>, m: seq<int>, node: Node, i: nat, inputs: Ports, attempt: nat)
    requires i < |kept|
    ensures AttemptNode(SliceWorld(w, kept), MovedNode(m, node), i, attempt, inputs) == AttemptNode(w, node, kept[i], attempt, inputs)
  {
    PortsSame(w, kept);
    assert SliceWorld(w, kept).invoke(i, attempt, inputs) == w.invoke(kept[i], attempt, inputs);
  }

  lemma PortsSame(w: World, kept: seq<nat>)
    ensures forall schema, v :: Accepts(SliceWorld(w, kept), schema, v) <==> Accepts(w, schema, v)
    ensures forall values, schemas :: PortsValid(SliceWorld(w, kept), values, schemas) <==> PortsValid(w, values, schemas)
  {
    var w' := SliceWorld(w, kept);
    assert forall schema, v :: Accepts(w', schema, v) <==> Accepts(w, schema, v);
  }

  /** What the reference evaluation of the slice says of its `i`-th node. */
  ghost predicate SettlesAlike(c: Setup, cut: Cut, s: Setup, i: nat)
    requires Sound(c) && Sound(s) && i < |s.plan.nodes| && i < |cut.kept| && cut.kept[i] < |c.plan.nodes|
  {
    Reference(s, i) == if i == s.plan.graph.start then Finished(s.input, SUCCESS) else Reference(c, cut.kept[i])
  }

  ghost predicate AlikeBefore(c: Setup, cut: Cut, s: Setup, k: nat)
    requires Sound(c) && Sound(s) && |cut.kept| == |s.plan.nodes| && forall i: nat | i < |cut.kept| :: cut.kept[i] < |c.plan.nodes|
  {
    forall i: nat | i < |s.plan.nodes| && Position(s.order, i) < k :: SettlesAlike(c, cut, s, i)
  }

  /** An edge of the slice flows when the edge it was flows. */
  lemma FlowsAlike(c: Setup, destination: nat, q: Plan, cut: Cut, s: Setup, j: nat)
    requires Sliced(c.plan, destination, q, cut) && Sound(c) && Sound(s) && s.plan.graph == q.graph && j < |q.graph.edges|
    requires Reference(c, c.plan.graph.start) == Finished(c.input, SUCCESS)
    requires SettlesAlike(c, cut, s, q.graph.edges[j].from)
    ensures Flows(s, j) <==> Flows(c, cut.lines[j])
  {}

  lemma IntoAlike(c: Setup, destination: nat, q: Plan, cut: Cut, required: set<string>, s: Setup, i: nat, j: nat)
    requires PartOf(c, destination, q, cut, required, s) && Sound(s) && i < |q.nodes| && Into(q.graph, i, j)
    requires AlikeBefore(c, cut, s, Position(s.order, i)) && Reference(c, c.plan.graph.start) == Finished(c.input, SUCCESS)
    ensures Into(c.plan.graph, cut.kept[i], cut.lines[j]) && (Flows(s, j) <==> Flows(c, cut.lines[j]))
  {
    EdgeForward(q.graph, s.order, j);
    FlowsAlike(c, destination, q, cut, s, j);
  }

  lemma IntoKept(c: Setup, destination: nat, q: Plan, cut: Cut, i: nat, e: nat) returns (j: nat)
    requires Accepted(c.world, c.plan) && Sliced(c.plan, destination, q, cut) && i < |q.nodes| && Into(c.plan.graph, cut.kept[i], e)
    ensures Into(q.graph, i, j) && cut.lines[j] == e
  {
    PredecessorsKept(c.plan, destination, q, cut, e);
    j :| 0 <= j < |cut.lines| && cut.lines[j] == e;
  }

  lemma RunsAlike(c: Setup, destination: nat, q: Plan, cut: Cut, required: set<string>, s: Setup, i: nat)
    requires PartOf(c, destination, q, cut, required, s) && Sound(s) && i < |q.nodes|
    requires AlikeBefore(c, cut, s, Position(s.order, i))
    ensures Runs(s, i) <==> Runs(c, cut.kept[i])
  {
    var g, v := c.plan.graph, cut.kept[i];
    StartOutcome(c);
    RunsWhen(s, i);
    RunsWhen(c, v);
    forall j: nat | Into(q.graph, i, j) ensures Into(g, v, cut.lines[j]) && (Flows(s, j) <==> Flows(c, cut.lines[j])) {
      IntoAlike(c, destination, q, cut, required, s, i, j);
    }
    forall e: nat | Into(g, v, e) ensures exists j: nat :: Into(q.graph, i, j) && cut.lines[j] == e {
      var j := IntoKept(c, destination, q, cut, i, e);
    }
  }

  // ---------------------------------------------------------------- Inputs

  lemma OpenAll(edges: seq<Edge>, routes: seq<Option<string>>)
    requires forall i | 0 <= i < |edges| :: edges[i].from < |routes| && routes[edges[i].from].None?
    ensures Open(edges, routes) == edges
  {}

  /** A node of the slice other than Start asks for every port it binds to an input or to Start. */
  lemma AskedFor(c: Setup, destination: nat, q: Plan, cut: Cut, i: nat, name: string, port: string)
    requires Accepted(c.world, c.plan) && Sliced(c.plan, destination, q, cut)
    requires i < |q.nodes| && i != q.graph.start && name in q.nodes[i].bindings
    requires q.nodes[i].bindings[name].source == WorkflowInput(port) || q.nodes[i].bindings[name].source == NodeOutput(q.graph.start, port)
    ensures Requires(q, seq(|q.nodes|, _ => None), port)
  {
    var routes: seq<Option<string>> := seq(|q.nodes|, _ => None);
    OpenAll(q.graph.edges, routes);
    assert Opened(q.graph, routes) == q.graph;
    StartReaches(c, destination, q, cut, i);
    assert AsksBy(q, routes, q.nodes[i].bindings[name].source, port);
    assert Asks(q, routes, i, port);
  }

  lemma SuppliedSame(c: Setup, destination: nat, q: Plan, cut: Cut, required: set<string>, s: Setup, port: string)
    requires PartOf(c, destination, q, cut, required, s) && Requires(q, seq(|q.nodes|, _ => None), port)
    ensures Port(s.input, port) == Port(c.input, port)
  {}

  lemma StartReaches(c: Setup, destination: nat, q: Plan, cut: Cut, i: nat)
    requires Accepted(c.world, c.plan) && Sliced(c.plan, destination, q, cut) && i < |q.nodes|
    ensures Reaches(q.graph, q.graph.start, i) && Reaches(c.plan.graph, c.plan.graph.start, cut.kept[i])
  {
    assert OnMainPath(c.plan.graph, cut.kept[i]);
    var es :| IsPath(c.plan.graph, c.plan.graph.start, es, cut.kept[i]);
    PathKept(c.plan, destination, q, cut, c.plan.graph.start, es, cut.kept[i]);
  }

  /** What Start shows to a later node, in the slice and in the whole. */
  lemma StartShown(c: Setup, n: nat)
    requires Sound(c) && n < |c.plan.nodes| && n != c.plan.graph.start && Reaches(c.plan.graph, c.plan.graph.start, n)
    requires Reference(c, c.plan.graph.start) == Finished(c.input, SUCCESS)
    ensures Shown(c, Before(c, n)).outputs[c.plan.graph.start] == Some(c.input)
    ensures Shown(c, Before(c, n)).failures[c.plan.graph.start] == None
  {
    ReachesForward(c.plan.graph, c.order, c.plan.graph.start, n);
    ShownBefore(c, n, c.plan.graph.start);
  }

  /** What a node settled before it shows, when it settles alike. */
  lemma ShownAlike(c: Setup, cut: Cut, s: Setup, v: nat, src: nat, i: nat, k: nat)
    requires Sound(c) && Sound(s) && v < |c.plan.nodes| && src < |c.plan.nodes| && i < |s.plan.nodes| && k < |s.plan.nodes|
    requires Position(c.order, src) < Position(c.order, v) <==> Position(s.order, k) < Position(s.order, i)
    requires Position(s.order, k) < Position(s.order, i) ==> Reference(s, k) == Reference(c, src)
    requires s.plan.nodes[k].defaults == c.plan.nodes[src].defaults
    ensures Shown(s, Before(s, i)).outputs[k] == Shown(c, Before(c, v)).outputs[src]
    ensures Shown(s, Before(s, i)).failures[k] == Shown(c, Before(c, v)).failures[src]
  {
    ShownBefore(c, v, src);
    ShownBefore(s, i, k);
  }

  /** A selected source other than Start shows the same in both. */
  lemma SourceAlike(c: Setup, destination: nat, q: Plan, cut: Cut, required: set<string>, s: Setup, i: nat, src: nat)
    requires PartOf(c, destination, q, cut, required, s) && Sound(s) && i < |q.nodes|
    requires AlikeBefore(c, cut, s, Position(s.order, i))
    requires src != c.plan.graph.start && Selected(cut.oldToNew, src) && Reaches(c.plan.graph, src, cut.kept[i])
    requires Reaches(q.graph, cut.oldToNew[src], i)
    ensures Shown(s, Before(s, i)).outputs[cut.oldToNew[src]] == Shown(c, Before(c, cut.kept[i])).outputs[src]
    ensures Shown(s, Before(s, i)).failures[cut.oldToNew[src]] == Shown(c, Before(c, cut.kept[i])).failures[src]
  {
    var v, k := cut.kept[i], cut.oldToNew[src];
    ReachesForward(c.plan.graph, c.order, src, v);
    ReachesForward(q.graph, s.order, k, i);
    assert k == i <==> src == v;
    assert Position(s.order, k) < Position(s.order, i) ==> SettlesAlike(c, cut, s, k);
    ShownAlike(c, cut, s, v, src, i, k);
  }

  // ---------------------------------------------------------------- Each binding resolves alike

  lemma StartShownAlike(c: Setup, destination: nat, q: Plan, cut: Cut, s: Setup, i: nat)
    requires Accepted(c.world, c.plan) && Sliced(c.plan, destination, q, cut) && Sound(c) && Sound(s) && s.plan.graph == q.graph
    requires i < |q.nodes| && i != q.graph.start
    requires Reference(c, c.plan.graph.start) == Finished(c.input, SUCCESS) && Reference(s, q.graph.start) == Finished(s.input, SUCCESS)
    ensures Shown(c, Before(c, cut.kept[i])).outputs[c.plan.graph.start] == Some(c.input)
    ensures Shown(c, Before(c, cut.kept[i])).failures[c.plan.graph.start] == None
    ensures Shown(s, Before(s, i)).outputs[q.graph.start] == Some(s.input)
    ensures Shown(s, Before(s, i)).failures[q.graph.start] == None
  {
    StartReaches(c, destination, q, cut, i);
    StartShown(c, cut.kept[i]);
    StartShown(s, i);
  }

  lemma StartPortAlike(c: Setup, destination: nat, q: Plan, cut: Cut, s: Setup, i: nat, name: string, port: string)
    requires Accepted(c.world, c.plan) && Sliced(c.plan, destination, q, cut) && Sound(c) && Sound(s) && s.plan.graph == q.graph
    requires i < |q.nodes| && i != q.graph.start && |s.plan.nodes| == |q.nodes|
    requires name in c.plan.nodes[cut.kept[i]].bindings && c.plan.nodes[cut.kept[i]].bindings[name].source == NodeOutput(c.plan.graph.start, port)
    requires Reference(c, c.plan.graph.start) == Finished(c.input, SUCCESS) && Reference(s, q.graph.start) == Finished(s.input, SUCCESS)
    requires Port(s.input, port) == Port(c.input, port)
    ensures BindingAlike(c, q, cut, s, i, name)
  {
    StartShownAlike(c, destination, q, cut, s, i);
    StartMoved(c, destination, q, cut, i, name, port);
    PortAlike(Shown(c, Before(c, cut.kept[i])), Shown(s, Before(s, i)), c.plan.graph.start, q.graph.start,
              c.plan.nodes[cut.kept[i]].bindings[name], q.nodes[i].bindings[name], port);
  }

  lemma StartOutputAlike(c: Setup, destination: nat, q: Plan, cut: Cut, required: set<string>, s: Setup, i: nat, name: string, port: string)
    requires PartOf(c, destination, q, cut, required, s) && Sound(s) && i < |q.nodes| && i != q.graph.start
    requires name in c.plan.nodes[cut.kept[i]].bindings && c.plan.nodes[cut.kept[i]].bindings[name].source == NodeOutput(c.plan.graph.start, port)
    requires Reference(c, c.plan.graph.start) == Finished(c.input, SUCCESS) && Reference(s, q.graph.start) == Finished(s.input, SUCCESS)
    ensures BindingAlike(c, q, cut, s, i, name)
  {
    StartMoved(c, destination, q, cut, i, name, port);
    AskedFor(c, destination, q, cut, i, name, port);
    SuppliedSame(c, destination, q, cut, required, s, port);
    StartPortAlike(c, destination, q, cut, s, i, name, port);
  }

  lemma StartMoved(c: Setup, destination: nat, q: Plan, cut: Cut, i: nat, name: string, port: string)
    requires Sliced(c.plan, destination, q, cut) && i < |q.nodes| && name in c.plan.nodes[cut.kept[i]].bindings
    requires c.plan.nodes[cut.kept[i]].bindings[name].source == NodeOutput(c.plan.graph.start, port)
    ensures name in q.nodes[i].bindings && q.nodes[i].bindings[name].path == c.plan.nodes[cut.kept[i]].bindings[name].path
    ensures q.nodes[i].bindings[name].source == NodeOutput(q.graph.start, port)
  {}

  lemma PortAlike(view: View, view': View, src: nat, k: nat, b: Binding, b': Binding, port: string)
    requires b.source == NodeOutput(src, port) && b'.source == NodeOutput(k, port) && b'.path == b.path
    requires src < |view.outputs| && k < |view'.outputs| && view.outputs[src].Some? && view'.outputs[k].Some?
    requires Port(view'.outputs[k].value, port) == Port(view.outputs[src].value, port)
    ensures ResolveBinding(view', b') == ResolveBinding(view, b)
  {}

  lemma PairAlike(view: View, view': View, src: nat, k: nat, b: Binding, b': Binding, port: string)
    requires || (b.source == NodeOutput(src, port) && b'.source == NodeOutput(k, port))
             || (b.source == NodeError(src, port) && b'.source == NodeError(k, port))
    requires b'.path == b.path
    requires src < |view.outputs| == |view.failures| && k < |view'.outputs| == |view'.failures|
    requires view'.outputs[k] == view.outputs[src] && view'.failures[k] == view.failures[src]
    ensures ResolveBinding(view', b') == ResolveBinding(view, b)
  {}

  /** What the slice shows of a node that a binding names is what the plan shows of it. */
  lemma SourcePaired(c: Setup, destination: nat, q: Plan, cut: Cut, required: set<string>, s: Setup, i: nat, name: string, src: nat)
    requires PartOf(c, destination, q, cut, required, s) && Sound(s) && i < |q.nodes| && i != q.graph.start
    requires AlikeBefore(c, cut, s, Position(s.order, i)) && src != c.plan.graph.start
    requires name in c.plan.nodes[cut.kept[i]].bindings && Names(c.plan.nodes[cut.kept[i]].bindings[name].source, src)
    ensures src < |cut.oldToNew| && src < |c.plan.nodes| && 0 <= cut.oldToNew[src] < |s.plan.nodes|
    ensures Shown(s, Before(s, i)).outputs[cut.oldToNew[src]] == Shown(c, Before(c, cut.kept[i])).outputs[src]
    ensures Shown(s, Before(s, i)).failures[cut.oldToNew[src]] == Shown(c, Before(c, cut.kept[i])).failures[src]
  {
    SourceKept(c, destination, q, cut, cut.kept[i], name, src);
    SourceAlike(c, destination, q, cut, required, s, i, src);
  }

  lemma OutputAlike(c: Setup, destination: nat, q: Plan, cut: Cut, required: set<string>, s: Setup, i: nat, name: string, src: nat, port: string)
    requires PartOf(c, destination, q, cut, required, s) && Sound(s) && i < |q.nodes| && i != q.graph.start
    requires AlikeBefore(c, cut, s, Position(s.order, i)) && src != c.plan.graph.start
    requires name in c.plan.nodes[cut.kept[i]].bindings && c.plan.nodes[cut.kept[i]].bindings[name].source == NodeOutput(src, port)
    ensures BindingAlike(c, q, cut, s, i, name)
  {
    SourcePaired(c, destination, q, cut, required, s, i, name, src);
    PairAlike(Shown(c, Before(c, cut.kept[i])), Shown(s, Before(s, i)), src, cut.oldToNew[src],
              c.plan.nodes[cut.kept[i]].bindings[name], q.nodes[i].bindings[name], port);
  }

  ghost predicate BindingAlike(c: Setup, q: Plan, cut: Cut, s: Setup, i: nat, name: string)
    requires Sound(c) && Sound(s) && i < |cut.kept| && i < |s.plan.nodes| && i < |q.nodes| && cut.kept[i] < |c.plan.nodes|
    requires name in q.nodes[i].bindings && name in c.plan.nodes[cut.kept[i]].bindings
  {
    ResolveBinding(Shown(s, Before(s, i)), q.nodes[i].bindings[name])
    == ResolveBinding(Shown(c, Before(c, cut.kept[i])), c.plan.nodes[cut.kept[i]].bindings[name])
  }

  lemma StartFailureAlike(c: Setup, destination: nat, q: Plan, cut: Cut, required: set<string>, s: Setup, i: nat, name: string, port: string)
    requires PartOf(c, destination, q, cut, required, s) && Sound(s) && i < |q.nodes| && i != q.graph.start
    requires name in c.plan.nodes[cut.kept[i]].bindings && c.plan.nodes[cut.kept[i]].bindings[name].source == NodeError(c.plan.graph.start, port)
    requires Reference(c, c.plan.graph.start) == Finished(c.input, SUCCESS) && Reference(s, q.graph.start) == Finished(s.input, SUCCESS)
    ensures BindingAlike(c, q, cut, s, i, name)
  {
    StartShownAlike(c, destination, q, cut, s, i);
  }

  lemma FailureAlike(c: Setup, destination: nat, q: Plan, cut: Cut, required: set<string>, s: Setup, i: nat, name: string, src: nat, port: string)
    requires PartOf(c, destination, q, cut, required, s) && Sound(s) && i < |q.nodes| && i != q.graph.start
    requires AlikeBefore(c, cut, s, Position(s.order, i)) && src != c.plan.graph.start
    requires name in c.plan.nodes[cut.kept[i]].bindings && c.plan.nodes[cut.kept[i]].bindings[name].source == NodeError(src, port)
    ensures BindingAlike(c, q, cut, s, i, name)
  {
    SourcePaired(c, destination, q, cut, required, s, i, name, src);
    PairAlike(Shown(c, Before(c, cut.kept[i])), Shown(s, Before(s, i)), src, cut.oldToNew[src],
              c.plan.nodes[cut.kept[i]].bindings[name], q.nodes[i].bindings[name], port);
  }

  lemma InputAlike(c: Setup, destination: nat, q: Plan, cut: Cut, required: set<string>, s: Setup, i: nat, name: string, port: string)
    requires PartOf(c, destination, q, cut, required, s) && Sound(s) && i < |q.nodes| && i != q.graph.start
    requires name in c.plan.nodes[cut.kept[i]].bindings && c.plan.nodes[cut.kept[i]].bindings[name].source == WorkflowInput(port)
    ensures BindingAlike(c, q, cut, s, i, name)
  {
    AskedFor(c, destination, q, cut, i, name, port);
    SuppliedSame(c, destination, q, cut, required, s, port);
  }

  lemma BindingsAlike(c: Setup, destination: nat, q: Plan, cut: Cut, required: set<string>, s: Setup, i: nat, name: string)
    requires PartOf(c, destination, q, cut, required, s) && Sound(s) && i < |q.nodes| && i != q.graph.start
    requires AlikeBefore(c, cut, s, Position(s.order, i)) && name in q.nodes[i].bindings
    requires Reference(c, c.plan.graph.start) == Finished(c.input, SUCCESS) && Reference(s, q.graph.start) == Finished(s.input, SUCCESS)
    ensures BindingAlike(c, q, cut, s, i, name)
  {
    var v := cut.kept[i];
    match c.plan.nodes[v].bindings[name].source {
      case Literal(_) =>
      case WorkflowInput(port) => InputAlike(c, destination, q, cut, required, s, i, name, port);
      case NodeOutput(src, port) =>
        if src == c.plan.graph.start {
          StartOutputAlike(c, destination, q, cut, required, s, i, name, port);
        } else {
          OutputAlike(c, destination, q, cut, required, s, i, name, src, port);
        }
      case NodeError(src, port) =>
        if src == c.plan.graph.start {
          StartFailureAlike(c, destination, q, cut, required, s, i, name, port);
        } else {
          FailureAlike(c, destination, q, cut, required, s, i, name, src, port);
        }
      case LoopVariable(port) => NoLoopVariable(c, v, name);
    }
  }

  lemma NoLoopVariable(c: Setup, v: nat, name: string)
    requires Accepted(c.world, c.plan) && c.plan.variables.None? && v < |c.plan.nodes| && name in c.plan.nodes[v].bindings
    ensures !c.plan.nodes[v].bindings[name].source.LoopVariable?
  {
    AcceptedDeclared(c.world, c.plan);
    assert SourceDeclared(c.plan, c.plan.nodes[v].bindings[name].source);
  }

  /** Bindings that resolve alike, under two hosts with the same schemas, give a node the same inputs. */
  lemma ResolveAlike(w: World, w': World, v: View, v': View, node: Node, node': Node)
    requires w'.accepts == w.accepts && node'.kind == node.kind && node'.inputs == node.inputs && node'.bindings.Keys == node.bindings.Keys
    requires forall name <- node.bindings :: ResolveBinding(v', node'.bindings[name]) == ResolveBinding(v, node.bindings[name])
    ensures ResolveInputs(w', v', node') == ResolveInputs(w, v, node)
  {
    assert forall name <- node.bindings :: Usable(w', v', node', name) <==> Usable(w, v, node, name);
    var r := map name | name in node.bindings && ResolveBinding(v, node.bindings[name]).Some? :: ResolveBinding(v, node.bindings[name]).value;
    var r' := map name | name in node'.bindings && ResolveBinding(v', node'.bindings[name]).Some? :: ResolveBinding(v', node'.bindings[name]).value;
    assert r == r';
  }

  lemma InputsAlike(c: Setup, destination: nat, q: Plan, cut: Cut, required: set<string>, s: Setup, i: nat)
    requires PartOf(c, destination, q, cut, required, s) && Sound(s) && i < |q.nodes| && i != q.graph.start
    requires AlikeBefore(c, cut, s, Position(s.order, i))
    requires Reference(c, c.plan.graph.start) == Finished(c.input, SUCCESS) && Reference(s, q.graph.start) == Finished(s.input, SUCCESS)
    ensures ReferenceInputs(s, i) == ReferenceInputs(c, cut.kept[i])
  {
    var v := cut.kept[i];
    var view, view' := Shown(c, Before(c, v)), Shown(s, Before(s, i));
    forall name <- c.plan.nodes[v].bindings
      ensures ResolveBinding(view', q.nodes[i].bindings[name]) == ResolveBinding(view, c.plan.nodes[v].bindings[name])
    {
      BindingsAlike(c, destination, q, cut, required, s, i, name);
    }
    ResolveAlike(c.world, s.world, view, view', c.plan.nodes[v], q.nodes[i]);
  }

  lemma OutcomeAlike(w: World, cut: Cut, node: Node, i: nat, inputs: Option<Ports>)
    requires i < |cut.kept|
    ensures OutcomeOn(SliceWorld(w, cut.kept), MovedNode(cut.oldToNew, node), i, inputs) == OutcomeOn(w, node, cut.kept[i], inputs)
  {
    if inputs.Some? {
      AttemptsSame(w, cut.kept, cut.oldToNew, node, i, inputs.value, 1);
    }
  }

  lemma SliceStart(c: Setup, destination: nat, q: Plan, cut: Cut, required: set<string>, s: Setup)
    requires PartOf(c, destination, q, cut, required, s) && Sound(s)
    ensures Reference(c, c.plan.graph.start) == Finished(c.input, SUCCESS)
    ensures Reference(s, q.graph.start) == Finished(s.input, SUCCESS)
  {
    StartOutcome(c);
    OnlyValid(c.world, c.input, c.plan.inputs, required);
    AcceptsSame(c, s);
    StartTrimmed(c, destination, q, cut, required);
    StartOutcome(s);
  }

  lemma StartTrimmed(c: Setup, destination: nat, q: Plan, cut: Cut, required: set<string>)
    requires Sliced(c.plan, destination, q, cut) && c.plan.graph.start < |c.plan.nodes| && PassesThrough(c.world, c.plan)
    ensures PassesThrough(SliceWorld(c.world, cut.kept), SlicePlan(q, required))
  {
    assert SlicePlan(q, required).nodes[q.graph.start].bindings == InputBindings(Only(q.inputs, required));
  }

  /** The slice evaluates each of its nodes as the whole plan does, although it is given the required inputs alone. */
  lemma {:induction false} SliceEvaluates(c: Setup, destination: nat, q: Plan, cut: Cut, required: set<string>, s: Setup, i: nat)
    requires PartOf(c, destination, q, cut, required, s) && Sound(s) && i < |q.nodes|
    ensures SettlesAlike(c, cut, s, i)
    decreases Position(s.order, i)
  {
    SliceStart(c, destination, q, cut, required, s);
    if i != q.graph.start {
      forall k: nat | k < |q.nodes| && Position(s.order, k) < Position(s.order, i) ensures SettlesAlike(c, cut, s, k) {
        SliceEvaluates(c, destination, q, cut, required, s, k);
      }
      NodeEvaluates(c, destination, q, cut, required, s, i);
    }
  }

  lemma NodeEvaluates(c: Setup, destination: nat, q: Plan, cut: Cut, required: set<string>, s: Setup, i: nat)
    requires PartOf(c, destination, q, cut, required, s) && Sound(s) && i < |q.nodes| && i != q.graph.start
    requires AlikeBefore(c, cut, s, Position(s.order, i))
    requires Reference(c, c.plan.graph.start) == Finished(c.input, SUCCESS) && Reference(s, q.graph.start) == Finished(s.input, SUCCESS)
    ensures SettlesAlike(c, cut, s, i)
  {
    var v := cut.kept[i];
    RunsAlike(c, destination, q, cut, required, s, i);
    InputsAlike(c, destination, q, cut, required, s, i);
    RunsWhen(s, i);
    RunsWhen(c, v);
    OutcomeAlike(c.world, cut, c.plan.nodes[v], i, ReferenceInputs(c, v));
  }

  // ---------------------------------------------------------------- Whole partial runs

  /** The end of a partial run, told in terms of the whole plan. */
  ghost predicate SettledAsWhole(c: Setup, q: Plan, cut: Cut, required: set<string>, e: State)
    requires Sound(c) && |cut.oldToNew| == |c.plan.nodes|
  {
    && q.graph.start < |e.nodes| == |e.outputs| == |e.failures| && |e.edges| == |cut.lines|
    && e.nodes[q.graph.start] == Succeeded && e.outputs[q.graph.start] == Some(Only(c.input, required))
    && (forall v: nat | Selected(cut.oldToNew, v) && v != c.plan.graph.start :: NodeAsWhole(c, cut, e, v))
    && (forall j: nat | j < |e.edges| :: e.edges[j] == if Flows(c, cut.lines[j]) then EdgeTaken else EdgeSkipped)
  }

  ghost predicate NodeAsWhole(c: Setup, cut: Cut, e: State, v: nat)
    requires Sound(c) && Selected(cut.oldToNew, v) && v < |c.plan.nodes| && |e.nodes| == |e.outputs| == |e.failures|
  {
    var i := cut.oldToNew[v];
    && i < |e.nodes| && e.nodes[i] == StatusOf(Reference(c, v))
    && e.outputs[i] == OutputsOf(c.plan.nodes[v], Reference(c, v)) && e.failures[i] == FailureOf(Reference(c, v))
  }

  lemma NodeSettledAsWhole(c: Setup, destination: nat, q: Plan, cut: Cut, required: set<string>, s: Setup, e: State, v: nat)
    requires PartOf(c, destination, q, cut, required, s) && Sound(s) && AsReferred(s, e)
    requires Selected(cut.oldToNew, v) && v != c.plan.graph.start
    ensures NodeAsWhole(c, cut, e, v)
  {
    SettledAlike(c, destination, q, cut, required, s, v);
    assert NodeAsReferred(s, e, cut.oldToNew[v]);
  }

  /** A selected node other than Start, in the slice and in the plan. */
  lemma SettledAlike(c: Setup, destination: nat, q: Plan, cut: Cut, required: set<string>, s: Setup, v: nat)
    requires PartOf(c, destination, q, cut, required, s) && Sound(s)
    requires Selected(cut.oldToNew, v) && v != c.plan.graph.start
    ensures v < |c.plan.nodes| && 0 <= cut.oldToNew[v] < |s.plan.nodes|
    ensures Reference(s, cut.oldToNew[v]) == Reference(c, v)
    ensures OutputsOf(s.plan.nodes[cut.oldToNew[v]], Reference(c, v)) == OutputsOf(c.plan.nodes[v], Reference(c, v))
  {
    SliceEvaluates(c, destination, q, cut, required, s, cut.oldToNew[v]);
  }

  lemma EdgeSettledAsWhole(c: Setup, destination: nat, q: Plan, cut: Cut, required: set<string>, s: Setup, e: State, j: nat)
    requires PartOf(c, destination, q, cut, required, s) && Sound(s) && AsReferred(s, e) && j < |e.edges|
    ensures e.edges[j] == if Flows(c, cut.lines[j]) then EdgeTaken else EdgeSkipped
  {
    StartOutcome(c);
    SliceEvaluates(c, destination, q, cut, required, s, q.graph.edges[j].from);
    FlowsAlike(c, destination, q, cut, s, j);
  }

  lemma PartialAsWhole(c: Setup, destination: nat, q: Plan, cut: Cut, required: set<string>, s: Setup, e: State)
    requires PartOf(c, destination, q, cut, required, s) && Sound(s) && AsReferred(s, e)
    ensures SettledAsWhole(c, q, cut, required, e)
  {
    SliceStart(c, destination, q, cut, required, s);
    assert NodeAsReferred(s, e, q.graph.start);
    forall v: nat | Selected(cut.oldToNew, v) && v != c.plan.graph.start ensures NodeAsWhole(c, cut, e, v) {
      NodeSettledAsWhole(c, destination, q, cut, required, s, e, v);
    }
    forall j: nat | j < |e.edges| ensures e.edges[j] == if Flows(c, cut.lines[j]) then EdgeTaken else EdgeSkipped {
      EdgeSettledAsWhole(c, destination, q, cut, required, s, e, j);
    }
  }

  /** No node upstream of the destination, nor the destination itself, fails under the stop policy or is suspended. */
  ghost predicate SliceSucceeds(c: Setup, destination: nat)
    requires Sound(c)
  {
    forall v: nat | v < |c.plan.nodes| && Reaches(c.plan.graph, v, destination) :: Passes(c, v)
  }

  ghost predicate Passes(c: Setup, v: nat)
    requires Sound(c) && v < |c.plan.nodes|
  {
    !Reference(c, v).Halted? && !Reference(c, v).Suspended?
  }

  lemma PassesAlike(c: Setup, destination: nat, q: Plan, cut: Cut, required: set<string>, s: Setup, i: nat)
    requires PartOf(c, destination, q, cut, required, s) && Sound(s) && i < |q.nodes|
    ensures Passes(s, i) <==> Passes(c, cut.kept[i])
  {
    SliceStart(c, destination, q, cut, required, s);
    SliceEvaluates(c, destination, q, cut, required, s, i);
  }

  lemma PassesInWhole(c: Setup, destination: nat, q: Plan, cut: Cut, required: set<string>, s: Setup, v: nat)
    requires PartOf(c, destination, q, cut, required, s) && Sound(s) && Succeeds(s)
    requires v < |c.plan.nodes| && Reaches(c.plan.graph, v, destination)
    ensures Passes(c, v)
  {
    assert Selected(cut.oldToNew, v);
    PassesAlike(c, destination, q, cut, required, s, cut.oldToNew[v]);
  }

  lemma PassesInSlice(c: Setup, destination: nat, q: Plan, cut: Cut, required: set<string>, s: Setup, i: nat)
    requires PartOf(c, destination, q, cut, required, s) && Sound(s) && SliceSucceeds(c, destination) && i < |q.nodes|
    ensures Passes(s, i)
  {
    assert Selected(cut.oldToNew, cut.kept[i]);
    PassesAlike(c, destination, q, cut, required, s, i);
  }

  lemma SliceThenWhole(c: Setup, destination: nat, q: Plan, cut: Cut, required: set<string>, s: Setup)
    requires PartOf(c, destination, q, cut, required, s) && Sound(s) && Succeeds(s)
    ensures SliceSucceeds(c, destination)
  {
    forall v: nat | v < |c.plan.nodes| && Reaches(c.plan.graph, v, destination) ensures Passes(c, v) {
      PassesInWhole(c, destination, q, cut, required, s, v);
    }
  }

  lemma WholeThenSlice(c: Setup, destination: nat, q: Plan, cut: Cut, required: set<string>, s: Setup)
    requires PartOf(c, destination, q, cut, required, s) && Sound(s) && SliceSucceeds(c, destination)
    ensures Succeeds(s)
  {
    forall i: nat | i < |s.plan.nodes| ensures Passes(s, i) {
      PassesInSlice(c, destination, q, cut, required, s, i);
    }
    AllPass(s);
  }

  lemma AllPass(c: Setup)
    requires Sound(c) && forall n: nat | n < |c.plan.nodes| :: Passes(c, n)
    ensures Succeeds(c)
  {
    forall n: nat | n < |c.plan.nodes| ensures !Reference(c, n).Halted? && !Reference(c, n).Suspended? {
      assert Passes(c, n);
    }
  }

  lemma PartialSucceeds(c: Setup, destination: nat, q: Plan, cut: Cut, required: set<string>, s: Setup)
    requires PartOf(c, destination, q, cut, required, s) && Sound(s)
    ensures Succeeds(s) <==> SliceSucceeds(c, destination)
  {
    if Succeeds(s) {
      SliceThenWhole(c, destination, q, cut, required, s);
    }
    if SliceSucceeds(c, destination) {
      WholeThenSlice(c, destination, q, cut, required, s);
    }
  }

  lemma SliceQuiet(w: World, kept: seq<nat>)
    ensures Quiet(w) ==> Quiet(SliceWorld(w, kept))
    ensures Informs(w) ==> Informs(SliceWorld(w, kept))
  {}

  /** `RunPartial`, resumed whenever a breakpoint pauses it: the run is refused when the destination is unknown or a
      required input is not supplied; otherwise it completes exactly when nothing upstream of the destination halts, and
      then has settled every selected node as the run of the whole plan settles it. */
  method RunPartial(c: Setup, destination: nat, supplied: Ports)
      returns (refused: bool, r: RunResult, e: Execution?, q: Plan, cut: Cut, required: set<string>)
    requires Accepted(c.world, c.plan) && Admitted(c) && c.plan.variables.None? && PassesThrough(c.world, c.plan)
    requires Informs(c.world) && Quiet(c.world)
    requires forall port <- supplied :: port in c.input && supplied[port] == c.input[port]
    ensures destination < |c.plan.nodes| ==> Sliced(c.plan, destination, q, cut) && required <= c.input.Keys
    ensures destination < |c.plan.nodes| ==> forall port :: port in required <==> Requires(q, seq(|q.nodes|, _ => None), port)
    ensures refused <==> destination >= |c.plan.nodes| || !(required <= supplied.Keys)
    ensures !refused ==> e != null
    ensures !refused ==> (r.Completed? <==> SliceSucceeds(c, destination))
    ensures !refused && r.Completed? ==> SettledAsWhole(c, q, cut, required, e.Snapshot())
    ensures !refused && r.Stopped? ==> exists v: nat :: v < |c.plan.nodes| && Reaches(c.plan.graph, v, destination) && Reference(c, v) == Halted(r.failure)
  {
    e, required, r := null, {}, Stopped(0, BAD_INPUTS);
    var sliced;
    sliced, cut := DerivePartialRunPlan(c.plan, destination);
    if sliced.None? {
      assert destination < |c.plan.nodes| ==> OnMainPath(c.plan.graph, destination);
      return true, r, e, c.plan, cut, required;
    }
    q := sliced.value;
    required := RequiredWorkflowInputs(q, seq(|q.nodes|, _ => None));
    refused := !(required <= supplied.Keys);
    RequiredSupplied(c, destination, q, cut, required);
    if !refused {
      e, r := RunSlice(c, destination, q, cut, required, supplied);
    }
  }

  lemma RequiredSupplied(c: Setup, destination: nat, q: Plan, cut: Cut, required: set<string>)
    requires Accepted(c.world, c.plan) && Admitted(c) && PassesThrough(c.world, c.plan) && Sliced(c.plan, destination, q, cut)
    requires forall port :: port in required <==> Requires(q, seq(|q.nodes|, _ => None), port)
    ensures required <= c.input.Keys
  {
    AcceptedDeclared(c.world, c.plan);
    forall port <- required ensures port in c.input {
      RequiredDeclared(c, destination, q, cut, port);
    }
  }

  /** The partial run on what was supplied is the one on the full run's inputs. */
  lemma SliceBegins(c: Setup, destination: nat, q: Plan, cut: Cut, required: set<string>, supplied: Ports, order: seq<nat>)
    requires Accepted(c.world, c.plan) && Admitted(c) && c.plan.variables.None? && PassesThrough(c.world, c.plan)
    requires Informs(c.world) && Quiet(c.world) && Sliced(c.plan, destination, q, cut) && IsTopological(q.graph, order)
    requires forall port :: port in required <==> Requires(q, seq(|q.nodes|, _ => None), port)
    requires required <= supplied.Keys && forall port <- supplied :: port in c.input && supplied[port] == c.input[port]
    ensures var s := Setup(SlicePlan(q, required), SliceWorld(c.world, cut.kept), Only(supplied, required), order, map[]);
            PartOf(c, destination, q, cut, required, s) && Admitted(s) && Informs(s.world) && Quiet(s.world)
  {
    var s := Setup(SlicePlan(q, required), SliceWorld(c.world, cut.kept), Only(supplied, required), order, map[]);
    assert Only(supplied, required) == Only(c.input, required);
    SliceAdmitted(c, destination, q, cut, required, s);
    SliceQuiet(c.world, cut.kept);
  }

  method RunSlice(c: Setup, destination: nat, q: Plan, cut: Cut, required: set<string>, supplied: Ports) returns (e: Execution, r: RunResult)
    requires Accepted(c.world, c.plan) && Admitted(c) && c.plan.variables.None? && PassesThrough(c.world, c.plan)
    requires Informs(c.world) && Quiet(c.world) && Sliced(c.plan, destination, q, cut)
    requires forall port :: port in required <==> Requires(q, seq(|q.nodes|, _ => None), port)
    requires required <= supplied.Keys && forall port <- supplied :: port in c.input && supplied[port] == c.input[port]
    ensures r.Completed? <==> SliceSucceeds(c, destination)
    ensures r.Completed? ==> SettledAsWhole(c, q, cut, required, e.Snapshot())
    ensures r.Stopped? ==> exists v: nat :: v < |c.plan.nodes| && Reaches(c.plan.graph, v, destination) && Reference(c, v) == Halted(r.failure)
  {
    OrderedAcyclic(c.plan.graph, c.order);
    SliceAcyclic(c.plan, destination, q, cut);
    var order, ok := TopologicalOrder(q.graph);
    var s := Setup(SlicePlan(q, required), SliceWorld(c.world, cut.kept), Only(supplied, required), order, map[]);
    SliceBegins(c, destination, q, cut, required, supplied, order);
    e, r := RunToEnd(s);
    EndsAsWhole(c, destination, q, cut, required, s, e.Snapshot(), r);
  }

  lemma EndsAsWhole(c: Setup, destination: nat, q: Plan, cut: Cut, required: set<string>, s: Setup, e: State, r: RunResult)
    requires PartOf(c, destination, q, cut, required, s) && Sound(s) && ResultAsReferred(s, r)
    requires (r.Completed? <==> Succeeds(s)) && (r.Completed? ==> AsReferred(s, e))
    ensures r.Completed? <==> SliceSucceeds(c, destination)
    ensures r.Completed? ==> SettledAsWhole(c, q, cut, required, e)
    ensures r.Stopped? ==> exists v: nat :: v < |c.plan.nodes| && Reaches(c.plan.graph, v, destination) && Reference(c, v) == Halted(r.failure)
  {
    PartialSucceeds(c, destination, q, cut, required, s);
    if r.Completed? {
      PartialAsWhole(c, destination, q, cut, required, s, e);
    } else {
      SliceHalts(c, destination, q, cut, required, s, r);
    }
  }

  lemma SliceHalts(c: Setup, destination: nat, q: Plan, cut: Cut, required: set<string>, s: Setup, r: RunResult)
    requires PartOf(c, destination, q, cut, required, s) && Sound(s) && ResultAsReferred(s, r) && r.Stopped?
    ensures exists v: nat :: v < |c.plan.nodes| && Reaches(c.plan.graph, v, destination) && Reference(c, v) == Halted(r.failure)
  {
    var i: nat :| i < |q.nodes| && Reference(s, i) == Halted(r.failure);
    SliceStart(c, destination, q, cut, required, s);
    SliceEvaluates(c, destination, q, cut, required, s, i);
    assert Selected(cut.oldToNew, cut.kept[i]);
  }
}
