/** What the compiler accepts (workflow/compiler_graph.go, workflow/compiler_binding.go): each check as a
    statement about paths, and the imperative check that decides it. */
module Acceptance {
  import opened Graphs
  import opened Walks
  import opened Topology
  import opened Options
  import opened Plans

  // ---------------------------------------------------------------- The graph contract

  predicate RouteAllowed(node: Node, route: string) {
    if route == ERROR then node.policy.RouteError? else route in node.routes
  }

  /** The routes a node may be left by: those it declares and, if its policy routes errors, the error route, which no node
      declares for itself. */
  lemma AllowedExactly(node: Node, route: string)
    ensures RouteAllowed(node, route) <==> (route != ERROR && route in node.routes) || (route == ERROR && node.policy == RouteError)
  {}

  /** What `compileEdges` and the node contracts have settled before the graph is validated. */
  ghost predicate Built(p: Plan) {
    && Indexed(p.graph) && |p.nodes| == p.graph.size && p.maxConcurrency > 0
    && (forall e: nat | e < |p.graph.edges| :: EdgeBuilt(p, e))
    && (forall n: nat | n < |p.nodes| :: SetterBuilt(p, p.nodes[n]))
    && (forall n <- p.before :: n < |p.nodes|) && (forall n <- p.after :: n < |p.nodes|)
  }

  predicate EdgeBuilt(p: Plan, e: nat)
    requires e < |p.graph.edges|
  {
    var edge := p.graph.edges[e];
    edge.from < |p.nodes| && edge.to != edge.from && RouteAllowed(p.nodes[edge.from], edge.route)
  }

  /** `setVariableContract` and `loopControlNodeSpec`. */
  predicate SetterBuilt(p: Plan, node: Node) {
    node.kind.SetVariable? ==>
      && node.outputs == map[] && node.routes == [SUCCESS] && p.variables.Some?
      && forall x <- node.kind.assignments ::
           && x in p.variables.value && node.kind.assignments[x] in node.inputs
           && node.inputs[node.kind.assignments[x]] == p.variables.value[x]
  }

  ghost predicate DegreeAccepted(p: Plan, n: nat)
    requires Built(p) && n < |p.nodes|
  {
    var g := p.graph;
    && (n == g.start <==> g.incoming[n] == [])
    && (n == g.end <==> g.outgoing[n] == [])
    && (if p.nodes[n].kind.Merge? then |g.incoming[n]| >= 2
        else |g.incoming[n]| <= 1 || (p.variables.Some? && n == g.end))
  }

  ghost predicate RoutesAccepted(p: Plan, n: nat)
    requires Built(p) && n < |p.nodes|
  {
    && (p.nodes[n].policy.RouteError? ==> HasRoute(p.graph, n, ERROR))
    && (n != p.graph.end ==> forall route <- p.nodes[n].routes :: HasRoute(p.graph, n, route))
  }

  ghost predicate OnMainPath(g: Graph, n: nat) {
    Reaches(g, g.start, n) && Reaches(g, n, g.end)
  }

  ghost predicate GraphAccepted(p: Plan)
    requires Built(p)
  {
    && (forall n: nat | n < |p.nodes| :: DegreeAccepted(p, n) && RoutesAccepted(p, n) && OnMainPath(p.graph, n))
    && Acyclic(p.graph)
  }

  method RoutesHaveEdges(p: Plan, n: nat) returns (ok: bool)
    requires Built(p) && n < |p.nodes|
    ensures ok <==> RoutesAccepted(p, n)
  {
    if p.nodes[n].policy.RouteError? {
      var routed := HasOutgoingRoute(p.graph, n, ERROR);
      if !routed {
        return false;
      }
    }
    if n == p.graph.end {
      return true;
    }
    var routes := p.nodes[n].routes;
    for i := 0 to |routes|
      invariant forall j | 0 <= j < i :: HasRoute(p.graph, n, routes[j])
    {
      var found := HasOutgoingRoute(p.graph, n, routes[i]);
      if !found {
        return false;
      }
    }
    return true;
  }

  /** `validateGraphNode`. */
  method ValidateGraphNode(p: Plan, n: nat) returns (ok: bool)
    requires Built(p) && n < |p.nodes|
    ensures ok <==> DegreeAccepted(p, n) && RoutesAccepted(p, n)
  {
    var g := p.graph;
    var incoming, outgoing := |g.incoming[n]|, |g.outgoing[n]|;
    var routes := RoutesHaveEdges(p, n);
    var merge := p.nodes[n].kind.Merge?;
    if (n == g.start && incoming != 0) || (n != g.start && incoming == 0)
      || (n == g.end && outgoing != 0) || (n != g.end && outgoing == 0) {
      return false;
    }
    if merge && incoming < 2 {
      return false;
    }
    var allowsLoopEndFanIn := p.variables.Some? && n == g.end;
    if !merge && !allowsLoopEndFanIn && incoming > 1 {
      return false;
    }
    return routes;
  }

  /** `validateReachability`. */
  method ValidateReachability(p: Plan) returns (ok: bool)
    requires Built(p)
    ensures ok <==> forall n: nat | n < |p.nodes| :: OnMainPath(p.graph, n)
  {
    var g := p.graph;
    var fromStart := Walk(g, g.start);
    var toEnd := WalkBack(g, g.end);
    for n := 0 to |p.nodes|
      invariant forall m: nat | m < n :: OnMainPath(g, m)
    {
      if !fromStart[n] || !toEnd[n] {
        assert !OnMainPath(g, n);
        return false;
      }
    }
    return true;
  }

  /** `validateGraph`: succeeds exactly on the graphs that keep the contract, with an order of their nodes. */
  method ValidateGraph(p: Plan) returns (order: seq<nat>, ok: bool)
    requires Built(p)
    ensures ok <==> GraphAccepted(p)
    ensures ok ==> IsTopological(p.graph, order) && LeastFirst(p.graph, order)
  {
    order := [];
    for n := 0 to |p.nodes|
      invariant forall m: nat | m < n :: DegreeAccepted(p, m) && RoutesAccepted(p, m)
    {
      var accepted := ValidateGraphNode(p, n);
      if !accepted {
        return order, false;
      }
    }
    order, ok := TopologicalOrder(p.graph);
    if ok {
      ok := ValidateReachability(p);
    }
  }

  // ---------------------------------------------------------------- The binding contract

  function SourceSchema(p: Plan, source: Source): Option<Schema> {
    match source
    case Literal(_) => None
    case WorkflowInput(port) => if port in p.inputs then Some(p.inputs[port]) else None
    case NodeOutput(node, port) =>
      if node < |p.nodes| && port in p.nodes[node].outputs then Some(p.nodes[node].outputs[port]) else None
    case NodeError(node, port) =>
      if node >= |p.nodes| || !p.nodes[node].policy.RouteError? then None
      else if port == ERROR_MESSAGE then Some(MESSAGE_SCHEMA)
      else if port == ERROR_TYPE then Some(TYPE_SCHEMA)
      else None
    case LoopVariable(port) =>
      if p.variables.Some? && port in p.variables.value then Some(p.variables.value[port]) else None
  }

  /** `bindingSchema`: the declared schema, or what it declares at the path. */
  function BindingSchema(w: World, p: Plan, b: Binding): Option<Schema> {
    var schema := SourceSchema(p, b.source);
    if schema.None? || b.path == [] then schema
    else if schema.value.Anything? then None
    else w.project(schema.value.id, b.path)
  }

  predicate Compatible(source: Schema, target: Schema) {
    target == source || target.Anything?
  }

  ghost predicate ErrorGuaranteed(p: Plan, src: nat, n: nat)
    requires src < |p.nodes|
  {
    && Dominates(p.graph, src, n) && ReachesBy(p.graph, src, ERROR, n)
    && forall route <- p.nodes[src].routes :: !ReachesBy(p.graph, src, route, n)
  }

  ghost predicate SomeRouteReaches(p: Plan, src: nat, n: nat)
    requires src < |p.nodes|
  {
    exists route <- p.nodes[src].routes :: ReachesBy(p.graph, src, route, n)
  }

  ghost predicate AdjoinsBy(g: Graph, src: nat, route: string, n: nat) {
    exists e: nat :: RouteEdge(g, src, route, e) && g.edges[e].to == n
  }

  ghost predicate OutputAvailable(p: Plan, src: nat, n: nat)
    requires src < |p.nodes| && n < |p.nodes|
  {
    match p.nodes[n].kind
    case Merge(exclusive, second) =>
      if exclusive && second then SomeRouteReaches(p, src, n) else Adjoins(p.graph, src, n)
    case _ => Dominates(p.graph, src, n) && !ReachesBy(p.graph, src, ERROR, n)
  }

  ghost predicate ErrorAvailable(p: Plan, src: nat, n: nat)
    requires src < |p.nodes| && n < |p.nodes|
  {
    match p.nodes[n].kind
    case Merge(exclusive, second) =>
      if exclusive && second then ReachesBy(p.graph, src, ERROR, n)
      else AdjoinsBy(p.graph, src, ERROR, n) && (exclusive || ErrorGuaranteed(p, src, n))
    case _ => ErrorGuaranteed(p, src, n)
  }

  /** A Merge may be bound to any node with an edge to it: to its output, if the edge is of a route the node declares or the
      Merge waits for all; to its error, if the edge is the error route and the Merge is exclusive. */
  lemma MergeMayBind(p: Plan, src: nat, n: nat, e: nat)
    requires src < |p.nodes| && n < |p.nodes| && p.nodes[n].kind.Merge?
    requires e < |p.graph.edges| && p.graph.edges[e].from == src && p.graph.edges[e].to == n
    ensures p.graph.edges[e].route in p.nodes[src].routes || !p.nodes[n].kind.exclusive ==> OutputAvailable(p, src, n)
    ensures p.graph.edges[e].route == ERROR && p.nodes[n].kind.exclusive ==> ErrorAvailable(p, src, n)
  {
    var g := p.graph;
    ReachesSelf(g, n);
    assert ReachesBy(g, src, g.edges[e].route, n);
    assert Adjoins(g, src, n) && RouteEdge(g, src, g.edges[e].route, e);
  }

  ghost predicate SourceAvailable(p: Plan, source: Source, n: nat)
    requires SourceSchema(p, source).Some? && n < |p.nodes|
  {
    match source
    case NodeOutput(src, _) => OutputAvailable(p, src, n)
    case NodeError(src, _) => ErrorAvailable(p, src, n)
    case _ => true
  }

  ghost predicate BindingAccepted(w: World, p: Plan, n: nat, name: string)
    requires n < |p.nodes| && name in p.nodes[n].bindings && name in p.nodes[n].inputs
  {
    var b, target := p.nodes[n].bindings[name], p.nodes[n].inputs[name];
    if b.source.Literal? then Accepts(w, target, b.source.value)
    else
      && BindingSchema(w, p, b).Some? && Compatible(BindingSchema(w, p, b).value, target)
      && SourceAvailable(p, b.source, n)
  }

  ghost predicate NodeBindingsAccepted(w: World, p: Plan, n: nat)
    requires n < |p.nodes|
  {
    var node := p.nodes[n];
    && node.bindings.Keys == node.inputs.Keys
    && (node.policy.ContinueWithDefault? <==> node.defaults != map[])
    && (node.policy.ContinueWithDefault? ==> PortsValid(w, node.defaults, node.outputs))
    && forall name <- node.bindings :: BindingAccepted(w, p, n, name)
  }

  /** The dominator matrix the binding checks read. */
  ghost predicate ExactMatrix(g: Graph, matrix: seq<seq<bool>>) {
    |matrix| == g.size && forall n | 0 <= n < g.size :: RowExact(g, matrix[n], n)
  }

  /** `normalRouteReaches`. */
  method NormalRouteReaches(p: Plan, src: nat, n: nat) returns (found: bool)
    requires Built(p) && src < |p.nodes| && n < |p.nodes|
    ensures found <==> SomeRouteReaches(p, src, n)
  {
    var routes := p.nodes[src].routes;
    for i := 0 to |routes|
      invariant forall j | 0 <= j < i :: !ReachesBy(p.graph, src, routes[j], n)
    {
      var reached := ReachableFromRoute(p.graph, src, routes[i], n);
      if reached {
        return true;
      }
    }
    return false;
  }

  /** `nodeErrorGuaranteed`. */
  method NodeErrorGuaranteed(p: Plan, src: nat, n: nat, matrix: seq<seq<bool>>) returns (ok: bool)
    requires Built(p) && src < |p.nodes| && n < |p.nodes| && ExactMatrix(p.graph, matrix)
    ensures ok <==> ErrorGuaranteed(p, src, n)
  {
    assert RowExact(p.graph, matrix[n], n);
    if !matrix[n][src] {
      return false;
    }
    var byError := ReachableFromRoute(p.graph, src, ERROR, n);
    if !byError {
      return false;
    }
    var normally := NormalRouteReaches(p, src, n);
    return !normally;
  }

  /** `isDirectPredecessorRoute`. */
  method IsDirectPredecessorRoute(g: Graph, src: nat, route: string, n: nat) returns (found: bool)
    requires Indexed(g) && n < g.size
    ensures found <==> AdjoinsBy(g, src, route, n)
  {
    var into := g.incoming[n];
    assert forall e: nat | e < |g.edges| && g.edges[e].to == n :: e in into;
    for i := 0 to |into|
      invariant forall j | 0 <= j < i :: !RouteEdge(g, src, route, into[j])
    {
      assert Into(g, n, into[i]);
      if g.edges[into[i]].from == src && g.edges[into[i]].route == route {
        assert RouteEdge(g, src, route, into[i]);
        return true;
      }
    }
    return false;
  }

  /** `validateNodeOutputAvailability`. */
  method ValidateOutputAvailability(p: Plan, src: nat, n: nat, matrix: seq<seq<bool>>) returns (ok: bool)
    requires Built(p) && src < |p.nodes| && n < |p.nodes| && ExactMatrix(p.graph, matrix)
    ensures ok <==> OutputAvailable(p, src, n)
  {
    match p.nodes[n].kind {
      case Merge(exclusive, second) =>
        if exclusive && second {
          ok := NormalRouteReaches(p, src, n);
        } else {
          ok := PointsAt(p.graph, src, n);
        }
      case _ =>
        assert RowExact(p.graph, matrix[n], n);
        var byError := ReachableFromRoute(p.graph, src, ERROR, n);
        ok := matrix[n][src] && !byError;
    }
  }

  /** `validateNodeErrorAvailability` and `validateMergeErrorAvailability`. */
  method ValidateErrorAvailability(p: Plan, src: nat, n: nat, matrix: seq<seq<bool>>) returns (ok: bool)
    requires Built(p) && src < |p.nodes| && n < |p.nodes| && ExactMatrix(p.graph, matrix)
    ensures ok <==> ErrorAvailable(p, src, n)
  {
    match p.nodes[n].kind {
      case Merge(exclusive, second) =>
        if exclusive && second {
          ok := ReachableFromRoute(p.graph, src, ERROR, n);
          return;
        }
        ok := IsDirectPredecessorRoute(p.graph, src, ERROR, n);
        if !ok || exclusive {
          return;
        }
        ok := NodeErrorGuaranteed(p, src, n, matrix);
      case _ =>
        ok := NodeErrorGuaranteed(p, src, n, matrix);
    }
  }

  /** `validateBindingContract`. */
  method ValidateBinding(w: World, p: Plan, n: nat, name: string, matrix: seq<seq<bool>>) returns (ok: bool)
    requires Built(p) && n < |p.nodes| && ExactMatrix(p.graph, matrix)
    requires name in p.nodes[n].bindings && name in p.nodes[n].inputs
    ensures ok <==> BindingAccepted(w, p, n, name)
  {
    var b, target := p.nodes[n].bindings[name], p.nodes[n].inputs[name];
    if b.source.Literal? {
      return Accepts(w, target, b.source.value);
    }
    var schema := BindingSchema(w, p, b);
    if schema.None? || !Compatible(schema.value, target) {
      return false;
    }
    match b.source {
      case NodeOutput(src, _) => ok := ValidateOutputAvailability(p, src, n, matrix);
      case NodeError(src, _) => ok := ValidateErrorAvailability(p, src, n, matrix);
      case _ => ok := true;
    }
  }

  /** `validateNodeErrorAction`, `validateNodeBindingShape`, `validateDefaultOutputs` and `validateNodeBindings`. */
  method ValidateNodeBindings(w: World, p: Plan, n: nat, matrix: seq<seq<bool>>) returns (ok: bool)
    requires Built(p) && n < |p.nodes| && ExactMatrix(p.graph, matrix)
    ensures ok <==> NodeBindingsAccepted(w, p, n)
  {
    var node := p.nodes[n];
    if node.bindings.Keys != node.inputs.Keys || (node.policy.ContinueWithDefault? != (node.defaults != map[])) {
      return false;
    }
    if node.policy.ContinueWithDefault? && !PortsValid(w, node.defaults, node.outputs) {
      return false;
    }
    var names := node.bindings.Keys;
    while names != {}
      invariant names <= node.bindings.Keys
      invariant forall name <- node.bindings.Keys - names :: BindingAccepted(w, p, n, name)
    {
      var name :| name in names;
      var accepted := ValidateBinding(w, p, n, name, matrix);
      if !accepted {
        return false;
      }
      names := names - {name};
    }
    return true;
  }

  // ---------------------------------------------------------------- Loop variables

  predicate ReadsVariable(node: Node, x: string) {
    exists name <- node.bindings :: node.bindings[name].source == LoopVariable(x)
  }

  predicate WritesVariable(node: Node, x: string) {
    node.kind.SetVariable? && x in node.kind.assignments
  }

  /** A node both depend on sends control to one of them or to the other, never to both. */
  ghost predicate Branches(g: Graph, branch: nat, a: nat, b: nat) {
    && Dominates(g, branch, a) && Dominates(g, branch, b)
    && (exists route :: ReachesBy(g, branch, route, a)) && (exists route :: ReachesBy(g, branch, route, b))
    && forall route | ReachesBy(g, branch, route, a) :: !ReachesBy(g, branch, route, b)
  }

  ghost predicate Exclusive(g: Graph, a: nat, b: nat) {
    exists branch: nat | branch < g.size :: Branches(g, branch, a, b)
  }

  ghost predicate OrderedOrExclusive(g: Graph, a: nat, b: nat) {
    Reaches(g, a, b) || Reaches(g, b, a) || Exclusive(g, a, b)
  }

  ghost predicate Contends(p: Plan, x: string, a: nat, b: nat)
    requires a < |p.nodes| && b < |p.nodes|
  {
    WritesVariable(p.nodes[a], x) && (WritesVariable(p.nodes[b], x) || ReadsVariable(p.nodes[b], x))
  }

  /** Any write and any other access to `x`, at different nodes, are ordered or never both happen. */
  ghost predicate RaceFreeOn(p: Plan, x: string) {
    forall a: nat, b: nat | a < |p.nodes| && b < |p.nodes| && a != b && Contends(p, x, a, b) :: OrderedOrExclusive(p.graph, a, b)
  }

  ghost predicate RaceFree(p: Plan) {
    p.variables.Some? ==> forall x <- p.variables.value :: RaceFreeOn(p, x)
  }

  /** `routesReaching`. */
  method RoutesReaching(g: Graph, branch: nat, target: nat) returns (routes: set<string>)
    requires Indexed(g) && branch < g.size && target < g.size
    ensures forall route :: route in routes <==> ReachesBy(g, branch, route, target)
  {
    routes := {};
    ReachesSelf(g, target);
    var adjacent := g.outgoing[branch];
    for i := 0 to |adjacent|
      invariant forall j | 0 <= j < i :: OutOf(g, branch, adjacent[j])
      invariant forall route <- routes :: ReachesBy(g, branch, route, target)
      invariant forall j | 0 <= j < i :: Reaches(g, g.edges[adjacent[j]].to, target) ==> g.edges[adjacent[j]].route in routes
    {
      assert OutOf(g, branch, adjacent[i]);
      var edge := g.edges[adjacent[i]];
      var reached := Reachable(g, edge.to, target);
      if edge.to == target || reached {
        routes := routes + {edge.route};
      }
    }
    RoutesAll(g, branch, target, routes);
  }

  lemma RoutesAll(g: Graph, branch: nat, target: nat, routes: set<string>)
    requires Indexed(g) && branch < g.size
    requires forall route <- routes :: ReachesBy(g, branch, route, target)
    requires forall j | 0 <= j < |g.outgoing[branch]| :: OutOf(g, branch, g.outgoing[branch][j])
    requires forall j | 0 <= j < |g.outgoing[branch]| ::
               Reaches(g, g.edges[g.outgoing[branch][j]].to, target) ==> g.edges[g.outgoing[branch][j]].route in routes
    ensures forall route :: route in routes <==> ReachesBy(g, branch, route, target)
  {
    forall route | ReachesBy(g, branch, route, target) ensures route in routes {
      var e :| 0 <= e < |g.edges| && g.edges[e].from == branch && g.edges[e].route == route && Reaches(g, g.edges[e].to, target);
      assert e in g.outgoing[branch];
    }
  }

  method SeparatedBy(g: Graph, branch: nat, a: nat, b: nat) returns (apart: bool)
    requires Indexed(g) && branch < g.size && a < g.size && b < g.size
    requires Dominates(g, branch, a) && Dominates(g, branch, b)
    ensures apart <==> Branches(g, branch, a, b)
  {
    var first := RoutesReaching(g, branch, a);
    var second := RoutesReaching(g, branch, b);
    if first == {} || second == {} {
      return false;
    }
    assert exists route :: route in first;
    assert exists route :: route in second;
    return first !! second;
  }

  /** `mutuallyExclusive`. */
  method MutuallyExclusive(g: Graph, a: nat, b: nat, matrix: seq<seq<bool>>) returns (exclusive: bool)
    requires Indexed(g) && a < g.size && b < g.size && ExactMatrix(g, matrix)
    ensures exclusive <==> Exclusive(g, a, b)
  {
    assert RowExact(g, matrix[a], a) && RowExact(g, matrix[b], b);
    for branch := 0 to g.size
      invariant forall c: nat | c < branch :: !Branches(g, c, a, b)
    {
      if matrix[a][branch] && matrix[b][branch] {
        var apart := SeparatedBy(g, branch, a, b);
        if apart {
          return true;
        }
      }
    }
    return false;
  }

  /** `loopAccessesOrderedOrIndependent`, for accesses at different nodes of which one writes. */
  method AccessesOrdered(g: Graph, a: nat, b: nat, matrix: seq<seq<bool>>) returns (ok: bool)
    requires Indexed(g) && a < g.size && b < g.size && ExactMatrix(g, matrix)
    ensures ok <==> OrderedOrExclusive(g, a, b)
  {
    ok := Reachable(g, a, b);
    if !ok {
      ok := Reachable(g, b, a);
    }
    if !ok {
      ok := MutuallyExclusive(g, a, b, matrix);
    }
  }

  datatype Access = Access(node: nat, write: bool)

  ghost predicate IsAccess(p: Plan, x: string, access: Access) {
    && access.node < |p.nodes|
    && if access.write then WritesVariable(p.nodes[access.node], x) else ReadsVariable(p.nodes[access.node], x)
  }

  /** `loopVariableAccesses`, for one variable. */
  method LoopVariableAccesses(p: Plan, order: seq<nat>, x: string) returns (accesses: seq<Access>)
    requires Built(p) && IsTopological(p.graph, order)
    ensures forall access: Access :: access in accesses <==> IsAccess(p, x, access)
  {
    accesses := [];
    for k := 0 to |order|
      invariant forall access: Access :: access in accesses <==> IsAccess(p, x, access) && access.node in order[..k]
    {
      var n := order[k];
      assert n in order && order[..k + 1] == order[..k] + [n];
      if ReadsVariable(p.nodes[n], x) {
        accesses := accesses + [Access(n, false)];
      }
      if WritesVariable(p.nodes[n], x) {
        accesses := accesses + [Access(n, true)];
      }
    }
    assert order[..|order|] == order;
  }

  ghost predicate PairAccepted(g: Graph, first: Access, second: Access) {
    first.node == second.node || (!first.write && !second.write) || OrderedOrExclusive(g, first.node, second.node)
  }

  lemma PairSymmetric(g: Graph, first: Access, second: Access)
    requires PairAccepted(g, first, second)
    ensures PairAccepted(g, second, first)
  {
    if Exclusive(g, first.node, second.node) {
      var branch: nat :| branch < g.size && Branches(g, branch, first.node, second.node);
      assert Branches(g, branch, second.node, first.node);
    }
  }

  /** `validateVariableAccesses`: every pair of accesses, each pair once. */
  method ValidateVariableAccesses(p: Plan, order: seq<nat>, matrix: seq<seq<bool>>, x: string) returns (ok: bool)
    requires Built(p) && IsTopological(p.graph, order) && ExactMatrix(p.graph, matrix)
    ensures ok <==> RaceFreeOn(p, x)
  {
    var accesses := LoopVariableAccesses(p, order, x);
    for left := 0 to |accesses|
      invariant forall i, j | 0 <= i < left && i < j < |accesses| :: PairAccepted(p.graph, accesses[i], accesses[j])
    {
      var apart, right := OneAgainstRest(p, x, accesses, left, matrix);
      if !apart {
        Contended(p, x, accesses, left, right);
        return false;
      }
    }
    PairsSuffice(p, x, accesses);
    return true;
  }

  method OneAgainstRest(p: Plan, x: string, accesses: seq<Access>, left: nat, matrix: seq<seq<bool>>) returns (apart: bool, right: nat)
    requires Built(p) && left < |accesses| && ExactMatrix(p.graph, matrix)
    requires forall access <- accesses :: IsAccess(p, x, access)
    ensures apart ==> forall j | left < j < |accesses| :: PairAccepted(p.graph, accesses[left], accesses[j])
    ensures !apart ==> right < |accesses| && !PairAccepted(p.graph, accesses[left], accesses[right])
  {
    var first := accesses[left];
    assert first in accesses;
    for j := left + 1 to |accesses|
      invariant forall i | left < i < j :: PairAccepted(p.graph, first, accesses[i])
    {
      var second := accesses[j];
      assert second in accesses;
      if first.node != second.node && (first.write || second.write) {
        var ordered := AccessesOrdered(p.graph, first.node, second.node, matrix);
        if !ordered {
          return false, j;
        }
      }
    }
    return true, left;
  }

  lemma Contended(p: Plan, x: string, accesses: seq<Access>, left: nat, right: nat)
    requires Built(p) && left < |accesses| && right < |accesses|
    requires forall access <- accesses :: IsAccess(p, x, access)
    requires !PairAccepted(p.graph, accesses[left], accesses[right])
    ensures !RaceFreeOn(p, x)
  {
    var first, second := accesses[left], accesses[right];
    assert first in accesses && second in accesses;
    if PairAccepted(p.graph, second, first) {
      PairSymmetric(p.graph, second, first);
    } else if first.write {
      assert Contends(p, x, first.node, second.node);
    } else {
      assert Contends(p, x, second.node, first.node);
    }
  }

  lemma PairsSuffice(p: Plan, x: string, accesses: seq<Access>)
    requires Built(p)
    requires forall access: Access :: access in accesses <==> IsAccess(p, x, access)
    requires forall i, j | 0 <= i < j < |accesses| :: PairAccepted(p.graph, accesses[i], accesses[j])
    ensures RaceFreeOn(p, x)
  {
    forall a: nat, b: nat | a < |p.nodes| && b < |p.nodes| && a != b && Contends(p, x, a, b)
      ensures OrderedOrExclusive(p.graph, a, b)
    {
      var first, second := Access(a, true), Access(b, WritesVariable(p.nodes[b], x));
      assert IsAccess(p, x, first) && IsAccess(p, x, second);
      var i :| 0 <= i < |accesses| && accesses[i] == first;
      var j :| 0 <= j < |accesses| && accesses[j] == second;
      if j < i {
        PairSymmetric(p.graph, second, first);
      }
    }
  }

  /** `validateLoopVariableAccess`. */
  method ValidateLoopVariables(p: Plan, order: seq<nat>, matrix: seq<seq<bool>>) returns (ok: bool)
    requires Built(p) && IsTopological(p.graph, order) && ExactMatrix(p.graph, matrix)
    ensures ok <==> RaceFree(p)
  {
    if p.variables.None? {
      return true;
    }
    var names := p.variables.value.Keys;
    while names != {}
      invariant names <= p.variables.value.Keys
      invariant forall x <- p.variables.value.Keys - names :: RaceFreeOn(p, x)
    {
      var x :| x in names;
      var free := ValidateVariableAccesses(p, order, matrix, x);
      if !free {
        return false;
      }
      names := names - {x};
    }
    return true;
  }

  // ---------------------------------------------------------------- The whole compilation

  ghost predicate Accepted(w: World, p: Plan) {
    && Built(p) && GraphAccepted(p) && RaceFree(p)
    && forall n: nat | n < |p.nodes| :: NodeBindingsAccepted(w, p, n)
  }

  lemma AcceptedOneSource(p: Plan)
    requires Built(p) && GraphAccepted(p)
    ensures OneSource(p.graph)
  {
    forall v | 0 <= v < p.graph.size && v != p.graph.start ensures p.graph.incoming[v] != [] {
      assert DegreeAccepted(p, v);
    }
  }

  method ValidateBindings(w: World, p: Plan, order: seq<nat>) returns (ok: bool)
    requires Built(p) && GraphAccepted(p) && IsTopological(p.graph, order)
    ensures ok <==> RaceFree(p) && forall n: nat | n < |p.nodes| :: NodeBindingsAccepted(w, p, n)
  {
    AcceptedOneSource(p);
    var matrix := Dominators(p.graph, order);
    for k := 0 to |order|
      invariant forall j | 0 <= j < k :: order[j] < |p.nodes| && NodeBindingsAccepted(w, p, order[j])
    {
      assert order[k] in order;
      var accepted := ValidateNodeBindings(w, p, order[k], matrix);
      if !accepted {
        return false;
      }
    }
    forall n: nat | n < |p.nodes| ensures NodeBindingsAccepted(w, p, n) {
      assert order[Position(order, n)] == n;
    }
    ok := ValidateLoopVariables(p, order, matrix);
  }

  /** Compiling succeeds exactly on the plans whose paths keep every contract. */
  method Compile(w: World, p: Plan) returns (order: seq<nat>, ok: bool)
    requires Built(p)
    ensures ok <==> Accepted(w, p)
    ensures ok ==> IsTopological(p.graph, order) && LeastFirst(p.graph, order)
  {
    order, ok := ValidateGraph(p);
    if ok {
      ok := ValidateBindings(w, p, order);
    }
  }
}
