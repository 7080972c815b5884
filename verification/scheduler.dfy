/** The scheduler's state and the steps it takes, with what every step keeps
    (workflow/runner_execution.go, workflow/runner_invoke.go). */
module Scheduler {
  import opened Graphs
  import opened Topology
  import opened Options
  import opened Plans
  import opened Acceptance
  import opened Evaluation
  import opened Guarantees

  datatype EdgeState = EdgePending | EdgeTaken | EdgeSkipped

  datatype Status = Pending | Ready | Running | Succeeded | Failed | Exception | Skipped | Interrupted

  /** A node whose completion is still to come: one whose inputs did not resolve, or one being invoked. */
  datatype Flight = BadInputs | Invoked(inputs: Ports, resume: Option<Paused>, written: bool)

  /** `InterruptInfo`: why the run is pausing. */
  datatype Info = Info(contexts: seq<Point>, before: seq<nat>, after: seq<nat>)

  const NO_INFO := Info([], [], [])

  datatype State = State(edges: seq<EdgeState>, nodes: seq<Status>, outputs: seq<Option<Ports>>,
                         failures: seq<Option<Failure>>, ready: seq<nat>, done: nat, inflight: map<nat, Flight>,
                         paused: map<nat, Paused>, beforePassed: set<nat>, info: Info, pauseRequested: bool,
                         handledFailure: bool, variables: Ports, targets: set<string>)

  /** `newExecution`. */
  function Initial(c: Setup): State {
    State(seq(|c.plan.graph.edges|, _ => EdgePending), seq(|c.plan.nodes|, _ => Pending), seq(|c.plan.nodes|, _ => None),
          seq(|c.plan.nodes|, _ => None), [], 0, map[], map[], {}, NO_INFO, false, false, c.variables, {})
  }

  predicate Settled(status: Status) {
    status.Succeeded? || status.Exception? || status.Skipped?
  }

  // ---------------------------------------------------------------- The steps

  /** `resolveOutgoing` and the edges of `skipNode`: no route at all skips every edge out of the node. */
  function Routed(g: Graph, edges: seq<EdgeState>, n: nat, route: Option<string>): (r: seq<EdgeState>)
    requires |edges| == |g.edges|
    ensures |r| == |edges|
  {
    seq(|edges|, e requires 0 <= e < |edges| =>
      if g.edges[e].from != n then edges[e] else if route == Some(g.edges[e].route) then EdgeTaken else EdgeSkipped)
  }

  function StatusOf(o: Outcome): Status {
    match o
    case Bypassed => Skipped
    case Finished(_, _) => Succeeded
    case Rerouted(_) => Exception
    case Defaulted(_) => Exception
    case Halted(_) => Failed
    case Suspended(_) => Interrupted
  }

  ghost predicate Shape(c: Setup, s: State) {
    && Sound(c)
    && |s.edges| == |c.plan.graph.edges|
    && |s.nodes| == |s.outputs| == |s.failures| == |c.plan.nodes|
    && (forall n <- s.ready :: n < |c.plan.nodes|)
    && (forall n <- s.inflight :: n < |c.plan.nodes|)
    && (forall n <- s.paused :: n < |c.plan.nodes|)
  }

  function Marked(s: State, n: nat): State
    requires n < |s.nodes|
  {
    s.(nodes := s.nodes[n := Ready], ready := s.ready + [n])
  }

  /** `completeNode` and `completeFailedNode` for an outcome that lets the run go on, and `skipNode`. */
  function Settling(c: Setup, s: State, n: nat, o: Outcome): State
    requires |s.edges| == |c.plan.graph.edges| && |s.nodes| == |s.outputs| == |s.failures| == |c.plan.nodes|
    requires n < |c.plan.nodes|
  {
    var after := o.Finished? && n in c.plan.after;
    s.(edges := Routed(c.plan.graph, s.edges, n, RouteOf(o)),
       nodes := s.nodes[n := StatusOf(o)],
       outputs := s.outputs[n := OutputsOf(c.plan.nodes[n], o)],
       failures := s.failures[n := FailureOf(o)],
       done := s.done + 1,
       inflight := s.inflight - {n},
       beforePassed := if o.Finished? then s.beforePassed - {n} else s.beforePassed,
       info := if after then s.info.(after := s.info.after + [n]) else s.info,
       pauseRequested := s.pauseRequested || after,
       handledFailure := s.handledFailure || FailureOf(o).Some?)
  }

  /** What a completion changes, spelled out. */
  lemma SettlingFinished(c: Setup, s: State, s': State, n: nat, values: Ports, route: string)
    requires |s.edges| == |c.plan.graph.edges| && |s.nodes| == |s.outputs| == |s.failures| == |c.plan.nodes| && n < |c.plan.nodes|
    requires s.failures[n].None? && s'.edges == Routed(c.plan.graph, s.edges, n, Some(route))
    requires s'.nodes == s.nodes[n := Succeeded] && s'.outputs == s.outputs[n := Some(values)] && s'.done == s.done + 1
    requires s'.inflight == s.inflight - {n} && s'.beforePassed == s.beforePassed - {n}
    requires s'.info == (if n in c.plan.after then s.info.(after := s.info.after + [n]) else s.info)
    requires s'.pauseRequested == (s.pauseRequested || n in c.plan.after)
    requires s' == s.(edges := s'.edges, nodes := s'.nodes, outputs := s'.outputs, done := s'.done, inflight := s'.inflight,
                      beforePassed := s'.beforePassed, info := s'.info, pauseRequested := s'.pauseRequested)
    ensures s' == Settling(c, s, n, Finished(values, route))
  {
    assert s.failures[n := None] == s.failures;
  }

  /** `recordDynamicInterruption`. */
  function Suspending(s: State, n: nat, paused: Paused): State
    requires n < |s.nodes|
  {
    s.(nodes := s.nodes[n := Interrupted],
       inflight := s.inflight - {n},
       paused := s.paused[n := paused],
       info := s.info.(contexts := s.info.contexts + paused.points),
       pauseRequested := true)
  }

  function ViewOf(c: Setup, s: State): View {
    View(s.outputs, s.failures, c.input, s.variables)
  }

  predicate Targeted(points: seq<Point>, targets: set<string>) {
    exists point <- points :: point.id in targets
  }

  /** A suspended node is invoked again with the inputs it was suspended on. */
  function Waking(s: State, n: nat): State
    requires n < |s.nodes| && n in s.paused
  {
    s.(nodes := s.nodes[n := Running], paused := s.paused - {n},
       inflight := s.inflight[n := Invoked(s.paused[n].inputs, Some(s.paused[n]), false)])
  }

  /** `resurfacePausedNode`. */
  function Resurfacing(s: State, n: nat): State
    requires n < |s.nodes| && n in s.paused
  {
    s.(nodes := s.nodes[n := Interrupted], pauseRequested := true,
       info := s.info.(contexts := s.info.contexts + s.paused[n].points))
  }

  function Departing(c: Setup, s: State, n: nat): State
    requires |s.nodes| == |c.plan.nodes| && n < |s.nodes|
  {
    var inputs := ResolveInputs(c.world, ViewOf(c, s), c.plan.nodes[n]);
    if inputs.None? then s.(inflight := s.inflight[n := BadInputs])
    else s.(nodes := s.nodes[n := Running], inflight := s.inflight[n := Invoked(inputs.value, None, false)])
  }

  /** One round of `launchReady`: the head of the queue is launched, or put back to sleep when it is
      suspended and none of its interruptions is answered. */
  function Launched(c: Setup, s: State): State
    requires |s.nodes| == |c.plan.nodes| && s.ready != [] && s.ready[0] < |s.nodes|
  {
    var n, rest := s.ready[0], s.(ready := s.ready[1..]);
    if n !in s.paused then Departing(c, rest, n)
    else if Targeted(s.paused[n].points, s.targets) then Waking(rest, n)
    else Resurfacing(rest, n)
  }

  /** `compiledSetVariable.Invoke`: at some moment of its flight the node writes its variables. */
  function Assigned(c: Setup, s: State, n: nat): State
    requires n < |c.plan.nodes| && n in s.inflight && s.inflight[n].Invoked?
  {
    s.(variables := s.variables + Updates(c.plan.nodes[n], s.inflight[n].inputs),
       inflight := s.inflight[n := s.inflight[n].(written := true)])
  }

  /** What the completion of a flight reports: the result of its last attempt, and that attempt's number. */
  function Completion(c: Setup, s: State, n: nat): (Attempt, nat)
    requires n < |c.plan.nodes| && n in s.inflight
  {
    match s.inflight[n]
    case BadInputs => (Fail(BAD_INPUTS), 0)
    case Invoked(inputs, None, _) => LastAttempt(c.world, c.plan.nodes[n], n, inputs, 1)
    case Invoked(inputs, Some(paused), _) => LastResumed(c.world, c.plan.nodes[n], n, paused, s.targets, 1)
  }

  /** The ready nodes with a before-breakpoint that has not been passed, in queue order. */
  function Stops(c: Setup, ready: seq<nat>, passed: set<nat>): seq<nat> {
    if ready == [] then []
    else if ready[0] in c.plan.before && ready[0] !in passed then [ready[0]] + Stops(c, ready[1..], passed + {ready[0]})
    else Stops(c, ready[1..], passed)
  }

  /** `requestBeforeInterrupt`. */
  function Stopping(c: Setup, s: State): State {
    var stops := Stops(c, s.ready, s.beforePassed);
    s.(beforePassed := s.beforePassed + (set n | n in stops),
       info := s.info.(before := s.info.before + stops),
       pauseRequested := s.pauseRequested || stops != [])
  }

  // ---------------------------------------------------------------- What every step keeps

  ghost predicate Idle(s: State, n: nat) {
    n !in s.ready && n !in s.inflight && n !in s.paused
  }

  /** What a suspended node carries is enough to resume it. */
  ghost predicate PausedRight(c: Setup, n: nat, paused: Paused)
    requires n < |c.plan.nodes|
  {
    && paused.attempts >= 1 && paused.points != []
    && InputsRight(c.world, c.plan.nodes[n], paused.inputs)
  }

  /** `validatePlanNodeInputValues`: all the inputs, or for a Merge some of them, each of its schema. */
  predicate InputsRight(w: World, node: Node, inputs: Ports) {
    if node.kind.Merge? then
      inputs.Keys <= node.inputs.Keys && forall name <- inputs :: Accepts(w, node.inputs[name], inputs[name])
    else PortsValid(w, inputs, node.inputs)
  }

  ghost predicate NodeRight(c: Setup, s: State, n: nat)
    requires Shape(c, s) && n < |c.plan.nodes|
  {
    match s.nodes[n]
    case Pending => Idle(s, n) && s.outputs[n].None? && s.failures[n].None?
    case Ready =>
      && n !in s.paused && s.outputs[n].None? && s.failures[n].None?
      && (n in s.inflight <==> n !in s.ready) && (n in s.inflight ==> s.inflight[n].BadInputs?)
    case Running =>
      && n !in s.paused && n !in s.ready && s.outputs[n].None? && s.failures[n].None?
      && n in s.inflight && s.inflight[n].Invoked? && InputsRight(c.world, c.plan.nodes[n], s.inflight[n].inputs)
    case Interrupted =>
      n in s.paused && n !in s.inflight && s.outputs[n].None? && s.failures[n].None? && PausedRight(c, n, s.paused[n])
    case Succeeded =>
      && Idle(s, n) && s.failures[n].None?
      && s.outputs[n].Some? && PortsValid(c.world, s.outputs[n].value, c.plan.nodes[n].outputs)
    case Exception =>
      && Idle(s, n) && s.failures[n].Some? && !c.plan.nodes[n].policy.Stop?
      && s.outputs[n] == if c.plan.nodes[n].policy.RouteError? then None else Some(c.plan.nodes[n].defaults)
    case Skipped => Idle(s, n) && s.outputs[n].None? && s.failures[n].None?
    case Failed => false
  }

  function HandledRoute(node: Node): string {
    if node.policy.RouteError? then ERROR else SUCCESS
  }

  /** An edge is open exactly while its source is; a skipped source skips it, a completed one takes it only on a
      declared route, a handled failure routes it. */
  ghost predicate EdgeRight(c: Setup, s: State, e: nat)
    requires Shape(c, s) && e < |s.edges|
  {
    var edge := c.plan.graph.edges[e];
    && (s.edges[e].EdgePending? <==> !Settled(s.nodes[edge.from]))
    && (s.nodes[edge.from].Skipped? ==> s.edges[e].EdgeSkipped?)
    && (s.nodes[edge.from].Succeeded? && s.edges[e].EdgeTaken? ==> edge.route in c.plan.nodes[edge.from].routes)
    && (s.nodes[edge.from].Exception? ==> (s.edges[e].EdgeTaken? <==> edge.route == HandledRoute(c.plan.nodes[edge.from])))
  }

  ghost predicate IncomingResolved(g: Graph, s: State, n: nat) {
    forall e: nat | e < |s.edges| && Into(g, n, e) :: !s.edges[e].EdgePending?
  }

  ghost predicate AnyIncomingTaken(g: Graph, s: State, n: nat) {
    exists e: nat :: e < |s.edges| && Into(g, n, e) && s.edges[e].EdgeTaken?
  }

  /** A node leaves Pending once its incoming edges are resolved, to run exactly when one is taken; Start always runs. */
  ghost predicate FlowRight(c: Setup, s: State, n: nat)
    requires Shape(c, s) && n < |c.plan.nodes|
  {
    if n == c.plan.graph.start then !s.nodes[n].Skipped?
    else !s.nodes[n].Pending? ==>
      IncomingResolved(c.plan.graph, s, n) && (s.nodes[n].Skipped? <==> !AnyIncomingTaken(c.plan.graph, s, n))
  }

  ghost function SettledNodes(s: State): set<nat> {
    set n: nat | n < |s.nodes| && Settled(s.nodes[n])
  }

  ghost predicate Books(c: Setup, s: State) {
    && Distinct(s.ready)
    && s.done == |SettledNodes(s)|
    && |s.inflight| <= c.plan.maxConcurrency
    && (s.pauseRequested <==> s.info != NO_INFO)
    && s.beforePassed <= c.plan.before
    && (s.handledFailure <==> exists n: nat :: n < |s.nodes| && s.nodes[n].Exception?)
  }

  ghost predicate TookExactly(c: Setup, s: State, n: nat, route: string)
    requires Shape(c, s)
  {
    forall e: nat | e < |s.edges| && OutOf(c.plan.graph, n, e) :: s.edges[e].EdgeTaken? <==> c.plan.graph.edges[e].route == route
  }

  /** A completed node has taken its edges of one declared route, and no others. */
  ghost predicate RouteChosen(c: Setup, s: State, n: nat)
    requires Shape(c, s) && n < |c.plan.nodes|
  {
    s.nodes[n].Succeeded? ==> exists route :: route in c.plan.nodes[n].routes && TookExactly(c, s, n, route)
  }

  /** The invariant of every run, fresh or resumed, under every order of completions. */
  ghost predicate Inv(c: Setup, s: State) {
    && Shape(c, s) && Equipped(c) && Books(c, s)
    && PortsValid(c.world, s.variables, VariableSchemas(c.plan))
    && (forall n: nat | n < |c.plan.nodes| :: NodeRight(c, s, n))
    && (forall e: nat | e < |s.edges| :: EdgeRight(c, s, e))
    && (forall n: nat | n < |c.plan.nodes| :: FlowRight(c, s, n) && RouteChosen(c, s, n))
  }

  /** The run has been started. */
  ghost predicate Begun(c: Setup, s: State) {
    Inv(c, s) && !s.nodes[c.plan.graph.start].Pending?
  }

  lemma InitialInv(c: Setup)
    requires Admitted(c)
    ensures Inv(c, Initial(c))
  {
    assert SettledNodes(Initial(c)) == {};
  }

  // ---------------------------------------------------------------- Frames

  ghost predicate SameAt(s: State, s': State, m: nat)
    requires m < |s.nodes| == |s.outputs| == |s.failures| == |s'.nodes| == |s'.outputs| == |s'.failures|
  {
    && s'.nodes[m] == s.nodes[m] && s'.outputs[m] == s.outputs[m] && s'.failures[m] == s.failures[m]
    && (m in s'.ready <==> m in s.ready)
    && (m in s'.inflight <==> m in s.inflight) && (m in s.inflight ==> s'.inflight[m] == s.inflight[m])
    && (m in s'.paused <==> m in s.paused) && (m in s.paused ==> s'.paused[m] == s.paused[m])
  }

  lemma NodesKept(c: Setup, s: State, s': State, n: nat)
    requires Inv(c, s) && Shape(c, s') && n < |c.plan.nodes|
    requires forall m: nat | m < |c.plan.nodes| && m != n :: SameAt(s, s', m)
    requires NodeRight(c, s', n)
    ensures forall m: nat | m < |c.plan.nodes| :: NodeRight(c, s', m)
  {
    forall m: nat | m < |c.plan.nodes| && m != n ensures NodeRight(c, s', m) {
      assert SameAt(s, s', m) && NodeRight(c, s, m);
    }
  }

  /** A step that leaves the edges and the settled nodes alone. */
  ghost predicate SameFlow(s: State, s': State) {
    && |s'.nodes| == |s.nodes| && s'.edges == s.edges
    && s'.done == s.done && s'.handledFailure == s.handledFailure
    && forall m: nat | m < |s.nodes| ::
         s'.nodes[m] == s.nodes[m] || (!Settled(s.nodes[m]) && !Settled(s'.nodes[m]) && !s.nodes[m].Pending?)
  }

  lemma RouteKept(c: Setup, s: State, s': State, n: nat)
    requires Shape(c, s) && Shape(c, s') && n < |c.plan.nodes| && RouteChosen(c, s, n) && (s'.nodes[n].Succeeded? ==> s.nodes[n].Succeeded?)
    requires forall e: nat | e < |s.edges| && OutOf(c.plan.graph, n, e) :: s'.edges[e] == s.edges[e]
    ensures RouteChosen(c, s', n)
  {
    if s'.nodes[n].Succeeded? {
      var route :| route in c.plan.nodes[n].routes && TookExactly(c, s, n, route);
      assert TookExactly(c, s', n, route);
    }
  }

  /** The edges a node has taken are all of one route. */
  lemma TakenShare(c: Setup, s: State, e: nat, f: nat)
    requires Inv(c, s) && e < |s.edges| && f < |s.edges| && s.edges[e].EdgeTaken? && s.edges[f].EdgeTaken?
    requires c.plan.graph.edges[e].from == c.plan.graph.edges[f].from
    ensures c.plan.graph.edges[e].route == c.plan.graph.edges[f].route
  {
    assert EdgeRight(c, s, e) && EdgeRight(c, s, f);
    assert RouteChosen(c, s, c.plan.graph.edges[e].from);
  }

  lemma FlowKept(c: Setup, s: State, s': State)
    requires Inv(c, s) && Shape(c, s') && SameFlow(s, s')
    ensures forall e: nat | e < |s'.edges| :: EdgeRight(c, s', e)
    ensures forall m: nat | m < |c.plan.nodes| :: FlowRight(c, s', m) && RouteChosen(c, s', m)
  {
    forall e: nat | e < |s'.edges| ensures EdgeRight(c, s', e) {
      assert EdgeRight(c, s, e);
    }
    forall m: nat | m < |c.plan.nodes| ensures FlowRight(c, s', m) && RouteChosen(c, s', m) {
      assert FlowRight(c, s, m);
      RouteKept(c, s, s', m);
    }
  }

  lemma BooksKept(c: Setup, s: State, s': State)
    requires Books(c, s) && SameFlow(s, s')
    requires Distinct(s'.ready) && |s'.inflight| <= c.plan.maxConcurrency && s'.beforePassed <= c.plan.before
    requires s'.pauseRequested <==> s'.info != NO_INFO
    ensures Books(c, s')
  {
    assert SettledNodes(s') == SettledNodes(s);
    assert forall m: nat | m < |s.nodes| :: s.nodes[m].Exception? <==> s'.nodes[m].Exception?;
  }

  // ---------------------------------------------------------------- Marking a node ready

  lemma MarkedNodes(c: Setup, s: State, n: nat)
    requires Inv(c, s) && n < |c.plan.nodes| && s.nodes[n].Pending?
    ensures Shape(c, Marked(s, n))
    ensures forall m: nat | m < |c.plan.nodes| :: NodeRight(c, Marked(s, n), m)
  {
    assert NodeRight(c, s, n);
    NodesKept(c, s, Marked(s, n), n);
  }

  lemma MarkedInv(c: Setup, s: State, n: nat)
    requires Inv(c, s) && n < |c.plan.nodes| && s.nodes[n].Pending?
    requires n != c.plan.graph.start ==> IncomingResolved(c.plan.graph, s, n) && AnyIncomingTaken(c.plan.graph, s, n)
    ensures Inv(c, Marked(s, n))
  {
    var s' := Marked(s, n);
    MarkedNodes(c, s, n);
    forall e: nat | e < |s.edges| ensures EdgeRight(c, s', e) {
      assert EdgeRight(c, s, e);
    }
    forall m: nat | m < |c.plan.nodes| ensures FlowRight(c, s', m) && RouteChosen(c, s', m) {
      assert FlowRight(c, s, m);
      RouteKept(c, s, s', m);
    }
    assert NodeRight(c, s, n);
    assert SettledNodes(s') == SettledNodes(s);
    assert forall m: nat | m < |s.nodes| && s.nodes[m].Exception? :: s'.nodes[m].Exception?;
  }

  // ---------------------------------------------------------------- Settling a node

  /** When a node may settle with an outcome: skipped when nothing into it was taken, otherwise on completion,
      with its declared outputs or under the policy that handles its failure. */
  ghost predicate CanSettle(c: Setup, s: State, n: nat, o: Outcome)
    requires Inv(c, s) && n < |c.plan.nodes|
  {
    match o
    case Bypassed =>
      s.nodes[n].Pending? && n != c.plan.graph.start && IncomingResolved(c.plan.graph, s, n) && !AnyIncomingTaken(c.plan.graph, s, n)
    case Finished(values, route) =>
      n in s.inflight && PortsValid(c.world, values, c.plan.nodes[n].outputs) && route in c.plan.nodes[n].routes
    case Rerouted(_) => n in s.inflight && c.plan.nodes[n].policy.RouteError?
    case Defaulted(_) => n in s.inflight && c.plan.nodes[n].policy.ContinueWithDefault?
    case _ => false
  }

  lemma CanSettleUnsettled(c: Setup, s: State, n: nat, o: Outcome)
    requires Inv(c, s) && n < |c.plan.nodes| && CanSettle(c, s, n, o)
    ensures !Settled(s.nodes[n]) && n !in s.ready && n !in s.paused && (s.nodes[n].Pending? <==> o.Bypassed?)
  {
    assert NodeRight(c, s, n);
  }

  lemma SettlingNodes(c: Setup, s: State, n: nat, o: Outcome)
    requires Inv(c, s) && n < |c.plan.nodes| && CanSettle(c, s, n, o)
    ensures Shape(c, Settling(c, s, n, o))
    ensures forall m: nat | m < |c.plan.nodes| :: NodeRight(c, Settling(c, s, n, o), m)
  {
    CanSettleUnsettled(c, s, n, o);
    NodesKept(c, s, Settling(c, s, n, o), n);
  }

  lemma SettlingEdges(c: Setup, s: State, n: nat, o: Outcome)
    requires Inv(c, s) && n < |c.plan.nodes| && CanSettle(c, s, n, o) && Shape(c, Settling(c, s, n, o))
    ensures forall e: nat | e < |s.edges| :: EdgeRight(c, Settling(c, s, n, o), e)
  {
    CanSettleUnsettled(c, s, n, o);
    forall e: nat | e < |s.edges| ensures EdgeRight(c, Settling(c, s, n, o), e) {
      assert EdgeRight(c, s, e);
    }
  }

  /** The edges into a node that has left Pending are not touched when another node settles. */
  lemma ResolvedUntouched(c: Setup, s: State, n: nat, m: nat, e: nat)
    requires Inv(c, s) && n < |c.plan.nodes| && m < |c.plan.nodes| && !Settled(s.nodes[n])
    requires e < |s.edges| && Into(c.plan.graph, m, e) && IncomingResolved(c.plan.graph, s, m)
    ensures c.plan.graph.edges[e].from != n
  {
    assert EdgeRight(c, s, e);
  }

  lemma SettlingFlow(c: Setup, s: State, n: nat, o: Outcome)
    requires Inv(c, s) && n < |c.plan.nodes| && CanSettle(c, s, n, o) && Shape(c, Settling(c, s, n, o))
    ensures forall m: nat | m < |c.plan.nodes| :: FlowRight(c, Settling(c, s, n, o), m)
  {
    var g, s' := c.plan.graph, Settling(c, s, n, o);
    CanSettleUnsettled(c, s, n, o);
    forall m: nat | m < |c.plan.nodes| ensures FlowRight(c, s', m) {
      assert FlowRight(c, s, m);
      if m != g.start && !s'.nodes[m].Pending? {
        assert IncomingResolved(g, s, m);
        forall e: nat | e < |s.edges| && Into(g, m, e) ensures s'.edges[e] == s.edges[e] {
          ResolvedUntouched(c, s, n, m, e);
        }
      }
    }
  }

  lemma SettlingBooks(c: Setup, s: State, n: nat, o: Outcome)
    requires Inv(c, s) && n < |c.plan.nodes| && CanSettle(c, s, n, o) && Shape(c, Settling(c, s, n, o))
    ensures Books(c, Settling(c, s, n, o))
  {
    CanSettleUnsettled(c, s, n, o);
    SmallerMap(s.inflight, n);
    SettlingCounts(c, s, n, o);
  }

  lemma SettlingCounts(c: Setup, s: State, n: nat, o: Outcome)
    requires Inv(c, s) && n < |c.plan.nodes| && CanSettle(c, s, n, o)
    ensures var s' := Settling(c, s, n, o);
            && s'.done == |SettledNodes(s')|
            && (s'.handledFailure <==> exists m: nat :: m < |s'.nodes| && s'.nodes[m].Exception?)
  {
    CanSettleUnsettled(c, s, n, o);
    SettlingDone(c, s, n, o);
    SettlingHandled(c, s, n, o);
  }

  lemma SettlingDone(c: Setup, s: State, n: nat, o: Outcome)
    requires Shape(c, s) && n < |c.plan.nodes| && !Settled(s.nodes[n]) && !o.Suspended? && !o.Halted?
    ensures |SettledNodes(Settling(c, s, n, o))| == |SettledNodes(s)| + 1
  {
    assert SettledNodes(Settling(c, s, n, o)) == SettledNodes(s) + {n};
  }

  lemma SettlingHandled(c: Setup, s: State, n: nat, o: Outcome)
    requires Shape(c, s) && n < |c.plan.nodes| && !Settled(s.nodes[n]) && !o.Suspended? && !o.Halted?
    requires s.handledFailure <==> exists m: nat :: m < |s.nodes| && s.nodes[m].Exception?
    ensures var s' := Settling(c, s, n, o); s'.handledFailure <==> exists m: nat :: m < |s'.nodes| && s'.nodes[m].Exception?
  {
    var s' := Settling(c, s, n, o);
    assert s'.nodes[n].Exception? <==> FailureOf(o).Some?;
    assert forall m: nat | m < |s.nodes| && m != n :: s.nodes[m].Exception? <==> s'.nodes[m].Exception?;
  }

  lemma SmallerMap<V>(m: map<nat, V>, n: nat)
    ensures |m - {n}| == if n in m then |m| - 1 else |m|
  {
    assert (m - {n}).Keys == m.Keys - {n};
    if n in m {
      assert m.Keys == (m - {n}).Keys + {n};
    } else {
      assert (m - {n}).Keys == m.Keys;
    }
  }

  lemma SettlingRoutes(c: Setup, s: State, n: nat, o: Outcome)
    requires Inv(c, s) && n < |c.plan.nodes| && CanSettle(c, s, n, o) && Shape(c, Settling(c, s, n, o))
    ensures forall m: nat | m < |c.plan.nodes| :: RouteChosen(c, Settling(c, s, n, o), m)
  {
    var s' := Settling(c, s, n, o);
    forall m: nat | m < |c.plan.nodes| ensures RouteChosen(c, s', m) {
      if m == n {
        assert o.Finished? ==> TookExactly(c, s', n, o.route);
      } else {
        RouteKept(c, s, s', m);
      }
    }
  }

  lemma SettlingInv(c: Setup, s: State, n: nat, o: Outcome)
    requires Inv(c, s) && n < |c.plan.nodes| && CanSettle(c, s, n, o)
    ensures Inv(c, Settling(c, s, n, o))
  {
    SettlingNodes(c, s, n, o);
    SettlingEdges(c, s, n, o);
    SettlingFlow(c, s, n, o);
    SettlingBooks(c, s, n, o);
    SettlingRoutes(c, s, n, o);
  }

  // ---------------------------------------------------------------- Suspending a node

  lemma SuspendedOne(c: Setup, s: State, n: nat, paused: Paused)
    requires Shape(c, s) && n < |c.plan.nodes| && NodeRight(c, s, n) && n in s.inflight && n !in s.ready && PausedRight(c, n, paused)
    ensures Shape(c, Suspending(s, n, paused)) && NodeRight(c, Suspending(s, n, paused), n)
    ensures forall m: nat | m < |c.plan.nodes| && m != n :: SameAt(s, Suspending(s, n, paused), m)
    ensures SameFlow(s, Suspending(s, n, paused))
  {}

  lemma SuspendingBooks(c: Setup, s: State, n: nat, paused: Paused)
    requires Shape(c, s) && n < |c.plan.nodes| && Books(c, s) && paused.points != [] && SameFlow(s, Suspending(s, n, paused))
    ensures Books(c, Suspending(s, n, paused))
  {
    SmallerMap(s.inflight, n);
    assert Suspending(s, n, paused).info.contexts != [];
    BooksKept(c, s, Suspending(s, n, paused));
  }

  lemma SuspendingInv(c: Setup, s: State, n: nat, paused: Paused)
    requires Inv(c, s) && n < |c.plan.nodes| && n in s.inflight && PausedRight(c, n, paused)
    ensures Inv(c, Suspending(s, n, paused))
  {
    var s' := Suspending(s, n, paused);
    assert NodeRight(c, s, n);
    SuspendedOne(c, s, n, paused);
    SuspendingBooks(c, s, n, paused);
    Continued(c, s, s', n);
  }

  // ---------------------------------------------------------------- Launching the head of the queue

  lemma ResolvedRight(c: Setup, view: View, n: nat)
    requires Runnable(c.world, c.plan) && n < |c.plan.nodes| && ResolveInputs(c.world, view, c.plan.nodes[n]).Some?
    ensures InputsRight(c.world, c.plan.nodes[n], ResolveInputs(c.world, view, c.plan.nodes[n]).value)
  {
    var node := c.plan.nodes[n];
    var inputs := ResolveInputs(c.world, view, node).value;
    assert NodeRunnable(c.world, c.plan, n);
    forall name | name in node.bindings
      ensures Usable(c.world, view, node, name) && name in node.inputs
      ensures name in inputs ==> Accepts(c.world, node.inputs[name], inputs[name])
      ensures !node.kind.Merge? ==> name in inputs
    {
      assert Usable(c.world, view, node, name);
    }
    assert inputs.Keys <= node.bindings.Keys;
  }

  lemma QueueHead(c: Setup, s: State)
    requires Inv(c, s) && s.ready != []
    ensures s.ready[0] < |c.plan.nodes| && s.ready[0] !in s.ready[1..] && Distinct(s.ready[1..])
    ensures forall m :: m in s.ready[1..] <==> m in s.ready && m != s.ready[0]
    ensures s.nodes[s.ready[0]] == (if s.ready[0] in s.paused then Interrupted else Ready) && s.ready[0] !in s.inflight
  {
    var n := s.ready[0];
    assert n in s.ready;
    assert NodeRight(c, s, n);
    assert s.ready == [n] + s.ready[1..];
  }

  /** A node that has just left the queue. */
  ghost predicate Popped(c: Setup, s: State, n: nat)
    requires Shape(c, s) && n < |c.plan.nodes|
  {
    && n !in s.ready && n !in s.inflight && s.outputs[n].None? && s.failures[n].None?
    && if n in s.paused then s.nodes[n].Interrupted? && PausedRight(c, n, s.paused[n]) else s.nodes[n].Ready?
  }

  function Pop(s: State): State
    requires s.ready != []
  {
    s.(ready := s.ready[1..])
  }

  lemma PopHead(c: Setup, s: State)
    requires Inv(c, s) && s.ready != []
    ensures s.ready[0] < |c.plan.nodes| && Shape(c, Pop(s)) && Popped(c, Pop(s), s.ready[0])
    ensures forall m: nat | m < |c.plan.nodes| && m != s.ready[0] :: SameAt(s, Pop(s), m)
  {
    QueueHead(c, s);
    assert NodeRight(c, s, s.ready[0]);
  }

  lemma Departs(c: Setup, s: State, n: nat)
    requires Shape(c, s) && n < |c.plan.nodes| && Popped(c, s, n) && n !in s.paused
    requires var r := ResolveInputs(c.world, ViewOf(c, s), c.plan.nodes[n]);
             r.Some? ==> InputsRight(c.world, c.plan.nodes[n], r.value)
    ensures Shape(c, Departing(c, s, n)) && NodeRight(c, Departing(c, s, n), n)
    ensures forall m: nat | m < |c.plan.nodes| && m != n :: SameAt(s, Departing(c, s, n), m)
  {}

  lemma Wakes(c: Setup, s: State, n: nat)
    requires Shape(c, s) && n < |c.plan.nodes| && Popped(c, s, n) && n in s.paused
    ensures Shape(c, Waking(s, n)) && NodeRight(c, Waking(s, n), n)
    ensures forall m: nat | m < |c.plan.nodes| && m != n :: SameAt(s, Waking(s, n), m)
  {}

  lemma Resurfaces(c: Setup, s: State, n: nat)
    requires Shape(c, s) && n < |c.plan.nodes| && Popped(c, s, n) && n in s.paused
    ensures Shape(c, Resurfacing(s, n)) && NodeRight(c, Resurfacing(s, n), n)
    ensures forall m: nat | m < |c.plan.nodes| && m != n :: SameAt(s, Resurfacing(s, n), m)
  {}

  lemma LaunchedOne(c: Setup, s: State)
    requires Inv(c, s) && s.ready != []
    ensures s.ready[0] < |c.plan.nodes| && Shape(c, Launched(c, s)) && NodeRight(c, Launched(c, s), s.ready[0])
    ensures forall m: nat | m < |c.plan.nodes| && m != s.ready[0] :: SameAt(s, Launched(c, s), m)
  {
    PopHead(c, s);
    var n, rest := s.ready[0], Pop(s);
    LaunchedFrom(c, s, rest, n);
  }

  lemma LaunchedFrom(c: Setup, s: State, rest: State, n: nat)
    requires Shape(c, s) && s.ready != [] && n == s.ready[0] < |c.plan.nodes| && rest == Pop(s) && Runnable(c.world, c.plan)
    requires Shape(c, rest) && Popped(c, rest, n) && forall m: nat | m < |c.plan.nodes| && m != n :: SameAt(s, rest, m)
    ensures Shape(c, Launched(c, s)) && NodeRight(c, Launched(c, s), n)
    ensures forall m: nat | m < |c.plan.nodes| && m != n :: SameAt(s, Launched(c, s), m)
  {
    if n !in s.paused {
      if ResolveInputs(c.world, ViewOf(c, rest), c.plan.nodes[n]).Some? {
        ResolvedRight(c, ViewOf(c, rest), n);
      }
      Departs(c, rest, n);
      assert Launched(c, s) == Departing(c, rest, n);
    } else if Targeted(s.paused[n].points, s.targets) {
      Wakes(c, rest, n);
      assert Launched(c, s) == Waking(rest, n);
    } else {
      Resurfaces(c, rest, n);
      assert Launched(c, s) == Resurfacing(rest, n);
    }
    var s' := Launched(c, s);
    forall m: nat | m < |c.plan.nodes| && m != n ensures SameAt(s, s', m) {
      assert SameAt(s, rest, m) && SameAt(rest, s', m);
    }
  }

  lemma LaunchedFlow(c: Setup, s: State)
    requires |s.nodes| == |c.plan.nodes| && s.ready != [] && s.ready[0] < |s.nodes|
    requires !Settled(s.nodes[s.ready[0]]) && !s.nodes[s.ready[0]].Pending?
    ensures SameFlow(s, Launched(c, s)) && Launched(c, s).variables == s.variables
  {}

  lemma LargerMap<V>(m: map<nat, V>, n: nat, v: V)
    requires n !in m
    ensures |m[n := v]| == |m| + 1
  {
    assert m[n := v].Keys == m.Keys + {n};
  }

  lemma LaunchedBooks(c: Setup, s: State)
    requires |s.nodes| == |c.plan.nodes| && s.ready != [] && s.ready[0] < |s.nodes|
    requires Books(c, s) && |s.inflight| < c.plan.maxConcurrency && SameFlow(s, Launched(c, s))
    requires Distinct(s.ready[1..]) && s.ready[0] !in s.inflight
    requires s.ready[0] in s.paused ==> s.paused[s.ready[0]].points != []
    ensures Books(c, Launched(c, s))
  {
    var n, s' := s.ready[0], Launched(c, s);
    if n in s'.inflight {
      LargerMap(s.inflight, n, s'.inflight[n]);
    }
    BooksKept(c, s, s');
  }

  lemma LaunchedInv(c: Setup, s: State)
    requires Inv(c, s) && s.ready != [] && |s.inflight| < c.plan.maxConcurrency
    ensures s.ready[0] < |c.plan.nodes| && Inv(c, Launched(c, s))
  {
    LaunchedOne(c, s);
    LaunchedRest(c, s);
    Continued(c, s, Launched(c, s), s.ready[0]);
  }

  /** A step that touches one node, and neither the edges nor the settled nodes nor the variables. */
  lemma Continued(c: Setup, s: State, s': State, n: nat)
    requires Inv(c, s) && Shape(c, s') && n < |c.plan.nodes| && SameFlow(s, s') && Books(c, s') && s'.variables == s.variables
    requires NodeRight(c, s', n) && forall m: nat | m < |c.plan.nodes| && m != n :: SameAt(s, s', m)
    ensures Inv(c, s')
  {
    NodesKept(c, s, s', n);
    FlowKept(c, s, s');
  }

  lemma LaunchedRest(c: Setup, s: State)
    requires Inv(c, s) && s.ready != [] && s.ready[0] < |c.plan.nodes| && |s.inflight| < c.plan.maxConcurrency
    ensures SameFlow(s, Launched(c, s)) && Books(c, Launched(c, s)) && Launched(c, s).variables == s.variables
  {
    QueueHead(c, s);
    LaunchedFlow(c, s);
    assert NodeRight(c, s, s.ready[0]);
    LaunchedBooks(c, s);
  }

  // ---------------------------------------------------------------- Writing variables, stopping at breakpoints

  /** What a setter writes are declared variables, with values of their schemas. */
  lemma UpdatesValid(c: Setup, n: nat, inputs: Ports)
    requires Runnable(c.world, c.plan) && n < |c.plan.nodes| && InputsRight(c.world, c.plan.nodes[n], inputs)
    ensures var u := Updates(c.plan.nodes[n], inputs);
            u.Keys <= VariableSchemas(c.plan).Keys && forall x <- u :: Accepts(c.world, VariableSchemas(c.plan)[x], u[x])
  {
    assert SetterBuilt(c.plan, c.plan.nodes[n]);
  }

  lemma AssignedInv(c: Setup, s: State, n: nat)
    requires Inv(c, s) && n < |c.plan.nodes| && n in s.inflight && s.inflight[n].Invoked?
    ensures Inv(c, Assigned(c, s, n))
  {
    var s' := Assigned(c, s, n);
    assert NodeRight(c, s, n);
    UpdatesValid(c, n, s.inflight[n].inputs);
    NodesKept(c, s, s', n);
    FlowKept(c, s, s');
    assert s'.inflight.Keys == s.inflight.Keys;
    BooksKept(c, s, s');
  }

  lemma {:induction false} StopsExactly(c: Setup, ready: seq<nat>, passed: set<nat>)
    ensures forall n :: n in Stops(c, ready, passed) <==> n in ready && n in c.plan.before && n !in passed
    decreases |ready|
  {
    if ready != [] {
      var stop := ready[0] in c.plan.before && ready[0] !in passed;
      StopsExactly(c, ready[1..], if stop then passed + {ready[0]} else passed);
      assert ready == [ready[0]] + ready[1..];
    }
  }

  lemma StoppingInv(c: Setup, s: State)
    requires Inv(c, s)
    ensures Inv(c, Stopping(c, s))
  {
    var s' := Stopping(c, s);
    StopsExactly(c, s.ready, s.beforePassed);
    forall m: nat | m < |c.plan.nodes| ensures NodeRight(c, s', m) {
      assert NodeRight(c, s, m);
    }
    FlowKept(c, s, s');
    BooksKept(c, s, s');
  }

  // ---------------------------------------------------------------- What completions report

  /** An interruption always carries a point: `newDynamicInterrupt` and `CompositeInterrupt` add at least one. */
  ghost predicate Informs(w: World) {
    && (forall n: nat, attempt: nat, inputs: Ports :: w.invoke(n, attempt, inputs).Interrupt? ==> w.invoke(n, attempt, inputs).points != [])
    && (forall n: nat, attempt: nat, inputs: Ports, points: seq<Point>, targets: set<string> ::
          w.resume(n, attempt, inputs, points, targets).Interrupt? ==> w.resume(n, attempt, inputs, points, targets).points != [])
  }

  ghost predicate ReportRight(w: World, node: Node, a: Attempt) {
    match a
    case Succeed(values, route) => PortsValid(w, values, node.outputs) && route in node.routes
    case Interrupt(points) => points != []
    case Fail(_) => true
  }

  lemma {:induction false} LastAttemptRight(w: World, node: Node, n: nat, inputs: Ports, from: nat)
    requires 1 <= from <= MaxAttempts(node) && Informs(w)
    requires node.kind.SetVariable? ==> node.outputs == map[] && node.routes == [SUCCESS]
    ensures ReportRight(w, node, LastAttempt(w, node, n, inputs, from).0)
    decreases MaxAttempts(node) - from
  {
    var a := AttemptNode(w, node, n, from, inputs);
    if a.Fail? && !Terminal(from, MaxAttempts(node), a.failure.kind) {
      LastAttemptRight(w, node, n, inputs, from + 1);
    }
  }

  lemma {:induction false} MergeNonEmpty(left: seq<Point>, right: seq<Point>)
    requires left != []
    ensures MergePoints(left, right) != []
    decreases |right|
  {
    if right != [] {
      MergeNonEmpty(if HasPoint(left, right[0].id) then left else left + [right[0]], right[1..]);
    }
  }

  lemma {:induction false} LastResumedRight(w: World, node: Node, n: nat, paused: Paused, targets: set<string>, from: nat)
    requires 1 <= from <= MaxAttempts(node) && Informs(w)
    ensures ReportRight(w, node, LastResumed(w, node, n, paused, targets, from).0)
    decreases MaxAttempts(node) - from
  {
    var raw := Checked(w, node, w.resume(n, paused.attempts + from, paused.inputs, paused.points, targets));
    if raw.Interrupt? {
      MergeNonEmpty(raw.points, Remaining(paused.points, targets));
    }
    var a := ResumeAttempt(w, node, n, paused, targets, paused.attempts + from);
    if a.Fail? && !Terminal(from, MaxAttempts(node), a.failure.kind) {
      LastResumedRight(w, node, n, paused, targets, from + 1);
    }
  }

  lemma CompletionRight(c: Setup, s: State, n: nat)
    requires Inv(c, s) && Informs(c.world) && n < |c.plan.nodes| && n in s.inflight
    ensures ReportRight(c.world, c.plan.nodes[n], Completion(c, s, n).0)
    ensures Completion(c, s, n).0.Interrupt? ==> s.inflight[n].Invoked? && Completion(c, s, n).1 >= 1
  {
    assert SetterBuilt(c.plan, c.plan.nodes[n]);
    match s.inflight[n] {
      case BadInputs =>
      case Invoked(inputs, None, _) => LastAttemptRight(c.world, c.plan.nodes[n], n, inputs, 1);
      case Invoked(inputs, Some(paused), _) => LastResumedRight(c.world, c.plan.nodes[n], n, paused, s.targets, 1);
    }
  }

  /** What a node that comes back interrupted is put to sleep with. */
  function Sleeping(c: Setup, s: State, n: nat): Paused
    requires n < |c.plan.nodes| && n in s.inflight && s.inflight[n].Invoked? && Completion(c, s, n).0.Interrupt?
  {
    Paused(s.inflight[n].inputs, Completion(c, s, n).1, Completion(c, s, n).0.points)
  }

  /** A completion settles its node, suspends it or, when no policy handles its failure, ends the run. */
  lemma CompletionSettles(c: Setup, s: State, n: nat)
    requires Inv(c, s) && Informs(c.world) && n < |c.plan.nodes| && n in s.inflight
    ensures var o := Settle(c.plan.nodes[n], Completion(c, s, n).0);
            && !o.Bypassed?
            && (!o.Suspended? && !o.Halted? ==> CanSettle(c, s, n, o))
            && (o.Suspended? ==> s.inflight[n].Invoked? && PausedRight(c, n, Sleeping(c, s, n)))
            && (o.Halted? ==> c.plan.nodes[n].policy.Stop?)
  {
    CompletionRight(c, s, n);
    assert NodeRight(c, s, n);
  }
}
