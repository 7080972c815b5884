/** The scheduler refines the reference evaluation: whatever the order of completions and of variable writes,
    every node is given the inputs, and ends with the outcome, that one pass in topological order gives it
    (workflow/runner_execution.go, workflow/runner_invoke.go, workflow/runner_binding.go). */
module Agreement {
  import opened Graphs
  import opened Topology
  import opened Options
  import opened Plans
  import opened Acceptance
  import opened Evaluation
  import opened Guarantees
  import opened Scheduler

  /** No node interrupts itself. */
  ghost predicate Quiet(w: World) {
    forall n: nat, attempt: nat, inputs: Ports :: !w.invoke(n, attempt, inputs).Interrupt?
  }

  // ---------------------------------------------------------------- The invariant

  ghost predicate NodeAgrees(c: Setup, s: State, n: nat)
    requires Shape(c, s) && n < |c.plan.nodes|
  {
    Settled(s.nodes[n]) ==>
      && s.nodes[n] == StatusOf(Reference(c, n))
      && s.outputs[n] == OutputsOf(c.plan.nodes[n], Reference(c, n))
      && s.failures[n] == FailureOf(Reference(c, n))
  }

  ghost predicate EdgeAgrees(c: Setup, s: State, e: nat)
    requires Shape(c, s) && e < |s.edges|
  {
    !s.edges[e].EdgePending? ==> (s.edges[e].EdgeTaken? <==> Flows(c, e))
  }

  ghost predicate FlightAgrees(c: Setup, s: State, n: nat)
    requires Shape(c, s) && n in s.inflight
  {
    match s.inflight[n]
    case BadInputs => ReferenceInputs(c, n).None?
    case Invoked(inputs, resume, _) => resume.None? && ReferenceInputs(c, n) == Some(inputs)
  }

  /** Node `n` has had its effect on the loop variables. */
  ghost predicate HasWritten(s: State, n: nat) {
    (n < |s.nodes| && Settled(s.nodes[n])) || (n in s.inflight && s.inflight[n].Invoked? && s.inflight[n].written)
  }

  ghost predicate Sets(c: Setup, n: nat, x: string)
    requires Sound(c)
  {
    n < |c.plan.nodes| && x in ReferenceWrites(c, n)
  }

  /** Of the nodes that set `x`, exactly those among the first `k` of the order have written. */
  ghost predicate WrittenUpTo(c: Setup, s: State, x: string, k: nat)
    requires Sound(c)
  {
    forall n: nat | Sets(c, n, x) :: HasWritten(s, n) <==> Position(c.order, n) < k
  }

  /** The variables are those of any prefix of the reference pass that has seen the same writes. */
  ghost predicate VariablesAgree(c: Setup, s: State)
    requires Sound(c)
  {
    forall x, k: nat | k <= |c.order| && WrittenUpTo(c, s, x, k) :: Port(s.variables, x) == Port(Evaluate(c, k).variables, x)
  }

  ghost predicate Agrees(c: Setup, s: State) {
    && Inv(c, s) && Admitted(c) && s.paused == map[]
    && (forall n: nat | n < |c.plan.nodes| :: NodeAgrees(c, s, n))
    && (forall e: nat | e < |s.edges| :: EdgeAgrees(c, s, e))
    && (forall n <- s.inflight :: FlightAgrees(c, s, n))
    && VariablesAgree(c, s)
  }

  // ---------------------------------------------------------------- Structure

  /** Once a node has left Pending, everything upstream of it has settled. */
  lemma {:induction false} UpstreamSettled(c: Setup, s: State, a: nat, es: seq<nat>, n: nat)
    requires Inv(c, s) && n < |c.plan.nodes| && !s.nodes[n].Pending? && IsPath(c.plan.graph, a, es, n) && es != []
    ensures a < |c.plan.nodes| && Settled(s.nodes[a])
    decreases |es|
  {
    var g, e := c.plan.graph, es[|es| - 1];
    StartHasNoIncoming(c, e);
    assert FlowRight(c, s, n) && EdgeRight(c, s, e);
    assert Into(g, n, e);
    var u := g.edges[e].from;
    if |es| > 1 {
      UpstreamSettled(c, s, a, es[..|es| - 1], u);
    }
  }

  lemma StartHasNoIncoming(c: Setup, e: nat)
    requires Sound(c) && Runnable(c.world, c.plan) && e < |c.plan.graph.edges|
    ensures c.plan.graph.edges[e].to != c.plan.graph.start
  {
    var g := c.plan.graph;
    assert NodeRunnable(c.world, c.plan, g.start);
    assert e in g.incoming[g.edges[e].to];
  }

  lemma AncestorSettled(c: Setup, s: State, a: nat, n: nat)
    requires Inv(c, s) && n < |c.plan.nodes| && !s.nodes[n].Pending? && Reaches(c.plan.graph, a, n) && a != n
    ensures a < |c.plan.nodes| && Settled(s.nodes[a])
  {
    var es :| IsPath(c.plan.graph, a, es, n);
    UpstreamSettled(c, s, a, es, n);
  }

  /** A node with a taken incoming edge runs in the reference evaluation, one with none does not. */
  lemma FiresAsReferred(c: Setup, s: State, n: nat)
    requires Agrees(c, s) && n < |c.plan.nodes|
    requires n != c.plan.graph.start ==> IncomingResolved(c.plan.graph, s, n)
    ensures n == c.plan.graph.start || AnyIncomingTaken(c.plan.graph, s, n) <==> Runs(c, n)
  {
    var g := c.plan.graph;
    RunsWhen(c, n);
    if n != g.start {
      forall e: nat | e < |s.edges| && Into(g, n, e) ensures s.edges[e].EdgeTaken? <==> Flows(c, e) {
        assert EdgeAgrees(c, s, e);
      }
    }
  }

  lemma FlyingRuns(c: Setup, s: State, n: nat)
    requires Agrees(c, s) && n < |c.plan.nodes| && !s.nodes[n].Pending? && !s.nodes[n].Skipped?
    ensures Runs(c, n)
  {
    assert FlowRight(c, s, n);
    FiresAsReferred(c, s, n);
  }

  // ---------------------------------------------------------------- The reference's variables

  lemma EvaluateWrites(c: Setup, k: nat)
    requires Sound(c) && k < |c.order|
    ensures c.order[k] < |c.plan.nodes|
    ensures Evaluate(c, k + 1).variables == Evaluate(c, k).variables + ReferenceWrites(c, c.order[k])
  {
    assert c.order[k] in c.order;
    PositionOf(c.order, k);
  }

  /** No node from position `i` up to `k` of the order sets `x`. */
  ghost predicate NoneSets(c: Setup, x: string, i: nat, k: nat)
    requires Sound(c)
  {
    forall n: nat | Sets(c, n, x) :: !(i <= Position(c.order, n) < k)
  }

  lemma VariableStep(c: Setup, x: string, k: nat)
    requires Sound(c) && k < |c.order| && !Sets(c, c.order[k], x)
    ensures Port(Evaluate(c, k + 1).variables, x) == Port(Evaluate(c, k).variables, x)
  {
    EvaluateWrites(c, k);
  }

  lemma NotSetAt(c: Setup, x: string, i: nat, k: nat)
    requires Sound(c) && i < k <= |c.order| && NoneSets(c, x, i, k)
    ensures !Sets(c, c.order[k - 1], x)
  {
    PositionOf(c.order, k - 1);
  }

  lemma NoneSetsBefore(c: Setup, x: string, i: nat, k: nat)
    requires Sound(c) && i < k && NoneSets(c, x, i, k)
    ensures NoneSets(c, x, i, k - 1)
  {}

  lemma {:induction false} VariableStays(c: Setup, x: string, i: nat, k: nat)
    requires Sound(c) && i <= k <= |c.order| && NoneSets(c, x, i, k)
    ensures Port(Evaluate(c, k).variables, x) == Port(Evaluate(c, i).variables, x)
    decreases k
  {
    if i < k {
      NotSetAt(c, x, i, k);
      VariableStep(c, x, k - 1);
      NoneSetsBefore(c, x, i, k);
      VariableStays(c, x, i, k - 1);
    }
  }

  lemma VariableAfter(c: Setup, n: nat, x: string)
    requires Sound(c) && Sets(c, n, x)
    ensures Position(c.order, n) < |c.order|
    ensures Port(Evaluate(c, Position(c.order, n) + 1).variables, x) == Some(ReferenceWrites(c, n)[x])
  {
    EvaluateWrites(c, Position(c.order, n));
  }

  lemma SetterRuns(c: Setup, n: nat, x: string)
    requires Sound(c) && Sets(c, n, x)
    ensures Runs(c, n) && ReferenceInputs(c, n).Some? && WritesVariable(c.plan.nodes[n], x)
  {}

  // ---------------------------------------------------------------- Resolving inputs while others run

  lemma ResolveSame(w: World, v: View, v': View, node: Node)
    requires forall name <- node.bindings :: ResolveBinding(v, node.bindings[name]) == ResolveBinding(v', node.bindings[name])
    ensures ResolveInputs(w, v, node) == ResolveInputs(w, v', node)
  {
    assert forall name <- node.bindings :: Usable(w, v, node, name) <==> Usable(w, v', node, name);
    var r := map name | name in node.bindings && ResolveBinding(v, node.bindings[name]).Some? :: ResolveBinding(v, node.bindings[name]).value;
    var r' := map name | name in node.bindings && ResolveBinding(v', node.bindings[name]).Some? :: ResolveBinding(v', node.bindings[name]).value;
    assert r == r';
  }

  /** What a binding sees of a source it names is what the reference evaluation shows it. */
  lemma SourceSame(c: Setup, s: State, n: nat, name: string, src: nat)
    requires Agrees(c, s) && n < |c.plan.nodes| && !s.nodes[n].Pending? && !Settled(s.nodes[n])
    requires name in c.plan.nodes[n].bindings && Names(c.plan.nodes[n].bindings[name].source, src)
    ensures src < |c.plan.nodes|
    ensures s.outputs[src] == Shown(c, Before(c, n)).outputs[src] && s.failures[src] == Shown(c, Before(c, n)).failures[src]
  {
    SourceRunnable(c.world, c.plan, n, name, src);
    ReachesForward(c.plan.graph, c.order, src, n);
    ShownBefore(c, n, src);
    if src == n {
      assert NodeRight(c, s, n);
    } else {
      AncestorSettled(c, s, src, n);
      assert NodeAgrees(c, s, src);
    }
  }

  /** A variable a node reads has, when the node is launched, exactly the writes before it. */
  lemma ReadsSettled(c: Setup, s: State, n: nat, x: string)
    requires Agrees(c, s) && n < |c.plan.nodes| && ReadsVariable(c.plan.nodes[n], x)
    requires !s.nodes[n].Pending? && !Settled(s.nodes[n]) && n !in s.inflight
    ensures WrittenUpTo(c, s, x, Position(c.order, n))
  {
    FlyingRuns(c, s, n);
    forall w: nat | Sets(c, w, x) ensures HasWritten(s, w) <==> Position(c.order, w) < Position(c.order, n) {
      if w != n {
        WriterSettled(c, s, n, x, w);
      }
    }
  }

  lemma WriterSettled(c: Setup, s: State, n: nat, x: string, w: nat)
    requires Agrees(c, s) && n < |c.plan.nodes| && ReadsVariable(c.plan.nodes[n], x) && Runs(c, n) && Sets(c, w, x) && w != n
    requires !s.nodes[n].Pending? && !Settled(s.nodes[n])
    ensures HasWritten(s, w) <==> Position(c.order, w) < Position(c.order, n)
  {
    var g := c.plan.graph;
    SetterRuns(c, w, x);
    ContendersOrdered(c, x, w, n);
    if Reaches(g, w, n) {
      AncestorSettled(c, s, w, n);
      ReachesForward(g, c.order, w, n);
    } else {
      ReachesForward(g, c.order, n, w);
      if !s.nodes[w].Pending? {
        AncestorSettled(c, s, n, w);
      }
      assert NodeRight(c, s, w);
    }
  }

  lemma VariableSame(c: Setup, s: State, n: nat, x: string)
    requires Agrees(c, s) && n < |c.plan.nodes| && ReadsVariable(c.plan.nodes[n], x)
    requires !s.nodes[n].Pending? && !Settled(s.nodes[n]) && n !in s.inflight
    ensures Port(s.variables, x) == Port(Before(c, n).variables, x)
  {
    ReadsSettled(c, s, n, x);
  }

  /** At the moment a node is launched its inputs resolve to its inputs in the reference evaluation. */
  lemma InputsSame(c: Setup, s: State, n: nat)
    requires Agrees(c, s) && n < |c.plan.nodes|
    requires !s.nodes[n].Pending? && !Settled(s.nodes[n]) && n !in s.inflight
    ensures ResolveInputs(c.world, ViewOf(c, s), c.plan.nodes[n]) == ReferenceInputs(c, n)
  {
    var node, v, v' := c.plan.nodes[n], ViewOf(c, s), Shown(c, Before(c, n));
    forall name <- node.bindings ensures ResolveBinding(v, node.bindings[name]) == ResolveBinding(v', node.bindings[name]) {
      match node.bindings[name].source {
        case NodeOutput(src, _) => SourceSame(c, s, n, name, src);
        case NodeError(src, _) => SourceSame(c, s, n, name, src);
        case LoopVariable(x) => VariableSame(c, s, n, x);
        case _ =>
      }
    }
    ResolveSame(c.world, v, v', node);
  }

  // ---------------------------------------------------------------- Every step agrees

  lemma NothingWritten(c: Setup, s: State, x: string, k: nat)
    requires Sound(c) && WrittenUpTo(c, s, x, k) && forall n: nat :: !HasWritten(s, n)
    ensures NoneSets(c, x, 0, k)
  {}

  lemma InitiallyUnwritten(c: Setup)
    ensures forall n: nat :: !HasWritten(Initial(c), n)
  {}

  lemma InitialAgrees(c: Setup)
    requires Admitted(c)
    ensures Agrees(c, Initial(c))
  {
    InitialInv(c);
    InitiallyUnwritten(c);
    forall x, k: nat | k <= |c.order| && WrittenUpTo(c, Initial(c), x, k)
      ensures Port(Initial(c).variables, x) == Port(Evaluate(c, k).variables, x)
    {
      NothingWritten(c, Initial(c), x, k);
      VariableStays(c, x, 0, k);
    }
  }

  /** A step that settles no node. */
  lemma NothingSettles(c: Setup, s: State, s': State)
    requires Agrees(c, s) && Shape(c, s')
    requires s'.edges == s.edges && s'.outputs == s.outputs && s'.failures == s.failures
    requires forall m: nat | m < |c.plan.nodes| :: s'.nodes[m] == s.nodes[m] || !Settled(s'.nodes[m])
    ensures forall m: nat | m < |c.plan.nodes| :: NodeAgrees(c, s', m)
    ensures forall e: nat | e < |s'.edges| :: EdgeAgrees(c, s', e)
  {
    forall m: nat | m < |c.plan.nodes| ensures NodeAgrees(c, s', m) {
      assert NodeAgrees(c, s, m);
    }
    forall e: nat | e < |s'.edges| ensures EdgeAgrees(c, s', e) {
      assert EdgeAgrees(c, s, e);
    }
  }

  /** A step that writes nothing and settles nothing that has yet to write. */
  lemma SameWrites(c: Setup, s: State, s': State)
    requires Sound(c) && VariablesAgree(c, s) && s'.variables == s.variables
    requires forall n: nat, x: string | Sets(c, n, x) :: HasWritten(s', n) <==> HasWritten(s, n)
    ensures VariablesAgree(c, s')
  {
    forall x, k: nat | k <= |c.order| && WrittenUpTo(c, s', x, k)
      ensures Port(s'.variables, x) == Port(Evaluate(c, k).variables, x)
    {
      assert WrittenUpTo(c, s, x, k);
    }
  }

  lemma MarkedAgrees(c: Setup, s: State, n: nat)
    requires Agrees(c, s) && n < |c.plan.nodes| && s.nodes[n].Pending? && Inv(c, Marked(s, n))
    ensures Agrees(c, Marked(s, n))
  {
    var s' := Marked(s, n);
    NothingSettles(c, s, s');
    forall m <- s.inflight ensures FlightAgrees(c, s', m) {
      assert FlightAgrees(c, s, m);
    }
    SameWrites(c, s, s');
  }

  lemma StoppingAgrees(c: Setup, s: State)
    requires Agrees(c, s)
    ensures Agrees(c, Stopping(c, s))
  {
    var s' := Stopping(c, s);
    StoppingInv(c, s);
    NothingSettles(c, s, s');
    forall m <- s.inflight ensures FlightAgrees(c, s', m) {
      assert FlightAgrees(c, s, m);
    }
    SameWrites(c, s, s');
  }

  lemma HeadIdle(c: Setup, s: State)
    requires Agrees(c, s) && s.ready != []
    ensures s.ready[0] < |c.plan.nodes| && s.nodes[s.ready[0]].Ready? && s.ready[0] !in s.inflight
  {
    QueueHead(c, s);
  }

  /** What a launch adds to an agreeing state: one more flight on the node's reference inputs. */
  ghost predicate TakesOff(c: Setup, s: State, s': State, n: nat)
    requires Shape(c, s) && Shape(c, s') && n < |c.plan.nodes|
  {
    && n !in s.inflight && s'.inflight.Keys == s.inflight.Keys + {n} && FlightAgrees(c, s', n)
    && (s'.inflight[n].Invoked? ==> !s'.inflight[n].written)
    && (forall m <- s.inflight :: s'.inflight[m] == s.inflight[m])
    && s'.edges == s.edges && s'.outputs == s.outputs && s'.failures == s.failures
    && s'.paused == s.paused && s'.variables == s.variables && s'.pauseRequested == s.pauseRequested
    && !Settled(s.nodes[n]) && !Settled(s'.nodes[n])
    && forall m: nat | m < |c.plan.nodes| && m != n :: s'.nodes[m] == s.nodes[m]
  }

  lemma DepartingTakesOff(c: Setup, s: State, rest: State, n: nat)
    requires Shape(c, s) && n < |c.plan.nodes| && rest == s.(ready := rest.ready) && Shape(c, rest)
    requires n !in s.inflight && s.nodes[n].Ready?
    requires ResolveInputs(c.world, ViewOf(c, s), c.plan.nodes[n]) == ReferenceInputs(c, n)
    ensures Shape(c, Departing(c, rest, n)) && TakesOff(c, s, Departing(c, rest, n), n)
  {
    assert ViewOf(c, rest) == ViewOf(c, s);
  }

  lemma LaunchedTakesOff(c: Setup, s: State)
    requires Agrees(c, s) && s.ready != [] && s.ready[0] < |c.plan.nodes|
    ensures Shape(c, Launched(c, s)) && TakesOff(c, s, Launched(c, s), s.ready[0])
  {
    HeadIdle(c, s);
    InputsSame(c, s, s.ready[0]);
    PopHead(c, s);
    DepartingTakesOff(c, s, Pop(s), s.ready[0]);
    assert Launched(c, s) == Departing(c, Pop(s), s.ready[0]);
  }

  lemma TakesOffWrites(c: Setup, s: State, s': State, n: nat, m: nat)
    requires Shape(c, s) && Shape(c, s') && n < |c.plan.nodes| && TakesOff(c, s, s', n)
    ensures HasWritten(s', m) <==> HasWritten(s, m)
  {}

  lemma TakesOffFlights(c: Setup, s: State, s': State, n: nat)
    requires Shape(c, s) && Shape(c, s') && n < |c.plan.nodes| && TakesOff(c, s, s', n)
    requires forall m <- s.inflight :: FlightAgrees(c, s, m)
    ensures forall m <- s'.inflight :: FlightAgrees(c, s', m)
  {
    forall m <- s'.inflight ensures FlightAgrees(c, s', m) {
      if m != n {
        assert FlightAgrees(c, s, m);
      }
    }
  }

  lemma TakesOffAgrees(c: Setup, s: State, s': State, n: nat)
    requires Agrees(c, s) && n < |c.plan.nodes| && Inv(c, s') && TakesOff(c, s, s', n)
    ensures Agrees(c, s')
  {
    NothingSettles(c, s, s');
    TakesOffFlights(c, s, s', n);
    forall m: nat, x: string | Sets(c, m, x) ensures HasWritten(s', m) <==> HasWritten(s, m) {
      TakesOffWrites(c, s, s', n, m);
    }
    SameWrites(c, s, s');
  }

  lemma LaunchedAgrees(c: Setup, s: State)
    requires Agrees(c, s) && s.ready != [] && |s.inflight| < c.plan.maxConcurrency
    ensures s.ready[0] < |c.plan.nodes| && Agrees(c, Launched(c, s))
    ensures Launched(c, s).pauseRequested == s.pauseRequested
  {
    LaunchedInv(c, s);
    LaunchedTakesOff(c, s);
    TakesOffAgrees(c, s, Launched(c, s), s.ready[0]);
  }

  // ---------------------------------------------------------------- Settling agrees

  /** A completion is the reference outcome of its node. */
  lemma CompletionAsReferred(c: Setup, s: State, n: nat)
    requires Agrees(c, s) && n < |c.plan.nodes| && n in s.inflight
    ensures Settle(c.plan.nodes[n], Completion(c, s, n).0) == Reference(c, n)
  {
    assert NodeRight(c, s, n) && FlightAgrees(c, s, n);
    FlyingRuns(c, s, n);
    RunsWhen(c, n);
  }

  lemma SkipAsReferred(c: Setup, s: State, n: nat)
    requires Agrees(c, s) && n < |c.plan.nodes| && CanSettle(c, s, n, Bypassed)
    ensures Reference(c, n) == Bypassed
  {
    FiresAsReferred(c, s, n);
  }

  lemma SettlingEdgesAgree(c: Setup, s: State, n: nat)
    requires Agrees(c, s) && n < |c.plan.nodes| && Shape(c, Settling(c, s, n, Reference(c, n)))
    ensures forall e: nat | e < |s.edges| :: EdgeAgrees(c, Settling(c, s, n, Reference(c, n)), e)
  {
    forall e: nat | e < |s.edges| ensures EdgeAgrees(c, Settling(c, s, n, Reference(c, n)), e) {
      assert EdgeAgrees(c, s, e);
    }
  }

  lemma SettlingNodesAgree(c: Setup, s: State, n: nat)
    requires Agrees(c, s) && n < |c.plan.nodes| && Shape(c, Settling(c, s, n, Reference(c, n)))
    ensures forall m: nat | m < |c.plan.nodes| :: NodeAgrees(c, Settling(c, s, n, Reference(c, n)), m)
    ensures forall m <- Settling(c, s, n, Reference(c, n)).inflight :: FlightAgrees(c, Settling(c, s, n, Reference(c, n)), m)
  {
    var s' := Settling(c, s, n, Reference(c, n));
    forall m: nat | m < |c.plan.nodes| ensures NodeAgrees(c, s', m) {
      assert NodeAgrees(c, s, m);
    }
    forall m <- s'.inflight ensures FlightAgrees(c, s', m) {
      assert FlightAgrees(c, s, m);
    }
  }

  /** A node that sets variables has done so by the time it completes. */
  ghost predicate WroteAlready(c: Setup, s: State, n: nat)
    requires n < |c.plan.nodes|
  {
    n in s.inflight && s.inflight[n].Invoked? && c.plan.nodes[n].kind.SetVariable? ==> s.inflight[n].written
  }

  /** A setter that settles has written already. */
  lemma SettlerWrote(c: Setup, s: State, n: nat, x: string)
    requires Agrees(c, s) && n < |c.plan.nodes| && CanSettle(c, s, n, Reference(c, n)) && WroteAlready(c, s, n) && Sets(c, n, x)
    ensures HasWritten(s, n)
  {
    SetterRuns(c, n, x);
    assert FlightAgrees(c, s, n);
  }

  lemma SettlingWrites(c: Setup, s: State, n: nat, o: Outcome, m: nat)
    requires Shape(c, s) && n < |c.plan.nodes| && Settled(StatusOf(o)) && (m == n ==> HasWritten(s, n))
    ensures HasWritten(Settling(c, s, n, o), m) <==> HasWritten(s, m)
  {}

  lemma SettlingAgrees(c: Setup, s: State, n: nat)
    requires Agrees(c, s) && n < |c.plan.nodes| && CanSettle(c, s, n, Reference(c, n)) && WroteAlready(c, s, n)
    ensures Agrees(c, Settling(c, s, n, Reference(c, n)))
  {
    var s' := Settling(c, s, n, Reference(c, n));
    SettlingInv(c, s, n, Reference(c, n));
    SettlingEdgesAgree(c, s, n);
    SettlingNodesAgree(c, s, n);
    forall m: nat, x: string | Sets(c, m, x) ensures HasWritten(s', m) <==> HasWritten(s, m) {
      if m == n {
        SettlerWrote(c, s, n, x);
      }
      SettlingWrites(c, s, n, Reference(c, n), m);
    }
    SameWrites(c, s, s');
  }

  // ---------------------------------------------------------------- Writing variables agrees

  lemma SetterWrites(c: Setup, s: State, n: nat)
    requires Agrees(c, s) && n < |c.plan.nodes| && n in s.inflight && s.inflight[n].Invoked?
    ensures ReferenceWrites(c, n) == Updates(c.plan.nodes[n], s.inflight[n].inputs)
  {
    CompletionAsReferred(c, s, n);
    assert FlightAgrees(c, s, n);
  }

  /** Nothing downstream of a node in flight has written. */
  lemma NoneBelowWritten(c: Setup, s: State, n: nat, w: nat)
    requires Inv(c, s) && n < |c.plan.nodes| && w < |c.plan.nodes| && n in s.inflight && w != n && HasWritten(s, w)
    ensures !Reaches(c.plan.graph, n, w)
  {
    assert NodeRight(c, s, n) && NodeRight(c, s, w);
    if Reaches(c.plan.graph, n, w) {
      AncestorSettled(c, s, n, w);
    }
  }

  /** Every other setter of a variable that has written when `n` writes it comes before `n`. */
  lemma WritersBefore(c: Setup, s: State, n: nat, x: string, w: nat)
    requires Agrees(c, s) && n < |c.plan.nodes| && n in s.inflight
    requires Sets(c, n, x) && Sets(c, w, x) && w != n && HasWritten(s, w)
    ensures Position(c.order, w) < Position(c.order, n)
  {
    SetterRuns(c, n, x);
    SetterRuns(c, w, x);
    ContendersOrdered(c, x, n, w);
    NoneBelowWritten(c, s, n, w);
    ReachesForward(c.plan.graph, c.order, w, n);
  }

  /** No setter after `n` among the first `k` has written when `n` does. */
  lemma NoneSetsAfter(c: Setup, s: State, n: nat, x: string, k: nat)
    requires Agrees(c, s) && n < |c.plan.nodes| && n in s.inflight && Sets(c, n, x)
    requires forall w: nat | Sets(c, w, x) && w != n && Position(c.order, w) < k :: HasWritten(s, w)
    ensures NoneSets(c, x, Position(c.order, n) + 1, k)
  {
    forall w: nat | Sets(c, w, x) ensures !(Position(c.order, n) + 1 <= Position(c.order, w) < k) {
      if w != n && Position(c.order, w) < k {
        WritersBefore(c, s, n, x, w);
      }
    }
  }

  /** A setter of `x` with no other setter between it and position `k` gives `x` its value there. */
  lemma LastSetterWins(c: Setup, n: nat, x: string, k: nat)
    requires Sound(c) && Sets(c, n, x) && Position(c.order, n) < k <= |c.order| && NoneSets(c, x, Position(c.order, n) + 1, k)
    ensures Port(Evaluate(c, k).variables, x) == Some(ReferenceWrites(c, n)[x])
  {
    VariableAfter(c, n, x);
    VariableStays(c, x, Position(c.order, n) + 1, k);
  }

  /** When `n` writes `x`, every prefix that includes `n` and no setter still to write gives `x` the value of `n`. */
  lemma WriterLast(c: Setup, s: State, n: nat, x: string, k: nat)
    requires Agrees(c, s) && n < |c.plan.nodes| && n in s.inflight && Sets(c, n, x)
    requires Position(c.order, n) < k <= |c.order|
    requires forall w: nat | Sets(c, w, x) && w != n && Position(c.order, w) < k :: HasWritten(s, w)
    ensures Port(Evaluate(c, k).variables, x) == Some(ReferenceWrites(c, n)[x])
  {
    NoneSetsAfter(c, s, n, x, k);
    LastSetterWins(c, n, x, k);
  }

  lemma AssignedSet(c: Setup, s: State, s': State, n: nat, x: string, k: nat)
    requires Agrees(c, s) && n < |c.plan.nodes| && n in s.inflight && Sets(c, n, x)
    requires HasWritten(s', n) && forall w: nat | w != n :: HasWritten(s', w) <==> HasWritten(s, w)
    requires k <= |c.order| && WrittenUpTo(c, s', x, k)
    ensures Port(Evaluate(c, k).variables, x) == Some(ReferenceWrites(c, n)[x])
  {
    WriterLast(c, s, n, x, k);
  }

  lemma NotAssigned(c: Setup, s: State, s': State, n: nat, x: string, k: nat)
    requires Sound(c) && !Sets(c, n, x) && forall w: nat | w != n :: HasWritten(s', w) <==> HasWritten(s, w)
    requires WrittenUpTo(c, s', x, k)
    ensures WrittenUpTo(c, s, x, k)
  {}

  lemma AssignedVariables(c: Setup, s: State, s': State, n: nat, x: string, k: nat)
    requires Agrees(c, s) && n < |c.plan.nodes| && n in s.inflight && s.inflight[n].Invoked?
    requires s'.variables == s.variables + ReferenceWrites(c, n)
    requires HasWritten(s', n) && forall w: nat | w != n :: HasWritten(s', w) <==> HasWritten(s, w)
    requires k <= |c.order| && WrittenUpTo(c, s', x, k)
    ensures Port(s'.variables, x) == Port(Evaluate(c, k).variables, x)
  {
    if Sets(c, n, x) {
      AssignedSet(c, s, s', n, x, k);
    } else {
      NotAssigned(c, s, s', n, x, k);
    }
  }

  lemma AssignedAgrees(c: Setup, s: State, n: nat)
    requires Agrees(c, s) && n < |c.plan.nodes| && n in s.inflight && s.inflight[n].Invoked? && !s.inflight[n].written
    ensures Agrees(c, Assigned(c, s, n))
  {
    var s' := Assigned(c, s, n);
    AssignedInv(c, s, n);
    SetterWrites(c, s, n);
    NothingSettles(c, s, s');
    forall m <- s'.inflight ensures FlightAgrees(c, s', m) {
      assert FlightAgrees(c, s, m);
    }
    forall x, k: nat | k <= |c.order| && WrittenUpTo(c, s', x, k)
      ensures Port(s'.variables, x) == Port(Evaluate(c, k).variables, x)
    {
      AssignedVariables(c, s, s', n, x, k);
    }
  }

  // ---------------------------------------------------------------- Complete runs

  ghost predicate NodeAsReferred(c: Setup, s: State, n: nat)
    requires Sound(c) && n < |c.plan.nodes| == |s.nodes| == |s.outputs| == |s.failures|
  {
    && s.nodes[n] == StatusOf(Reference(c, n))
    && s.outputs[n] == OutputsOf(c.plan.nodes[n], Reference(c, n))
    && s.failures[n] == FailureOf(Reference(c, n))
  }

  /** The statuses, data, edges and loop variables are those the reference evaluation ends with. */
  ghost predicate AsReferred(c: Setup, s: State)
    requires Sound(c)
  {
    && |s.nodes| == |s.outputs| == |s.failures| == |c.plan.nodes| && |s.edges| == |c.plan.graph.edges|
    && (forall n: nat | n < |c.plan.nodes| :: NodeAsReferred(c, s, n))
    && (forall e: nat | e < |s.edges| :: s.edges[e] == if Flows(c, e) then EdgeTaken else EdgeSkipped)
    && (forall x :: Port(s.variables, x) == Port(Evaluate(c, |c.order|).variables, x))
  }

  /** No node fails under the stop policy, or is suspended, in the reference evaluation. */
  ghost predicate Succeeds(c: Setup)
    requires Sound(c)
  {
    forall n: nat | n < |c.plan.nodes| :: !Reference(c, n).Halted? && !Reference(c, n).Suspended?
  }

  /** A run that has settled every node is the reference evaluation, whatever the schedule was. */
  lemma CompleteAgrees(c: Setup, s: State)
    requires Agrees(c, s) && s.done == |c.plan.nodes|
    ensures AsReferred(c, s) && Succeeds(c)
  {
    AllSettled(c, s);
    EdgesComplete(c, s);
    forall n: nat | n < |c.plan.nodes|
      ensures NodeAsReferred(c, s, n) && !Reference(c, n).Halted? && !Reference(c, n).Suspended?
    {
      assert NodeAgrees(c, s, n);
    }
    forall x ensures Port(s.variables, x) == Port(Evaluate(c, |c.order|).variables, x) {
      assert WrittenUpTo(c, s, x, |c.order|);
    }
  }

  lemma EdgesComplete(c: Setup, s: State)
    requires Agrees(c, s) && forall n: nat | n < |c.plan.nodes| :: Settled(s.nodes[n])
    ensures forall e: nat | e < |s.edges| :: s.edges[e] == if Flows(c, e) then EdgeTaken else EdgeSkipped
  {
    forall e: nat | e < |s.edges| ensures s.edges[e] == if Flows(c, e) then EdgeTaken else EdgeSkipped {
      assert EdgeRight(c, s, e) && EdgeAgrees(c, s, e);
    }
  }

  lemma AllSettled(c: Setup, s: State)
    requires Inv(c, s) && s.done == |c.plan.nodes|
    ensures forall n: nat | n < |c.plan.nodes| :: Settled(s.nodes[n])
  {
    FullSet(SettledNodes(s), |c.plan.nodes|);
    forall n: nat | n < |c.plan.nodes| ensures Settled(s.nodes[n]) {
      assert n in SettledNodes(s);
    }
  }

  lemma {:induction false} FullSet(members: set<nat>, size: nat)
    requires |members| == size && forall m <- members :: m < size
    ensures forall m: nat | m < size :: m in members
    decreases size
  {
    if size > 0 {
      if size - 1 in members {
        var rest := members - {size - 1};
        FullSet(rest, size - 1);
        forall m: nat | m < size ensures m in members {
          if m < size - 1 {
            assert m in rest;
          }
        }
      } else {
        FitsBelow(members, size - 1);
      }
    }
  }

  lemma {:induction false} FitsBelow(members: set<nat>, size: nat)
    requires forall m <- members :: m < size
    ensures |members| <= size
    decreases size
  {
    if size > 0 {
      FitsBelow(members - {size - 1}, size - 1);
    } else {
      assert members == {};
    }
  }
}
