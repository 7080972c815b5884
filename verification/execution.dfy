/** The scheduler itself: an execution whose fields are updated in place, with the order of completions and the
    moments of variable writes chosen arbitrarily (workflow/runner_execution.go, workflow/runner_invoke.go). */
module Executions {
  import opened Graphs
  import opened Walks
  import opened Topology
  import opened Options
  import opened Plans
  import opened Acceptance
  import opened Evaluation
  import opened Guarantees
  import opened Scheduler
  import opened Agreement
  import opened Alignment
  import opened Progress
  import opened Breakpoints
  import opened Checkpoints
  import opened Loading

  datatype RunResult = Completed(outputs: Option<Ports>, partial: bool)
                     | Stopped(node: nat, failure: Failure)
                     | Paused(info: Info, checkpoint: Checkpoint)
                     | NoProgress
                     | NoContext

  /** Any key of a map. */
  method Any<V>(m: map<nat, V>) returns (n: nat)
    requires |m| > 0
    ensures n in m
  {
    assert m.Keys != {};
    n :| n in m.Keys;
  }

  /** The loop of `requestBeforeInterrupt`. */
  method CollectStops(c: Setup, ready: seq<nat>, beforePassed: set<nat>) returns (matched: seq<nat>)
    ensures matched == Stops(c, ready, beforePassed)
  {
    var passed := beforePassed;
    matched := [];
    for i := 0 to |ready|
      invariant matched + Stops(c, ready[i..], passed) == Stops(c, ready, beforePassed)
    {
      assert ready[i..][0] == ready[i] && ready[i..][1..] == ready[i + 1..];
      if ready[i] in c.plan.before && ready[i] !in passed {
        passed, matched := passed + {ready[i]}, matched + [ready[i]];
      }
    }
  }

  class Execution {
    const setup: Setup
    var edges: seq<EdgeState>
    var nodes: seq<Status>
    var outputs: seq<Option<Ports>>
    var failures: seq<Option<Failure>>
    var ready: seq<nat>
    var running: nat
    var done: nat
    var inflight: map<nat, Flight>
    var paused: map<nat, Plans.Paused>
    var beforePassed: set<nat>
    var info: Info
    var pauseRequested: bool
    var handledFailure: bool
    var variables: Ports
    var targets: set<string>
    /** The nodes launched by this run, in order. */
    ghost var launches: seq<nat>

    function Snapshot(): State
      reads this
    {
      State(edges, nodes, outputs, failures, ready, done, inflight, paused, beforePassed, info, pauseRequested, handledFailure,
            variables, targets)
    }

    /** `running` counts the flights. */
    predicate Counted()
      reads this
    {
      running == |inflight|
    }

    ghost predicate Fits()
      reads this
    {
      && Indexed(setup.plan.graph) && setup.plan.graph.size == |setup.plan.nodes|
      && |edges| == |setup.plan.graph.edges| && |nodes| == |outputs| == |failures| == |setup.plan.nodes|
      && running == |inflight|
    }

    constructor (c: Setup)
      ensures setup == c && Snapshot() == Initial(c) && running == 0 && launches == []
    {
      setup := c;
      edges := seq(|c.plan.graph.edges|, _ => EdgePending);
      nodes := seq(|c.plan.nodes|, _ => Pending);
      outputs := seq(|c.plan.nodes|, _ => None);
      failures := seq(|c.plan.nodes|, _ => None);
      ready, running, done, inflight, paused, beforePassed := [], 0, 0, map[], map[], {};
      info, pauseRequested, handledFailure, variables, targets := NO_INFO, false, false, c.variables, {};
      launches := [];
    }

    constructor Resume(c: Setup, ck: Checkpoint, answered: set<string>)
      ensures setup == c && Snapshot() == Restore(ck, answered) && running == 0 && launches == []
    {
      setup := c;
      var restored := Restore(ck, answered);
      edges, nodes, outputs, failures := restored.edges, restored.nodes, restored.outputs, restored.failures;
      ready, running, done, inflight := restored.ready, 0, restored.done, restored.inflight;
      paused, beforePassed, info, pauseRequested := restored.paused, restored.beforePassed, restored.info, restored.pauseRequested;
      handledFailure, variables, targets := restored.handledFailure, restored.variables, restored.targets;
      launches := [];
    }

    // -------------------------------------------------------------- Single transitions

    method MarkReady(n: nat)
      requires n < |nodes|
      modifies this`nodes, this`ready
      ensures Snapshot() == Marked(old(Snapshot()), n)
    {
      nodes := nodes[n := Ready];
      ready := ready + [n];
    }

    /** `resolveOutgoing`; with no route it skips every edge out of the node, as `skipNode` does. */
    method ResolveOutgoing(n: nat, selected: Option<string>)
      requires Indexed(setup.plan.graph) && n < setup.plan.graph.size && |edges| == |setup.plan.graph.edges|
      modifies this`edges
      ensures edges == Routed(setup.plan.graph, old(edges), n, selected)
    {
      var g := setup.plan.graph;
      var out := g.outgoing[n];
      for i := 0 to |out|
        invariant |edges| == |g.edges|
        invariant forall e: nat | e < |edges| :: edges[e] == if e in out[..i] then Routed(g, old(edges), n, selected)[e] else old(edges)[e]
      {
        assert OutOf(g, n, out[i]) && out[..i + 1] == out[..i] + [out[i]];
        edges := edges[out[i] := if selected == Some(g.edges[out[i]].route) then EdgeTaken else EdgeSkipped];
      }
      assert out[..|out|] == out;
      assert forall e: nat | e < |g.edges| && e in out :: OutOf(g, n, e);
    }

    method SkipNode(n: nat)
      requires Fits() && n < |setup.plan.nodes| && n !in inflight && outputs[n].None? && failures[n].None?
      modifies this`nodes, this`edges, this`done
      ensures Snapshot() == Settling(setup, old(Snapshot()), n, Bypassed)
    {
      nodes := nodes[n := Skipped];
      ResolveOutgoing(n, None);
      done := done + 1;
      assert outputs == outputs[n := None] && failures == failures[n := None] && inflight - {n} == inflight;
    }

    /** The flight of a node is over: `finishInflight`. */
    method Land(n: nat)
      requires n in inflight && running == |inflight|
      modifies this`running, this`inflight
      ensures inflight == old(inflight) - {n} && running == |inflight|
    {
      SmallerMap(inflight, n);
      running := running - 1;
      inflight := inflight - {n};
    }

    method PauseAfter(n: nat)
      modifies this`info, this`pauseRequested
      ensures info == if n in setup.plan.after then old(info).(after := old(info).after + [n]) else old(info)
      ensures pauseRequested == (old(pauseRequested) || n in setup.plan.after)
    {
      if n in setup.plan.after {
        info := info.(after := info.after + [n]);
        pauseRequested := true;
      }
    }

    /** What a completion records of its node: `recordNodeCompletion` and `resolveOutgoing`. */
    method RecordCompletion(n: nat, values: Ports, route: string)
      requires Indexed(setup.plan.graph) && n < setup.plan.graph.size && |edges| == |setup.plan.graph.edges|
      requires n < |nodes| == |outputs|
      modifies this`edges, this`nodes, this`outputs, this`done, this`beforePassed
      ensures nodes == old(nodes)[n := Succeeded] && outputs == old(outputs)[n := Some(values)]
      ensures edges == Routed(setup.plan.graph, old(edges), n, Some(route))
      ensures done == old(done) + 1 && beforePassed == old(beforePassed) - {n}
    {
      nodes, outputs := nodes[n := Succeeded], outputs[n := Some(values)];
      ResolveOutgoing(n, Some(route));
      done, beforePassed := done + 1, beforePassed - {n};
    }

    /** The bookkeeping of a completion that succeeded: `completeNode`. */
    method CompleteNode(n: nat, values: Ports, route: string)
      requires Fits() && n < |setup.plan.nodes| && n in inflight && failures[n].None?
      modifies this`edges, this`nodes, this`outputs, this`done, this`running, this`inflight, this`beforePassed, this`info, this`pauseRequested
      ensures Snapshot() == Settling(setup, old(Snapshot()), n, Finished(values, route)) && running == |inflight|
    {
      ghost var s := Snapshot();
      Land(n);
      RecordCompletion(n, values, route);
      PauseAfter(n);
      SettlingFinished(setup, s, Snapshot(), n, values, route);
    }

    /** The bookkeeping of a failure that a policy handles. */
    method HandleFailure(n: nat, failure: Failure, defaults: Option<Ports>, route: string)
      requires Indexed(setup.plan.graph) && n < setup.plan.graph.size && |edges| == |setup.plan.graph.edges|
      requires n < |nodes| == |outputs| == |failures| && (defaults.None? ==> outputs[n].None?)
      modifies this`edges, this`nodes, this`outputs, this`failures, this`done, this`handledFailure
      ensures nodes == old(nodes)[n := Exception] && failures == old(failures)[n := Some(failure)] && handledFailure
      ensures outputs == old(outputs)[n := defaults] && done == old(done) + 1
      ensures edges == Routed(setup.plan.graph, old(edges), n, Some(route))
    {
      nodes, failures, handledFailure := nodes[n := Exception], failures[n := Some(failure)], true;
      assert outputs[n := outputs[n]] == outputs;
      if defaults.Some? {
        outputs := outputs[n := defaults];
      }
      ResolveOutgoing(n, Some(route));
      done := done + 1;
    }

    method CompleteRerouted(n: nat, failure: Failure)
      requires Fits() && n < |setup.plan.nodes| && n in inflight && outputs[n].None?
      modifies this`edges, this`nodes, this`outputs, this`failures, this`done, this`running, this`inflight, this`handledFailure
      ensures Snapshot() == Settling(setup, old(Snapshot()), n, Rerouted(failure)) && running == |inflight|
    {
      Land(n);
      assert outputs[n := None] == outputs;
      HandleFailure(n, failure, None, ERROR);
    }

    method CompleteDefaulted(n: nat, failure: Failure)
      requires Fits() && n < |setup.plan.nodes| && n in inflight && outputs[n].None?
      modifies this`edges, this`nodes, this`outputs, this`failures, this`done, this`running, this`inflight, this`handledFailure
      ensures Snapshot() == Settling(setup, old(Snapshot()), n, Defaulted(failure)) && running == |inflight|
    {
      Land(n);
      HandleFailure(n, failure, Some(setup.plan.nodes[n].defaults), SUCCESS);
    }

    /** A failure its node's policy handles, or does not: `completeFailedNode`. */
    method CompleteFailedNode(n: nat, failure: Failure) returns (handled: bool)
      requires Fits() && n < |setup.plan.nodes| && n in inflight && outputs[n].None?
      modifies this`edges, this`nodes, this`outputs, this`failures, this`done, this`running, this`inflight, this`handledFailure
      ensures handled <==> !setup.plan.nodes[n].policy.Stop?
      ensures handled ==> Snapshot() == Settling(setup, old(Snapshot()), n, Settle(setup.plan.nodes[n], Fail(failure)))
      ensures !handled ==> Snapshot() == old(Snapshot()).(nodes := old(nodes)[n := Failed], inflight := old(inflight) - {n})
      ensures running == |inflight|
    {
      match setup.plan.nodes[n].policy {
        case RouteError =>
          CompleteRerouted(n, failure);
          return true;
        case ContinueWithDefault =>
          CompleteDefaulted(n, failure);
          return true;
        case Stop =>
          Land(n);
          nodes := nodes[n := Failed];
          return false;
      }
    }

    /** `recordDynamicInterruption`. */
    method RecordInterruption(n: nat, sleeping: Plans.Paused)
      requires n < |nodes| && n in inflight && running == |inflight|
      modifies this`nodes, this`running, this`inflight, this`paused, this`info, this`pauseRequested
      ensures Snapshot() == Suspending(old(Snapshot()), n, sleeping) && running == |inflight|
    {
      Land(n);
      nodes, paused := nodes[n := Interrupted], paused[n := sleeping];
      info, pauseRequested := info.(contexts := info.contexts + sleeping.points), true;
    }

    /** `requestBeforeInterrupt`. */
    method RequestBeforeInterrupt()
      modifies this`beforePassed, this`info, this`pauseRequested
      ensures Snapshot() == Stopping(setup, old(Snapshot()))
    {
      var matched := CollectStops(setup, ready, beforePassed);
      beforePassed, info := beforePassed + (set n | n in matched), info.(before := info.before + matched);
      if matched != [] {
        pauseRequested := true;
      }
    }

    // -------------------------------------------------------------- Advancing

    method IncomingIsResolved(n: nat) returns (resolved: bool)
      requires Fits() && n < |setup.plan.nodes|
      ensures resolved <==> n != setup.plan.graph.start && IncomingResolved(setup.plan.graph, Snapshot(), n)
    {
      var g := setup.plan.graph;
      if n == g.start {
        return false;
      }
      var into := g.incoming[n];
      assert forall e: nat | e < |g.edges| && Into(g, n, e) :: e in into;
      for i := 0 to |into|
        invariant forall j | 0 <= j < i :: into[j] < |edges| && !edges[into[j]].EdgePending?
      {
        assert Into(g, n, into[i]);
        if edges[into[i]].EdgePending? {
          return false;
        }
      }
      return true;
    }

    method AnyIncomingIsTaken(n: nat) returns (taken: bool)
      requires Fits() && n < |setup.plan.nodes|
      ensures taken <==> AnyIncomingTaken(setup.plan.graph, Snapshot(), n)
    {
      var g := setup.plan.graph;
      var into := g.incoming[n];
      assert forall e: nat | e < |g.edges| && Into(g, n, e) :: e in into;
      for i := 0 to |into|
        invariant forall j | 0 <= j < i :: into[j] < |edges| && !edges[into[j]].EdgeTaken?
      {
        assert Into(g, n, into[i]);
        if edges[into[i]].EdgeTaken? {
          return true;
        }
      }
      return false;
    }

    method Queue(n: nat)
      requires Counted() && Begun(setup, Snapshot()) && n < |setup.plan.nodes| && nodes[n].Pending? && n != setup.plan.graph.start
      requires IncomingResolved(setup.plan.graph, Snapshot(), n) && AnyIncomingTaken(setup.plan.graph, Snapshot(), n)
      modifies this`nodes, this`ready
      ensures Counted() && Proceeds(setup, old(Snapshot()), Snapshot()) && !nodes[n].Pending?
    {
      ConsiderMarks(setup, Snapshot(), n);
      MarkReady(n);
    }

    method Skip(n: nat)
      requires Counted() && Begun(setup, Snapshot()) && n < |setup.plan.nodes| && nodes[n].Pending? && n != setup.plan.graph.start
      requires IncomingResolved(setup.plan.graph, Snapshot(), n) && !AnyIncomingTaken(setup.plan.graph, Snapshot(), n)
      modifies this`nodes, this`edges, this`done
      ensures Counted() && Proceeds(setup, old(Snapshot()), Snapshot()) && !nodes[n].Pending?
    {
      PendingIdle(setup, Snapshot(), n);
      ConsiderSkips(setup, Snapshot(), n);
      SkipNode(n);
    }

    /** What `advance` does with a node whose incoming edges are resolved. */
    method QueueOrSkip(n: nat)
      requires Counted() && Begun(setup, Snapshot()) && n < |setup.plan.nodes| && nodes[n].Pending?
      requires n != setup.plan.graph.start && IncomingResolved(setup.plan.graph, Snapshot(), n)
      modifies this`nodes, this`edges, this`done, this`ready
      ensures Counted() && Proceeds(setup, old(Snapshot()), Snapshot())
      ensures !nodes[n].Pending?
    {
      var taken := AnyIncomingIsTaken(n);
      if taken {
        Queue(n);
      } else {
        Skip(n);
      }
    }

    /** The body of the loop of `advance`. */
    method Consider(n: nat) returns (moved: bool)
      requires Counted() && Begun(setup, Snapshot()) && n < |setup.plan.nodes|
      modifies this`nodes, this`edges, this`done, this`ready
      ensures Counted() && Proceeds(setup, old(Snapshot()), Snapshot())
      ensures !moved ==> Snapshot() == old(Snapshot()) && Waits(setup, Snapshot(), n)
      ensures moved ==> old(nodes[n]).Pending? && !nodes[n].Pending?
    {
      if nodes[n] != Pending {
        return false;
      }
      var resolved := IncomingIsResolved(n);
      if !resolved {
        return false;
      }
      QueueOrSkip(n);
      return true;
    }

    /** A pass of `advance` has got to node `n`. */
    ghost predicate Passing(s: State, n: nat, progressed: bool)
      reads this
    {
      && Counted() && Proceeds(setup, s, Snapshot())
      && (!progressed ==> forall m: nat | m < n :: Waits(setup, Snapshot(), m))
      && (progressed ==> PendingNodes(Snapshot()) < PendingNodes(s))
    }

    method ConsiderNext(ghost s: State, n: nat, progressed: bool) returns (progressed': bool)
      requires Passing(s, n, progressed) && n < |nodes|
      modifies this`nodes, this`edges, this`done, this`ready
      ensures Passing(s, n + 1, progressed')
    {
      ghost var s' := Snapshot();
      var moved := Consider(n);
      ProceedsTrans(setup, s, s', Snapshot());
      assert moved ==> n in PendingNodes(s') && n !in PendingNodes(Snapshot());
      progressed' := progressed || moved;
    }

    /** One pass of `advance` over the nodes. */
    method AdvancePass() returns (progressed: bool)
      requires Counted() && Begun(setup, Snapshot())
      modifies this`nodes, this`edges, this`done, this`ready
      ensures Counted() && Proceeds(setup, old(Snapshot()), Snapshot())
      ensures !progressed ==> Quiescent(setup, Snapshot())
      ensures progressed ==> PendingNodes(Snapshot()) < old(PendingNodes(Snapshot()))
    {
      progressed := false;
      for n := 0 to |nodes|
        invariant Passing(old(Snapshot()), n, progressed) && |nodes| == old(|nodes|)
      {
        progressed := ConsiderNext(old(Snapshot()), n, progressed);
      }
    }

    /** `advance`: no node is left whose incoming edges are resolved. */
    method Advance()
      requires Counted() && Begun(setup, Snapshot())
      modifies this`nodes, this`edges, this`done, this`ready
      ensures Counted() && Proceeds(setup, old(Snapshot()), Snapshot())
      ensures Quiescent(setup, Snapshot())
    {
      var progressed := true;
      while progressed
        invariant Counted() && Proceeds(setup, old(Snapshot()), Snapshot())
        invariant !progressed ==> Quiescent(setup, Snapshot())
        decreases progressed, PendingNodes(Snapshot())
      {
        ghost var s := Snapshot();
        progressed := AdvancePass();
        ProceedsTrans(setup, old(Snapshot()), s, Snapshot());
      }
    }

    // -------------------------------------------------------------- Launching

    ghost predicate Tracked()
      reads this
    {
      Launches(Snapshot(), launches)
    }

    /** No node launched twice. */
    ghost predicate Once()
      reads this
    {
      Distinct(launches) && forall n <- launches :: n < |setup.plan.nodes|
    }

    /** A node leaves: on inputs that did not resolve, or to be invoked. */
    method Fly(n: nat, flight: Flight)
      requires n < |nodes| && n !in inflight && running == |inflight|
      modifies this`inflight, this`running, this`nodes, this`launches
      ensures inflight == old(inflight)[n := flight] && running == |inflight|
      ensures nodes == (if flight.Invoked? then old(nodes)[n := Running] else old(nodes))
      ensures launches == old(launches) + [n]
    {
      LargerMap(inflight, n, flight);
      inflight, running := inflight[n := flight], running + 1;
      if flight.Invoked? {
        nodes := nodes[n := Running];
      }
      launches := launches + [n];
    }

    /** `resurfacePausedNode`. */
    method Resurface(n: nat)
      requires n < |nodes| && n in paused
      modifies this`nodes, this`info, this`pauseRequested
      ensures Snapshot() == Resurfacing(old(Snapshot()), n)
    {
      nodes := nodes[n := Interrupted];
      info, pauseRequested := info.(contexts := info.contexts + paused[n].points), true;
    }

    method Wake(n: nat)
      requires n < |nodes| && n in paused && n !in inflight && running == |inflight|
      modifies this`inflight, this`running, this`nodes, this`paused, this`launches
      ensures Snapshot() == Waking(old(Snapshot()), n) && running == |inflight| && launches == old(launches) + [n]
    {
      var sleeping := paused[n];
      paused := paused - {n};
      Fly(n, Invoked(sleeping.inputs, Some(sleeping), false));
    }

    method Depart(n: nat)
      requires |nodes| == |setup.plan.nodes| && n < |nodes| && n !in inflight && running == |inflight|
      modifies this`inflight, this`running, this`nodes, this`launches
      ensures Snapshot() == Departing(setup, old(Snapshot()), n) && running == |inflight| && launches == old(launches) + [n]
    {
      var inputs := ResolveInputs(setup.world, ViewOf(setup, Snapshot()), setup.plan.nodes[n]);
      if inputs.None? {
        Fly(n, BadInputs);
      } else {
        Fly(n, Invoked(inputs.value, None, false));
      }
    }

    /** The body of the loop of `launchReady`. */
    method LaunchOne()
      requires ready != [] && HeadOf(setup, Snapshot(), ready[0]) && running == |inflight|
      modifies this`ready, this`nodes, this`inflight, this`running, this`paused, this`info, this`pauseRequested, this`launches
      ensures Snapshot() == Launched(setup, old(Snapshot())) && running == |inflight|
      ensures launches == old(launches) + (if Sleeps(old(Snapshot()), old(ready[0])) then [] else [old(ready[0])])
    {
      var n := ready[0];
      ready := ready[1..];
      if n !in paused {
        Depart(n);
      } else if Targeted(paused[n].points, targets) {
        Wake(n);
      } else {
        Resurface(n);
      }
    }

    /** `compiledSetVariable.Invoke`. */
    method Assign(n: nat)
      requires n < |setup.plan.nodes| && n in inflight && inflight[n].Invoked?
      modifies this`variables, this`inflight
      ensures Snapshot() == Assigned(setup, old(Snapshot()), n)
      ensures inflight == old(inflight)[n := old(inflight)[n].(written := true)]
    {
      variables := variables + Updates(setup.plan.nodes[n], inflight[n].inputs);
      inflight := inflight[n := inflight[n].(written := true)];
    }

    method WriteOne(n: nat)
      requires Counted() && Begun(setup, Snapshot()) && n in inflight && inflight[n].Invoked? && !inflight[n].written
      modifies this`variables, this`inflight
      ensures Counted() && Moves(setup, old(Snapshot()), Snapshot()) && inflight.Keys == old(inflight).Keys
      ensures n in inflight && inflight[n].Invoked? && inflight[n].written
      ensures Unwritten(inflight) < Unwritten(old(inflight))
    {
      AssignFrom(setup, Snapshot(), n);
      ghost var before := inflight;
      Assign(n);
      WrittenOne(before, n);
    }

    /** Setters in flight write at moments of their own. */
    method Writes()
      requires Counted() && Begun(setup, Snapshot())
      modifies this`variables, this`inflight
      ensures Counted() && Moves(setup, old(Snapshot()), Snapshot()) && inflight.Keys == old(inflight).Keys
    {
      var more: bool := *;
      while more
        invariant Counted() && Moves(setup, old(Snapshot()), Snapshot()) && inflight.Keys == old(inflight).Keys
        decreases Unwritten(inflight)
      {
        var n: nat := *;
        if n !in inflight || !inflight[n].Invoked? || inflight[n].written || !setup.plan.nodes[n].kind.SetVariable? {
          return;
        }
        ghost var s := Snapshot();
        WriteOne(n);
        MovesTrans(setup, old(Snapshot()), s, Snapshot());
        more := *;
      }
    }

    /** What has been launched besides was queued. */
    static ghost predicate Drawn(launches: seq<nat>, ready: seq<nat>, launches': seq<nat>) {
      forall n <- launches' :: n in launches || n in ready
    }

    method LaunchRound()
      requires Counted() && Begun(setup, Snapshot()) && Tracked() && ready != [] && running < setup.plan.maxConcurrency
      modifies this`ready, this`nodes, this`inflight, this`running, this`paused, this`info, this`pauseRequested, this`launches
      ensures Counted() && LaunchedSoFar(setup, old(Snapshot()), Snapshot()) && Tracked() && |ready| + 1 == |old(ready)|
      ensures Drawn(old(launches), old(ready), launches)
    {
      ghost var s := Snapshot();
      LaunchedSoFarOne(setup, s);
      LaunchesGrow(setup, s, Launched(setup, s), launches, ready[0]);
      LaunchOne();
    }

    /** A round of `launchReady` after the writes of the moment. */
    method LaunchNext(ghost s: State)
      requires Counted() && Tracked() && LaunchedSoFar(setup, s, Snapshot()) && ready != [] && running < setup.plan.maxConcurrency
      modifies this`ready, this`nodes, this`inflight, this`running, this`paused, this`info, this`pauseRequested, this`launches, this`variables
      ensures Counted() && Tracked() && LaunchedSoFar(setup, s, Snapshot()) && |ready| + 1 == |old(ready)|
      ensures Drawn(old(launches), old(ready), launches)
    {
      ghost var s' := Snapshot();
      Writes();
      ghost var s'' := Snapshot();
      LaunchRound();
      LaunchedSoFarTrans(setup, s', s'', Snapshot());
      LaunchedSoFarTrans(setup, s, s', Snapshot());
    }

    /** `launchReady`: when it is done nothing is in flight exactly if nothing was and the whole queue sleeps. */
    method LaunchReady()
      requires Counted() && Begun(setup, Snapshot()) && Tracked()
      modifies this`ready, this`nodes, this`inflight, this`running, this`paused, this`info, this`pauseRequested, this`launches, this`variables
      ensures Counted() && Moves(setup, old(Snapshot()), Snapshot()) && Tracked()
      ensures running == 0 <==> old(running) == 0 && forall n <- old(ready) :: Sleeps(old(Snapshot()), n)
      ensures ready == [] || running >= setup.plan.maxConcurrency
      ensures Drawn(old(launches), old(ready), launches)
    {
      while ready != [] && running < setup.plan.maxConcurrency
        invariant Counted() && Tracked() && LaunchedSoFar(setup, old(Snapshot()), Snapshot())
        invariant Drawn(old(launches), old(ready), launches)
        decreases |ready|
      {
        LaunchNext(old(Snapshot()));
      }
      assert ready == [] ==> old(ready)[..|old(ready)| - |ready|] == old(ready);
    }

    /** A setter that has yet to write does so before it completes. */
    method WriteIfSetter(n: nat)
      requires Counted() && Begun(setup, Snapshot()) && n in inflight
      modifies this`variables, this`inflight
      ensures Counted() && Moves(setup, old(Snapshot()), Snapshot())
      ensures n in inflight && n < |setup.plan.nodes| && WroteAlready(setup, Snapshot(), n)
    {
      assert n < |setup.plan.nodes|;
      if inflight[n].Invoked? && !inflight[n].written && setup.plan.nodes[n].kind.SetVariable? {
        WriteOne(n);
      } else {
        MovesNone(setup, Snapshot());
      }
    }

    /** Receives from the completions channel: any flight may be the next to land. */
    method Await() returns (n: nat)
      requires Counted() && Begun(setup, Snapshot()) && running > 0
      modifies this`variables, this`inflight
      ensures Counted() && Moves(setup, old(Snapshot()), Snapshot())
      ensures n in inflight && n < |setup.plan.nodes| && WroteAlready(setup, Snapshot(), n)
    {
      Writes();
      ghost var s := Snapshot();
      assert |inflight| > 0;
      n := Any(inflight);
      WriteIfSetter(n);
      MovesTrans(setup, old(Snapshot()), s, Snapshot());
    }

    // -------------------------------------------------------------- Completing

    /** Handles a received completion; the failure that ends the run, if it does. */
    method Complete(n: nat) returns (stopped: Option<Failure>)
      requires Fits() && n < |setup.plan.nodes| && n in inflight && outputs[n].None? && failures[n].None?
      requires Completion(setup, Snapshot(), n).0.Interrupt? ==> inflight[n].Invoked?
      modifies this`edges, this`nodes, this`outputs, this`failures, this`done, this`running, this`inflight, this`beforePassed,
               this`paused, this`info, this`pauseRequested, this`handledFailure
      ensures running == |inflight|
      ensures Reports(setup, old(Snapshot()), Snapshot(), n, stopped)
    {
      var (result, attempts) := Completion(setup, Snapshot(), n);
      match result {
        case Interrupt(points) =>
          RecordInterruption(n, Plans.Paused(inflight[n].inputs, attempts, points));
          return None;
        case Succeed(values, route) =>
          CompleteNode(n, values, route);
          return None;
        case Fail(failure) =>
          var handled := CompleteFailedNode(n, failure);
          return if handled then None else Some(failure);
      }
    }

    /** `drain`: the flights of a failed run are recorded as they land, cancelled or not, and open no edge. */
    method Drain()
      requires running == |inflight| && |nodes| == |outputs| && forall n <- inflight :: n < |nodes|
      modifies this`nodes, this`outputs, this`running, this`inflight
      ensures running == 0 && |nodes| == |old(nodes)| == |outputs|
      ensures forall m: nat | m < |nodes| && m !in old(inflight) :: nodes[m] == old(nodes)[m] && outputs[m] == old(outputs)[m]
      ensures forall m <- old(inflight) :: nodes[m].Succeeded? || nodes[m].Failed?
    {
      while running > 0
        invariant running == |inflight| && |nodes| == |old(nodes)| == |outputs| && inflight.Keys <= old(inflight).Keys
        invariant forall m: nat | m < |nodes| && m !in old(inflight) :: nodes[m] == old(nodes)[m] && outputs[m] == old(outputs)[m]
        invariant forall m <- old(inflight) :: m < |nodes| && (m in inflight || nodes[m].Succeeded? || nodes[m].Failed?)
        decreases running
      {
        var n := Any(inflight);
        var succeeded: bool, values: Ports := *, *;
        Land(n);
        if succeeded {
          nodes, outputs := nodes[n := Succeeded], outputs[n := Some(values)];
        } else {
          nodes := nodes[n := Failed];
        }
      }
    }

    // -------------------------------------------------------------- The run

    /** How a run that started from `s` may end. */
    ghost predicate Ended(s: State, r: RunResult)
      reads this
    {
      match r
      case Completed(outs, partial) =>
        && Counted() && Keeps(setup, s, Snapshot()) && done == |setup.plan.nodes|
        && outs == outputs[setup.plan.graph.end] && partial == handledFailure
      case Stopped(n, failure) =>
        && Halting(setup, s, n, failure) && n < |nodes| && nodes[n].Failed?
        && running == 0 && forall m: nat | m < |nodes| :: !nodes[m].Running?
      case Paused(why, checkpoint) =>
        && Counted() && Keeps(setup, s, Snapshot()) && inflight == map[] && pauseRequested
        && why == info != NO_INFO && checkpoint == Save(setup, Snapshot()) && (s.paused == map[] ==> NoneQueued(Snapshot()))
        && (Quiet(setup.world) && Agrees(setup, s) ==> Falls(s, Snapshot()) && !NoBreakpoints(setup.plan))
        && (setup.plan.maxConcurrency == 1 && AllAnswered(s) ==> Alone(Snapshot()))
      case NoProgress => LeftAsleep(setup, s)
      case NoContext => false
    }

    /** `finishInterrupted`: a drained run always has a context to report, and what it saves loads exactly when it has
        dealt with every suspended node. */
    method FinishInterrupted(ghost s: State) returns (r: RunResult)
      requires Counted() && running == 0 && pauseRequested && Going(setup, s, Snapshot())
      ensures r.Paused? && Ended(s, r)
      ensures Minted(setup, s) ==> (Loads(setup, r.info, r.checkpoint) <==> NoneQueued(Snapshot()))
    {
      if info == NO_INFO {
        return NoContext;
      }
      if Minted(setup, s) {
        LoadsExactly(setup, Snapshot());
      }
      r := RunResult.Paused(info, Save(setup, Snapshot()));
    }

    /** How the run has dealt with breakpoints so far. */
    ghost predicate Heeding(s: State)
      reads this
    {
      Heeds(setup, s, Snapshot(), launches)
    }

    /** How a run that has ended has dealt with breakpoints: nothing behind one was launched, a run that pauses reports
        those it has come to, and one that completes has come to none. */
    ghost predicate Heeded(s: State, r: RunResult)
      reads this
    {
      && HeldBefore(setup, s, launches)
      && (!r.Stopped? ==> BeforeTold(setup, s, Snapshot()) && AfterTold(setup, s, Snapshot()))
      && (r.Completed? ==> info == NO_INFO)
    }

    /** Between two rounds of the run loop. */
    ghost predicate Looping(s: State)
      reads this
    {
      && Heeding(s) && Counted() && Tracked() && Going(setup, s, Snapshot()) && Informs(setup.world) && Fueled(setup, s, Snapshot())
      && (!pauseRequested ==> Quiescent(setup, Snapshot()))
    }

    /** Launches what is ready, no breakpoint being ahead. */
    method LaunchAll(ghost s: State) returns (stalled: bool)
      requires Looping(s) && !pauseRequested && done != |setup.plan.nodes| && Stops(setup, ready, beforePassed) == []
      modifies this`ready, this`nodes, this`inflight, this`running, this`paused, this`info, this`pauseRequested, this`launches, this`variables
      ensures Heeding(s) && Counted() && Tracked() && Going(setup, s, Snapshot()) && Live(Snapshot()) <= old(Live(Snapshot()))
      ensures stalled <==> old(inflight) == map[] && forall n <- old(ready) :: Sleeps(old(Snapshot()), n)
      ensures if stalled then LeftAsleep(setup, s) else running > 0 && Full(setup, Snapshot())
    {
      ghost var s' := Snapshot();
      LaunchReady();
      MovesOn(setup, s, s', Snapshot(), old(launches), launches);
      stalled := running == 0;
      if stalled {
        StuckAsleep(setup, s, s');
      }
    }

    /** Stops for the before-breakpoints of ready nodes, or launches what is ready. */
    method LaunchOrStop(ghost s: State) returns (stalled: bool)
      requires Looping(s) && !pauseRequested && done != |setup.plan.nodes|
      modifies this`ready, this`nodes, this`inflight, this`running, this`paused, this`info, this`pauseRequested, this`launches,
               this`variables, this`beforePassed
      ensures Heeding(s) && Counted() && Tracked() && Going(setup, s, Snapshot()) && Live(Snapshot()) <= old(Live(Snapshot()))
      ensures stalled <==> Standstill(setup, old(Snapshot()))
      ensures stalled ==> LeftAsleep(setup, s)
      ensures !stalled && running == 0 ==> pauseRequested
      ensures !stalled ==> Full(setup, Snapshot())
    {
      GoingStops(setup, s, Snapshot());
      HeedsStops(setup, s, Snapshot(), launches);
      RequestBeforeInterrupt();
      if pauseRequested {
        return false;
      }
      assert Snapshot() == old(Snapshot());
      stalled := LaunchAll(s);
    }

    /** The first half of a round: the run ends, or something is in flight. */
    method Prepare(ghost s: State) returns (r: Option<RunResult>)
      requires Looping(s)
      modifies this`ready, this`nodes, this`inflight, this`running, this`paused, this`info, this`pauseRequested, this`launches,
               this`variables, this`beforePassed
      ensures r.Some? ==> Ended(s, r.value) && Heeded(s, r.value) && Once()
      ensures r.None? ==> Busy(s) && running > 0 && Live(Snapshot()) <= old(Live(Snapshot()))
    {
      r := None;
      if pauseRequested && running == 0 {
        var finished := FinishInterrupted(s);
        return Some(finished);
      }
      if done == |setup.plan.nodes| {
        NoneFlying(setup, Snapshot());
        return Some(Completed(outputs[setup.plan.graph.end], handledFailure));
      }
      if !pauseRequested {
        r := LaunchOrEnd(s);
      }
    }

    method LaunchOrEnd(ghost s: State) returns (r: Option<RunResult>)
      requires Looping(s) && !pauseRequested && done != |setup.plan.nodes|
      modifies this`ready, this`nodes, this`inflight, this`running, this`paused, this`info, this`pauseRequested, this`launches,
               this`variables, this`beforePassed
      ensures r.Some? ==> Ended(s, r.value) && Heeded(s, r.value) && Once()
      ensures r.None? ==> Busy(s) && running > 0 && Live(Snapshot()) <= old(Live(Snapshot()))
    {
      var stalled := LaunchOrStop(s);
      if stalled {
        return Some(NoProgress);
      }
      if running == 0 {
        var finished := FinishInterrupted(s);
        return Some(finished);
      }
      return None;
    }

    /** While something is in flight. */
    ghost predicate Busy(s: State)
      reads this
    {
      Heeding(s) && Counted() && Tracked() && Going(setup, s, Snapshot()) && Informs(setup.world) && Full(setup, Snapshot())
    }

    /** A flight that is about to report. */
    ghost predicate Reporting(n: nat)
      reads this
    {
      && n in inflight && n < |setup.plan.nodes| && Shape(setup, Snapshot()) && WroteAlready(setup, Snapshot(), n)
    }

    /** After a completion that lets the run go on. */
    ghost predicate Landed(s: State)
      reads this
    {
      Heeding(s) && Counted() && Tracked() && Going(setup, s, Snapshot()) && Informs(setup.world) && Fueled(setup, s, Snapshot())
    }

    /** After a completion that ends the run: what runs is in flight still. */
    ghost predicate Failing(n: nat)
      reads this
    {
      && Counted() && |nodes| == |outputs| && n < |nodes| && nodes[n].Failed? && n !in inflight
      && (forall m <- inflight :: m < |nodes|) && forall m: nat | m < |nodes| && nodes[m].Running? :: m in inflight
    }

    method AwaitOne(ghost s: State) returns (n: nat)
      requires Busy(s) && running > 0
      modifies this`variables, this`inflight
      ensures Busy(s) && Reporting(n) && Live(Snapshot()) <= old(Live(Snapshot()))
    {
      ghost var s' := Snapshot();
      n := Await();
      MovesOn(setup, s, s', Snapshot(), launches, launches);
      FullMoves(setup, s', Snapshot());
    }

    /** Handles the completion of node `n`: the run goes on, or it ends with the failure of that node. */
    method Receive(ghost s: State, n: nat) returns (stopped: Option<Failure>)
      requires Busy(s) && Reporting(n)
      modifies this`edges, this`nodes, this`outputs, this`failures, this`done, this`running, this`inflight, this`beforePassed,
               this`paused, this`info, this`pauseRequested, this`handledFailure
      ensures stopped.None? ==> Landed(s) && Live(Snapshot()) < old(Live(Snapshot()))
      ensures HeldBefore(setup, s, launches)
      ensures stopped.Some? ==> Halting(setup, s, n, stopped.value) && Failing(n)
      ensures Lands(old(Snapshot()), Snapshot(), n)
    {
      ghost var s' := Snapshot();
      FlightOf(setup, s', n);
      stopped := Complete(n);
      ReceivedOn(setup, s, s', Snapshot(), n, stopped, launches);
    }

    /** The failure of a node ends the run once every flight has landed. */
    method Halt(ghost s: State, n: nat, ghost failure: Failure)
      requires Halting(setup, s, n, failure) && Failing(n) && HeldBefore(setup, s, launches)
      modifies this`nodes, this`outputs, this`running, this`inflight
      ensures Ended(s, Stopped(n, failure)) && Heeded(s, Stopped(n, failure))
    {
      Drain();
    }

    /** The second half of a round: a completion arrives, and the run advances unless it is pausing. */
    method Handle(ghost s: State, n: nat) returns (r: Option<RunResult>)
      requires Busy(s) && Reporting(n)
      modifies this
      ensures Once()
      ensures r.Some? ==> Ended(s, r.value) && Heeded(s, r.value)
      ensures r.None? ==> Looping(s) && Live(Snapshot()) < old(Live(Snapshot()))
    {
      var stopped := Receive(s, n);
      if stopped.Some? {
        Halt(s, n, stopped.value);
        return Some(Stopped(n, stopped.value));
      }
      if !pauseRequested {
        AdvanceOn(s);
      }
      return None;
    }

    /** The run goes on from what the completion has resolved. */
    method AdvanceOn(ghost s: State)
      requires Landed(s) && !pauseRequested
      modifies this`nodes, this`edges, this`done, this`ready
      ensures Looping(s) && Live(Snapshot()) <= old(Live(Snapshot()))
    {
      ghost var s' := Snapshot();
      Advance();
      GoingAdvances(setup, s, s', Snapshot());
      FueledAdvances(setup, s, s', Snapshot());
      LaunchesAdvance(s', Snapshot(), launches);
      HeedsAdvances(setup, s, s', Snapshot(), launches);
    }

    /** One round of the run loop. */
    method Round(ghost s: State) returns (r: Option<RunResult>)
      requires Looping(s)
      modifies this
      ensures Once()
      ensures r.Some? ==> Ended(s, r.value) && Heeded(s, r.value)
      ensures r.None? ==> Looping(s) && Live(Snapshot()) < old(Live(Snapshot()))
    {
      r := Prepare(s);
      if r.Some? {
        return;
      }
      var n := AwaitOne(s);
      r := Handle(s, n);
    }

    /** A fresh run queues Start, a resumed one goes on from what its checkpoint has resolved. */
    method Begin(resumed: bool)
      requires Admitted(setup) && Informs(setup.world) && launches == [] && running == 0
      requires if resumed then Startable(setup, Snapshot()) else Snapshot() == Initial(setup)
      modifies this`nodes, this`edges, this`done, this`ready
      ensures Looping(old(Snapshot()))
    {
      ghost var s := Snapshot();
      if resumed {
        HeedsNothing(setup, s);
        Advance();
        GoingAdvances(setup, s, s, Snapshot());
        HeedsAdvances(setup, s, s, Snapshot(), []);
      } else {
        GoingStarts(setup);
        HeedsStart(setup, s, setup.plan.graph.start);
        MarkReady(setup.plan.graph.start);
      }
    }

    /** `execution.run`, of a fresh run or a resumed one: it always ends, launches nothing behind a breakpoint that has not
        been passed, and launches each node at most once, so the completions channel, with room for every node, never
        blocks a sender. */
    method Run(resumed: bool) returns (r: RunResult)
      requires Admitted(setup) && Informs(setup.world)
      requires launches == [] && running == 0
      requires if resumed then Startable(setup, Snapshot()) else Snapshot() == Initial(setup)
      modifies this
      ensures Ended(old(Snapshot()), r) && Heeded(old(Snapshot()), r)
      ensures Once() && |launches| <= |setup.plan.nodes|
    {
      ghost var s := Snapshot();
      Begin(resumed);
      var ended: Option<RunResult> := None;
      while ended.None?
        invariant ended.None? ==> Looping(s)
        invariant ended.Some? ==> Ended(s, ended.value) && Heeded(s, ended.value)
        invariant Once()
        decreases ended.None?, Live(Snapshot())
      {
        ended := Round(s);
      }
      DistinctFits(launches, |setup.plan.nodes|);
      return ended.value;
    }
  }
}
