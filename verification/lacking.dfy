/** Which nodes can lack inputs, and what that can lead to: a node bound to its own output never completes, and a
    SetVariable node fails only for want of inputs (workflow/loop_control.go, workflow/runner_invoke.go). */
module Lacking {
  import opened Graphs
  import opened Topology
  import opened Options
  import opened Plans
  import opened Acceptance
  import opened Evaluation
  import opened Guarantees
  import opened Scheduler
  import opened Agreement
  import opened Availability

  /** The inputs of an accepted node can be missing only if it is bound to its own output, or looks into a value. */
  ghost predicate MayLack(node: Node, n: nat) {
    BoundToItself(node, n) || exists name <- node.bindings :: node.bindings[name].path != []
  }

  /** What has been invoked had its inputs. */
  ghost predicate FedRight(c: Setup, s: State, n: nat)
    requires n < |c.plan.nodes| == |s.nodes|
  {
    n in s.paused || (n in s.inflight && s.inflight[n].Invoked?) || s.nodes[n].Succeeded? ==> !BoundToItself(c.plan.nodes[n], n)
  }

  ghost predicate SetterRight(c: Setup, s: State, n: nat)
    requires n < |c.plan.nodes| == |s.nodes|
  {
    c.plan.nodes[n].kind.SetVariable? ==>
      && n !in s.paused
      && (n in s.inflight ==> if s.inflight[n].BadInputs? then MayLack(c.plan.nodes[n], n) else s.inflight[n].resume.None?)
      && (s.nodes[n].Exception? ==> MayLack(c.plan.nodes[n], n))
  }

  ghost predicate LackRight(c: Setup, s: State, n: nat)
    requires n < |c.plan.nodes| == |s.nodes|
  {
    FedRight(c, s, n) && SetterRight(c, s, n)
  }

  ghost predicate LacksRight(c: Setup, s: State) {
    && Accepted(c.world, c.plan) && |s.nodes| == |c.plan.nodes|
    && forall n: nat | n < |c.plan.nodes| :: LackRight(c, s, n)
  }

  lemma InitialLacks(c: Setup)
    requires Accepted(c.world, c.plan)
    ensures LacksRight(c, Initial(c))
  {}

  /** A step that neither launches, suspends, completes nor fails node `n`. */
  ghost predicate Leaves(s: State, s': State, n: nat)
    requires n < |s.nodes| == |s'.nodes|
  {
    && (n in s'.paused ==> n in s.paused)
    && (n in s'.inflight ==> n in s.inflight && (s'.inflight[n].BadInputs? <==> s.inflight[n].BadInputs?)
                             && (s.inflight[n].Invoked? ==> s'.inflight[n].resume == s.inflight[n].resume))
    && (s'.nodes[n].Exception? ==> s.nodes[n].Exception?) && (s'.nodes[n].Succeeded? ==> s.nodes[n].Succeeded?)
  }

  lemma LacksKept(c: Setup, s: State, s': State)
    requires LacksRight(c, s) && |s'.nodes| == |s.nodes|
    requires forall n: nat | n < |s.nodes| :: Leaves(s, s', n) || LackRight(c, s', n)
    ensures LacksRight(c, s')
  {
    forall n: nat | n < |c.plan.nodes| ensures LackRight(c, s', n) {
      assert LackRight(c, s, n);
    }
  }

  lemma MarkedLacks(c: Setup, s: State, n: nat)
    requires LacksRight(c, s) && n < |s.nodes|
    ensures LacksRight(c, Marked(s, n))
  {
    LacksKept(c, s, Marked(s, n));
  }

  lemma StoppingLacks(c: Setup, s: State)
    requires LacksRight(c, s)
    ensures LacksRight(c, Stopping(c, s))
  {
    LacksKept(c, s, Stopping(c, s));
  }

  lemma AssignedLacks(c: Setup, s: State, n: nat)
    requires LacksRight(c, s) && n < |s.nodes| && n in s.inflight && s.inflight[n].Invoked?
    ensures LacksRight(c, Assigned(c, s, n))
  {
    LacksKept(c, s, Assigned(c, s, n));
  }

  lemma SkippedLacks(c: Setup, s: State, n: nat)
    requires LacksRight(c, s) && Shape(c, s) && n < |c.plan.nodes|
    ensures LacksRight(c, Settling(c, s, n, Bypassed))
  {
    LacksKept(c, s, Settling(c, s, n, Bypassed));
  }

  // ---------------------------------------------------------------- Launching

  lemma DepartingLacks(c: Setup, s: State, rest: State, n: nat)
    requires LacksRight(c, s) && rest == s.(ready := rest.ready) && n < |s.nodes| && s.nodes[n].Ready? && n !in s.paused
    requires var r := ResolveInputs(c.world, ViewOf(c, s), c.plan.nodes[n]);
             if r.None? then MayLack(c.plan.nodes[n], n) else !BoundToItself(c.plan.nodes[n], n)
    ensures LacksRight(c, Departing(c, rest, n))
  {
    var s' := Departing(c, rest, n);
    assert LackRight(c, s, n) && ViewOf(c, rest) == ViewOf(c, s);
    assert forall m: nat | m < |s.nodes| && m != n :: Leaves(s, s', m);
    assert LackRight(c, s', n);
    LacksKept(c, s, s');
  }

  lemma WakingLacks(c: Setup, s: State, rest: State, n: nat)
    requires LacksRight(c, s) && rest == s.(ready := rest.ready) && n < |s.nodes| && n in s.paused
    ensures LacksRight(c, Waking(rest, n))
  {
    var s' := Waking(rest, n);
    assert LackRight(c, s, n) && LackRight(c, s', n);
    assert forall m: nat | m < |s.nodes| && m != n :: Leaves(s, s', m);
    LacksKept(c, s, s');
  }

  lemma ResurfacingLacks(c: Setup, s: State, rest: State, n: nat)
    requires LacksRight(c, s) && rest == s.(ready := rest.ready) && n < |s.nodes| && n in s.paused
    ensures LacksRight(c, Resurfacing(rest, n))
  {
    LacksKept(c, s, Resurfacing(rest, n));
  }

  lemma LacksOnly(c: Setup, s: State, n: nat)
    requires Accepted(c.world, c.plan) && Begun(c, s) && n < |c.plan.nodes| && s.nodes[n].Ready?
    ensures var r := ResolveInputs(c.world, ViewOf(c, s), c.plan.nodes[n]);
            if r.None? then MayLack(c.plan.nodes[n], n) else !BoundToItself(c.plan.nodes[n], n)
  {
    var node := c.plan.nodes[n];
    if BoundToItself(node, n) {
      var name :| name in node.bindings && node.bindings[name].source.NodeOutput? && node.bindings[name].source.node == n;
      SelfUnusable(c, s, n, name);
    } else if !MayLack(node, n) {
      InputsResolve(c, s, n);
    }
  }

  lemma LaunchedLacks(c: Setup, s: State)
    requires Begun(c, s) && LacksRight(c, s) && s.ready != []
    ensures s.ready[0] < |c.plan.nodes| && LacksRight(c, Launched(c, s))
  {
    QueueHead(c, s);
    var n, rest := s.ready[0], Pop(s);
    if n !in s.paused {
      LacksOnly(c, s, n);
      DepartingLacks(c, s, rest, n);
    } else if Targeted(s.paused[n].points, s.targets) {
      WakingLacks(c, s, rest, n);
    } else {
      ResurfacingLacks(c, s, rest, n);
    }
  }

  // ---------------------------------------------------------------- Completing

  /** A SetVariable node that got its inputs succeeds at the first attempt. */
  lemma SetterSucceeds(c: Setup, s: State, n: nat)
    requires n < |c.plan.nodes| && n in s.inflight && c.plan.nodes[n].kind.SetVariable?
    requires s.inflight[n].Invoked? && s.inflight[n].resume.None?
    ensures Completion(c, s, n).0 == Succeed(map[], SUCCESS)
  {}

  lemma SettlingLacks(c: Setup, s: State, n: nat, o: Outcome)
    requires LacksRight(c, s) && Shape(c, s) && n < |c.plan.nodes| && n in s.inflight
    requires o == Settle(c.plan.nodes[n], Completion(c, s, n).0)
    ensures LacksRight(c, Settling(c, s, n, o))
  {
    var s' := Settling(c, s, n, o);
    assert LackRight(c, s, n);
    if c.plan.nodes[n].kind.SetVariable? && s.inflight[n].Invoked? {
      SetterSucceeds(c, s, n);
    }
    assert forall m: nat | m < |s.nodes| && m != n :: Leaves(s, s', m);
    assert LackRight(c, s', n);
    LacksKept(c, s, s');
  }

  lemma SuspendingLacks(c: Setup, s: State, n: nat, paused: Paused)
    requires LacksRight(c, s) && n < |c.plan.nodes| && n in s.inflight && s.inflight[n].Invoked? && Completion(c, s, n).0.Interrupt?
    ensures LacksRight(c, Suspending(s, n, paused))
  {
    var s' := Suspending(s, n, paused);
    assert LackRight(c, s, n);
    if c.plan.nodes[n].kind.SetVariable? {
      SetterSucceeds(c, s, n);
    }
    assert forall m: nat | m < |s.nodes| && m != n :: Leaves(s, s', m);
    LacksKept(c, s, s');
  }

  /** Restoring a checkpoint changes none of this. */
  lemma SameLacks(c: Setup, s: State, s': State)
    requires LacksRight(c, s) && s'.nodes == s.nodes && s'.paused == s.paused && s'.inflight == map[]
    ensures LacksRight(c, s')
  {
    LacksKept(c, s, s');
  }
}
