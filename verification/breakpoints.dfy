/** Static breakpoints: a run invokes no node behind a breakpoint that has not been passed, and reports exactly the
    breakpoints it has come to (workflow/runner_execution.go). */
module Breakpoints {
  import opened Graphs
  import opened Topology
  import opened Options
  import opened Plans
  import opened Acceptance
  import opened Evaluation
  import opened Guarantees
  import opened Scheduler
  import opened Agreement
  import opened Alignment
  import opened Lacking
  import opened Progress

  /** Every node launched that has a before-breakpoint had passed it when the run began. */
  ghost predicate HeldBefore(c: Setup, s: State, launches: seq<nat>) {
    forall n <- launches :: n in c.plan.before ==> n in s.beforePassed
  }

  /** What is reported before waits in the queue, its breakpoint passed for the next run. */
  ghost predicate BeforeTold(c: Setup, s: State, s': State) {
    && (forall n <- s'.info.before :: n in c.plan.before && n !in s.beforePassed && n in s'.beforePassed && n in s'.ready)
    && (s'.info.before == [] ==> s'.beforePassed <= s.beforePassed)
    && (forall n <- s.beforePassed :: n in s'.beforePassed || (n < |s'.nodes| && s'.nodes[n].Succeeded?))
  }

  /** What is reported after is what has completed since the run began and has an after-breakpoint. */
  ghost predicate AfterTold(c: Setup, s: State, s': State) {
    && |s'.nodes| == |s.nodes|
    && (forall n <- s'.info.after :: n < |s'.nodes|) && (forall n: nat | n < |s.nodes| && s.nodes[n].Succeeded? :: s'.nodes[n].Succeeded?)
    && (forall n: nat | n < |s'.nodes| :: n in s'.info.after <==> n in c.plan.after && s'.nodes[n].Succeeded? && !s.nodes[n].Succeeded?)
  }

  /** How a run that started from `s` has dealt with breakpoints by `s'`. */
  ghost predicate Heeds(c: Setup, s: State, s': State, launches: seq<nat>) {
    HeldBefore(c, s, launches) && BeforeTold(c, s, s') && AfterTold(c, s, s')
  }

  lemma HeedsNothing(c: Setup, s: State)
    requires s.info == NO_INFO
    ensures Heeds(c, s, s, [])
  {}

  lemma HeedsStart(c: Setup, s: State, n: nat)
    requires s.info == NO_INFO && n < |s.nodes| && s.nodes[n].Pending?
    ensures Heeds(c, s, Marked(s, n), [])
  {}

  lemma HeldMoves(c: Setup, s: State, s': State, launches: seq<nat>, launches': seq<nat>)
    requires HeldBefore(c, s, launches) && s'.beforePassed <= s.beforePassed && Stops(c, s'.ready, s'.beforePassed) == []
    requires forall n <- launches' :: n in launches || n in s'.ready
    ensures HeldBefore(c, s, launches')
  {
    StopsExactly(c, s'.ready, s'.beforePassed);
    forall n <- launches' | n in c.plan.before ensures n in s.beforePassed {
      assert n !in Stops(c, s'.ready, s'.beforePassed);
    }
  }

  lemma BeforeMoves(c: Setup, s: State, s': State, s'': State)
    requires BeforeTold(c, s, s') && s''.info.before == s'.info.before && s''.beforePassed == s'.beforePassed
    requires s'.info.before != [] ==> s''.ready == s'.ready
    requires |s''.nodes| == |s'.nodes| && forall m: nat | m < |s'.nodes| :: s''.nodes[m].Succeeded? <==> s'.nodes[m].Succeeded?
    ensures BeforeTold(c, s, s'')
  {}

  lemma AfterMoves(c: Setup, s: State, s': State, s'': State)
    requires AfterTold(c, s, s') && s''.info.after == s'.info.after
    requires |s''.nodes| == |s'.nodes| && forall m: nat | m < |s'.nodes| :: s''.nodes[m].Succeeded? <==> s'.nodes[m].Succeeded?
    ensures AfterTold(c, s, s'')
  {}

  /** Launching: nothing while a pause is requested, and only when the queue has no breakpoint ahead. */
  lemma HeedsMoves(c: Setup, s: State, s': State, s'': State, launches: seq<nat>, launches': seq<nat>)
    requires Heeds(c, s, s', launches) && Untold(s', s'') && s''.beforePassed == s'.beforePassed
    requires (s'.pauseRequested <==> s'.info != NO_INFO) && (s'.pauseRequested ==> s''.ready == s'.ready)
    requires launches' == launches
             || (!s'.pauseRequested && Stops(c, s'.ready, s'.beforePassed) == [] && forall n <- launches' :: n in launches || n in s'.ready)
    ensures Heeds(c, s, s'', launches')
  {
    BeforeMoves(c, s, s', s'');
    AfterMoves(c, s, s', s'');
    if launches' != launches {
      HeldMoves(c, s, s', launches, launches');
    }
  }

  lemma HeedsStops(c: Setup, s: State, s': State, launches: seq<nat>)
    requires Heeds(c, s, s', launches) && Inv(c, s') && s'.info.before == []
    ensures Heeds(c, s, Stopping(c, s'), launches)
  {
    StopsExactly(c, s'.ready, s'.beforePassed);
    forall n <- Stops(c, s'.ready, s'.beforePassed) ensures n !in s.beforePassed {
      assert NodeRight(c, s', n);
    }
  }

  lemma HeedsSuspends(c: Setup, s: State, s': State, n: nat, paused: Plans.Paused, launches: seq<nat>)
    requires Heeds(c, s, s', launches) && Inv(c, s') && n < |s'.nodes| && n in s'.inflight
    ensures Heeds(c, s, Suspending(s', n, paused), launches)
  {
    assert NodeRight(c, s', n);
  }

  lemma HeedsSettles(c: Setup, s: State, s': State, n: nat, o: Outcome, launches: seq<nat>)
    requires Heeds(c, s, s', launches) && Inv(c, s') && n < |c.plan.nodes| && n in s'.inflight && !o.Bypassed? && !o.Suspended? && !o.Halted?
    ensures Heeds(c, s, Settling(c, s', n, o), launches)
  {
    assert NodeRight(c, s', n);
  }

  /** A completion that lets the run go on. */
  lemma HeedsReports(c: Setup, s: State, s': State, s'': State, n: nat, stopped: Option<Failure>, launches: seq<nat>)
    requires Heeds(c, s, s', launches) && Inv(c, s') && Informs(c.world) && n < |c.plan.nodes| && n in s'.inflight
    requires (Completion(c, s', n).0.Interrupt? ==> s'.inflight[n].Invoked?) && Reports(c, s', s'', n, stopped)
    ensures stopped.None? ==> Heeds(c, s, s'', launches)
  {
    CompletionSettles(c, s', n);
    var o := Settle(c.plan.nodes[n], Completion(c, s', n).0);
    if o.Suspended? {
      HeedsSuspends(c, s, s', n, Sleeping(c, s', n), launches);
    } else if !o.Halted? {
      HeedsSettles(c, s, s', n, o, launches);
    }
  }

  lemma HeedsAdvances(c: Setup, s: State, s': State, s'': State, launches: seq<nat>)
    requires Heeds(c, s, s', launches) && AdvancedFrom(s', s'')
    ensures Heeds(c, s, s'', launches)
  {}

  // ---------------------------------------------------------------- With what else the run loop keeps

  lemma MovesOn(c: Setup, s: State, s': State, s'': State, launches: seq<nat>, launches': seq<nat>)
    requires Going(c, s, s') && Heeds(c, s, s', launches) && Moves(c, s', s'') && (s'.pauseRequested ==> s''.ready == s'.ready)
    requires launches' == launches
             || (!s'.pauseRequested && Stops(c, s'.ready, s'.beforePassed) == [] && forall n <- launches' :: n in launches || n in s'.ready)
    ensures Going(c, s, s'') && Heeds(c, s, s'', launches') && Live(s'') <= Live(s')
    ensures Quiescent(c, s') ==> Quiescent(c, s'')
  {
    GoingMoves(c, s, s', s'');
    HeedsMoves(c, s, s', s'', launches, launches');
  }

  lemma ReceivedOn(c: Setup, s: State, s': State, s'': State, n: nat, stopped: Option<Failure>, launches: seq<nat>)
    requires Going(c, s, s') && Informs(c.world) && n in s'.inflight && n < |c.plan.nodes| && WroteAlready(c, s', n)
    requires (Completion(c, s', n).0.Interrupt? ==> s'.inflight[n].Invoked?) && Reports(c, s', s'', n, stopped)
    requires Launches(s', launches) && Heeds(c, s, s', launches) && Full(c, s')
    ensures Lands(s', s'', n) && Launches(s'', launches)
    ensures stopped.None? ==> Going(c, s, s'') && Live(s'') < Live(s') && Heeds(c, s, s'', launches) && Fueled(c, s, s'')
    ensures stopped.Some? ==> Halting(c, s, n, stopped.value) && n < |s''.nodes| && s''.nodes[n].Failed?
    ensures stopped.Some? ==> forall m: nat | m < |s''.nodes| && s''.nodes[m].Running? :: m in s''.inflight
  {
    Received(c, s, s', s'', n, stopped, launches);
    HeedsReports(c, s, s', s'', n, stopped, launches);
    FullReports(c, s, s', s'', n);
    if stopped.Some? {
      ReportHalts(c, s, s', s'', n, stopped.value);
      HaltedFly(c, s', s'', n, stopped);
    }
  }

  /** What runs when a failure ends the run is in flight. */
  lemma HaltedFly(c: Setup, s: State, s': State, n: nat, stopped: Option<Failure>)
    requires Inv(c, s) && Informs(c.world) && n in s.inflight && n < |c.plan.nodes| && stopped.Some?
    requires (Completion(c, s, n).0.Interrupt? ==> s.inflight[n].Invoked?) && Reports(c, s, s', n, stopped)
    ensures forall m: nat | m < |s'.nodes| && s'.nodes[m].Running? :: m in s'.inflight
  {
    forall m: nat | m < |s.nodes| && s.nodes[m].Running? ensures m in s.inflight {
      assert NodeRight(c, s, m);
    }
  }

  /** When every node has settled nothing is in flight. */
  lemma NoneFlying(c: Setup, s: State)
    requires Inv(c, s) && s.done == |c.plan.nodes|
    ensures s.inflight == map[]
  {
    AllSettled(c, s);
    forall n: nat | n < |c.plan.nodes| ensures n !in s.inflight {
      assert NodeRight(c, s, n);
    }
  }
}
