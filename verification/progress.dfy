/** Why a run moves on, and why it stops: the measures of the run loop and of a run that is resumed again and
    again (workflow/runner_execution.go). */
module Progress {
  import opened Graphs
  import opened Topology
  import opened Options
  import opened Plans
  import opened Acceptance
  import opened Evaluation
  import opened Guarantees
  import opened Scheduler
  import opened Agreement
  import opened Alignment
  import opened Lacking

  // ---------------------------------------------------------------- Progress

  /** Nothing waits for `advance`. */
  ghost predicate Quiescent(c: Setup, s: State)
    requires Shape(c, s)
  {
    forall n: nat | n < |c.plan.nodes| :: Waits(c, s, n)
  }

  ghost predicate Waits(c: Setup, s: State, n: nat)
    requires Shape(c, s)
  {
    n < |c.plan.nodes| && n != c.plan.graph.start && s.nodes[n].Pending? ==> !IncomingResolved(c.plan.graph, s, n)
  }

  /** The nodes a run still has to deal with: neither settled nor put to sleep. */
  ghost function Live(s: State): set<nat> {
    set n: nat | n < |s.nodes| && !Settled(s.nodes[n]) && (s.nodes[n].Interrupted? ==> n in s.ready)
  }

  ghost function Unsettled(s: State): set<nat> {
    set n: nat | n < |s.nodes| && !Settled(s.nodes[n])
  }

  ghost function PendingNodes(s: State): set<nat> {
    set n: nat | n < |s.nodes| && s.nodes[n].Pending?
  }

  /** What `advance` may do: settle pending nodes as skipped or queue them, and nothing else. */
  ghost predicate AdvancedFrom(s: State, s': State) {
    && s' == s.(nodes := s'.nodes, edges := s'.edges, done := s'.done, ready := s'.ready)
    && s.ready <= s'.ready && |s'.nodes| == |s.nodes|
    && (forall m: nat | m < |s.nodes| && s'.nodes[m] != s.nodes[m] ::
          s.nodes[m].Pending? && (s'.nodes[m].Skipped? || s'.nodes[m].Ready?))
    && forall m <- s'.ready :: m in s.ready || (m < |s.nodes| && s.nodes[m].Pending?)
  }

  lemma AdvancedTrans(s: State, s': State, s'': State)
    requires AdvancedFrom(s, s') && AdvancedFrom(s', s'')
    ensures AdvancedFrom(s, s'')
  {}

  lemma AdvancedShrinks(s: State, s': State)
    requires AdvancedFrom(s, s')
    ensures Live(s') <= Live(s) && Unsettled(s') <= Unsettled(s) && PendingNodes(s') <= PendingNodes(s)
  {}

  /** The state of a run that has been started: it keeps every invariant, the agreement with the reference
      evaluation, the account of its interruptions, and what can lack inputs. */
  ghost predicate Keeps(c: Setup, s: State, s': State) {
    && Begun(c, s') && (Quiet(c.world) && Agrees(c, s) ==> Agrees(c, s')) && (Minted(c, s) ==> Minted(c, s'))
    && (LacksRight(c, s) ==> LacksRight(c, s'))
  }

  /** Some rounds of the loop of `advance`. */
  ghost predicate Proceeds(c: Setup, s: State, s': State) {
    Keeps(c, s, s') && AdvancedFrom(s, s')
  }

  lemma ProceedsTrans(c: Setup, s: State, s': State, s'': State)
    requires Proceeds(c, s, s') && Proceeds(c, s', s'')
    ensures Proceeds(c, s, s'') && PendingNodes(s'') <= PendingNodes(s')
  {
    AdvancedTrans(s, s', s'');
    AdvancedShrinks(s', s'');
  }

  lemma ConsiderMarks(c: Setup, s: State, n: nat)
    requires Begun(c, s) && n < |c.plan.nodes| && s.nodes[n].Pending? && n != c.plan.graph.start
    requires IncomingResolved(c.plan.graph, s, n) && AnyIncomingTaken(c.plan.graph, s, n)
    ensures Proceeds(c, s, Marked(s, n))
  {
    MarkedInv(c, s, n);
    assert NodeRight(c, s, n);
    if Agrees(c, s) {
      MarkedAgrees(c, s, n);
    }
    if Minted(c, s) {
      MarkedMinted(c, s, n);
    }
    if LacksRight(c, s) {
      MarkedLacks(c, s, n);
    }
  }

  lemma SkippedFrom(c: Setup, s: State, n: nat)
    requires Shape(c, s) && n < |c.plan.nodes| && s.nodes[n].Pending? && NodeRight(c, s, n)
    ensures AdvancedFrom(s, Settling(c, s, n, Bypassed))
  {
    var s' := Settling(c, s, n, Bypassed);
    assert s'.outputs == s.outputs && s'.failures == s.failures && s'.inflight == s.inflight;
  }

  /** A pending node has nothing of its own in the state. */
  lemma PendingIdle(c: Setup, s: State, n: nat)
    requires Inv(c, s) && n < |c.plan.nodes| && s.nodes[n].Pending?
    ensures n !in s.inflight && s.outputs[n].None? && s.failures[n].None?
  {
    assert NodeRight(c, s, n);
  }

  lemma ConsiderSkips(c: Setup, s: State, n: nat)
    requires Begun(c, s) && n < |c.plan.nodes| && CanSettle(c, s, n, Bypassed)
    ensures Proceeds(c, s, Settling(c, s, n, Bypassed))
  {
    SettlingInv(c, s, n, Bypassed);
    assert NodeRight(c, s, n);
    SkippedFrom(c, s, n);
    if Agrees(c, s) {
      SkipAsReferred(c, s, n);
      SettlingAgrees(c, s, n);
    }
    if Minted(c, s) {
      SettlingMinted(c, s, n, Bypassed);
    }
    if LacksRight(c, s) {
      SkippedLacks(c, s, n);
    }
  }

  // ---------------------------------------------------------------- Launching

  /** A suspended node none of whose interruptions is answered. */
  predicate Sleeps(s: State, n: nat) {
    n in s.paused && !Targeted(s.paused[n].points, s.targets)
  }

  /** What launches and variable writes leave alone. */
  ghost predicate LaunchesOnly(s: State, s': State) {
    && s'.edges == s.edges && s'.outputs == s.outputs && s'.failures == s.failures && s'.done == s.done
    && s'.beforePassed == s.beforePassed && s'.targets == s.targets && s'.handledFailure == s.handledFailure
    && |s'.nodes| == |s.nodes| && |s'.ready| <= |s.ready| && s'.ready == s.ready[|s.ready| - |s'.ready|..]
    && (forall m: nat | m < |s.nodes| :: (Settled(s'.nodes[m]) <==> Settled(s.nodes[m])) && (s'.nodes[m].Pending? <==> s.nodes[m].Pending?))
    && (forall m: nat | m < |s.nodes| && s'.nodes[m] != s.nodes[m] :: m in s.ready && m !in s'.ready)
    && (forall m <- s'.paused :: m in s.paused && s'.paused[m] == s.paused[m])
    && (forall m <- s.paused :: m in s'.ready ==> m in s'.paused)
    && (s.paused == map[] ==> s'.pauseRequested == s.pauseRequested)
    && (s.pauseRequested ==> s'.pauseRequested)
    && (!s'.pauseRequested ==> forall m <- s'.paused :: m in s.ready ==> m in s'.ready)
    && (s.inflight != map[] ==> s'.inflight != map[])
    && (AllAwake(s) ==> s'.pauseRequested == s.pauseRequested)
    && (s'.ready == s.ready ==> s'.inflight.Keys == s.inflight.Keys && s'.paused == s.paused)
  }

  /** What launches and variable writes do not report: they reach no breakpoint and complete nothing. */
  ghost predicate Untold(s: State, s': State) {
    && s'.info.before == s.info.before && s'.info.after == s.info.after && |s'.nodes| == |s.nodes|
    && (forall m: nat | m < |s.nodes| :: s'.nodes[m].Succeeded? <==> s.nodes[m].Succeeded?)
  }

  lemma LaunchedUntold(c: Setup, s: State)
    requires s.ready != [] && HeadOf(c, s, s.ready[0])
    ensures Untold(s, Launched(c, s))
  {}

  /** No queued node sleeps on. */
  ghost predicate AllAwake(s: State) {
    forall m <- s.ready :: !Sleeps(s, m)
  }

  lemma LaunchedTrans(s: State, s': State, s'': State)
    requires LaunchesOnly(s, s') && LaunchesOnly(s', s'')
    ensures LaunchesOnly(s, s'')
  {
    assert forall m <- s''.ready :: m in s'.ready;
    assert forall m <- s'.ready :: m in s.ready;
    if AllAwake(s) {
      StillAwake(s, s');
    }
  }

  lemma StillAwake(s: State, s': State)
    requires AllAwake(s) && s'.targets == s.targets && (forall m <- s'.ready :: m in s.ready)
    requires forall m <- s'.paused :: m in s.paused && s'.paused[m] == s.paused[m]
    ensures AllAwake(s')
  {}

  lemma LaunchedShrinks(s: State, s': State)
    requires LaunchesOnly(s, s')
    ensures Live(s') <= Live(s) && Unsettled(s') == Unsettled(s)
  {
    assert forall m <- s'.ready :: m in s.ready;
  }

  /** The head of the queue, as `QueueHead` finds it. */
  ghost predicate HeadOf(c: Setup, s: State, n: nat) {
    && |s.nodes| == |c.plan.nodes| && n < |s.nodes| && s.ready != [] && n == s.ready[0] && n !in s.ready[1..] && n !in s.inflight
    && s.nodes[n] == (if n in s.paused then Interrupted else Ready)
  }

  lemma FlyFrom(c: Setup, s: State, s': State, n: nat, status: Status, flight: Flight)
    requires HeadOf(c, s, n) && n !in s.paused && (status.Ready? || status.Running?)
    requires s' == s.(ready := s.ready[1..], nodes := s.nodes[n := status], inflight := s.inflight[n := flight])
    ensures LaunchesOnly(s, s') && n in s'.inflight
  {
    assert forall m <- s.ready[1..] :: m in s.ready;
  }

  lemma DepartFrom(c: Setup, s: State, n: nat)
    requires HeadOf(c, s, n) && n !in s.paused
    ensures LaunchesOnly(s, Departing(c, Pop(s), n)) && n in Departing(c, Pop(s), n).inflight
  {
    var s' := Departing(c, Pop(s), n);
    assert s.nodes[n := Ready] == s.nodes;
    FlyFrom(c, s, s', n, s'.nodes[n], s'.inflight[n]);
  }

  lemma WakeFrom(c: Setup, s: State, n: nat)
    requires HeadOf(c, s, n) && n in s.paused
    ensures LaunchesOnly(s, Waking(Pop(s), n)) && n in Waking(Pop(s), n).inflight
  {
    assert forall m <- s.ready[1..] :: m in s.ready;
    assert s.ready == [n] + s.ready[1..];
  }

  lemma ResurfaceFrom(c: Setup, s: State, n: nat)
    requires HeadOf(c, s, n) && Sleeps(s, n)
    ensures LaunchesOnly(s, Resurfacing(Pop(s), n)) && Resurfacing(Pop(s), n).inflight == s.inflight
  {
    assert s.nodes[n := Interrupted] == s.nodes;
  }

  lemma LaunchedIsFrom(c: Setup, s: State, n: nat)
    requires HeadOf(c, s, n)
    ensures LaunchesOnly(s, Launched(c, s))
    ensures n in Launched(c, s).inflight <==> !Sleeps(s, n)
    ensures Sleeps(s, n) ==> Launched(c, s).inflight == s.inflight
  {
    if n !in s.paused {
      DepartFrom(c, s, n);
    } else if Targeted(s.paused[n].points, s.targets) {
      WakeFrom(c, s, n);
    } else {
      ResurfaceFrom(c, s, n);
    }
  }

  lemma LaunchOneKeeps(c: Setup, s: State)
    requires Begun(c, s) && s.ready != [] && |s.inflight| < c.plan.maxConcurrency
    ensures HeadOf(c, s, s.ready[0]) && LaunchesOnly(s, Launched(c, s)) && Keeps(c, s, Launched(c, s))
    ensures Untold(s, Launched(c, s))
  {
    QueueHead(c, s);
    LaunchedUntold(c, s);
    LaunchedIsFrom(c, s, s.ready[0]);
    LaunchedInv(c, s);
    if Agrees(c, s) {
      LaunchedAgrees(c, s);
    }
    if Minted(c, s) {
      LaunchedMinted(c, s);
    }
    if LacksRight(c, s) {
      LaunchedLacks(c, s);
    }
  }

  lemma AssignLaunches(c: Setup, s: State, n: nat)
    requires |s.nodes| == |c.plan.nodes| && n < |s.nodes| && n in s.inflight && s.inflight[n].Invoked?
    ensures LaunchesOnly(s, Assigned(c, s, n))
  {
    assert Assigned(c, s, n).inflight.Keys == s.inflight.Keys;
  }

  lemma AssignFrom(c: Setup, s: State, n: nat)
    requires Begun(c, s) && n < |c.plan.nodes| && n in s.inflight && s.inflight[n].Invoked? && !s.inflight[n].written
    ensures LaunchesOnly(s, Assigned(c, s, n)) && Keeps(c, s, Assigned(c, s, n)) && Untold(s, Assigned(c, s, n))
  {
    AssignLaunches(c, s, n);
    AssignedInv(c, s, n);
    if Agrees(c, s) {
      AssignedAgrees(c, s, n);
    }
    if Minted(c, s) {
      AssignedMinted(c, s, n);
    }
    if LacksRight(c, s) {
      AssignedLacks(c, s, n);
    }
  }

  /** Any number of launches and variable writes. */
  ghost predicate Moves(c: Setup, s: State, s': State) {
    Keeps(c, s, s') && LaunchesOnly(s, s') && Untold(s, s')
  }

  lemma MovesNone(c: Setup, s: State)
    requires Begun(c, s)
    ensures Moves(c, s, s)
  {}

  lemma MovesTrans(c: Setup, s: State, s': State, s'': State)
    requires Moves(c, s, s') && Moves(c, s', s'')
    ensures Moves(c, s, s'')
  {
    LaunchedTrans(s, s', s'');
  }

  /** Whether anything is in flight after launching the head of the queue. */
  lemma LaunchOneFlies(c: Setup, s: State, n: nat)
    requires HeadOf(c, s, n)
    ensures Launched(c, s).inflight == map[] <==> s.inflight == map[] && Sleeps(s, n)
    ensures |Launched(c, s).ready| + 1 == |s.ready|
  {
    var rest := Pop(s);
    assert n !in s.paused ==> n in Departing(c, rest, n).inflight;
    assert n in s.paused ==> n in Waking(rest, n).inflight && Resurfacing(rest, n).inflight == s.inflight;
  }

  /** What a number of rounds of `launchReady` has come to. */
  ghost predicate LaunchedSoFar(c: Setup, s: State, s': State) {
    && Moves(c, s, s')
    && (s'.inflight == map[] <==> s.inflight == map[] && forall n <- s.ready[..|s.ready| - |s'.ready|] :: Sleeps(s, n))
  }

  /** What two stretches of launches leave in flight, in terms of the state before them. */
  lemma StretchesJoin(s: State, s': State, k: nat, k': nat, none: bool, none': bool, none'': bool)
    requires LaunchesOnly(s, s') && k <= k' <= |s.ready| && s'.ready == s.ready[k..]
    requires none' <==> none && forall n <- s.ready[..k] :: Sleeps(s, n)
    requires none'' <==> none' && forall n <- s'.ready[..k' - k] :: Sleeps(s', n)
    ensures none'' <==> none && forall n <- s.ready[..k'] :: Sleeps(s, n)
  {
    assert s.ready[..k'] == s.ready[..k] + s'.ready[..k' - k];
    forall n <- s'.ready[..k' - k] ensures Sleeps(s', n) <==> Sleeps(s, n) {
      SleepsStill(s, s', n);
    }
  }

  lemma LaunchedSoFarTrans(c: Setup, s: State, s': State, s'': State)
    requires LaunchedSoFar(c, s, s') && LaunchedSoFar(c, s', s'')
    ensures LaunchedSoFar(c, s, s'')
  {
    MovesTrans(c, s, s', s'');
    StretchesJoin(s, s', |s.ready| - |s'.ready|, |s.ready| - |s''.ready|, s.inflight == map[], s'.inflight == map[], s''.inflight == map[]);
  }

  lemma LaunchedSoFarOne(c: Setup, s: State)
    requires Begun(c, s) && s.ready != [] && |s.inflight| < c.plan.maxConcurrency
    ensures HeadOf(c, s, s.ready[0]) && LaunchedSoFar(c, s, Launched(c, s)) && |Launched(c, s).ready| + 1 == |s.ready|
  {
    LaunchOneKeeps(c, s);
    LaunchOneFlies(c, s, s.ready[0]);
    assert s.ready[..1] == [s.ready[0]];
  }

  /** A list of launches: no node twice, none of them queued again. */
  ghost predicate Launches(s: State, launches: seq<nat>) {
    Distinct(launches) && forall n <- launches :: n < |s.nodes| && n !in s.ready && !s.nodes[n].Pending?
  }

  lemma LaunchesGrow(c: Setup, s: State, s': State, launches: seq<nat>, n: nat)
    requires HeadOf(c, s, n) && LaunchesOnly(s, s') && |s'.ready| + 1 == |s.ready| && Launches(s, launches)
    ensures Launches(s', launches) && Launches(s', launches + [n])
  {
    assert n in s.ready && n !in launches && !s'.nodes[n].Pending?;
    assert s'.ready == s.ready[1..] && forall m <- s.ready[1..] :: m in s.ready;
    DistinctSnoc(launches, n);
  }

  lemma LaunchesAdvance(s: State, s': State, launches: seq<nat>)
    requires Launches(s, launches) && AdvancedFrom(s, s')
    ensures Launches(s', launches)
  {}

  ghost function Unwritten(inflight: map<nat, Flight>): set<nat> {
    set n | n in inflight && inflight[n].Invoked? && !inflight[n].written
  }

  lemma WrittenOne(inflight: map<nat, Flight>, n: nat)
    requires n in inflight && inflight[n].Invoked? && !inflight[n].written
    ensures var after := inflight[n := inflight[n].(written := true)];
            after.Keys == inflight.Keys && |after| == |inflight| && Unwritten(after) < Unwritten(inflight)
  {
    var after := inflight[n := inflight[n].(written := true)];
    assert after.Keys == inflight.Keys;
    assert n in Unwritten(inflight) && n !in Unwritten(after);
    assert forall m <- Unwritten(after) :: m in Unwritten(inflight);
  }

  lemma SleepsStill(s: State, s': State, n: nat)
    requires LaunchesOnly(s, s') && n in s'.ready
    ensures Sleeps(s', n) <==> Sleeps(s, n)
  {
    assert n in s.ready;
  }

  // ---------------------------------------------------------------- Completing

  /** What the completion of a flight makes of the run: it suspends or settles its node, or it ends the run. */
  ghost predicate Reports(c: Setup, s: State, s': State, n: nat, stopped: Option<Failure>)
    requires |s.edges| == |c.plan.graph.edges| && |s.nodes| == |s.outputs| == |s.failures| == |c.plan.nodes|
    requires n < |c.plan.nodes| && n in s.inflight && (Completion(c, s, n).0.Interrupt? ==> s.inflight[n].Invoked?)
  {
    var o := Settle(c.plan.nodes[n], Completion(c, s, n).0);
    match o
    case Suspended(_) => stopped.None? && s' == Suspending(s, n, Sleeping(c, s, n))
    case Halted(failure) => stopped == Some(failure) && s' == s.(nodes := s.nodes[n := Failed], inflight := s.inflight - {n})
    case _ => stopped.None? && s' == Settling(c, s, n, o)
  }

  /** What every report does. */
  ghost predicate Lands(s: State, s': State, n: nat) {
    && s'.ready == s.ready && s'.inflight == s.inflight - {n} && |s'.nodes| == |s.nodes| && |s'.outputs| == |s.outputs|
    && s'.targets == s.targets && (!s'.pauseRequested ==> !s.pauseRequested && s'.paused == s.paused)
    && forall m: nat | m < |s.nodes| && !s.nodes[m].Pending? :: !s'.nodes[m].Pending?
  }

  lemma ReportsLand(c: Setup, s: State, s': State, n: nat, stopped: Option<Failure>)
    requires |s.edges| == |c.plan.graph.edges| && |s.nodes| == |s.outputs| == |s.failures| == |c.plan.nodes|
    requires n < |c.plan.nodes| && n in s.inflight && (Completion(c, s, n).0.Interrupt? ==> s.inflight[n].Invoked?)
    requires Reports(c, s, s', n, stopped) && !Settle(c.plan.nodes[n], Completion(c, s, n).0).Bypassed?
    ensures Lands(s, s', n)
  {}

  lemma SuspendingShrinks(c: Setup, s: State, n: nat, paused: Paused)
    requires Inv(c, s) && n < |c.plan.nodes| && n in s.inflight
    ensures Live(Suspending(s, n, paused)) < Live(s)
  {
    assert NodeRight(c, s, n);
    assert n in Live(s) && n !in Live(Suspending(s, n, paused));
  }

  lemma SettlingShrinks(c: Setup, s: State, n: nat, o: Outcome)
    requires Inv(c, s) && n < |c.plan.nodes| && n in s.inflight && Settled(StatusOf(o))
    ensures Live(Settling(c, s, n, o)) < Live(s) && Unsettled(Settling(c, s, n, o)) < Unsettled(s)
  {
    assert NodeRight(c, s, n);
    var s' := Settling(c, s, n, o);
    assert n in Live(s) && n !in Live(s') && n in Unsettled(s) && n !in Unsettled(s');
  }

  /** Without interruptions no node is suspended in the reference evaluation. */
  lemma QuietNeverSuspends(c: Setup, n: nat)
    requires Sound(c) && n < |c.plan.nodes| && Quiet(c.world)
    ensures !Reference(c, n).Suspended?
  {
    RunsWhen(c, n);
    if ReferenceInputs(c, n).Some? {
      QuietAttempts(c.world, c.plan.nodes[n], n, ReferenceInputs(c, n).value, 1);
    }
  }

  lemma {:induction false} QuietAttempts(w: World, node: Node, n: nat, inputs: Ports, from: nat)
    requires 1 <= from <= MaxAttempts(node) && Quiet(w)
    ensures !LastAttempt(w, node, n, inputs, from).0.Interrupt?
    decreases MaxAttempts(node) - from
  {
    var a := AttemptNode(w, node, n, from, inputs);
    if a.Fail? && !Terminal(from, MaxAttempts(node), a.failure.kind) {
      QuietAttempts(w, node, n, inputs, from + 1);
    }
  }

  /** What `Complete` needs to know of a flight. */
  lemma FlightOf(c: Setup, s: State, n: nat)
    requires Inv(c, s) && Informs(c.world) && n in s.inflight && n < |c.plan.nodes|
    ensures s.outputs[n].None? && s.failures[n].None? && (Completion(c, s, n).0.Interrupt? ==> s.inflight[n].Invoked?)
  {
    CompletionRight(c, s, n);
    assert NodeRight(c, s, n);
  }

  lemma SuspensionKeeps(c: Setup, s: State, n: nat)
    requires Begun(c, s) && Informs(c.world) && n in s.inflight && n < |c.plan.nodes|
    requires s.inflight[n].Invoked? && Completion(c, s, n).0.Interrupt?
    ensures Keeps(c, s, Suspending(s, n, Sleeping(c, s, n))) && Live(Suspending(s, n, Sleeping(c, s, n))) < Live(s)
    ensures !(Quiet(c.world) && Agrees(c, s))
  {
    CompletionSettles(c, s, n);
    SuspendingInv(c, s, n, Sleeping(c, s, n));
    SuspendingShrinks(c, s, n, Sleeping(c, s, n));
    if Quiet(c.world) && Agrees(c, s) {
      CompletionAsReferred(c, s, n);
      QuietNeverSuspends(c, n);
    }
    if Minted(c, s) {
      assert NodeRight(c, s, n);
      CompletionMinted(c, s, n);
      SuspendingMinted(c, s, n, Sleeping(c, s, n));
    }
    if LacksRight(c, s) {
      SuspendingLacks(c, s, n, Sleeping(c, s, n));
    }
  }

  lemma SettlementKeeps(c: Setup, s: State, n: nat, o: Outcome)
    requires Begun(c, s) && Informs(c.world) && n in s.inflight && n < |c.plan.nodes| && WroteAlready(c, s, n)
    requires o == Settle(c.plan.nodes[n], Completion(c, s, n).0) && !o.Suspended? && !o.Halted?
    ensures Keeps(c, s, Settling(c, s, n, o)) && Live(Settling(c, s, n, o)) < Live(s)
    ensures Unsettled(Settling(c, s, n, o)) < Unsettled(s)
  {
    CompletionSettles(c, s, n);
    SettlingInv(c, s, n, o);
    SettlingShrinks(c, s, n, o);
    if Agrees(c, s) {
      CompletionAsReferred(c, s, n);
      SettlingAgrees(c, s, n);
    }
    if Minted(c, s) {
      SettlingMinted(c, s, n, o);
    }
    if LacksRight(c, s) {
      SettlingLacks(c, s, n, o);
    }
  }

  // ---------------------------------------------------------------- Breakpoints run out

  /** The nodes still to settle that have a before-breakpoint ahead of them. */
  ghost function Unpassed(s: State): set<nat> {
    Unsettled(s) - s.beforePassed
  }

  /** Every pause at a static breakpoint settles a node or passes a breakpoint. */
  ghost predicate Falls(s: State, s': State) {
    Unsettled(s') < Unsettled(s) || (Unsettled(s') == Unsettled(s) && Unpassed(s') < Unpassed(s))
  }

  ghost predicate Dwindles(s: State, s': State) {
    Unsettled(s') < Unsettled(s) || (Unsettled(s') == Unsettled(s) && Unpassed(s') <= Unpassed(s))
  }

  lemma FallsTrans(s: State, s': State, s'': State)
    requires Dwindles(s, s') && Dwindles(s', s'')
    ensures Dwindles(s, s'')
    ensures Falls(s, s') || Falls(s', s'') ==> Falls(s, s'')
  {}

  lemma StoppingFalls(c: Setup, s: State)
    requires Inv(c, s)
    ensures Dwindles(s, Stopping(c, s))
    ensures Stopping(c, s).pauseRequested && !s.pauseRequested ==> Falls(s, Stopping(c, s))
  {
    var s' := Stopping(c, s);
    StopsExactly(c, s.ready, s.beforePassed);
    assert Unsettled(s') == Unsettled(s);
    if Stops(c, s.ready, s.beforePassed) != [] {
      var n := Stops(c, s.ready, s.beforePassed)[0];
      assert n in Stops(c, s.ready, s.beforePassed);
      assert NodeRight(c, s, n);
      assert n in Unpassed(s) && n !in Unpassed(s');
    }
  }

  // ---------------------------------------------------------------- What the run loop keeps

  /** While no pause is requested every suspended node is queued. */
  ghost predicate Dozing(s: State) {
    !s.pauseRequested ==> forall n <- s.paused :: n in s.ready
  }

  /** No suspended node is queued. */
  ghost predicate NoneQueued(s: State) {
    forall n <- s.paused :: n !in s.ready
  }

  ghost predicate NoBreakpoints(p: Plan) {
    p.before == {} && p.after == {}
  }

  /** Every suspended node has had one of its interruptions answered. */
  ghost predicate AllAnswered(s: State) {
    forall n <- s.paused :: !Sleeps(s, n)
  }

  /** At most one node has gone to sleep, and then nothing is in flight. */
  ghost predicate Alone(s: State) {
    && (forall a: nat, b: nat | Asleep(s, a) && Asleep(s, b) :: a == b)
    && (forall a: nat | Asleep(s, a) :: s.inflight == map[])
  }

  /** A run that is not pausing has suspended no node of its own; one without concurrency whose suspended nodes are
      all answered suspends one at most. */
  ghost predicate Steady(c: Setup, s: State, s': State) {
    && s'.targets == s.targets
    && (!s'.pauseRequested ==> forall n <- s'.paused :: n in s.paused && s'.paused[n].points == s.paused[n].points)
    && (c.plan.maxConcurrency == 1 && AllAnswered(s) ==> Alone(s'))
  }

  lemma AwakeAlone(s: State)
    requires Dozing(s) && !s.pauseRequested
    ensures Alone(s)
  {}

  lemma OneFlight(inflight: map<nat, Flight>, n: nat)
    requires n in inflight && |inflight| <= 1
    ensures inflight - {n} == map[]
  {
    SmallerMap(inflight, n);
  }

  lemma SteadyMoves(c: Setup, s: State, s': State, s'': State)
    requires Steady(c, s, s') && LaunchesOnly(s', s'') && Dozing(s') && Dozing(s'')
    requires s'.pauseRequested ==> s''.ready == s'.ready
    ensures Steady(c, s, s'')
  {
    if s'.pauseRequested {
      assert forall a: nat :: Asleep(s'', a) <==> Asleep(s', a);
    } else if AllAnswered(s) {
      assert AllAwake(s');
      AwakeAlone(s'');
    }
  }

  lemma SteadySuspends(c: Setup, s: State, s': State, n: nat, paused: Paused)
    requires Steady(c, s, s') && n in s'.inflight && |s'.inflight| <= c.plan.maxConcurrency && n < |s'.nodes|
    ensures Steady(c, s, Suspending(s', n, paused))
  {
    var s'' := Suspending(s', n, paused);
    if c.plan.maxConcurrency == 1 && AllAnswered(s) {
      OneFlight(s'.inflight, n);
      assert forall a: nat | Asleep(s'', a) && a != n :: Asleep(s', a);
    }
  }

  lemma SteadySettles(c: Setup, s: State, s': State, n: nat, o: Outcome)
    requires Steady(c, s, s') && Shape(c, s') && n < |c.plan.nodes|
    ensures Steady(c, s, Settling(c, s', n, o))
  {
    var s'' := Settling(c, s', n, o);
    assert forall a: nat :: Asleep(s'', a) <==> Asleep(s', a);
  }

  lemma SteadyAdvances(c: Setup, s: State, s': State, s'': State)
    requires Steady(c, s, s') && AdvancedFrom(s', s'') && Dozing(s'') && !s'.pauseRequested
    ensures Steady(c, s, s'')
  {
    AwakeAlone(s'');
  }

  lemma SteadyStops(c: Setup, s: State, s': State)
    requires Steady(c, s, s')
    ensures Steady(c, s, Stopping(c, s'))
  {
    assert forall a: nat :: Asleep(Stopping(c, s'), a) <==> Asleep(s', a);
  }

  /** A run that suspended no node before it started queues none. */
  ghost predicate Fresh(s: State, s': State) {
    s.paused == map[] ==> NoneQueued(s') && (!s'.pauseRequested ==> s'.paused == map[])
  }

  /** Without interruptions a run pauses only at breakpoints, and makes progress before it does. */
  ghost predicate PausesLess(c: Setup, s: State, s': State) {
    Quiet(c.world) && Agrees(c, s) ==>
      && Dwindles(s, s') && (s'.pauseRequested ==> Falls(s, s'))
      && (NoBreakpoints(c.plan) ==> !s'.pauseRequested)
  }

  /** How a run that started from `s` stands at `s'`. */
  ghost predicate Going(c: Setup, s: State, s': State) {
    Keeps(c, s, s') && Dozing(s') && Steady(c, s, s') && Fresh(s, s') && PausesLess(c, s, s')
  }

  /** When a node settles, what is queued and what is suspended stay. */
  lemma SettlingDozes(c: Setup, s: State, s': State, n: nat, o: Outcome)
    requires Shape(c, s') && n < |c.plan.nodes| && Dozing(s') && Fresh(s, s')
    ensures Dozing(Settling(c, s', n, o)) && Fresh(s, Settling(c, s', n, o))
  {}

  lemma SettlingPausesLess(c: Setup, s: State, s': State, n: nat, o: Outcome)
    requires Shape(c, s') && n < |c.plan.nodes| && PausesLess(c, s, s') && Unsettled(Settling(c, s', n, o)) < Unsettled(s')
    ensures PausesLess(c, s, Settling(c, s', n, o))
  {}

  /** A fresh run, Start queued: no other node has its incoming edges resolved. */
  lemma GoingStarts(c: Setup)
    requires Admitted(c)
    ensures Inv(c, Initial(c)) && Going(c, Initial(c), Marked(Initial(c), c.plan.graph.start))
    ensures Quiescent(c, Marked(Initial(c), c.plan.graph.start))
  {
    var g, s, s' := c.plan.graph, Initial(c), Marked(Initial(c), c.plan.graph.start);
    InitialInv(c);
    MarkedInv(c, s, g.start);
    if Agrees(c, s) {
      MarkedAgrees(c, s, g.start);
    }
    if Minted(c, s) {
      MarkedMinted(c, s, g.start);
    }
    if LacksRight(c, s) {
      MarkedLacks(c, s, g.start);
    }
    forall n: nat | n < |c.plan.nodes| ensures Waits(c, s', n) {
      if n != g.start {
        assert NodeRunnable(c.world, c.plan, n);
        assert Into(g, n, g.incoming[n][0]);
      }
    }
    StartDwindles(c);
  }

  lemma StartDwindles(c: Setup)
    requires Sound(c)
    ensures Dwindles(Initial(c), Marked(Initial(c), c.plan.graph.start))
  {
    assert Unsettled(Marked(Initial(c), c.plan.graph.start)) == Unsettled(Initial(c));
  }

  lemma GoingStops(c: Setup, s: State, s': State)
    requires Going(c, s, s') && !s'.pauseRequested
    ensures Going(c, s, Stopping(c, s'))
    ensures Quiescent(c, s') ==> Quiescent(c, Stopping(c, s'))
  {
    StoppingInv(c, s');
    StoppingFalls(c, s');
    SteadyStops(c, s, s');
    StopsExactly(c, s'.ready, s'.beforePassed);
    if Quiet(c.world) && Agrees(c, s) {
      StoppingAgrees(c, s');
      FallsTrans(s, s', Stopping(c, s'));
    }
    if Minted(c, s) {
      StoppingMinted(c, s');
    }
    if LacksRight(c, s) {
      StoppingLacks(c, s');
    }
    if Quiescent(c, s') {
      forall n: nat | n < |c.plan.nodes| ensures Waits(c, Stopping(c, s'), n) {
        assert Waits(c, s', n);
      }
    }
  }

  lemma KeepsTrans(c: Setup, s: State, s': State, s'': State)
    requires Keeps(c, s, s') && Keeps(c, s', s'')
    ensures Keeps(c, s, s'')
  {}

  lemma MovesDoze(s: State, s': State, s'': State)
    requires LaunchesOnly(s', s'') && Dozing(s') && Fresh(s, s') && (s'.pauseRequested ==> s''.ready == s'.ready)
    ensures Dozing(s'') && Fresh(s, s'')
  {
    assert forall m <- s''.ready :: m in s'.ready;
  }

  lemma MovesPauseLess(c: Setup, s: State, s': State, s'': State)
    requires PausesLess(c, s, s') && LaunchesOnly(s', s'') && (Quiet(c.world) && Agrees(c, s) ==> s'.paused == map[])
    ensures PausesLess(c, s, s'')
  {
    LaunchedShrinks(s', s'');
    assert Unpassed(s'') == Unpassed(s');
  }

  lemma MovesQuiescent(c: Setup, s': State, s'': State)
    requires Shape(c, s') && Shape(c, s'') && LaunchesOnly(s', s'') && Quiescent(c, s')
    ensures Quiescent(c, s'')
  {
    forall n: nat | n < |c.plan.nodes| ensures Waits(c, s'', n) {
      assert Waits(c, s', n);
    }
  }

  lemma GoingMoves(c: Setup, s: State, s': State, s'': State)
    requires Going(c, s, s') && Moves(c, s', s'') && (s'.pauseRequested ==> s''.ready == s'.ready)
    ensures Going(c, s, s'') && Live(s'') <= Live(s')
    ensures Quiescent(c, s') ==> Quiescent(c, s'')
  {
    LaunchedShrinks(s', s'');
    KeepsTrans(c, s, s', s'');
    MovesDoze(s, s', s'');
    SteadyMoves(c, s, s', s'');
    MovesPauseLess(c, s, s', s'');
    if Quiescent(c, s') {
      MovesQuiescent(c, s', s'');
    }
  }

  lemma GoingSuspends(c: Setup, s: State, s': State, n: nat)
    requires Going(c, s, s') && Informs(c.world) && n in s'.inflight && n < |c.plan.nodes|
    requires s'.inflight[n].Invoked? && Completion(c, s', n).0.Interrupt?
    ensures Going(c, s, Suspending(s', n, Sleeping(c, s', n))) && Live(Suspending(s', n, Sleeping(c, s', n))) < Live(s')
  {
    SuspensionKeeps(c, s', n);
    SteadySuspends(c, s, s', n, Sleeping(c, s', n));
  }

  lemma GoingSettles(c: Setup, s: State, s': State, n: nat, o: Outcome)
    requires Going(c, s, s') && Informs(c.world) && n in s'.inflight && n < |c.plan.nodes| && WroteAlready(c, s', n)
    requires o == Settle(c.plan.nodes[n], Completion(c, s', n).0) && !o.Suspended? && !o.Halted?
    ensures Going(c, s, Settling(c, s', n, o)) && Live(Settling(c, s', n, o)) < Live(s')
  {
    SettlementKeeps(c, s', n, o);
    SteadySettles(c, s, s', n, o);
    SettlingDozes(c, s, s', n, o);
    SettlingPausesLess(c, s, s', n, o);
  }

  lemma GoingReports(c: Setup, s: State, s': State, s'': State, n: nat, stopped: Option<Failure>)
    requires Going(c, s, s') && Informs(c.world) && n in s'.inflight && n < |c.plan.nodes| && WroteAlready(c, s', n)
    requires (Completion(c, s', n).0.Interrupt? ==> s'.inflight[n].Invoked?) && Reports(c, s', s'', n, stopped)
    ensures stopped.None? ==> Going(c, s, s'') && Live(s'') < Live(s')
    ensures stopped.Some? && Quiet(c.world) && Agrees(c, s) ==> Reference(c, n) == Halted(stopped.value)
  {
    var o := Settle(c.plan.nodes[n], Completion(c, s', n).0);
    if o.Suspended? {
      GoingSuspends(c, s, s', n);
    } else if !o.Halted? {
      GoingSettles(c, s, s', n, o);
    } else if Agrees(c, s') {
      CompletionAsReferred(c, s', n);
    }
  }

  lemma GoingAdvances(c: Setup, s: State, s': State, s'': State)
    requires Going(c, s, s') && Proceeds(c, s', s'') && !s'.pauseRequested
    ensures Going(c, s, s'') && Live(s'') <= Live(s')
  {
    AdvancedShrinks(s', s'');
    assert forall n <- s'.ready :: n in s''.ready;
    SteadyAdvances(c, s, s', s'');
  }

  // ---------------------------------------------------------------- Nothing is left behind

  /** With nothing queued and nothing in flight, every node has settled. */
  lemma NothingLeft(c: Setup, s: State)
    requires Begun(c, s) && Quiescent(c, s) && s.ready == [] && s.inflight == map[] && s.paused == map[]
    ensures s.done == |c.plan.nodes|
  {
    forall n: nat | n < |c.plan.nodes| ensures Settled(s.nodes[n]) {
      SettledInOrder(c, s, n);
    }
    Everything(SettledNodes(s), |c.plan.nodes|);
  }

  lemma {:induction false} SettledInOrder(c: Setup, s: State, n: nat)
    requires Begun(c, s) && Quiescent(c, s) && s.ready == [] && s.inflight == map[] && s.paused == map[] && n < |c.plan.nodes|
    ensures Settled(s.nodes[n])
    decreases Position(c.order, n)
  {
    var g := c.plan.graph;
    assert NodeRight(c, s, n) && Waits(c, s, n);
    forall e: nat | e < |s.edges| && Into(g, n, e) ensures !s.edges[e].EdgePending? {
      EdgeForward(g, c.order, e);
      SettledInOrder(c, s, g.edges[e].from);
      assert EdgeRight(c, s, e);
    }
  }

  lemma {:induction false} Everything(members: set<nat>, size: nat)
    requires forall m: nat :: m in members <==> m < size
    ensures |members| == size
    decreases size
  {
    if size == 0 {
      assert members == {};
    } else {
      Everything(members - {size - 1}, size - 1);
    }
  }

  /** A suspended, unanswered node is left in the queue only when the run is as busy as it may be but for one flight,
      or has not launched anything yet. */
  ghost predicate Fueled(c: Setup, s: State, s': State) {
    !s'.pauseRequested && !AllAwake(s') ==> |s'.inflight| + 1 >= c.plan.maxConcurrency || s.ready <= s'.ready
  }

  /** As it is right after launching. */
  ghost predicate Full(c: Setup, s: State) {
    !s.pauseRequested && !AllAwake(s) ==> |s.inflight| >= c.plan.maxConcurrency
  }

  lemma FullMoves(c: Setup, s: State, s': State)
    requires Full(c, s) && LaunchesOnly(s, s') && s'.ready == s.ready && s'.pauseRequested == s.pauseRequested
    ensures Full(c, s')
  {
    assert |s'.inflight| == |s'.inflight.Keys| == |s.inflight.Keys| == |s.inflight|;
  }

  lemma FullReports(c: Setup, s: State, s': State, s'': State, n: nat)
    requires Full(c, s') && Lands(s', s'', n) && n in s'.inflight
    ensures Fueled(c, s, s'')
  {
    SmallerMap(s'.inflight, n);
  }

  lemma FueledAdvances(c: Setup, s: State, s': State, s'': State)
    requires Inv(c, s') && Fueled(c, s, s') && AdvancedFrom(s', s'')
    ensures Fueled(c, s, s'')
  {
    forall m <- s''.ready ensures Sleeps(s'', m) ==> m in s'.ready && Sleeps(s', m) {
      if m !in s'.ready {
        assert NodeRight(c, s', m);
      }
    }
  }

  /** A run that can launch nothing was resumed with a suspended node left unanswered, and without concurrency or with
      nothing else to launch: it was not fresh. */
  lemma StuckAsleep(c: Setup, s: State, s': State)
    requires Going(c, s, s') && Fueled(c, s, s')
    requires Quiescent(c, s') && !s'.pauseRequested && s'.done != |c.plan.nodes| && s'.inflight == map[]
    requires forall n <- s'.ready :: Sleeps(s', n)
    ensures s'.ready != [] && LeftAsleep(c, s)
  {
    if s'.ready == [] {
      assert s'.paused == map[];
      NothingLeft(c, s');
    } else {
      assert s'.ready[0] in s'.ready;
      assert s'.ready[0] in s'.paused && Sleeps(s, s'.ready[0]);
      if c.plan.maxConcurrency > 1 {
        assert forall n <- s.ready :: n in s'.ready;
      }
    }
  }

  /** Someone is left unanswered, and either nodes run one at a time or nobody in the queue is answered or ready. */
  ghost predicate LeftAsleep(c: Setup, s: State) {
    !AllAnswered(s) && (c.plan.maxConcurrency == 1 || forall n <- s.ready :: Sleeps(s, n))
  }

  /** The run loop cannot go on: no breakpoint to stop at, nothing in flight, and the whole queue sleeps. */
  ghost predicate Standstill(c: Setup, s: State) {
    Stops(c, s.ready, s.beforePassed) == [] && s.inflight == map[] && forall n <- s.ready :: Sleeps(s, n)
  }

  /** A state a run can be resumed from. */
  ghost predicate Startable(c: Setup, s: State) {
    Begun(c, s) && s.inflight == map[] && !s.pauseRequested && Dozing(s)
  }

  /** Node `n`, which stops on errors, has completed with this failure at some moment of the run. */
  ghost predicate Halting(c: Setup, s: State, n: nat, failure: Failure) {
    && n < |c.plan.nodes| && c.plan.nodes[n].policy.Stop?
    && (exists at :: FailsAt(c, s, at, n, failure))
    && (Quiet(c.world) && Agrees(c, s) ==> Reference(c, n) == Halted(failure))
  }

  ghost predicate FailsAt(c: Setup, s: State, at: State, n: nat, failure: Failure)
    requires n < |c.plan.nodes|
  {
    Keeps(c, s, at) && n in at.inflight && Completion(c, at, n).0 == Fail(failure)
  }

  lemma ReportHalts(c: Setup, s: State, s': State, s'': State, n: nat, failure: Failure)
    requires Going(c, s, s') && Informs(c.world) && n in s'.inflight && n < |c.plan.nodes| && WroteAlready(c, s', n)
    requires (Completion(c, s', n).0.Interrupt? ==> s'.inflight[n].Invoked?) && Reports(c, s', s'', n, Some(failure))
    ensures Halting(c, s, n, failure) && n < |s''.nodes| && s''.nodes[n].Failed?
  {
    GoingReports(c, s, s', s'', n, Some(failure));
    CompletionSettles(c, s', n);
    assert FailsAt(c, s, s', n, failure);
  }

  /** All that a received completion means for the run. */
  lemma Received(c: Setup, s: State, s': State, s'': State, n: nat, stopped: Option<Failure>, launches: seq<nat>)
    requires Going(c, s, s') && Informs(c.world) && n in s'.inflight && n < |c.plan.nodes| && WroteAlready(c, s', n)
    requires (Completion(c, s', n).0.Interrupt? ==> s'.inflight[n].Invoked?) && Reports(c, s', s'', n, stopped)
    requires Launches(s', launches)
    ensures Lands(s', s'', n) && Launches(s'', launches)
    ensures stopped.None? ==> Going(c, s, s'') && Live(s'') < Live(s')
    ensures stopped.Some? && Quiet(c.world) && Agrees(c, s) ==> Reference(c, n) == Halted(stopped.value)
  {
    GoingReports(c, s, s', s'', n, stopped);
    CompletionSettles(c, s', n);
    ReportsLand(c, s', s'', n, stopped);
  }
}
