/** Which dynamic interruptions a pausing run reports, and why its checkpoint holds exactly those
    (workflow/runner_execution.go, workflow/runner_invoke.go, workflow/interrupt_dynamic.go). */
module Alignment {
  import opened Graphs
  import opened Topology
  import opened Options
  import opened Plans
  import opened Acceptance
  import opened Evaluation
  import opened Guarantees
  import opened Scheduler

  predicate DistinctIds(points: seq<Point>) {
    forall i, j | 0 <= i < j < |points| :: points[i].id != points[j].id
  }

  /** Points of node `n`, with distinct identifiers. */
  ghost predicate PointsOf(w: World, points: seq<Point>, n: nat) {
    DistinctIds(points) && forall point <- points :: point.id != "" && w.owner(point.id) == n
  }

  /** Identifiers are made fresh for each interruption: no two points share one. */
  ghost predicate Mints(w: World) {
    && (forall n: nat, attempt: nat, inputs: Ports :: w.invoke(n, attempt, inputs).Interrupt? ==> PointsOf(w, w.invoke(n, attempt, inputs).points, n))
    && (forall n: nat, attempt: nat, inputs: Ports, points: seq<Point>, targets: set<string> ::
          w.resume(n, attempt, inputs, points, targets).Interrupt? ==> PointsOf(w, w.resume(n, attempt, inputs, points, targets).points, n))
  }

  /** What is suspended, and what is in flight after having been, has points of its own. */
  ghost predicate Named(c: Setup, s: State) {
    && (forall n <- s.paused :: PointsOf(c.world, s.paused[n].points, n))
    && (forall n <- s.inflight :: s.inflight[n].Invoked? && s.inflight[n].resume.Some? ==> PointsOf(c.world, s.inflight[n].resume.value.points, n))
  }

  ghost predicate Asleep(s: State, n: nat) {
    n in s.paused && n !in s.ready
  }

  /** The contexts are exactly the points of the suspended nodes that are no longer queued, each once. */
  ghost predicate ContextsRight(c: Setup, s: State) {
    && DistinctIds(s.info.contexts)
    && (forall point <- s.info.contexts :: Asleep(s, c.world.owner(point.id)) && point in s.paused[c.world.owner(point.id)].points)
    && (forall n: nat | Asleep(s, n) :: forall point <- s.paused[n].points :: point in s.info.contexts)
  }

  ghost predicate Minted(c: Setup, s: State) {
    Mints(c.world) && Named(c, s) && ContextsRight(c, s)
  }

  lemma InitialMinted(c: Setup)
    requires Mints(c.world)
    ensures Minted(c, Initial(c))
  {}

  /** A step after which the same nodes sleep, on the same points. */
  lemma SameSleepers(c: Setup, s: State, s': State)
    requires Minted(c, s) && Named(c, s') && s'.info.contexts == s.info.contexts
    requires forall n: nat :: (Asleep(s', n) <==> Asleep(s, n)) && (Asleep(s, n) ==> s'.paused[n] == s.paused[n])
    ensures Minted(c, s')
  {}

  lemma {:induction false} RemainingPoints(w: World, points: seq<Point>, targets: set<string>, n: nat)
    requires PointsOf(w, points, n)
    ensures PointsOf(w, Remaining(points, targets), n) && forall point <- Remaining(points, targets) :: point in points
    decreases |points|
  {
    if points != [] {
      assert points == [points[0]] + points[1..];
      RemainingPoints(w, points[1..], targets, n);
      var rest := Remaining(points[1..], targets);
      forall j | 0 <= j < |rest| ensures rest[j].id != points[0].id {
        assert rest[j] in rest && rest[j] in points[1..];
      }
    }
  }

  lemma {:induction false} MergedPoints(w: World, left: seq<Point>, right: seq<Point>, n: nat)
    requires PointsOf(w, left, n) && PointsOf(w, right, n)
    ensures PointsOf(w, MergePoints(left, right), n)
    decreases |right|
  {
    if right != [] {
      assert right == [right[0]] + right[1..];
      MergedPoints(w, if HasPoint(left, right[0].id) then left else left + [right[0]], right[1..], n);
    }
  }

  ghost predicate ReportMinted(w: World, a: Attempt, n: nat) {
    a.Interrupt? ==> PointsOf(w, a.points, n)
  }

  lemma {:induction false} LastAttemptMinted(w: World, node: Node, n: nat, inputs: Ports, from: nat)
    requires 1 <= from <= MaxAttempts(node) && Mints(w)
    ensures ReportMinted(w, LastAttempt(w, node, n, inputs, from).0, n)
    decreases MaxAttempts(node) - from
  {
    var a := AttemptNode(w, node, n, from, inputs);
    if a.Fail? && !Terminal(from, MaxAttempts(node), a.failure.kind) {
      LastAttemptMinted(w, node, n, inputs, from + 1);
    }
  }

  lemma {:induction false} LastResumedMinted(w: World, node: Node, n: nat, paused: Paused, targets: set<string>, from: nat)
    requires 1 <= from <= MaxAttempts(node) && Mints(w) && PointsOf(w, paused.points, n)
    ensures ReportMinted(w, LastResumed(w, node, n, paused, targets, from).0, n)
    decreases MaxAttempts(node) - from
  {
    var raw := Checked(w, node, w.resume(n, paused.attempts + from, paused.inputs, paused.points, targets));
    RemainingPoints(w, paused.points, targets, n);
    if raw.Interrupt? {
      MergedPoints(w, raw.points, Remaining(paused.points, targets), n);
    }
    var a := ResumeAttempt(w, node, n, paused, targets, paused.attempts + from);
    if a.Fail? && !Terminal(from, MaxAttempts(node), a.failure.kind) {
      LastResumedMinted(w, node, n, paused, targets, from + 1);
    }
  }

  lemma CompletionMinted(c: Setup, s: State, n: nat)
    requires Mints(c.world) && Named(c, s) && n < |c.plan.nodes| && n in s.inflight
    ensures ReportMinted(c.world, Completion(c, s, n).0, n)
  {
    match s.inflight[n] {
      case BadInputs =>
      case Invoked(inputs, None, _) => LastAttemptMinted(c.world, c.plan.nodes[n], n, inputs, 1);
      case Invoked(inputs, Some(paused), _) => LastResumedMinted(c.world, c.plan.nodes[n], n, paused, s.targets, 1);
    }
  }

  // ---------------------------------------------------------------- Steps

  lemma MarkedMinted(c: Setup, s: State, n: nat)
    requires Minted(c, s) && n < |s.nodes| && n !in s.paused
    ensures Minted(c, Marked(s, n))
  {
    SameSleepers(c, s, Marked(s, n));
  }

  lemma SettlingMinted(c: Setup, s: State, n: nat, o: Outcome)
    requires Minted(c, s) && Shape(c, s) && n < |c.plan.nodes|
    ensures Minted(c, Settling(c, s, n, o))
  {
    SameSleepers(c, s, Settling(c, s, n, o));
  }

  lemma StoppingMinted(c: Setup, s: State)
    requires Minted(c, s)
    ensures Minted(c, Stopping(c, s))
  {
    SameSleepers(c, s, Stopping(c, s));
  }

  lemma AssignedMinted(c: Setup, s: State, n: nat)
    requires Minted(c, s) && n < |c.plan.nodes| && n in s.inflight && s.inflight[n].Invoked?
    ensures Minted(c, Assigned(c, s, n))
  {
    SameSleepers(c, s, Assigned(c, s, n));
  }

  lemma IdsApart(w: World, left: seq<Point>, right: seq<Point>, n: nat)
    requires DistinctIds(left) && PointsOf(w, right, n) && forall point <- left :: w.owner(point.id) != n
    ensures DistinctIds(left + right)
  {
    assert forall i | 0 <= i < |left| :: left[i] in left;
    assert forall j | 0 <= j < |right| :: right[j] in right;
  }

  /** A node that goes to sleep adds its points. */
  lemma FallsAsleep(c: Setup, s: State, s': State, n: nat, points: seq<Point>)
    requires Minted(c, s) && Named(c, s') && !Asleep(s, n) && Asleep(s', n) && s'.paused[n].points == points
    requires s'.info.contexts == s.info.contexts + points
    requires forall m: nat | m != n :: (Asleep(s', m) <==> Asleep(s, m)) && (Asleep(s, m) ==> s'.paused[m] == s.paused[m])
    ensures Minted(c, s')
  {
    IdsApart(c.world, s.info.contexts, points, n);
  }

  lemma SuspendingMinted(c: Setup, s: State, n: nat, paused: Paused)
    requires Minted(c, s) && n < |s.nodes| && n !in s.paused && n !in s.ready && PointsOf(c.world, paused.points, n)
    ensures Minted(c, Suspending(s, n, paused))
  {
    FallsAsleep(c, s, Suspending(s, n, paused), n, paused.points);
  }

  lemma WakingMinted(c: Setup, s: State, rest: State, n: nat)
    requires Minted(c, s) && rest == s.(ready := rest.ready) && n < |s.nodes| && n in s.paused && n in s.ready && n !in rest.ready
    requires forall m :: m in rest.ready <==> m in s.ready && m != n
    ensures Minted(c, Waking(rest, n))
  {
    SameSleepers(c, s, Waking(rest, n));
  }

  lemma ResurfacingMinted(c: Setup, s: State, rest: State, n: nat)
    requires Minted(c, s) && rest == s.(ready := rest.ready) && n < |s.nodes| && n in s.paused && n in s.ready
    requires forall m :: m in rest.ready <==> m in s.ready && m != n
    ensures Minted(c, Resurfacing(rest, n))
  {
    FallsAsleep(c, s, Resurfacing(rest, n), n, s.paused[n].points);
  }

  lemma DepartingMinted(c: Setup, s: State, rest: State, n: nat)
    requires Minted(c, s) && rest == s.(ready := rest.ready) && |s.nodes| == |c.plan.nodes| && n < |s.nodes| && n !in s.paused
    requires forall m :: m in rest.ready <==> m in s.ready && m != n
    ensures Minted(c, Departing(c, rest, n))
  {
    SameSleepers(c, s, Departing(c, rest, n));
  }

  lemma LaunchedMinted(c: Setup, s: State)
    requires Inv(c, s) && Minted(c, s) && s.ready != []
    ensures s.ready[0] < |c.plan.nodes| && Minted(c, Launched(c, s))
  {
    QueueHead(c, s);
    var n, rest := s.ready[0], Pop(s);
    if n !in s.paused {
      DepartingMinted(c, s, rest, n);
    } else if Targeted(s.paused[n].points, s.targets) {
      WakingMinted(c, s, rest, n);
    } else {
      ResurfacingMinted(c, s, rest, n);
    }
  }
}
