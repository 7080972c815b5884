/** Retrying: which attempt's answer an invocation is, and when a resumed node may complete
    (workflow/runner_invoke.go, workflow/interrupt_dynamic.go). */
module Retries {
  import opened Graphs
  import opened Topology
  import opened Options
  import opened Plans
  import opened Acceptance
  import opened Evaluation
  import opened Guarantees
  import opened Scheduler
  import opened Agreement

  // ---------------------------------------------------------------- Which attempt counts

  /** Failures that are worth another attempt: an ordinary error, a panic. */
  predicate WorthRetrying(kind: FailureKind) {
    kind == Errored || kind == Panicked
  }

  predicate Again(a: Attempt) {
    a.Fail? && WorthRetrying(a.failure.kind)
  }

  /** Attempt `k` is the one that counts: all before it failed in a way worth retrying, and it is not retried itself,
      because it did not fail, because of the way it failed, or because no attempt is left. */
  ghost predicate Counts(answers: nat -> Attempt, maximum: int, k: nat) {
    && 1 <= k && (k <= maximum || k == 1)
    && (forall j: nat | 1 <= j < k :: Again(answers(j)))
    && (Again(answers(k)) ==> k >= maximum)
  }

  /** The attempts at a node on these inputs. */
  function FreshAttempts(w: World, node: Node, n: nat, inputs: Ports): nat -> Attempt {
    (j: nat) => AttemptNode(w, node, n, j, inputs)
  }

  /** The attempts at a resumed node: the numbering goes on, the retry budget starts anew. */
  function ResumedAttempts(w: World, node: Node, n: nat, paused: Paused, targets: set<string>): nat -> Attempt {
    (j: nat) => ResumeAttempt(w, node, n, paused, targets, paused.attempts + j)
  }

  lemma CountsOnce(answers: nat -> Attempt, maximum: int, j: nat, k: nat)
    requires Counts(answers, maximum, j) && Counts(answers, maximum, k)
    ensures j == k
  {}

  lemma {:induction false} LastCounts(w: World, node: Node, n: nat, inputs: Ports, from: nat)
    requires 1 <= from <= MaxAttempts(node)
    requires forall j: nat | 1 <= j < from :: Again(FreshAttempts(w, node, n, inputs)(j))
    ensures var (a, k) := LastAttempt(w, node, n, inputs, from);
            a == AttemptNode(w, node, n, k, inputs) && Counts(FreshAttempts(w, node, n, inputs), node.maxAttempts, k)
    decreases MaxAttempts(node) - from
  {
    var a := AttemptNode(w, node, n, from, inputs);
    assert a == FreshAttempts(w, node, n, inputs)(from);
    if Again(a) && from < node.maxAttempts {
      LastCounts(w, node, n, inputs, from + 1);
    }
  }

  /** What an invocation comes to is the answer of the one attempt that counts, and that attempt's number. */
  lemma RetriesExactly(w: World, node: Node, n: nat, inputs: Ports, k: nat)
    ensures Counts(FreshAttempts(w, node, n, inputs), node.maxAttempts, k)
            <==> LastAttempt(w, node, n, inputs, 1).1 == k
    ensures Counts(FreshAttempts(w, node, n, inputs), node.maxAttempts, k)
            ==> LastAttempt(w, node, n, inputs, 1).0 == AttemptNode(w, node, n, k, inputs)
  {
    LastCounts(w, node, n, inputs, 1);
    if Counts(FreshAttempts(w, node, n, inputs), node.maxAttempts, k) {
      CountsOnce(FreshAttempts(w, node, n, inputs), node.maxAttempts, k, LastAttempt(w, node, n, inputs, 1).1);
    }
  }

  // ---------------------------------------------------------------- An attempt's own answer

  /** A success of the declared outputs, on a declared route. */
  predicate Proper(w: World, node: Node, a: Attempt) {
    a.Succeed? && PortsValid(w, a.values, node.outputs) && a.route in node.routes
  }

  /** An answer that another attempt may follow: a failure worth retrying, or a success that is not proper. */
  predicate Wanting(w: World, node: Node, a: Attempt) {
    (a.Fail? && WorthRetrying(a.failure.kind)) || (a.Succeed? && !Proper(w, node, a))
  }

  lemma CheckedAnswer(w: World, node: Node, a: Attempt)
    ensures Checked(w, node, a) == a || (a.Succeed? && !Proper(w, node, a) && Checked(w, node, a).Fail?)
    ensures Proper(w, node, a) <==> Checked(w, node, a).Succeed?
    ensures Wanting(w, node, a) <==> Again(Checked(w, node, a))
  {}

  /** How a node that runs on resolved inputs ends, told by what the host answers: the first answer that no attempt may
      follow counts, or the last that is allowed. */
  ghost predicate HostCounts(c: Setup, n: nat, inputs: Ports, k: nat)
    requires n < |c.plan.nodes|
  {
    var w, node := c.world, c.plan.nodes[n];
    && 1 <= k && (k <= node.maxAttempts || k == 1)
    && (forall j: nat | 1 <= j < k :: Wanting(w, node, w.invoke(n, j, inputs)))
    && (Wanting(w, node, w.invoke(n, k, inputs)) ==> k >= node.maxAttempts)
  }

  lemma HostCountsSame(c: Setup, n: nat, inputs: Ports, k: nat)
    requires n < |c.plan.nodes| && !c.plan.nodes[n].kind.SetVariable?
    ensures HostCounts(c, n, inputs, k) <==> Counts(FreshAttempts(c.world, c.plan.nodes[n], n, inputs), c.plan.nodes[n].maxAttempts, k)
  {
    var w, node := c.world, c.plan.nodes[n];
    forall j: nat
      ensures Wanting(w, node, w.invoke(n, j, inputs))
              <==> Again(FreshAttempts(w, node, n, inputs)(j))
    {
      CheckedAnswer(w, node, w.invoke(n, j, inputs));
    }
  }

  /** An invocation comes to the answer that counts: complete if it is proper, suspended if it interrupts, and a failure
      otherwise. */
  lemma InvocationCounts(c: Setup, n: nat, inputs: Ports, k: nat)
    requires n < |c.plan.nodes| && !c.plan.nodes[n].kind.SetVariable? && HostCounts(c, n, inputs, k)
    ensures var a, r := c.world.invoke(n, k, inputs), LastAttempt(c.world, c.plan.nodes[n], n, inputs, 1);
            && r.1 == k && (Proper(c.world, c.plan.nodes[n], a) || a.Interrupt? ==> r.0 == a)
            && (r.0.Fail? <==> a.Fail? || (a.Succeed? && !Proper(c.world, c.plan.nodes[n], a)))
            && (a.Fail? ==> r.0 == a)
  {
    HostCountsSame(c, n, inputs, k);
    RetriesExactly(c.world, c.plan.nodes[n], n, inputs, k);
    CheckedAnswer(c.world, c.plan.nodes[n], c.world.invoke(n, k, inputs));
  }

  /** There is always an answer that counts. */
  lemma SomeCounts(c: Setup, n: nat, inputs: Ports) returns (k: nat)
    requires n < |c.plan.nodes| && !c.plan.nodes[n].kind.SetVariable?
    ensures HostCounts(c, n, inputs, k)
  {
    k := LastAttempt(c.world, c.plan.nodes[n], n, inputs, 1).1;
    RetriesExactly(c.world, c.plan.nodes[n], n, inputs, k);
    HostCountsSame(c, n, inputs, k);
  }

  // ---------------------------------------------------------------- In the evaluation, and in every run

  /** A node that runs on resolved inputs completes with the proper answer of an allowed attempt that only answers worth
      retrying precede, and with no other. */
  lemma CompletesExactly(c: Setup, n: nat, values: Ports, route: string)
    requires Sound(c) && n < |c.plan.nodes| && Runs(c, n) && ReferenceInputs(c, n).Some? && !c.plan.nodes[n].kind.SetVariable?
    ensures Reference(c, n) == Finished(values, route)
            <==> exists k: nat :: HostCounts(c, n, ReferenceInputs(c, n).value, k)
                   && c.world.invoke(n, k, ReferenceInputs(c, n).value) == Succeed(values, route)
                   && Proper(c.world, c.plan.nodes[n], Succeed(values, route))
  {
    RunsWhen(c, n);
    EndsAsCounted(c, n, ReferenceInputs(c, n).value, values, route);
  }

  lemma EndsAsCounted(c: Setup, n: nat, inputs: Ports, values: Ports, route: string)
    requires n < |c.plan.nodes| && !c.plan.nodes[n].kind.SetVariable?
    ensures Settle(c.plan.nodes[n], Invocation(c.world, c.plan.nodes[n], n, inputs)) == Finished(values, route)
            <==> exists k: nat :: HostCounts(c, n, inputs, k) && c.world.invoke(n, k, inputs) == Succeed(values, route)
                   && Proper(c.world, c.plan.nodes[n], Succeed(values, route))
  {
    var k := SomeCounts(c, n, inputs);
    InvocationCounts(c, n, inputs, k);
    forall j: nat | HostCounts(c, n, inputs, j) ensures j == k {
      InvocationCounts(c, n, inputs, j);
    }
  }

  /** A node that runs fails only for want of inputs, with a failure that is not worth retrying, or on its last attempt. */
  lemma FailsExactly(c: Setup, n: nat)
    requires Sound(c) && n < |c.plan.nodes| && Runs(c, n) && !c.plan.nodes[n].kind.SetVariable?
    ensures var o := Reference(c, n);
            (o.Rerouted? || o.Defaulted? || o.Halted?)
            <==> ReferenceInputs(c, n).None?
                 || exists k: nat :: HostCounts(c, n, ReferenceInputs(c, n).value, k) && Failing(c, n, ReferenceInputs(c, n).value, k)
  {
    RunsWhen(c, n);
    if ReferenceInputs(c, n).Some? {
      var inputs := ReferenceInputs(c, n).value;
      var k := SomeCounts(c, n, inputs);
      InvocationCounts(c, n, inputs, k);
      forall j: nat | HostCounts(c, n, inputs, j) ensures j == k {
        InvocationCounts(c, n, inputs, j);
      }
    }
  }

  ghost predicate Failing(c: Setup, n: nat, inputs: Ports, k: nat)
    requires n < |c.plan.nodes|
  {
    var a := c.world.invoke(n, k, inputs);
    a.Fail? || (a.Succeed? && !Proper(c.world, c.plan.nodes[n], a))
  }

  /** The same of every flight of every run: a node that was launched completes with the answer that counts. */
  lemma FlightCounts(c: Setup, s: State, n: nat, values: Ports, route: string)
    requires n < |c.plan.nodes| && n in s.inflight && s.inflight[n].Invoked? && s.inflight[n].resume.None?
    requires !c.plan.nodes[n].kind.SetVariable?
    ensures Settle(c.plan.nodes[n], Completion(c, s, n).0) == Finished(values, route)
            <==> exists k: nat :: HostCounts(c, n, s.inflight[n].inputs, k)
                   && c.world.invoke(n, k, s.inflight[n].inputs) == Succeed(values, route)
                   && Proper(c.world, c.plan.nodes[n], Succeed(values, route))
  {
    EndsAsCounted(c, n, s.inflight[n].inputs, values, route);
  }

  // ---------------------------------------------------------------- Resumed nodes

  lemma {:induction false} ResumedCounts(w: World, node: Node, n: nat, paused: Paused, targets: set<string>, from: nat)
    requires 1 <= from <= MaxAttempts(node)
    requires forall j: nat | 1 <= j < from :: Again(ResumedAttempts(w, node, n, paused, targets)(j))
    ensures var (a, m) := LastResumed(w, node, n, paused, targets, from);
            && m >= paused.attempts && a == ResumeAttempt(w, node, n, paused, targets, m)
            && Counts(ResumedAttempts(w, node, n, paused, targets), node.maxAttempts, m - paused.attempts)
    decreases MaxAttempts(node) - from
  {
    var a := ResumeAttempt(w, node, n, paused, targets, paused.attempts + from);
    assert a == ResumedAttempts(w, node, n, paused, targets)(from);
    if Again(a) && from < node.maxAttempts {
      ResumedCounts(w, node, n, paused, targets, from + 1);
    }
  }

  /** A resumed flight, too, comes to the attempt that counts; the retry budget starts anew, the numbering goes on. */
  lemma ResumedFlightCounts(c: Setup, s: State, n: nat)
    requires n < |c.plan.nodes| && n in s.inflight && s.inflight[n].Invoked? && s.inflight[n].resume.Some?
    ensures var node, paused := c.plan.nodes[n], s.inflight[n].resume.value;
            var (a, m) := Completion(c, s, n);
            && m >= paused.attempts && a == ResumeAttempt(c.world, node, n, paused, s.targets, m)
            && Counts(ResumedAttempts(c.world, node, n, paused, s.targets), node.maxAttempts, m - paused.attempts)
  {
    ResumedCounts(c.world, c.plan.nodes[n], n, s.inflight[n].resume.value, s.targets, 1);
  }

  /** The points that the targets do not answer. */
  predicate Unanswered(points: seq<Point>, targets: set<string>, id: string) {
    HasPoint(points, id) && id !in targets
  }

  lemma {:induction false} RemainingExactly(points: seq<Point>, targets: set<string>)
    ensures forall point :: point in Remaining(points, targets) <==> point in points && point.id !in targets
    decreases |points|
  {
    if points != [] {
      RemainingExactly(points[1..], targets);
      assert points == [points[0]] + points[1..];
    }
  }

  lemma {:induction false} MergedExactly(left: seq<Point>, right: seq<Point>)
    ensures forall id :: HasPoint(MergePoints(left, right), id) <==> HasPoint(left, id) || HasPoint(right, id)
    ensures left <= MergePoints(left, right)
    decreases |right|
  {
    if right != [] {
      var next := if HasPoint(left, right[0].id) then left else left + [right[0]];
      MergedExactly(next, right[1..]);
      HasPointSplit(right);
      if next != left {
        HasPointSnoc(left, right[0]);
      }
    }
  }

  lemma HasPointSplit(points: seq<Point>)
    requires points != []
    ensures forall id :: HasPoint(points, id) <==> points[0].id == id || HasPoint(points[1..], id)
  {
    assert points == [points[0]] + points[1..];
  }

  lemma HasPointSnoc(points: seq<Point>, point: Point)
    ensures forall id :: HasPoint(points + [point], id) <==> HasPoint(points, id) || point.id == id
  {
    assert point in points + [point] && forall p <- points :: p in points + [point];
  }

  /** A resumed attempt completes only when every interruption has been answered; until then it is suspended on its new
      ones and on exactly those not answered. */
  lemma CompletesWhenAnswered(w: World, node: Node, n: nat, paused: Paused, targets: set<string>, attempt: nat)
    ensures var raw := w.resume(n, attempt, paused.inputs, paused.points, targets);
            var a := ResumeAttempt(w, node, n, paused, targets, attempt);
            && (a.Succeed? <==> Proper(w, node, raw) && forall point <- paused.points :: point.id in targets)
            && (a.Succeed? ==> a == raw)
            && (a.Fail? <==> raw.Fail? || (raw.Succeed? && !Proper(w, node, raw)))
            && (raw.Fail? ==> a == raw)
            && (a.Interrupt? ==> forall id :: HasPoint(a.points, id)
                                   <==> (raw.Interrupt? && HasPoint(raw.points, id)) || Unanswered(paused.points, targets, id))
  {
    var raw := w.resume(n, attempt, paused.inputs, paused.points, targets);
    var rest := Remaining(paused.points, targets);
    CheckedAnswer(w, node, raw);
    RemainingExactly(paused.points, targets);
    if raw.Interrupt? {
      MergedExactly(raw.points, rest);
    }
    if rest != [] {
      assert rest[0] in rest;
    }
    forall id ensures HasPoint(rest, id) <==> Unanswered(paused.points, targets, id) {
    }
  }
}
