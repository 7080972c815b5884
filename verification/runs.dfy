/** Whole runs: a run without breakpoints, and a run that is resumed until it ends, both end as the reference
    evaluation says, whatever the schedule (workflow/runner_execution.go, workflow/runner_checkpoint.go). */
module WholeRuns {
  import opened Graphs
  import opened Walks
  import opened Topology
  import opened Options
  import opened Plans
  import opened Acceptance
  import opened Evaluation
  import opened Guarantees
  import opened Scheduler
  import opened Agreement
  import opened Progress
  import opened Availability
  import opened Lacking
  import opened Endings
  import opened Alignment
  import opened Checkpoints
  import opened Loading
  import opened Executions

  /** The result the reference evaluation calls for. */
  ghost predicate ResultAsReferred(c: Setup, r: RunResult)
    requires Sound(c)
  {
    match r
    case Completed(outputs, partial) =>
      && Succeeds(c)
      && outputs == OutputsOf(c.plan.nodes[c.plan.graph.end], Reference(c, c.plan.graph.end))
      && (partial <==> exists n: nat :: n < |c.plan.nodes| && FailureOf(Reference(c, n)).Some?)
    case Stopped(n, failure) => n < |c.plan.nodes| && Reference(c, n) == Halted(failure)
    case _ => false
  }

  lemma HandledAsReferred(c: Setup, s: State)
    requires Inv(c, s) && AsReferred(c, s)
    ensures s.handledFailure <==> exists n: nat :: n < |c.plan.nodes| && FailureOf(Reference(c, n)).Some?
  {
    forall n: nat | n < |c.plan.nodes| ensures s.nodes[n].Exception? <==> FailureOf(Reference(c, n)).Some? {
      assert NodeAsReferred(c, s, n);
    }
  }

  lemma CompletedAsReferred(c: Setup, s: State, r: RunResult)
    requires Agrees(c, s) && s.done == |c.plan.nodes|
    requires r == Completed(s.outputs[c.plan.graph.end], s.handledFailure)
    ensures AsReferred(c, s) && ResultAsReferred(c, r)
  {
    CompleteAgrees(c, s);
    HandledAsReferred(c, s);
    assert NodeAsReferred(c, s, c.plan.graph.end);
  }

  /** How a run with no interruptions of its own stands when `Run` returns. */
  ghost predicate Stands(c: Setup, e: Execution, r: RunResult)
    reads e
  {
    e.setup == c && Sound(c) &&
    match r
    case Completed(outputs, partial) => Agrees(c, e.Snapshot()) && e.done == |c.plan.nodes| && r == Completed(e.outputs[c.plan.graph.end], e.handledFailure)
    case Stopped(n, failure) => n < |c.plan.nodes| && Reference(c, n) == Halted(failure)
    case Paused(_, checkpoint) => Begun(c, e.Snapshot()) && Agrees(c, e.Snapshot()) && e.inflight == map[] && checkpoint == Save(c, e.Snapshot())
    case _ => false
  }

  lemma EndedStands(c: Setup, e: Execution, s: State, r: RunResult)
    requires e.setup == c && e.Ended(s, r) && Quiet(c.world) && Agrees(c, s)
    ensures Stands(c, e, r)
  {}

  lemma StandsAsReferred(c: Setup, e: Execution, r: RunResult)
    requires Stands(c, e, r) && !r.Paused?
    ensures ResultAsReferred(c, r) && (r.Completed? <==> Succeeds(c))
    ensures r.Completed? ==> AsReferred(c, e.Snapshot())
  {
    if r.Completed? {
      CompletedAsReferred(c, e.Snapshot(), r);
    }
  }

  /** Schedule independence: without interruptions and breakpoints a run succeeds exactly when the reference
      evaluation has no failure under the stop policy, and then ends in the same state and result. */
  method RunOnce(c: Setup) returns (e: Execution, r: RunResult)
    requires Admitted(c) && Informs(c.world) && Quiet(c.world) && NoBreakpoints(c.plan)
    ensures e.setup == c && ResultAsReferred(c, r)
    ensures r.Completed? <==> Succeeds(c)
    ensures r.Completed? ==> AsReferred(c, e.Snapshot())
  {
    e := new Execution(c);
    InitialAgrees(c);
    r := e.Run(false);
    EndedStands(c, e, Initial(c), r);
    StandsAsReferred(c, e, r);
  }

  /** A checkpoint of an agreeing run can be resumed, and nothing is lost of what has been done. */
  lemma ResumesAsReferred(c: Setup, s: State, targets: set<string>)
    requires Begun(c, s) && Agrees(c, s) && s.inflight == map[]
    ensures var s' := Restore(Save(c, s), targets);
            && Startable(c, s') && Agrees(c, s') && Unsettled(s') == Unsettled(s) && Unpassed(s') == Unpassed(s)
  {
    RestoredAgrees(c, s, targets);
    RoundTrip(c, s, targets);
  }

  ghost predicate DueFrom(c: Setup, s: State, ck: Checkpoint) {
    Begun(c, s) && Agrees(c, s) && s.inflight == map[] && ck == Save(c, s)
  }

  /** A checkpoint from which a run is due to end as the reference evaluation says. */
  ghost predicate Due(c: Setup, ck: Checkpoint) {
    exists s :: DueFrom(c, s, ck)
  }

  /** One run of a plan whose nodes do not interrupt, as the body of a Loop or a Batch is run: it ends as the reference
      evaluation says, or pauses at a breakpoint with a checkpoint from which it is due to. */
  method RunOrResume(c: Setup, resume: Option<Checkpoint>, targets: set<string>) returns (r: RunResult)
    requires Admitted(c) && Informs(c.world) && Quiet(c.world) && (resume.Some? ==> Due(c, resume.value))
    ensures if r.Paused? then Due(c, r.checkpoint) else ResultAsReferred(c, r) && (r.Completed? <==> Succeeds(c))
  {
    var e: Execution;
    if resume.None? {
      e := new Execution(c);
      InitialAgrees(c);
    } else {
      ghost var saved :| DueFrom(c, saved, resume.value);
      ResumesAsReferred(c, saved, targets);
      e := new Execution.Resume(c, resume.value, targets);
    }
    ghost var s := e.Snapshot();
    r := e.Run(resume.Some?);
    EndedStands(c, e, s, r);
    if r.Paused? {
      assert DueFrom(c, e.Snapshot(), r.checkpoint);
    } else {
      StandsAsReferred(c, e, r);
    }
  }

  /** Breakpoint transparency: whatever static breakpoints are set, a run that is resumed each time it pauses
      ends after finitely many pauses, as the uninterrupted run does. */
  method RunToEnd(c: Setup) returns (e: Execution, r: RunResult)
    requires Admitted(c) && Informs(c.world) && Quiet(c.world)
    ensures e.setup == c && ResultAsReferred(c, r)
    ensures r.Completed? <==> Succeeds(c)
    ensures r.Completed? ==> AsReferred(c, e.Snapshot())
  {
    e := new Execution(c);
    InitialAgrees(c);
    r := e.Run(false);
    EndedStands(c, e, Initial(c), r);
    while r.Paused?
      invariant Stands(c, e, r)
      decreases r.Paused?, Unsettled(e.Snapshot()), Unpassed(e.Snapshot())
    {
      ResumesAsReferred(c, e.Snapshot(), {});
      e := new Execution.Resume(c, r.checkpoint, {});
      ghost var s := e.Snapshot();
      r := e.Run(true);
      EndedStands(c, e, s, r);
    }
    StandsAsReferred(c, e, r);
  }

  // ---------------------------------------------------------------- Checkpoints of fresh runs load

  /** What a fresh run saves when it pauses passes every check on loading, and restores the run as it stood. */
  lemma FreshCheckpointLoads(c: Setup, e: Execution, r: RunResult, targets: set<string>)
    requires Admitted(c) && Mints(c.world) && e.setup == c && e.Ended(Initial(c), r) && r.Paused?
    ensures Loads(c, r.info, r.checkpoint)
    ensures var s := Restore(r.checkpoint, targets);
            && s.edges == e.edges && s.nodes == e.nodes && s.outputs == e.outputs && s.failures == e.failures
            && s.done == e.done && s.paused == e.paused && s.beforePassed == e.beforePassed && s.variables == e.variables
            && s.handledFailure == e.handledFailure
            && forall n :: n in s.ready <==> n in e.ready || n in e.paused
  {
    InitialMinted(c);
    LoadsExactly(c, e.Snapshot());
    RoundTrip(c, e.Snapshot(), targets);
    RestoredQueue(c, e.Snapshot());
  }

  // ---------------------------------------------------------------- Resumed runs are never stuck

  /** What accepted answers to a checkpoint that loads leave to launch: someone, and without concurrency everyone. */
  ghost predicate Answered(c: Setup, s: State) {
    && (c.plan.maxConcurrency == 1 ==> AllAnswered(s))
    && (s.paused != map[] ==> exists n :: n in s.ready && !Sleeps(s, n))
  }

  lemma AnsweredNeverStuck(c: Setup, s: State, e: Execution, r: RunResult)
    requires e.setup == c && e.Ended(s, r) && Answered(c, s)
    ensures !r.NoProgress? && !r.NoContext?
  {}

  /** Answering every reported interruption is always enough. */
  lemma AllAnsweredNeverStuck(s: State, e: Execution, r: RunResult)
    requires e.Ended(s, r) && AllAnswered(s)
    ensures !r.NoProgress?
  {}

  lemma RestoredStartable(c: Setup, s: State, targets: set<string>)
    requires Begun(c, s) && Minted(c, s) && s.inflight == map[]
    ensures var s' := Restore(Save(c, s), targets);
            && Startable(c, s') && Minted(c, s') && s'.paused == s.paused
            && forall n :: n in s'.ready <==> n in s.ready || n in s.paused
  {
    RestoredInv(c, s, targets);
    RoundTrip(c, s, targets);
    RestoredQueue(c, s);
  }

  lemma SleeperReported(c: Setup, s: State, n: nat)
    requires Inv(c, s) && Minted(c, s) && Asleep(s, n)
    ensures s.info.contexts != []
  {
    assert NodeRight(c, s, n);
    assert s.paused[n].points[0] in s.paused[n].points;
  }

  /** A state restored from a checkpoint that loads, with targets that are accepted, is one to go on from. */
  lemma AcceptedAnswers(c: Setup, s: State, targets: seq<string>)
    requires Begun(c, s) && Minted(c, s) && s.inflight == map[] && s.pauseRequested && NoneQueued(s) && TargetsRight(s.info, targets)
    requires c.plan.maxConcurrency == 1 ==> Alone(s)
    ensures var s' := Restore(Save(c, s), set id | id in targets);
            Startable(c, s') && Minted(c, s') && Answered(c, s')
  {
    RestoredStartable(c, s, set id | id in targets);
    if s.paused != map[] {
      var n :| n in s.paused;
      SleeperReported(c, s, n);
      ResumeWakes(c, s, targets);
      WokenAnswered(c, s, Restore(Save(c, s), set id | id in targets));
    }
  }

  lemma WokenAnswered(c: Setup, s: State, s': State)
    requires s'.paused == s.paused && NoneQueued(s) && (c.plan.maxConcurrency == 1 ==> Alone(s))
    requires exists n :: n in s'.ready && n in s'.paused && !Sleeps(s', n)
    ensures Answered(c, s')
  {
    var n :| n in s'.ready && n in s'.paused && !Sleeps(s', n);
    assert forall m <- s'.paused :: Asleep(s, m);
  }

  /** How a run whose suspended nodes had all been answered, if it had no concurrency, stands when it pauses. */
  ghost predicate PausedAlone(c: Setup, s: State, r: RunResult)
    requires r.Paused?
  {
    && Begun(c, s) && Minted(c, s) && s.inflight == map[] && s.pauseRequested
    && r.info == s.info && r.checkpoint == Save(c, s) && (c.plan.maxConcurrency == 1 ==> Alone(s))
  }

  /** A run that ends has executed End unless End can be avoided. */
  ghost predicate EndsWell(c: Setup, e: Execution, r: RunResult)
    requires Sound(c)
    reads e
  {
    r.Completed? && Accepted(c.world, c.plan) && !Avoidable(c.plan, c.order, c.plan.graph.start) ==> Active(e.Snapshot(), c.plan.graph.end)
  }

  lemma CompletedEndsWell(c: Setup, s: State, e: Execution, r: RunResult)
    requires Sound(c) && e.setup == c && e.Ended(s, r) && (Accepted(c.world, c.plan) ==> LacksRight(c, s))
    ensures EndsWell(c, e, r)
  {
    if r.Completed? && Accepted(c.world, c.plan) && !Avoidable(c.plan, c.order, c.plan.graph.start) {
      EndReached(c, e.Snapshot());
    }
  }

  lemma RestoredLacks(c: Setup, s: State, targets: set<string>)
    requires Begun(c, s) && s.inflight == map[] && LacksRight(c, s)
    ensures LacksRight(c, Restore(Save(c, s), targets))
  {
    RoundTrip(c, s, targets);
    SameLacks(c, s, Restore(Save(c, s), targets));
  }

  /** Between two runs of a chain. */
  ghost predicate Chained(c: Setup, e: Execution, r: RunResult)
    requires Sound(c)
    reads e
  {
    && e.setup == c && !r.NoProgress? && !r.NoContext? && EndsWell(c, e, r)
    && (r.Paused? ==> PausedAlone(c, e.Snapshot(), r) && (Accepted(c.world, c.plan) ==> LacksRight(c, e.Snapshot())))
  }

  lemma ChainGoesOn(c: Setup, s: State, e: Execution, r: RunResult)
    requires Sound(c) && e.setup == c && e.Ended(s, r) && Answered(c, s) && Minted(c, s)
    requires Accepted(c.world, c.plan) ==> LacksRight(c, s)
    ensures Chained(c, e, r)
  {
    AnsweredNeverStuck(c, s, e, r);
    CompletedEndsWell(c, s, e, r);
  }

  method RunFirst(c: Setup) returns (e: Execution, r: RunResult)
    requires Admitted(c) && Informs(c.world) && Mints(c.world)
    ensures Chained(c, e, r)
  {
    e := new Execution(c);
    InitialMinted(c);
    r := e.Run(false);
    if Accepted(c.world, c.plan) {
      InitialLacks(c);
    }
    ChainGoesOn(c, Initial(c), e, r);
  }

  method RunNext(c: Setup, before: Execution, paused: RunResult, targets: seq<string>) returns (e: Execution, r: RunResult)
    requires Admitted(c) && Informs(c.world) && paused.Paused? && Chained(c, before, paused)
    requires Loads(c, paused.info, paused.checkpoint) && TargetsRight(paused.info, targets)
    ensures Chained(c, e, r)
  {
    ghost var s := before.Snapshot();
    LoadsExactly(c, s);
    AcceptedAnswers(c, s, targets);
    e := new Execution.Resume(c, paused.checkpoint, set id | id in targets);
    ghost var s' := e.Snapshot();
    if Accepted(c.world, c.plan) {
      RestoredLacks(c, s, set id | id in targets);
    }
    r := e.Run(true);
    ChainGoesOn(c, s', e, r);
  }

  /** A run that is resumed from each checkpoint it saves, with whatever targets, as long as the checkpoint loads and
      the targets are accepted: it never fails for want of progress or of a context, whatever the host interrupts,
      and it executes End, if it ends, unless the plan lets End be avoided. */
  method RunAndResume(c: Setup, answers: seq<seq<string>>) returns (e: Execution, r: RunResult, refused: bool)
    requires Admitted(c) && Informs(c.world) && Mints(c.world)
    ensures !r.NoProgress? && !r.NoContext? && EndsWell(c, e, r)
  {
    e, r := RunFirst(c);
    refused := false;
    for i := 0 to |answers|
      invariant Chained(c, e, r)
    {
      if !r.Paused? {
        return;
      }
      var loads := Load(c, r.info, r.checkpoint);
      var answered := CheckTargets(r.info, answers[i]);
      if !loads || answered.None? {
        return e, r, true;
      }
      e, r := RunNext(c, e, r, answers[i]);
    }
  }

  // ---------------------------------------------------------------- Settings that do not matter

  /** The same run with other concurrency limits and breakpoints. */
  function Reset(c: Setup, maxConcurrency: int, before: set<nat>, after: set<nat>): Setup {
    c.(plan := c.plan.(maxConcurrency := maxConcurrency, before := before, after := after))
  }

  lemma {:induction false} SameEvaluation(c: Setup, maxConcurrency: int, before: set<nat>, after: set<nat>, k: nat)
    requires Sound(c) && k <= |c.order|
    ensures Sound(Reset(c, maxConcurrency, before, after))
    ensures Evaluate(Reset(c, maxConcurrency, before, after), k) == Evaluate(c, k)
    decreases k
  {
    if k > 0 {
      SameEvaluation(c, maxConcurrency, before, after, k - 1);
    }
  }

  /** The reference evaluation, and with it the end of every run, depends on neither. */
  lemma SameReference(c: Setup, maxConcurrency: int, before: set<nat>, after: set<nat>, n: nat)
    requires Sound(c) && n < |c.plan.nodes|
    ensures Sound(Reset(c, maxConcurrency, before, after))
    ensures Reference(Reset(c, maxConcurrency, before, after), n) == Reference(c, n)
  {
    SameEvaluation(c, maxConcurrency, before, after, Position(c.order, n));
  }
}
