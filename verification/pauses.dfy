/** Pausing is transparent: what pausing an execution and resuming it later leaves behind, against not pausing at all
    (agent/continuation/control.go, advance.go). Executions are compared but for the reason they give and the time they took. */
module Pauses {
  import opened Options
  import opened Records
  import opened Histories

  /** The execution after one more move, unless that was refused or found nothing to do. */
  function Then(e: Option<Execution>, m: Move, now: nat): Option<Execution> {
    if e.Some? && Legal(e.value, m, now) && Make(e.value, m, now).Changed? then Some(Make(e.value, m, now).execution) else None
  }

  /** Executions that differ in nothing but their reason. */
  predicate Alike(a: Execution, b: Execution) {
    a.(reason := b.reason) == b
  }

  // ---------------------------------------------------------------- Pausing between stages

  /** Pausing an execution without a running stage and resuming it gives it back, exactly unless its Work was
      interrupted: that asks for a retry. */
  lemma PauseBetweenStages(r: Record, why: string, again: string, t: nat, t': nat)
    requires Sane(r) && !Terminal(r.execution.status) && !Engaged(r.execution.status) && !r.execution.status.Paused?
    ensures Then(Then(Some(r.execution), Pausing(why), t), Resuming(again), t')
            == if Retryable(r.execution) then None else Some(r.execution.(reason := again))
  {
    var e := r.execution;
    assert Then(Some(e), Pausing(why), t) == Some(Pause(e, why).execution);
  }

  // ---------------------------------------------------------------- Pausing during Work

  /** A stage that ends although a pause was requested has been asked to pause, and nothing else. */
  lemma AskedToPause(e: Execution, why: string, t: nat)
    requires e.status.Running?
    ensures Then(Some(e), Pausing(why), t) == Some(e.(status := PauseRequested, reason := why))
  {}

  /** A Worker that succeeds although a pause was requested has worked for the decision that is resumed to: the result
      is that of a Worker that was never asked to pause. */
  lemma PauseDuringWork(r: Record, why: string, again: string, result: WorkResult, t: nat, now: nat, t': nat)
    requires Sane(r) && r.execution.status.Running? && r.execution.phase.Work? && r.execution.currentAttempt.value.failure.None?
    requires WorkRight(result)
    ensures var work := EndingWork(result, None);
            var paused := Then(Then(Then(Some(r.execution), Pausing(why), t), work, now), Resuming(again), t');
            var straight := Then(Some(r.execution), work, now);
            paused.Some? && straight.Some? && Alike(paused.value, straight.value)
  {
    var e := r.execution;
    AskedToPause(e, why, t);
    var asked := e.(status := PauseRequested, reason := why);
    assert Then(Some(asked), EndingWork(result, None), now) == Some(WorkOutcome(asked, result, None, now).execution);
    assert Then(Some(e), EndingWork(result, None), now) == Some(WorkOutcome(e, result, None, now).execution);
  }

  /** A Worker that fails leaves the same retry, asked to pause or not. */
  lemma PauseDuringFailingWork(r: Record, why: string, again: string, result: WorkResult, error: string, t: nat, now: nat, t': nat)
    requires Sane(r) && r.execution.status.Running? && r.execution.phase.Work? && WorkRight(result)
    ensures var work := EndingWork(result, Some(error));
            var paused := Then(Then(Then(Some(r.execution), Pausing(why), t), work, now), RetryingWork(again), t');
            paused.Some? && paused == Then(Then(Some(r.execution), work, now), RetryingWork(again), t')
  {
    var e, failed := r.execution, Some(error);
    AskedToPause(e, why, t);
    var asked := e.(status := PauseRequested, reason := why);
    assert Then(Some(asked), EndingWork(result, failed), now) == Some(WorkOutcome(asked, result, failed, now).execution);
    assert Then(Some(e), EndingWork(result, failed), now) == Some(WorkOutcome(e, result, failed, now).execution);
    SameRetry(e, asked, result, failed, now, again);
  }

  lemma SameRetry(e: Execution, asked: Execution, result: WorkResult, error: Option<string>, now: nat, again: string)
    requires e.status.Running? && e.phase.Work? && e.currentAttempt.Some? && error.Some?
    requires e.suspension.None? && e.wait.None? && e.block.None?
    requires asked == e.(status := PauseRequested, reason := asked.reason)
    ensures var v := RetryWork(WorkOutcome(e, result, error, now).execution, again);
            v.Changed? && v == RetryWork(WorkOutcome(asked, result, error, now).execution, again)
  {}

  // ---------------------------------------------------------------- Pausing during a decision

  /** A decision made while a pause is requested is dropped, whatever it was, but the Work it was made on is kept: the
      resumed execution is ready to decide on it again. */
  lemma PauseDuringDecision(r: Record, why: string, again: string, dropped: Option<Decision>, t: nat, now: nat, t': nat)
    requires Sane(r) && r.execution.status.Running? && r.execution.phase.Decide?
    requires dropped.Some? ==> DecisionRight(dropped.value)
    ensures var resumed := Then(Then(Then(Some(r.execution), Pausing(why), t), EndingDecision(dropped), now), Resuming(again), t');
            resumed.Some? && AsBeforeDeciding(r.execution, resumed.value)
  {
    var e := r.execution;
    AskedToPause(e, why, t);
    var asked := e.(status := PauseRequested, reason := why);
    assert Then(Some(asked), EndingDecision(dropped), now) == Some(DecisionOutcome(asked, dropped, now).execution);
  }

  /** Both deciding, on the same Work and with the same state. */
  predicate SameGround(e: Execution, again: Execution) {
    && e.status.Running? && again.status.Running? && e.currentAttempt.Some? && again.currentAttempt.Some?
    && again.currentAttempt.value.work == e.currentAttempt.value.work
    && again.nextInput == e.nextInput && again.controllerState == e.controllerState && again.output == e.output
    && again.accounting.(activeDuration := e.accounting.activeDuration) == e.accounting
  }

  lemma SameDecision(e: Execution, again: Execution, d: Decision, now: nat, t: nat)
    requires SameGround(e, again) && DecisionRight(d)
    ensures DecidedAlike(DecisionOutcome(again, Some(d), t).execution, DecisionOutcome(e, Some(d), now).execution)
  {}

  lemma Decides(e: Execution, d: Decision, now: nat)
    requires e.status.Running? && DecisionRight(d)
    ensures Then(Some(e), EndingDecision(Some(d)), now) == Some(DecisionOutcome(e, Some(d), now).execution)
  {}

  lemma StartsAgain(e: Execution, resumed: Execution, checkedAt: nat, t: nat)
    requires e.status.Running? && AsBeforeDeciding(e, resumed) && Runnable(resumed, Decide, checkedAt)
    ensures Then(Some(resumed), StartingDecision(checkedAt), t) == Some(StartDecision(resumed, t).execution)
    ensures SameGround(e, StartDecision(resumed, t).execution)
  {}

  /** Deciding again then leads where the decision would have led at first. */
  lemma DecidingAgain(e: Execution, resumed: Execution, d: Decision, checkedAt: nat, now: nat, t: nat, t': nat)
    requires e.status.Running? && DecisionRight(d) && AsBeforeDeciding(e, resumed) && Runnable(resumed, Decide, checkedAt)
    ensures var late := Then(Then(Some(resumed), StartingDecision(checkedAt), t), EndingDecision(Some(d)), t');
            var first := Then(Some(e), EndingDecision(Some(d)), now);
            late.Some? && first.Some? && DecidedAlike(late.value, first.value)
  {
    StartsAgain(e, resumed, checkedAt, t);
    DecidedLate(e, StartDecision(resumed, t).execution, d, now, t');
  }

  lemma DecidedLate(e: Execution, again: Execution, d: Decision, now: nat, t: nat)
    requires SameGround(e, again) && DecisionRight(d)
    ensures var late, first := Then(Some(again), EndingDecision(Some(d)), t), Then(Some(e), EndingDecision(Some(d)), now);
            late.Some? && first.Some? && DecidedAlike(late.value, first.value)
  {
    Decides(again, d, t);
    Decides(e, d, now);
    SameDecision(e, again, d, now, t);
  }

  /** Ready to decide on the same Work. */
  predicate AsBeforeDeciding(e: Execution, resumed: Execution) {
    && resumed.status.Ready? && resumed.phase.Decide? && resumed.suspension.None? && resumed.wait.None? && resumed.block.None?
    && e.currentAttempt.Some? && resumed.currentAttempt.Some?
    && resumed.currentAttempt.value.work == e.currentAttempt.value.work && resumed.currentAttempt.value.work.Some?
    && resumed.nextInput == e.nextInput && resumed.controllerState == e.controllerState && resumed.output == e.output
    && resumed.accounting.(activeDuration := e.accounting.activeDuration) == e.accounting
  }

  /** Executions that a decision has taken to the same place, at different expense. */
  predicate DecidedAlike(a: Execution, b: Execution) {
    && a.status == b.status && a.phase == b.phase && a.wait == b.wait && a.block == b.block && a.output == b.output
    && a.nextInput == b.nextInput && a.controllerState == b.controllerState && a.reason == b.reason
    && a.accounting.attempts == b.accounting.attempts && a.accounting.turns == b.accounting.turns && a.accounting.tokens == b.accounting.tokens
    && a.currentAttempt.None? && b.currentAttempt.None?
    && a.lastAttempt.Some? && b.lastAttempt.Some? && a.lastAttempt.value.work == b.lastAttempt.value.work
    && a.lastAttempt.value.decision == b.lastAttempt.value.decision
  }
}
