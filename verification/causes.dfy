/** What the records of a continuation execution say: why each has the status it has, what a decision and a Worker's
    result made of the execution, what was charged for it, and what each Work was given
    (agent/continuation/control.go, advance.go, recovery.go, limits.go). */
module Causes {
  import opened Options
  import opened Records
  import opened Histories

  /** The decision a record carries out. */
  predicate Acts(r: Record, a: Action) {
    && r.transition.cause.ControllerAction? && r.execution.lastAttempt.Some? && r.execution.lastAttempt.value.decision.Some?
    && r.execution.lastAttempt.value.decision.value.action == a
  }

  predicate Ending(a: Action) {
    a.Complete? || a.Fail? || a.Cancel?
  }

  /** The record resumes an execution that was paused in status `s`. */
  predicate Returns(prev: Execution, r: Record, s: Status) {
    r.transition.cause.ResumeDone? && prev.suspension.Some? && prev.suspension.value.status == s
  }

  /** A result that comes when no stage is engaged leaves the status as it is. */
  predicate Lingers(prev: Execution, r: Record, s: Status) {
    r.transition.cause.StageInterrupted? && prev.status == s
  }

  predicate Woken(c: Cause) {
    c.Signalled? || c.TimeWake? || c.BlockResolved?
  }

  // ---------------------------------------------------------------- Why a record has its status

  predicate EndExplained(prev: Execution, r: Record) {
    var c, s := r.transition.cause, r.execution.status;
    && (s.Completed? <==> Acts(r, Complete))
    && (s.Failed? <==> c.FailDone? || Acts(r, Fail))
    && (s.Cancelled? <==> c.CancelDone? || (c.Recovery? && prev.status.CancelRequested?) || Acts(r, Cancel))
    && (s.Limited? <==> c.LimitReached?)
  }

  predicate RestExplained(prev: Execution, r: Record) {
    var c, s := r.transition.cause, r.execution.status;
    && (s.Paused? <==> c.PauseDone? || (c.Recovery? && prev.status.PauseRequested?) || Lingers(prev, r, Paused))
    && (s.Interrupted? <==>
          || (c.Recovery? && prev.status.Running?) || Lingers(prev, r, Running) || Lingers(prev, r, Interrupted)
          || Returns(prev, r, Interrupted))
    && (s.Waiting? <==> Acts(r, Wait) || Returns(prev, r, Waiting) || Lingers(prev, r, Waiting))
    && (s.Blocked? <==> Acts(r, Block) || Returns(prev, r, Blocked) || Lingers(prev, r, Blocked))
  }

  predicate GoingExplained(prev: Execution, r: Record) {
    var c, s := r.transition.cause, r.execution.status;
    && (s.Running? <==> c.StageStart?) && (s.PauseRequested? <==> c.PauseAsked?) && (s.CancelRequested? <==> c.CancelAsked?)
    && (s.Ready? <==>
          || c.WorkComplete? || c.RetriedWork? || c.RetriedDecision? || Woken(c)
          || Acts(r, Continue) || Returns(prev, r, Ready) || Lingers(prev, r, Ready))
  }

  predicate StatusExplained(prev: Execution, r: Record) {
    EndExplained(prev, r) && RestExplained(prev, r) && GoingExplained(prev, r)
  }

  ghost predicate Made(prev: Record, r: Record, m: Move, now: nat) {
    RecordRight(prev) && RecordRight(r) && FollowsBy(prev, r, m, now)
  }

  lemma CallersExplained(prev: Record, r: Record, m: Move, now: nat)
    requires Made(prev, r, m, now) && OfCaller(m)
    ensures StatusExplained(prev.execution, r)
  {}

  lemma RecoveryExplained(prev: Record, r: Record, m: Move, now: nat)
    requires Made(prev, r, m, now) && m.Recovering?
    ensures StatusExplained(prev.execution, r)
  {}

  lemma StartsExplained(prev: Record, r: Record, m: Move, now: nat)
    requires Made(prev, r, m, now) && (m.Limiting? || m.StartingWork? || m.StartingDecision?)
    ensures StatusExplained(prev.execution, r)
  {}

  lemma WorkExplained(prev: Record, r: Record, m: Move, now: nat)
    requires Made(prev, r, m, now) && m.EndingWork? && prev.execution.status.Running?
    ensures StatusExplained(prev.execution, r)
  {}

  lemma StoppedExplained(prev: Record, r: Record, m: Move, now: nat)
    requires Made(prev, r, m, now) && m.EndingWork? && (prev.execution.status.PauseRequested? || prev.execution.status.CancelRequested?)
    ensures StatusExplained(prev.execution, r)
  {}

  lemma DecisionExplained(prev: Record, r: Record, m: Move, now: nat)
    requires Made(prev, r, m, now) && m.EndingDecision? && prev.execution.status.Running? && m.decision.None?
    ensures StatusExplained(prev.execution, r)
  {}

  lemma DroppedExplained(prev: Record, r: Record, m: Move, now: nat)
    requires Made(prev, r, m, now) && m.EndingDecision? && (prev.execution.status.PauseRequested? || prev.execution.status.CancelRequested?)
    ensures StatusExplained(prev.execution, r)
  {}

  lemma LateExplained(prev: Record, r: Record, m: Move, now: nat)
    requires Made(prev, r, m, now) && (m.EndingWork? || m.EndingDecision?) && !Engaged(prev.execution.status)
    ensures StatusExplained(prev.execution, r)
  {}

  lemma EndingExplained(prev: Record, r: Record, m: Move, now: nat)
    requires Made(prev, r, m, now) && m.EndingDecision? && prev.execution.status.Running? && m.decision.Some? && Ending(m.decision.value.action)
    ensures StatusExplained(prev.execution, r)
  {}

  lemma ContinueExplained(prev: Record, r: Record, m: Move, now: nat)
    requires Made(prev, r, m, now) && m.EndingDecision? && prev.execution.status.Running? && m.decision.Some?
    requires m.decision.value.action.Continue?
    ensures StatusExplained(prev.execution, r)
  {}

  lemma ActionExplained(prev: Record, r: Record, m: Move, now: nat)
    requires Made(prev, r, m, now) && m.EndingDecision? && prev.execution.status.Running? && m.decision.Some?
    requires !Ending(m.decision.value.action) && !m.decision.value.action.Continue?
    ensures StatusExplained(prev.execution, r)
  {}

  lemma MoveOf(log: seq<Record>, i: nat) returns (m: Move, now: nat)
    requires WellFormed(log) && 0 < i < |log|
    ensures Made(log[i - 1], log[i], m, now)
  {
    EveryRecordRight(log, i - 1);
    assert Linked(log, i);
    m, now :| FollowsBy(log[i - 1], log[i], m, now);
  }

  /** Why a record has the status it has: a status comes about exactly by these causes. */
  lemma WhyStatus(log: seq<Record>, i: nat)
    requires WellFormed(log) && 0 < i < |log|
    ensures StatusExplained(log[i - 1].execution, log[i])
  {
    var m, now := MoveOf(log, i);
    if OfCaller(m) {
      CallersExplained(log[i - 1], log[i], m, now);
    } else if m.Recovering? {
      RecoveryExplained(log[i - 1], log[i], m, now);
    } else if !m.EndingWork? && !m.EndingDecision? {
      StartsExplained(log[i - 1], log[i], m, now);
    } else if !Engaged(log[i - 1].execution.status) {
      LateExplained(log[i - 1], log[i], m, now);
    } else if m.EndingWork? {
      if log[i - 1].execution.status.Running? {
        WorkExplained(log[i - 1], log[i], m, now);
      } else {
        StoppedExplained(log[i - 1], log[i], m, now);
      }
    } else if log[i - 1].execution.status.Running? && m.decision.Some? {
      if Ending(m.decision.value.action) {
        EndingExplained(log[i - 1], log[i], m, now);
      } else if m.decision.value.action.Continue? {
        ContinueExplained(log[i - 1], log[i], m, now);
      } else {
        ActionExplained(log[i - 1], log[i], m, now);
      }
    } else if !log[i - 1].execution.status.Running? {
      DroppedExplained(log[i - 1], log[i], m, now);
    } else {
      DecisionExplained(log[i - 1], log[i], m, now);
    }
  }

  // ---------------------------------------------------------------- What a decision makes of an execution

  /** What callers were given to hold, and a decision may change, is as it was. */
  predicate Keeps(e: Execution, e': Execution) {
    && e'.nextInput == e.nextInput && e'.controllerState == e.controllerState && e'.output == e.output
  }

  /** The record carries out a valid decision: it waits, or is blocked, on what the decision says, and hands on its input;
      it changes the state only if the decision has one, and the output only if it ends the execution. */
  predicate CarriesOut(e: Execution, r: Record, d: Decision) {
    var e' := r.execution;
    && DecisionRight(d) && e.status.Running? && e.currentAttempt.Some? && e'.currentAttempt.None?
    && e'.lastAttempt == Some(e.currentAttempt.value.(decision := Some(d), decisionEndedAt := r.transition.at, failure := None, interrupted := false))
    && e'.wait == d.wait && e'.block == d.block && e'.suspension.None? && e'.activation == e.activation
    && e'.nextInput == d.nextInput && e'.controllerState == (if d.state.Some? then d.state.value else e.controllerState)
    && e'.output == (if Ending(d.action) then d.output else e.output)
    && (e'.phase.Decide? <==> Ending(d.action)) && e'.reason == d.reason == r.transition.reason
  }

  predicate HandedOn(e: Execution, r: Record) {
    if r.transition.cause.ControllerAction?
    then r.execution.lastAttempt.Some? && r.execution.lastAttempt.value.decision.Some?
         && CarriesOut(e, r, r.execution.lastAttempt.value.decision.value)
    else Keeps(e, r.execution)
  }

  /** A decision that comes in time is what is made of the execution, charged for it. */
  lemma InTime(e: Execution, d: Decision, now: nat) returns (charged: Execution)
    requires e.currentAttempt.Some? && DecisionRight(d) && e.status.Running?
    ensures DecisionOutcome(e, Some(d), now) == Changed(Decided(charged, d), ControllerAction, d.reason, "")
    ensures charged == e.(accounting := charged.accounting, currentAttempt := charged.currentAttempt)
    ensures charged.currentAttempt
         == Some(e.currentAttempt.value.(decision := Some(d), decisionEndedAt := now, failure := None, interrupted := false))
  {
    var attempt := e.currentAttempt.value.(decisionEndedAt := now);
    charged := e.(accounting := Charged(e.accounting, attempt.decisionStartedAt, now),
                  currentAttempt := Some(attempt.(decision := Some(d), failure := None, interrupted := false)));
  }

  lemma ActionCarriedOut(prev: Record, r: Record, m: Move, now: nat)
    requires Made(prev, r, m, now) && m.EndingDecision? && prev.execution.status.Running? && m.decision.Some?
    ensures r.transition.cause.ControllerAction? && CarriesOut(prev.execution, r, m.decision.value)
  {
    var charged := InTime(prev.execution, m.decision.value, now);
    assert r == NextRecord(prev, Changed(Decided(charged, m.decision.value), ControllerAction, m.decision.value.reason, ""), now);
  }

  lemma DecisionKeeps(prev: Record, r: Record, m: Move, now: nat)
    requires Made(prev, r, m, now) && m.EndingDecision? && (!prev.execution.status.Running? || m.decision.None?)
    ensures !r.transition.cause.ControllerAction? && Keeps(prev.execution, r.execution)
  {}

  lemma WorkKeeps(e: Execution, result: WorkResult, error: Option<string>, now: nat)
    ensures var v := WorkOutcome(e, result, error, now); !v.cause.ControllerAction? && Keeps(e, v.execution)
  {}

  lemma CallersKeep(prev: Record, r: Record, m: Move, now: nat)
    requires Made(prev, r, m, now) && OfCaller(m)
    ensures !r.transition.cause.ControllerAction? && Keeps(prev.execution, r.execution)
  {}

  lemma RecoveryKeeps(e: Execution, now: nat)
    ensures var v := Recover(e, now); v.Changed? ==> !v.cause.ControllerAction? && Keeps(e, v.execution)
  {}

  lemma StagesKeep(prev: Record, r: Record, m: Move, now: nat)
    requires Made(prev, r, m, now) && (m.Limiting? || m.StartingWork? || m.StartingDecision?)
    ensures !r.transition.cause.ControllerAction? && Keeps(prev.execution, r.execution)
  {}

  /** A record that carries out a decision holds what the decision says, and no other record touches the input, the state
      or the output. */
  lemma WhatDecisionsChange(log: seq<Record>, i: nat)
    requires WellFormed(log) && 0 < i < |log|
    ensures HandedOn(log[i - 1].execution, log[i])
  {
    var m, now := MoveOf(log, i);
    if m.EndingDecision? && log[i - 1].execution.status.Running? && m.decision.Some? {
      ActionCarriedOut(log[i - 1], log[i], m, now);
    } else if m.EndingDecision? {
      DecisionKeeps(log[i - 1], log[i], m, now);
    } else if m.EndingWork? {
      WorkKeeps(log[i - 1].execution, m.result, m.error, now);
    } else if OfCaller(m) {
      CallersKeep(log[i - 1], log[i], m, now);
    } else if m.Recovering? {
      RecoveryKeeps(log[i - 1].execution, now);
    } else {
      StagesKeep(log[i - 1], log[i], m, now);
    }
  }

  /** The input and the state the next Work is given are those of the last decision before it. */
  lemma {:induction false} LastDecisionHolds(log: seq<Record>, i: nat, j: nat)
    requires WellFormed(log) && i <= j < |log|
    requires forall k: nat | i < k <= j :: !log[k].transition.cause.ControllerAction?
    ensures Keeps(log[i].execution, log[j].execution)
    decreases j - i
  {
    if i < j {
      LastDecisionHolds(log, i, j - 1);
      WhatDecisionsChange(log, j);
    }
  }

  // ---------------------------------------------------------------- Where the end of Work leads

  /** Ready to decide, at once or when resumed. */
  predicate Deciding(e: Execution) {
    || (e.status.Ready? && e.phase.Decide?)
    || (e.status.Paused? && e.suspension.Some? && e.suspension.value.status.Ready? && e.suspension.value.phase.Decide?
        && !e.suspension.value.retryRequired)
  }

  /** A Worker that succeeds leads to a decision, at once or after the pause that was asked for; one that fails leaves Work
      that only an explicit retry repeats. A stage asked to cancel ends cancelled, whatever its Worker did. */
  lemma WhereWorkLeads(prev: Record, r: Record, m: Move, now: nat)
    requires Made(prev, r, m, now) && m.EndingWork? && Engaged(prev.execution.status)
    ensures prev.execution.status.CancelRequested? <==> r.execution.status.Cancelled?
    ensures m.error.None? && !prev.execution.status.CancelRequested? <==> Deciding(r.execution)
    ensures m.error.Some? && !prev.execution.status.CancelRequested? <==> Retryable(r.execution)
    ensures prev.execution.status.PauseRequested? <==> r.execution.status.Paused?
    ensures Retryable(r.execution) ==> r.execution.currentAttempt.value.interrupted && r.execution.currentAttempt.value.failure.Some?
  {
    assert r == NextRecord(prev, WorkOutcome(prev.execution, m.result, m.error, now), now);
  }

  /** A recovered stage leaves the execution cancelled if that was asked; otherwise Work without a durable result is
      interrupted, to be retried explicitly, paused or not, and a decision may be taken again. */
  lemma WhereRecoveryLeads(prev: Record, r: Record, m: Move, now: nat)
    requires Made(prev, r, m, now) && m.Recovering?
    ensures prev.execution.status.CancelRequested? <==> r.execution.status.Cancelled?
    ensures prev.execution.status.PauseRequested? <==> r.execution.status.Paused?
    ensures !r.execution.status.Cancelled? && r.execution.phase.Work? && !HasWork(r.execution.currentAttempt) ==> Retryable(r.execution)
    ensures !r.execution.status.Cancelled? && r.execution.phase.Decide? ==> !Retryable(r.execution) && HasWork(r.execution.currentAttempt)
    ensures !r.execution.status.Cancelled? ==> r.execution.currentAttempt.Some? && r.execution.currentAttempt.value.interrupted
  {
    assert r == NextRecord(prev, Recover(prev.execution, now), now);
  }

  /** A normalized result is valid: it is the result given, or an error goes with it. */
  lemma NormalizedExactly(result: WorkResult, error: Option<string>)
    ensures var (result', error') := Normalized(result, error);
            && WorkRight(result') && result'.value == result.value && (error.Some? ==> error' == error)
            && (error'.None? <==> error.None? && WorkRight(result)) && (WorkRight(result) ==> result' == result)
            && (result.turns >= 0 ==> result'.turns == result.turns)
            && (result.inputTokens >= 0 ==> result'.inputTokens == result.inputTokens)
            && (result.outputTokens >= 0 ==> result'.outputTokens == result.outputTokens)
  {}

  // ---------------------------------------------------------------- Limits

  /** A limit is reached: of attempts only before Work, of turns, tokens and active time, or the deadline. */
  predicate Reached(limits: Limits, a: Accounting, phase: Phase, now: nat) {
    || (phase.Work? && limits.maxAttempts > 0 && limits.maxAttempts <= a.attempts)
    || Exhausted(limits, a)
    || (limits.deadline.Some? && limits.deadline.value <= now)
  }

  /** A ready execution is ended by a limit, with a reason, exactly if it has reached one; otherwise it may start. */
  lemma LimitsExactly(e: Execution, now: nat)
    ensures LimitReason(e.limits, e.accounting, e.phase, now) != "" <==> Reached(e.limits, e.accounting, e.phase, now)
    ensures e.status.Ready? ==> (Runnable(e, e.phase, now) <==> !Reached(e.limits, e.accounting, e.phase, now))
    ensures Limit(e, now).Changed? <==> Reached(e.limits, e.accounting, e.phase, now) && !Terminal(e.status)
    ensures Limit(e, now).Changed? ==> Limit(e, now).execution.status.Limited? && Limit(e, now).execution.reason == Limit(e, now).reason != ""
  {}

  // ---------------------------------------------------------------- What a record tells

  /** A record is stamped once, names the attempt it is about, and a signal only if it delivers one. */
  lemma RecordTells(prev: Record, r: Record, m: Move, now: nat)
    requires Made(prev, r, m, now)
    ensures r.transition.at == r.execution.updatedAt == now
    ensures r.transition.attemptId
         == if r.execution.currentAttempt.Some? then r.execution.currentAttempt.value.id
            else if r.execution.lastAttempt.Some? then r.execution.lastAttempt.value.id else ""
    ensures !m.Signalling? ==> r.transition.signalId == ""
    ensures r.execution.id == prev.execution.id && r.execution.limits == prev.execution.limits && r.execution.handlers == prev.execution.handlers
  {
    match m {
      case EndingWork(result, error) => WorkTells(prev.execution, result, error, now);
      case EndingDecision(decision) => DecisionTells(prev.execution, decision, now);
      case Recovering => RecoveryTells(prev.execution, now);
      case _ => CallersTell(prev.execution, m, now);
    }
  }

  predicate Same(e: Execution, v: Verdict) {
    v.Changed? ==> v.signalId == "" && v.execution.id == e.id && v.execution.limits == e.limits && v.execution.handlers == e.handlers
  }

  lemma WorkTells(e: Execution, result: WorkResult, error: Option<string>, now: nat)
    ensures Same(e, WorkOutcome(e, result, error, now))
  {}

  lemma DecisionTells(e: Execution, decision: Option<Decision>, now: nat)
    requires decision.Some? ==> DecisionRight(decision.value)
    ensures Same(e, DecisionOutcome(e, decision, now))
  {}

  lemma RecoveryTells(e: Execution, now: nat)
    ensures Same(e, Recover(e, now))
  {}

  lemma CallersTell(e: Execution, m: Move, now: nat)
    requires Legal(e, m, now) && !m.EndingWork? && !m.EndingDecision? && !m.Recovering?
    ensures !m.Signalling? ==> Same(e, Make(e, m, now))
    ensures Make(e, m, now).Changed? ==> Same(e, Make(e, m, now).(signalId := ""))
  {}

  /** A retry of Work keeps what the interrupted attempt has left as the last attempt. */
  lemma RetryKeeps(prev: Record, r: Record, m: Move, now: nat)
    requires Made(prev, r, m, now) && m.RetryingWork?
    ensures Due(r.execution) && r.execution.currentAttempt.None? && r.execution.activation == prev.execution.activation
    ensures r.execution.lastAttempt == if prev.execution.currentAttempt.Some? then prev.execution.currentAttempt else prev.execution.lastAttempt
  {}

  /** A decision begins on the attempt whose Work it is about, which it leaves as it is but for the time. */
  lemma DecisionBegins(prev: Record, r: Record, m: Move, now: nat)
    requires Made(prev, r, m, now) && m.StartingDecision?
    ensures r.execution.status.Running? && r.execution.phase.Decide? && prev.execution.phase.Decide? && HasWork(prev.execution.currentAttempt)
    ensures r.execution.currentAttempt == Some(prev.execution.currentAttempt.value.(phase := Decide, decisionStartedAt := r.transition.at))
    ensures r.execution.lastAttempt == prev.execution.lastAttempt && r.execution.activation == prev.execution.activation
  {}

  // ---------------------------------------------------------------- What callers may do

  /** When a caller's operation changes an execution. */
  predicate Open(e: Execution, m: Move, now: nat)
    requires OfCaller(m)
  {
    match m
    case Pausing(_) => !Terminal(e.status) && e.status !in {Paused, PauseRequested, CancelRequested}
    case Resuming(_) => e.status.Paused? && e.suspension.Some? && !e.suspension.value.retryRequired
    case RetryingWork(_) => Retryable(e)
    case RetryingDecision(_) => e.status.Interrupted? && e.phase.Decide? && HasWork(e.currentAttempt)
    case Resolving(_) => e.status.Blocked?
    case Signalling(_, key, _) => e.status.Waiting? && e.wait.Some? && e.wait.value.signal == Some(key)
    case Waking => e.status.Waiting? && e.wait.Some? && e.wait.value.notBefore.Some? && e.wait.value.notBefore.value <= now
    case Cancelling(_) => !Terminal(e.status) && !e.status.CancelRequested?
    case Failing(_) => !Terminal(e.status)
  }

  /** A caller's operation changes an execution exactly where it is open; there is nothing to do exactly if what it asks
      for is so, or asked for, already; everything else is refused, and an execution that has ended with that error. */
  lemma CallersAnswered(e: Execution, m: Move, now: nat)
    requires OfCaller(m)
    ensures Make(e, m, now).Changed? <==> Open(e, m, now)
    ensures Make(e, m, now).Unchanged?
       <==> (m.Pausing? && (e.status.Paused? || e.status.PauseRequested?)) || (m.Cancelling? && (e.status.Cancelled? || e.status.CancelRequested?))
    ensures Make(e, m, now) == Refused(TerminalError) <==> Terminal(e.status) && !(m.Cancelling? && e.status.Cancelled?)
    ensures Make(e, m, now) == Refused(RetryRequired)
       <==> m.Resuming? && e.status.Paused? && e.suspension.Some? && e.suspension.value.retryRequired
    ensures Make(e, m, now) == Refused(SignalMismatch)
       <==> m.Signalling? && e.status.Waiting? && e.wait.Some? && e.wait.value.signal != Some(m.key)
    ensures Make(e, m, now) == Refused(NotDue)
       <==> m.Waking? && e.status.Waiting? && e.wait.Some? && (e.wait.value.notBefore.None? || now < e.wait.value.notBefore.value)
  {}

  // ---------------------------------------------------------------- What is charged

  function Elapsed(started: nat, ended: nat): nat {
    if started != 0 && ended > started then ended - started else 0
  }

  /** `a` and then `turns`, `tokens` and `active` more. */
  function Plus(a: Accounting, attempts: int, turns: int, tokens: int, active: int): Accounting {
    Accounting(a.attempts + attempts, a.turns + turns, a.tokens + tokens, a.activeDuration + active)
  }

  /** When the stage in progress, or last in progress, began. */
  function StageBegan(e: Execution): nat
    requires e.currentAttempt.Some?
  {
    var a := e.currentAttempt.value;
    if e.phase.Decide? && a.decisionStartedAt != 0 then a.decisionStartedAt else a.workStartedAt
  }

  lemma WorkCharges(e: Execution, result: WorkResult, error: Option<string>, now: nat)
    requires e.currentAttempt.Some? && WorkRight(result)
    ensures var e' := WorkOutcome(e, result, error, now).execution;
            && e'.currentAttempt.Some? && e'.currentAttempt.value.work == Some(result) && e'.currentAttempt.value.workCompletedAt == now
            && e'.accounting == Plus(e.accounting, 0, result.turns, result.inputTokens + result.outputTokens,
                                     Elapsed(e.currentAttempt.value.workStartedAt, now))
  {}

  /** A Worker's result is recorded, and charged: its turns, its tokens, and the time since it started. */
  lemma WorkIsCharged(prev: Record, r: Record, m: Move, now: nat)
    requires Made(prev, r, m, now) && m.EndingWork? && prev.execution.currentAttempt.Some?
    ensures r.execution.currentAttempt.Some? && r.execution.currentAttempt.value.work == Some(m.result)
    ensures r.execution.currentAttempt.value.workCompletedAt == r.transition.at == now
    ensures r.execution.accounting
         == Plus(prev.execution.accounting, 0, m.result.turns, m.result.inputTokens + m.result.outputTokens,
                 Elapsed(prev.execution.currentAttempt.value.workStartedAt, r.transition.at))
  {
    WorkCharges(prev.execution, m.result, m.error, now);
  }

  /** A Controller's time is charged, and the tokens of a decision that is carried out. */
  lemma DecisionIsCharged(prev: Record, r: Record, m: Move, now: nat)
    requires Made(prev, r, m, now) && m.EndingDecision? && prev.execution.currentAttempt.Some?
    ensures r.execution.accounting
         == Plus(prev.execution.accounting, 0, 0,
                 if m.decision.Some? && prev.execution.status.Running? then m.decision.value.inputTokens + m.decision.value.outputTokens else 0,
                 Elapsed(prev.execution.currentAttempt.value.decisionStartedAt, r.transition.at))
  {
    assert r == NextRecord(prev, DecisionOutcome(prev.execution, m.decision, now), now);
  }

  /** An orphaned stage is charged up to its recovery. */
  lemma RecoveryIsCharged(prev: Record, r: Record, m: Move, now: nat)
    requires Made(prev, r, m, now) && m.Recovering?
    ensures Engaged(prev.execution.status) && prev.execution.currentAttempt.Some?
    ensures r.execution.accounting == Plus(prev.execution.accounting, 0, 0, 0, Elapsed(StageBegan(prev.execution), r.transition.at))
  {
    assert r == NextRecord(prev, Recover(prev.execution, now), now);
  }

  lemma NothingElseCharged(prev: Record, r: Record, m: Move, now: nat)
    requires Made(prev, r, m, now) && !m.Recovering? && !m.EndingWork? && !m.EndingDecision?
    ensures r.execution.accounting == Plus(prev.execution.accounting, if StartsWork(r) then 1 else 0, 0, 0, 0)
  {}

  lemma NothingUnattempted(prev: Record, r: Record, m: Move, now: nat)
    requires Made(prev, r, m, now) && (m.EndingWork? || m.EndingDecision?) && prev.execution.currentAttempt.None?
    ensures r.execution == prev.execution.(revision := r.execution.revision, updatedAt := now)
  {}

  /** What one move adds to the account. */
  function Charge(e: Execution, m: Move, now: nat): Accounting {
    match m
    case StartingWork(_, _) => Accounting(1, 0, 0, 0)
    case EndingWork(result, _) =>
      if e.currentAttempt.None? then Accounting(0, 0, 0, 0)
      else Accounting(0, result.turns, result.inputTokens + result.outputTokens, Elapsed(e.currentAttempt.value.workStartedAt, now))
    case EndingDecision(d) =>
      if e.currentAttempt.None? then Accounting(0, 0, 0, 0)
      else Accounting(0, 0, if d.Some? && e.status.Running? then d.value.inputTokens + d.value.outputTokens else 0,
                      Elapsed(e.currentAttempt.value.decisionStartedAt, now))
    case Recovering => Accounting(0, 0, 0, if e.currentAttempt.Some? then Elapsed(StageBegan(e), now) else 0)
    case _ => Accounting(0, 0, 0, 0)
  }

  function Sum(a: Accounting, b: Accounting): Accounting {
    Plus(a, b.attempts, b.turns, b.tokens, b.activeDuration)
  }

  lemma ChargedByMove(prev: Record, r: Record, m: Move, now: nat)
    requires Made(prev, r, m, now)
    ensures r.execution.accounting == Sum(prev.execution.accounting, Charge(prev.execution, m, now))
  {
    if (m.EndingWork? || m.EndingDecision?) && prev.execution.currentAttempt.None? {
      NothingUnattempted(prev, r, m, now);
    } else if m.EndingWork? {
      WorkIsCharged(prev, r, m, now);
    } else if m.EndingDecision? {
      DecisionIsCharged(prev, r, m, now);
    } else if m.Recovering? {
      RecoveryIsCharged(prev, r, m, now);
    } else {
      NothingElseCharged(prev, r, m, now);
      MoveCounts(prev.execution, m, now);
    }
  }

  datatype Timed = Timed(move: Move, at: nat)

  /** The moves that made a history, one for each record but the first. */
  ghost predicate Wrote(moves: seq<Timed>, log: seq<Record>) {
    |moves| + 1 == |log| && forall i: nat | i < |moves| :: Made(log[i], log[i + 1], moves[i].move, moves[i].at)
  }

  /** What the first moves of a history have charged in all. */
  function Bill(log: seq<Record>, moves: seq<Timed>, i: nat): Accounting
    requires i <= |moves| < |log|
  {
    if i == 0 then Accounting(0, 0, 0, 0) else Sum(Bill(log, moves, i - 1), Charge(log[i - 1].execution, moves[i - 1].move, moves[i - 1].at))
  }

  lemma {:induction false} Written(log: seq<Record>, n: nat) returns (moves: seq<Timed>)
    requires WellFormed(log) && n < |log|
    ensures Wrote(moves, log[..n + 1])
  {
    if n == 0 {
      moves := [];
    } else {
      var before := Written(log, n - 1);
      var m, now := MoveOf(log, n);
      moves := before + [Timed(m, now)];
      forall i: nat | i < |moves| ensures Made(log[..n + 1][i], log[..n + 1][i + 1], moves[i].move, moves[i].at) {
        if i < |before| {
          assert Made(log[..n][i], log[..n][i + 1], before[i].move, before[i].at);
        }
      }
    }
  }

  lemma BillGrows(log: seq<Record>, moves: seq<Timed>, i: nat)
    requires Wrote(moves, log) && i < |moves| && log[i].execution.accounting == Bill(log, moves, i)
    ensures log[i + 1].execution.accounting == Bill(log, moves, i + 1)
  {
    assert Made(log[i], log[i + 1], moves[i].move, moves[i].at);
    ChargedByMove(log[i], log[i + 1], moves[i].move, moves[i].at);
  }

  /** Every history was written by some list of moves, and the account of an execution is what they charged: an attempt
      for each start of Work, turns and tokens of the results and decisions, the time of the stages, and nothing else. */
  lemma {:induction false} AccountIsBill(log: seq<Record>, moves: seq<Timed>, i: nat)
    requires WellFormed(log) && Wrote(moves, log) && i < |log|
    ensures log[i].execution.accounting == Bill(log, moves, i)
  {
    if i > 0 {
      AccountIsBill(log, moves, i - 1);
      BillGrows(log, moves, i - 1);
    }
  }

  // ---------------------------------------------------------------- What Work is given

  /** The execution is to work, though perhaps not yet: nothing but the start of Work leads out of this. */
  predicate Due(e: Execution) {
    || (e.status.Ready? && e.phase.Work?)
    || (e.status.Paused? && e.suspension.Some? && e.suspension.value.status.Ready? && e.suspension.value.phase.Work?
        && !e.suspension.value.retryRequired)
  }

  lemma WakersOnly(prev: Record, r: Record, m: Move, now: nat)
    requires Made(prev, r, m, now) && Woken(r.transition.cause)
    ensures m.Signalling? || m.Resolving? || m.Waking?
  {}

  lemma WakeIsDue(prev: Record, r: Record, m: Move, now: nat)
    requires Made(prev, r, m, now) && Woken(r.transition.cause)
    ensures Due(r.execution) && r.execution.activation.Some? && r.execution.activation.value.at == now == r.transition.at
    ensures m.Signalling? || m.Resolving? || m.Waking?
    ensures m.Signalling? ==> r.execution.activation == Some(Activation(BySignal(m.id), now, m.payload)) && r.transition.signalId == m.id
    ensures m.Resolving? ==> r.execution.activation == Some(Activation(ByBlock, now, m.payload))
    ensures m.Waking? ==> r.execution.activation == Some(Activation(ByTime, now, ""))
  {
    WakersOnly(prev, r, m, now);
  }

  lemma DueStays(prev: Record, r: Record, m: Move, now: nat)
    requires Made(prev, r, m, now) && Due(prev.execution) && !StartsWork(r)
    ensures Terminal(r.execution.status) || (Due(r.execution) && r.execution.activation == prev.execution.activation)
  {}

  /** A start of Work begins a new attempt, one number on, with the activation there was; the attempt before is kept. */
  lemma WorkBegins(prev: Record, r: Record, m: Move, now: nat)
    requires Made(prev, r, m, now) && StartsWork(r)
    ensures m.StartingWork? && Due(prev.execution) && r.execution.activation.None?
    ensures r.execution.currentAttempt
         == Some(Attempt(m.attemptId, prev.execution.accounting.attempts + 1, Work, prev.execution.activation, r.transition.at, 0, 0, 0, None, None, None, false))
    ensures r.execution.lastAttempt == if prev.execution.currentAttempt.Some? then prev.execution.currentAttempt else prev.execution.lastAttempt
  {
    MoveCounts(prev.execution, m, now);
  }

  lemma {:induction false} DueTill(log: seq<Record>, i: nat, j: nat)
    requires WellFormed(log) && i <= j < |log| - 1 && Due(log[i].execution) && forall k: nat | i < k <= j :: !StartsWork(log[k])
    ensures Due(log[j].execution) && log[j].execution.activation == log[i].execution.activation
    decreases j - i
  {
    if i < j {
      DueTill(log, i, j - 1);
      var m, now := MoveOf(log, j);
      DueStays(log[j - 1], log[j], m, now);
      TerminalIsLast(log, j);
    }
  }

  /** What woke an execution reaches the Worker: whatever happens in between, the next Work that starts is given the
      signal, the time or the resolution as it arrived; the first Work is given what the execution was created with. */
  lemma WakeReachesWork(log: seq<Record>, i: nat, j: nat)
    requires WellFormed(log) && i < j < |log| && (i == 0 || Woken(log[i].transition.cause))
    requires StartsWork(log[j]) && forall k: nat | i < k < j :: !StartsWork(log[k])
    ensures log[j].execution.currentAttempt.Some? && log[j].execution.currentAttempt.value.activation == log[i].execution.activation
  {
    if i > 0 {
      var m, now := MoveOf(log, i);
      WakeIsDue(log[i - 1], log[i], m, now);
    }
    DueTill(log, i, j - 1);
    var m, now := MoveOf(log, j);
    WorkBegins(log[j - 1], log[j], m, now);
  }

  // ---------------------------------------------------------------- What retried Work is given

  lemma NotWoken(prev: Record, r: Record, m: Move, now: nat)
    requires Made(prev, r, m, now) && !Woken(r.transition.cause) && prev.execution.activation.None?
    ensures r.execution.activation.None?
  {
    match m {
      case EndingWork(result, error) => WorkLeavesActivation(prev.execution, result, error, now);
      case EndingDecision(decision) => DecisionLeavesActivation(prev.execution, decision, now);
      case _ =>
    }
  }

  lemma WorkLeavesActivation(e: Execution, result: WorkResult, error: Option<string>, now: nat)
    ensures WorkOutcome(e, result, error, now).execution.activation == e.activation
  {}

  lemma DecisionLeavesActivation(e: Execution, decision: Option<Decision>, now: nat)
    requires decision.Some? ==> DecisionRight(decision.value)
    ensures DecisionOutcome(e, decision, now).execution.activation == e.activation
  {}

  lemma {:induction false} StaysUnwoken(log: seq<Record>, i: nat, j: nat)
    requires WellFormed(log) && i <= j < |log| && log[i].execution.activation.None?
    requires forall k: nat | i < k <= j :: !Woken(log[k].transition.cause)
    ensures log[j].execution.activation.None?
    decreases j - i
  {
    if i < j {
      StaysUnwoken(log, i, j - 1);
      var m, now := MoveOf(log, j);
      NotWoken(log[j - 1], log[j], m, now);
    }
  }

  /** Work that starts although nothing has woken the execution since the Work before, as a retry does or the next round of
      a decision to continue, is given no activation: what woke the interrupted Work is not given to its retry. */
  lemma RetriedUnwoken(log: seq<Record>, i: nat, j: nat)
    requires WellFormed(log) && 0 < i < j < |log| && StartsWork(log[i]) && StartsWork(log[j])
    requires forall k: nat | i < k < j :: !Woken(log[k].transition.cause)
    ensures log[j].execution.currentAttempt.Some? && log[j].execution.currentAttempt.value.activation.None?
  {
    var m, now := MoveOf(log, i);
    WorkBegins(log[i - 1], log[i], m, now);
    StaysUnwoken(log, i, j - 1);
    var m', now' := MoveOf(log, j);
    WorkBegins(log[j - 1], log[j], m', now');
  }
}
