/** The durable continuation engine: executions, and what each operation makes of one
    (agent/continuation/types.go, control.go, advance.go, recovery.go, limits.go). Times are numbers, 0 being unset. */
module Records {
  import opened Options

  type Json = string

  datatype Status = Ready | Running | Waiting | PauseRequested | Paused | Blocked | Interrupted | CancelRequested
                  | Completed | Failed | Cancelled | Limited

  datatype Phase = Work | Decide

  datatype Cause = Create | StageStart | WorkComplete | StageInterrupted | ControllerAction | PauseAsked | PauseDone | ResumeDone
                 | RetriedWork | RetriedDecision | Signalled | TimeWake | BlockResolved | CancelAsked | CancelDone | FailDone
                 | LimitReached | Recovery

  datatype Action = Continue | Wait | Block | Complete | Fail | Cancel | Unknown

  datatype Source = Initial | BySignal(id: string) | ByTime | ByBlock

  datatype Activation = Activation(source: Source, at: nat, payload: Json)

  datatype WaitCondition = WaitCondition(notBefore: Option<nat>, signal: Option<string>)

  datatype Obstacle = Obstacle(kind: string, data: Json)

  datatype Suspension = Suspension(status: Status, phase: Phase, wait: Option<WaitCondition>, block: Option<Obstacle>,
                                   retryRequired: bool, reason: string)

  datatype Limits = Limits(maxAttempts: int, maxTurns: int, maxTokens: int, maxActiveDuration: int, deadline: Option<nat>)

  datatype Accounting = Accounting(attempts: int, turns: int, tokens: int, activeDuration: int)

  /** `ai.Usage` reduced to what is limited: input plus output tokens. */
  datatype WorkResult = WorkResult(value: Json, turns: int, inputTokens: int, outputTokens: int)

  datatype Decision = Decision(action: Action, reason: string, state: Option<Json>, nextInput: Json, wait: Option<WaitCondition>,
                               block: Option<Obstacle>, output: Json, inputTokens: int, outputTokens: int)

  datatype Attempt = Attempt(id: string, number: int, phase: Phase, activation: Option<Activation>, workStartedAt: nat,
                             workCompletedAt: nat, decisionStartedAt: nat, decisionEndedAt: nat, work: Option<WorkResult>,
                             decision: Option<Decision>, failure: Option<string>, interrupted: bool)

  datatype Execution = Execution(id: string, revision: nat, status: Status, phase: Phase, handlers: string, controllerState: Json,
                                 nextInput: Json, activation: Option<Activation>, wait: Option<WaitCondition>,
                                 block: Option<Obstacle>, suspension: Option<Suspension>, currentAttempt: Option<Attempt>,
                                 lastAttempt: Option<Attempt>, limits: Limits, accounting: Accounting, reason: string,
                                 output: Json, updatedAt: nat)

  datatype Transition = Transition(revision: nat, at: nat, from: Option<Status>, to: Status, phase: Phase, cause: Cause,
                                   attemptId: string, signalId: string, reason: string)

  datatype Record = Record(execution: Execution, transition: Transition)

  datatype Error = TerminalError | NotRunnable | RetryRequired | NotWaiting | SignalMismatch | NotDue | Conflict | Busy
                 | NotFound | Exists | Invalid | StoreFull | HandlerMismatch | StageFailure

  /** What an operation makes of the execution it has loaded. */
  datatype Verdict = Refused(error: Error) | Unchanged | Changed(execution: Execution, cause: Cause, reason: string, signalId: string)

  predicate Terminal(s: Status) {
    s.Completed? || s.Failed? || s.Cancelled? || s.Limited?
  }

  /** A stage is, or was last known to be, in progress. */
  predicate Engaged(s: Status) {
    s.Running? || s.PauseRequested? || s.CancelRequested?
  }

  // ---------------------------------------------------------------- Control

  function Pause(e: Execution, reason: string): Verdict {
    if e.status.Paused? || e.status.PauseRequested? then Unchanged
    else if Terminal(e.status) then Refused(TerminalError)
    else if e.status.CancelRequested? then Refused(NotRunnable)
    else if e.status.Running? then Changed(e.(status := PauseRequested, reason := reason), PauseAsked, reason, "")
    else
      var suspension := Suspension(e.status, e.phase, e.wait, e.block, e.status.Interrupted? && e.phase.Work?, e.reason);
      Changed(e.(suspension := Some(suspension), status := Paused, wait := None, block := None, reason := reason), PauseDone, reason, "")
  }

  function Resume(e: Execution, reason: string): Verdict {
    if Terminal(e.status) then Refused(TerminalError)
    else if !e.status.Paused? || e.suspension.None? then Refused(NotRunnable)
    else if e.suspension.value.retryRequired then Refused(RetryRequired)
    else
      var s := e.suspension.value;
      Changed(e.(status := s.status, phase := s.phase, wait := s.wait, block := s.block, suspension := None, reason := reason),
              ResumeDone, reason, "")
  }

  predicate Retryable(e: Execution) {
    if e.status.Paused? && e.suspension.Some? then e.suspension.value.phase.Work? && e.suspension.value.retryRequired
    else e.status.Interrupted? && e.phase.Work?
  }

  function RetryWork(e: Execution, reason: string): Verdict {
    if Terminal(e.status) then Refused(TerminalError)
    else if !Retryable(e) then Refused(NotRunnable)
    else
      var last := if e.currentAttempt.Some? then e.currentAttempt else e.lastAttempt;
      Changed(e.(lastAttempt := last, currentAttempt := None, status := Ready, phase := Work, suspension := None, reason := reason),
              RetriedWork, reason, "")
  }

  function RetryDecision(e: Execution, reason: string): Verdict {
    if Terminal(e.status) then Refused(TerminalError)
    else if !e.status.Interrupted? || !e.phase.Decide? || e.currentAttempt.None? || e.currentAttempt.value.work.None?
    then Refused(NotRunnable)
    else
      Changed(e.(status := Ready, phase := Decide, reason := reason,
                 currentAttempt := Some(e.currentAttempt.value.(interrupted := false, failure := None))),
              RetriedDecision, reason, "")
  }

  function ResolveBlock(e: Execution, payload: Json, now: nat): Verdict {
    if Terminal(e.status) then Refused(TerminalError)
    else if !e.status.Blocked? then Refused(NotRunnable)
    else
      Changed(e.(status := Ready, phase := Work, activation := Some(Activation(ByBlock, now, payload)), block := None, reason := ""),
              BlockResolved, "", "")
  }

  function Signal(e: Execution, id: string, key: string, payload: Json, now: nat): Verdict {
    if Terminal(e.status) then Refused(TerminalError)
    else if !e.status.Waiting? || e.wait.None? then Refused(NotWaiting)
    else if e.wait.value.signal != Some(key) then Refused(SignalMismatch)
    else
      Changed(e.(status := Ready, phase := Work, activation := Some(Activation(BySignal(id), now, payload)), wait := None, reason := ""),
              Signalled, "", id)
  }

  function ResumeDue(e: Execution, now: nat): Verdict {
    if Terminal(e.status) then Refused(TerminalError)
    else if !e.status.Waiting? || e.wait.None? then Refused(NotWaiting)
    else if e.wait.value.notBefore.None? || now < e.wait.value.notBefore.value then Refused(NotDue)
    else
      Changed(e.(status := Ready, phase := Work, activation := Some(Activation(ByTime, now, "")), wait := None, reason := ""),
              TimeWake, "", "")
  }

  function Cleared(e: Execution): Execution {
    e.(wait := None, block := None, activation := None, suspension := None)
  }

  function CancelNow(e: Execution, reason: string): Verdict {
    if e.status.Cancelled? || e.status.CancelRequested? then Unchanged
    else if Terminal(e.status) then Refused(TerminalError)
    else if e.status.Running? || e.status.PauseRequested?
    then Changed(e.(status := CancelRequested, reason := reason), CancelAsked, reason, "")
    else Changed(Cleared(e).(status := Cancelled, reason := reason), CancelDone, reason, "")
  }

  function FailNow(e: Execution, reason: string): Verdict {
    if Terminal(e.status) then Refused(TerminalError)
    else Changed(Cleared(e).(status := Failed, reason := reason), FailDone, reason, "")
  }

  // ---------------------------------------------------------------- Recovery and limits

  /** `chargeStage` and `chargeOrphanDuration`. */
  function Charged(a: Accounting, started: nat, ended: nat): Accounting {
    if started != 0 && ended > started then a.(activeDuration := a.activeDuration + (ended - started)) else a
  }

  function OrphanCharged(e: Execution, now: nat): Execution {
    if e.currentAttempt.None? then e
    else
      var attempt := e.currentAttempt.value;
      var started := if e.phase.Decide? && attempt.decisionStartedAt != 0 then attempt.decisionStartedAt else attempt.workStartedAt;
      e.(accounting := Charged(e.accounting, started, now))
  }

  function MarkInterrupted(e: Execution, code: string): Execution {
    if e.currentAttempt.None? then e
    else e.(currentAttempt := Some(e.currentAttempt.value.(interrupted := true, failure := Some(code))))
  }

  function RecoverySuspension(e: Execution): Suspension {
    var retryRequired := e.phase.Work? && !(e.currentAttempt.Some? && e.currentAttempt.value.work.Some?);
    Suspension(Ready, e.phase, e.wait, e.block, retryRequired, e.reason)
  }

  const ORPHANED := "reconciled orphaned active stage"

  /** `Engine.recover`, once no stage of this engine is active. */
  function Recover(e: Execution, now: nat): Verdict {
    var charged := OrphanCharged(e, now);
    match e.status
    case Running => Changed(MarkInterrupted(charged.(status := Interrupted), "recovered"), Recovery, ORPHANED, "")
    case PauseRequested =>
      Changed(MarkInterrupted(charged.(status := Paused, suspension := Some(RecoverySuspension(charged))), "paused"), Recovery, ORPHANED, "")
    case CancelRequested => Changed(Cleared(charged).(status := Cancelled), Recovery, ORPHANED, "")
    case _ => Unchanged
  }

  /** `limitReason`. */
  function LimitReason(limits: Limits, a: Accounting, phase: Phase, now: nat): string {
    if phase.Work? && limits.maxAttempts > 0 && a.attempts >= limits.maxAttempts then "maximum attempts reached"
    else if limits.maxTurns > 0 && a.turns >= limits.maxTurns then "maximum turns reached"
    else if limits.maxTokens > 0 && a.tokens >= limits.maxTokens then "maximum tokens reached"
    else if limits.maxActiveDuration > 0 && a.activeDuration >= limits.maxActiveDuration then "maximum active duration reached"
    else if limits.deadline.Some? && now >= limits.deadline.value then "deadline reached"
    else ""
  }

  /** `applyLimit`, of an execution that is ready. */
  function Limit(e: Execution, now: nat): Verdict {
    var reason := LimitReason(e.limits, e.accounting, e.phase, now);
    if reason == "" || Terminal(e.status) then Unchanged
    else Changed(e.(status := Limited, reason := reason, wait := None, block := None, suspension := None), LimitReached, reason, "")
  }

  // ---------------------------------------------------------------- Stages

  /** `prepareAdvance` lets only a ready execution through. */
  predicate Runnable(e: Execution, phase: Phase, now: nat) {
    e.status.Ready? && e.phase == phase && LimitReason(e.limits, e.accounting, e.phase, now) == ""
  }

  function StartWork(e: Execution, attemptId: string, now: nat): Verdict {
    var attempt := Attempt(attemptId, e.accounting.attempts + 1, Work, e.activation, now, 0, 0, 0, None, None, None, false);
    Changed(e.(lastAttempt := if e.currentAttempt.Some? then e.currentAttempt else e.lastAttempt, currentAttempt := Some(attempt),
               activation := None, status := Running, phase := Work,
               accounting := e.accounting.(attempts := e.accounting.attempts + 1)),
            StageStart, "", "")
  }

  function StartDecision(e: Execution, now: nat): Verdict {
    if e.currentAttempt.None? || e.currentAttempt.value.work.None? then Refused(Invalid)
    else
      Changed(e.(status := Running, phase := Decide,
                 currentAttempt := Some(e.currentAttempt.value.(phase := Decide, decisionStartedAt := now))),
              StageStart, "", "")
  }

  function AtLeastZero(n: int): int {
    if n < 0 then 0 else n
  }

  predicate WorkRight(r: WorkResult) {
    r.turns >= 0 && r.inputTokens >= 0 && r.outputTokens >= 0
  }

  /** `normalizeWorkOutcome`: an invalid result is a failure, and is kept with its numbers made valid. */
  function Normalized(r: WorkResult, error: Option<string>): (WorkResult, Option<string>) {
    if WorkRight(r) then (r, error)
    else (WorkResult(r.value, AtLeastZero(r.turns), AtLeastZero(r.inputTokens), AtLeastZero(r.outputTokens)),
          if error.Some? then error else Some("invalid work result"))
  }

  function WithWork(a: Accounting, r: WorkResult): Accounting {
    a.(turns := a.turns + AtLeastZero(r.turns),
       tokens := a.tokens + (if r.inputTokens >= 0 && r.outputTokens >= 0 then r.inputTokens + r.outputTokens else 0))
  }

  /** `workOutcome`: what a Worker's result makes of the latest execution. */
  function WorkOutcome(e: Execution, result: WorkResult, error: Option<string>, now: nat): Verdict {
    if e.currentAttempt.None? then Changed(e, StageInterrupted, e.reason, "")
    else
      var attempt := e.currentAttempt.value.(phase := Work, workCompletedAt := now, work := Some(result));
      var charged := e.(accounting := WithWork(Charged(e.accounting, attempt.workStartedAt, now), result), currentAttempt := Some(attempt));
      match e.status
      case CancelRequested =>
        var reason := "cancelled during work";
        Changed(charged.(status := Cancelled, reason := reason, wait := None, block := None, suspension := None), CancelDone, reason, "")
      case PauseRequested =>
        if error.None? then
          var reason := "paused after work completion";
          Changed(charged.(status := Paused, phase := Decide, currentAttempt := Some(attempt.(phase := Decide)),
                           suspension := Some(Suspension(Ready, Decide, None, None, false, "")), reason := reason), PauseDone, reason, "")
        else
          var reason := "work interrupted by pause";
          Changed(charged.(status := Paused, phase := Work, currentAttempt := Some(attempt.(interrupted := true, failure := Some("worker"))),
                           suspension := Some(Suspension(Ready, Work, None, None, true, "")), reason := reason), PauseDone, reason, "")
      case Running =>
        if error.Some? then
          var reason := "worker interrupted";
          Changed(charged.(status := Interrupted, phase := Work, reason := reason,
                           currentAttempt := Some(attempt.(interrupted := true, failure := Some("worker")))), StageInterrupted, reason, "")
        else
          Changed(charged.(status := Ready, phase := Decide, reason := "",
                           currentAttempt := Some(attempt.(phase := Decide, failure := None))), WorkComplete, "", "")
      case _ => Changed(charged, StageInterrupted, e.reason, "")
  }

  predicate WaitRight(w: Option<WaitCondition>) {
    w.Some? && (w.value.notBefore.Some? || w.value.signal.Some?)
  }

  /** `validateDecision`: the action carries what it needs, and nothing else. */
  predicate DecisionRight(d: Decision) {
    && d.inputTokens >= 0 && d.outputTokens >= 0
    && match d.action
       case Wait => d.block.None? && WaitRight(d.wait)
       case Block => d.wait.None? && d.block.Some?
       case Unknown => false
       case _ => d.wait.None? && d.block.None?
  }

  function WithDecision(a: Accounting, d: Decision): Accounting {
    a.(tokens := a.tokens + (if d.inputTokens >= 0 && d.outputTokens >= 0 then d.inputTokens + d.outputTokens else 0))
  }

  /** The execution a valid decision leads to: the attempt is over. */
  function Decided(e: Execution, d: Decision): Execution
    requires DecisionRight(d)
  {
    var next := e.(accounting := WithDecision(e.accounting, d), lastAttempt := e.currentAttempt, currentAttempt := None,
                   controllerState := if d.state.Some? then d.state.value else e.controllerState, nextInput := d.nextInput,
                   reason := d.reason, wait := None, block := None, suspension := None);
    match d.action
    case Continue => next.(status := Ready, phase := Work)
    case Wait => next.(status := Waiting, phase := Work, wait := d.wait)
    case Block => next.(status := Blocked, phase := Work, block := d.block)
    case Complete => next.(status := Completed, phase := Decide, output := d.output)
    case Fail => next.(status := Failed, phase := Decide, output := d.output)
    case Cancel => next.(status := Cancelled, phase := Decide, output := d.output)
  }

  /** `decisionOutcome`, of a decision that failed or is valid. */
  function DecisionOutcome(e: Execution, decision: Option<Decision>, now: nat): Verdict
    requires decision.Some? ==> DecisionRight(decision.value)
  {
    if e.currentAttempt.None? then Changed(e, StageInterrupted, e.reason, "")
    else
      var attempt := e.currentAttempt.value.(decisionEndedAt := now);
      var charged := e.(accounting := Charged(e.accounting, attempt.decisionStartedAt, now), currentAttempt := Some(attempt));
      match e.status
      case CancelRequested =>
        var reason := "cancelled during decision";
        Changed(charged.(status := Cancelled, reason := reason, suspension := None), CancelDone, reason, "")
      case PauseRequested =>
        var reason := "decision interrupted by pause";
        Changed(charged.(status := Paused, phase := Decide, suspension := Some(Suspension(Ready, Decide, None, None, false, "")),
                         reason := reason), PauseDone, reason, "")
      case Running =>
        if decision.None? then
          var reason := "controller interrupted";
          Changed(charged.(status := Interrupted, phase := Decide, reason := reason,
                           currentAttempt := Some(attempt.(interrupted := true, failure := Some("controller")))), StageInterrupted, reason, "")
        else
          var done := Decided(charged.(currentAttempt := Some(attempt.(decision := decision, failure := None, interrupted := false))), decision.value);
          Changed(done, ControllerAction, done.reason, "")
      case _ => Changed(charged, StageInterrupted, e.reason, "")
  }
}
