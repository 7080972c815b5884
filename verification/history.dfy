/** Histories of a continuation execution: which records may follow which, and what holds of every history that
    any number of callers and engines can build on one store
    (agent/continuation/engine.go, store.go, validate.go, control.go, advance.go, recovery.go). */
module Histories {
  import opened Options
  import opened Records

  // ---------------------------------------------------------------- Moves

  /** The durable steps of the engine. A stage starts on an execution whose limits were checked a moment before;
      a Worker's result has been normalized, a Controller's decision has failed or is valid. */
  datatype Move = Pausing(reason: string) | Resuming(reason: string) | RetryingWork(reason: string) | RetryingDecision(reason: string)
                | Resolving(payload: Json) | Signalling(id: string, key: string, payload: Json) | Waking
                | Cancelling(reason: string) | Failing(reason: string) | Recovering | Limiting
                | StartingWork(attemptId: string, checkedAt: nat) | StartingDecision(checkedAt: nat)
                | EndingWork(result: WorkResult, error: Option<string>) | EndingDecision(decision: Option<Decision>)

  predicate Legal(e: Execution, m: Move, now: nat) {
    match m
    case Limiting => e.status.Ready?
    case StartingWork(_, checkedAt) => Runnable(e, Work, checkedAt)
    case StartingDecision(checkedAt) => Runnable(e, Decide, checkedAt)
    case EndingWork(result, _) => WorkRight(result) && !Terminal(e.status)
    case EndingDecision(decision) => (decision.Some? ==> DecisionRight(decision.value)) && !Terminal(e.status)
    case _ => true
  }

  /** The operations of callers: these decide for themselves what they make of an execution. */
  predicate OfCaller(m: Move) {
    m.Pausing? || m.Resuming? || m.RetryingWork? || m.RetryingDecision? || m.Resolving? || m.Signalling? || m.Waking?
    || m.Cancelling? || m.Failing?
  }

  function Make(e: Execution, m: Move, now: nat): Verdict
    requires Legal(e, m, now)
  {
    match m
    case Pausing(reason) => Pause(e, reason)
    case Resuming(reason) => Resume(e, reason)
    case RetryingWork(reason) => RetryWork(e, reason)
    case RetryingDecision(reason) => RetryDecision(e, reason)
    case Resolving(payload) => ResolveBlock(e, payload, now)
    case Signalling(id, key, payload) => Signal(e, id, key, payload, now)
    case Waking => ResumeDue(e, now)
    case Cancelling(reason) => CancelNow(e, reason)
    case Failing(reason) => FailNow(e, reason)
    case Recovering => Recover(e, now)
    case Limiting => Limit(e, now)
    case StartingWork(attemptId, _) => StartWork(e, attemptId, now)
    case StartingDecision(_) => StartDecision(e, now)
    case EndingWork(result, error) => WorkOutcome(e, result, error, now)
    case EndingDecision(decision) => DecisionOutcome(e, decision, now)
  }

  /** `nextRecord`. */
  function NextRecord(current: Record, v: Verdict, now: nat): Record
    requires v.Changed?
  {
    var revision := current.execution.revision + 1;
    var e := v.execution.(revision := revision, updatedAt := now);
    var attemptId := if e.currentAttempt.Some? then e.currentAttempt.value.id else if e.lastAttempt.Some? then e.lastAttempt.value.id else "";
    Record(e, Transition(revision, now, Some(current.execution.status), e.status, e.phase, v.cause, attemptId, v.signalId, v.reason))
  }

  // ---------------------------------------------------------------- Valid records

  predicate AttemptRight(a: Option<Attempt>, attempts: int) {
    a.Some? ==>
      && 1 <= a.value.number <= attempts && a.value.workStartedAt != 0
      && (a.value.work.Some? ==> a.value.workCompletedAt != 0 && WorkRight(a.value.work.value))
      && (a.value.decision.Some? ==>
            a.value.decisionStartedAt != 0 && a.value.decisionEndedAt != 0 && a.value.work.Some? && DecisionRight(a.value.decision.value))
  }

  predicate HasWork(a: Option<Attempt>) {
    a.Some? && a.value.work.Some?
  }

  predicate SuspensionRight(s: Option<Suspension>) {
    s.Some? ==>
      && (s.value.retryRequired ==> s.value.phase.Work?)
      && match s.value.status
         case Ready => s.value.wait.None? && s.value.block.None?
         case Interrupted => s.value.wait.None? && s.value.block.None?
         case Waiting => WaitRight(s.value.wait)
         case Blocked => s.value.block.Some?
         case _ => false
  }

  /** `validateStatusState`. */
  predicate StatusRight(e: Execution) {
    match e.status
    case Ready => e.wait.None? && e.block.None? && e.suspension.None? && (e.phase.Decide? ==> HasWork(e.currentAttempt))
    case Running => EngagedRight(e)
    case PauseRequested => EngagedRight(e)
    case CancelRequested => EngagedRight(e)
    case Waiting => e.wait.Some? && e.phase.Work?
    case Blocked => e.block.Some? && e.phase.Work?
    case Paused => e.suspension.Some?
    case Interrupted => e.currentAttempt.Some?
    case _ => true
  }

  predicate EngagedRight(e: Execution) {
    e.currentAttempt.Some? && e.currentAttempt.value.phase == e.phase && (e.phase.Decide? ==> e.currentAttempt.value.work.Some?)
  }

  predicate LimitsRight(l: Limits) {
    l.maxAttempts >= -1 && l.maxTurns >= 0 && l.maxTokens >= 0 && l.maxActiveDuration >= 0
  }

  /** `validateRecord`, but for the formats and sizes of identifiers and payloads. */
  predicate RecordRight(r: Record) {
    var e, t := r.execution, r.transition;
    && e.updatedAt != 0 && LimitsRight(e.limits)
    && (e.wait.Some? ==> WaitRight(e.wait)) && SuspensionRight(e.suspension)
    && AttemptRight(e.currentAttempt, e.accounting.attempts) && AttemptRight(e.lastAttempt, e.accounting.attempts)
    && e.accounting.attempts >= 0 && e.accounting.turns >= 0 && e.accounting.tokens >= 0 && e.accounting.activeDuration >= 0
    && StatusRight(e)
    && t.revision == e.revision != 0 && t.at != 0 && t.to == e.status && t.phase == e.phase
  }

  // ---------------------------------------------------------------- Histories

  /** One record may follow another: some move, at some time, makes it. */
  ghost predicate FollowsBy(prev: Record, next: Record, m: Move, now: nat) {
    && now != 0 && Legal(prev.execution, m, now) && Make(prev.execution, m, now).Changed?
    && next == NextRecord(prev, Make(prev.execution, m, now), now)
  }

  ghost predicate Follows(prev: Record, next: Record) {
    RecordRight(next) && exists m, now :: FollowsBy(prev, next, m, now)
  }

  /** `Engine.Create`: a ready execution, nothing done yet. */
  predicate Initiates(r: Record) {
    && RecordRight(r)
    && r.execution.revision == 1 && r.execution.status.Ready? && r.execution.phase.Work?
    && r.execution.currentAttempt.None? && r.execution.lastAttempt.None?
    && r.execution.accounting == Accounting(0, 0, 0, 0) && r.execution.limits.maxAttempts != 0
    && r.transition.from.None? && r.transition.cause.Create?
  }

  ghost predicate WellFormed(log: seq<Record>) {
    && log != [] && Initiates(log[0])
    && forall i: nat | 0 < i < |log| :: Linked(log, i)
  }

  ghost predicate Linked(log: seq<Record>, i: nat)
    requires 0 < i < |log|
  {
    Follows(log[i - 1], log[i])
  }

  /** `CompareAndSwap` against the latest record: a caller that loaded `from`, at any earlier time, and computed its
      successor appends it if nothing has been appended since. */
  function Swapped(log: seq<Record>, from: Record, next: Record): seq<Record>
    requires log != []
  {
    var previous := log[|log| - 1].execution;
    if previous.revision == from.execution.revision && next.execution.id == previous.id
       && next.execution.revision == from.execution.revision + 1 && next.transition.revision == from.execution.revision + 1
       && next.transition.from == Some(previous.status) && RecordRight(next)
    then log + [next] else log
  }

  /** One atomic step of any caller: it swaps in a move on a record it has loaded. */
  ghost predicate Step(log: seq<Record>, log': seq<Record>) {
    log != [] && exists from, m, now :: StepBy(log, log', from, m, now)
  }

  ghost predicate StepBy(log: seq<Record>, log': seq<Record>, from: Record, m: Move, now: nat)
    requires log != []
  {
    && from in log && now != 0 && Legal(from.execution, m, now) && Make(from.execution, m, now).Changed?
    && log' == Swapped(log, from, NextRecord(from, Make(from.execution, m, now), now))
  }

  /** The log as it stands after each step of an interleaving. */
  ghost predicate Behaviour(logs: seq<seq<Record>>) {
    && logs != [] && |logs[0]| == 1 && Initiates(logs[0][0])
    && forall i: nat | 0 < i < |logs| :: Step(logs[i - 1], logs[i])
  }

  // ---------------------------------------------------------------- The chain of revisions

  lemma {:induction false} Revisions(log: seq<Record>, i: nat)
    requires WellFormed(log) && i < |log|
    ensures log[i].execution.revision == log[i].transition.revision == i + 1
    decreases i
  {
    if i > 0 {
      Revisions(log, i - 1);
      assert Linked(log, i);
    }
  }

  /** Revisions count up from 1 without a gap, and each transition starts from the status before it. */
  lemma Gapless(log: seq<Record>, i: nat)
    requires WellFormed(log) && i < |log|
    ensures log[i].execution.revision == log[i].transition.revision == i + 1
    ensures log[i].transition.from == if i == 0 then None else Some(log[i - 1].execution.status)
    ensures log[i].transition.to == log[i].execution.status
  {
    Revisions(log, i);
    if i > 0 {
      assert Linked(log, i);
    }
  }

  lemma LoadedIsLatest(log: seq<Record>, from: Record)
    requires WellFormed(log) && from in log && from.execution.revision == log[|log| - 1].execution.revision
    ensures from == log[|log| - 1]
  {
    var i :| 0 <= i < |log| && log[i] == from;
    Revisions(log, i);
    Revisions(log, |log| - 1);
  }

  lemma Appended(log: seq<Record>, next: Record)
    requires WellFormed(log) && Follows(log[|log| - 1], next)
    ensures WellFormed(log + [next])
  {
    var log' := log + [next];
    forall i: nat | 0 < i < |log'| ensures Linked(log', i) {
      if i < |log| {
        assert Linked(log, i);
      }
    }
  }

  /** No step of any caller, on whatever record it has loaded, breaks the history. */
  lemma StepKeeps(log: seq<Record>, log': seq<Record>)
    requires WellFormed(log) && Step(log, log')
    ensures WellFormed(log') && log <= log'
  {
    var from, m, now :| StepBy(log, log', from, m, now);
    if log' != log {
      LoadedIsLatest(log, from);
      var next := NextRecord(from, Make(from.execution, m, now), now);
      assert FollowsBy(from, next, m, now);
      Appended(log, next);
    }
  }

  /** Every interleaving of every number of callers and engines builds a well-formed history, only by appending. */
  lemma {:induction false} BehaviourKeeps(logs: seq<seq<Record>>, i: nat)
    requires Behaviour(logs) && i < |logs|
    ensures WellFormed(logs[i])
    ensures forall j: nat | j <= i :: logs[j] <= logs[i]
    decreases i
  {
    if i > 0 {
      BehaviourKeeps(logs, i - 1);
      assert Step(logs[i - 1], logs[i]);
      StepKeeps(logs[i - 1], logs[i]);
    }
  }

  // ---------------------------------------------------------------- What every history keeps

  /** Nothing follows a terminal record. */
  lemma TerminalIsLast(log: seq<Record>, i: nat)
    requires WellFormed(log) && i + 1 < |log|
    ensures !Terminal(log[i].execution.status)
  {
    assert Linked(log, i + 1);
  }

  lemma {:induction false} EveryRecordRight(log: seq<Record>, i: nat)
    requires WellFormed(log) && i < |log|
    ensures RecordRight(log[i])
  {
    if i > 0 {
      assert Linked(log, i);
    }
  }

  /** A requested cancellation is honoured by the very next record, unless the execution is failed instead. */
  lemma CancelHonoured(log: seq<Record>, i: nat)
    requires WellFormed(log) && i + 1 < |log| && log[i].execution.status.CancelRequested?
    ensures log[i + 1].execution.status.Cancelled? || log[i + 1].execution.status.Failed?
  {
    EveryRecordRight(log, i);
    assert Linked(log, i + 1);
  }

  // ---------------------------------------------------------------- Attempts

  /** The record starts a Work stage: its writer then invokes the Worker, once. */
  predicate StartsWork(r: Record) {
    r.transition.cause.StageStart? && r.execution.phase.Work?
  }

  function WorkStarts(log: seq<Record>): nat {
    if log == [] then 0 else WorkStarts(log[..|log| - 1]) + (if StartsWork(log[|log| - 1]) then 1 else 0)
  }

  lemma LimitsKept(e: Execution, m: Move, now: nat)
    requires Legal(e, m, now) && Make(e, m, now).Changed?
    ensures Make(e, m, now).execution.limits == e.limits
  {}

  lemma MoveCounts(e: Execution, m: Move, now: nat)
    requires Legal(e, m, now) && Make(e, m, now).Changed?
    ensures var v := Make(e, m, now);
            && v.execution.accounting.attempts == e.accounting.attempts + (if m.StartingWork? then 1 else 0)
            && (v.cause.StageStart? && v.execution.phase.Work? <==> m.StartingWork?)
    ensures m.StartingWork? && e.limits.maxAttempts > 0 ==> e.accounting.attempts < e.limits.maxAttempts
  {
    match m {
      case EndingWork(result, error) => assert Make(e, m, now) == WorkOutcome(e, result, error, now);
      case EndingDecision(decision) => assert Make(e, m, now) == DecisionOutcome(e, decision, now);
      case Recovering => assert Make(e, m, now) == Recover(e, now);
      case _ =>
    }
  }

  /** Attempts are counted exactly: one for each start of Work, whoever made it, and never more than the limit. */
  lemma {:induction false} AttemptsCounted(log: seq<Record>, i: nat)
    requires WellFormed(log) && i < |log|
    ensures log[i].execution.accounting.attempts == WorkStarts(log[..i + 1])
    ensures log[i].execution.limits == log[0].execution.limits
    ensures log[0].execution.limits.maxAttempts > 0 ==> WorkStarts(log[..i + 1]) <= log[0].execution.limits.maxAttempts
    decreases i
  {
    if i == 0 {
      assert log[..1][..0] == [];
    } else {
      AttemptsCounted(log, i - 1);
      assert log[..i + 1][..i] == log[..i];
      assert Linked(log, i);
      var m, now :| FollowsBy(log[i - 1], log[i], m, now);
      LimitsKept(log[i - 1].execution, m, now);
      MoveCounts(log[i - 1].execution, m, now);
    }
  }

  // ---------------------------------------------------------------- Interrupted work is not repeated

  /** Work whose outcome is unknown stays so until someone asks for a retry. */
  lemma RetryableStays(e: Execution, m: Move, now: nat)
    requires Legal(e, m, now) && Make(e, m, now).Changed? && Retryable(e) && !m.RetryingWork?
    ensures Retryable(Make(e, m, now).execution) || Terminal(Make(e, m, now).execution.status)
    ensures !Make(e, m, now).cause.StageStart?
  {}

  lemma RetriesAreCaused(e: Execution, m: Move, now: nat)
    requires Legal(e, m, now) && Make(e, m, now).Changed?
    ensures m.RetryingWork? <==> Make(e, m, now).cause.RetriedWork?
  {}

  /** After Work was interrupted no stage starts before an explicit retry: pausing and resuming, recovery, signals
      and late results, from any engine, do not bypass it. */
  lemma {:induction false} WorkNotRepeated(log: seq<Record>, i: nat, j: nat)
    requires WellFormed(log) && i < j < |log| && Retryable(log[i].execution) && log[j].transition.cause.StageStart?
    ensures exists k: nat :: i < k < j && log[k].transition.cause.RetriedWork?
    decreases j - i
  {
    assert Linked(log, i + 1);
    var m, now :| FollowsBy(log[i], log[i + 1], m, now);
    RetriesAreCaused(log[i].execution, m, now);
    if m.RetryingWork? {
      assert log[i + 1].transition.cause.RetriedWork?;
    } else {
      RetryableStays(log[i].execution, m, now);
      if i + 1 < j {
        TerminalIsLast(log, i + 1);
        WorkNotRepeated(log, i + 1, j);
      }
    }
  }

  // ---------------------------------------------------------------- Waits are not bypassed

  /** The condition an execution waits for, also while it is paused. */
  function Awaited(e: Execution): Option<WaitCondition> {
    if e.status.Waiting? then e.wait
    else if e.status.Paused? && e.suspension.Some? && e.suspension.value.status.Waiting? then e.suspension.value.wait
    else None
  }

  /** Only interrupted Work is suspended in need of a retry. */
  predicate RetryApart(e: Execution) {
    e.suspension.Some? && e.suspension.value.retryRequired ==> e.suspension.value.status.Interrupted? || e.suspension.value.status.Ready?
  }

  lemma RetryApartStep(e: Execution, m: Move, now: nat)
    requires RetryApart(e) && Legal(e, m, now) && Make(e, m, now).Changed?
    ensures RetryApart(Make(e, m, now).execution)
  {}

  lemma {:induction false} RetryApartAlways(log: seq<Record>, i: nat)
    requires WellFormed(log) && i < |log|
    ensures RetryApart(log[i].execution)
    decreases i
  {
    if i > 0 {
      RetryApartAlways(log, i - 1);
      assert Linked(log, i);
      var m, now :| FollowsBy(log[i - 1], log[i], m, now);
      RetryApartStep(log[i - 1].execution, m, now);
    }
  }

  /** How a move may leave a wait: by a signal with its key, at its time, or with the execution. */
  lemma WaitLeft(e: Execution, m: Move, now: nat)
    requires RetryApart(e) && Legal(e, m, now) && Make(e, m, now).Changed? && Awaited(e).Some?
    ensures var v := Make(e, m, now);
            || Awaited(v.execution) == Awaited(e)
            || Terminal(v.execution.status)
            || (v.cause.Signalled? && m.Signalling? && Awaited(e).value.signal == Some(m.key))
            || (v.cause.TimeWake? && Awaited(e).value.notBefore.Some? && Awaited(e).value.notBefore.value <= now)
  {}

  /** A wait, paused or not, holds from one record to the next until it is signalled, is due, or the execution ends. */
  lemma WaitHolds(log: seq<Record>, i: nat)
    requires WellFormed(log) && i + 1 < |log| && Awaited(log[i].execution).Some?
    ensures
      || Awaited(log[i + 1].execution) == Awaited(log[i].execution)
      || Terminal(log[i + 1].execution.status)
      || (log[i + 1].transition.cause.Signalled? && Awaited(log[i].execution).value.signal.Some?)
      || (log[i + 1].transition.cause.TimeWake? && Awaited(log[i].execution).value.notBefore.Some?
          && Awaited(log[i].execution).value.notBefore.value <= log[i + 1].transition.at)
  {
    RetryApartAlways(log, i);
    assert Linked(log, i + 1);
    var m, now :| FollowsBy(log[i], log[i + 1], m, now);
    WaitLeft(log[i].execution, m, now);
  }

  // ---------------------------------------------------------------- Limits bind

  predicate SpendsNoLess(a: Accounting, b: Accounting) {
    a.attempts <= b.attempts && a.turns <= b.turns && a.tokens <= b.tokens && a.activeDuration <= b.activeDuration
  }

  lemma WorkSpends(e: Execution, result: WorkResult, error: Option<string>, now: nat)
    ensures SpendsNoLess(e.accounting, WorkOutcome(e, result, error, now).execution.accounting)
  {}

  lemma DecisionSpends(e: Execution, decision: Option<Decision>, now: nat)
    requires decision.Some? ==> DecisionRight(decision.value)
    ensures SpendsNoLess(e.accounting, DecisionOutcome(e, decision, now).execution.accounting)
  {}

  lemma MoveSpends(e: Execution, m: Move, now: nat)
    requires Legal(e, m, now) && Make(e, m, now).Changed?
    ensures SpendsNoLess(e.accounting, Make(e, m, now).execution.accounting)
  {
    match m {
      case EndingWork(result, error) => WorkSpends(e, result, error, now);
      case EndingDecision(decision) => DecisionSpends(e, decision, now);
      case Recovering => assert Make(e, m, now) == Recover(e, now);
      case _ =>
    }
  }

  lemma FollowsSpends(prev: Record, next: Record)
    requires Follows(prev, next)
    ensures SpendsNoLess(prev.execution.accounting, next.execution.accounting)
  {
    var m, now :| FollowsBy(prev, next, m, now);
    MoveSpends(prev.execution, m, now);
  }

  /** What has been spent is never given back. */
  lemma {:induction false} SpendingGrows(log: seq<Record>, i: nat, j: nat)
    requires WellFormed(log) && i <= j < |log|
    ensures SpendsNoLess(log[i].execution.accounting, log[j].execution.accounting)
    decreases j - i
  {
    if i < j {
      SpendingGrows(log, i, j - 1);
      assert Linked(log, j);
      FollowsSpends(log[j - 1], log[j]);
    }
  }

  /** A limit on turns, tokens or active time has been reached. */
  predicate Exhausted(limits: Limits, a: Accounting) {
    || (limits.maxTurns > 0 && a.turns >= limits.maxTurns)
    || (limits.maxTokens > 0 && a.tokens >= limits.maxTokens)
    || (limits.maxActiveDuration > 0 && a.activeDuration >= limits.maxActiveDuration)
  }

  lemma StartsAre(e: Execution, m: Move, now: nat)
    requires Legal(e, m, now) && Make(e, m, now).Changed? && Make(e, m, now).cause.StageStart?
    ensures m.StartingWork? || m.StartingDecision?
  {}

  lemma StartWithinLimits(e: Execution, m: Move, now: nat)
    requires Legal(e, m, now) && (m.StartingWork? || m.StartingDecision?)
    ensures !Exhausted(e.limits, e.accounting)
  {}

  lemma FollowsWithinLimits(prev: Record, next: Record)
    requires Follows(prev, next) && next.transition.cause.StageStart?
    ensures !Exhausted(prev.execution.limits, prev.execution.accounting)
  {
    var m, now :| FollowsBy(prev, next, m, now);
    StartsAre(prev.execution, m, now);
    StartWithinLimits(prev.execution, m, now);
  }

  lemma FollowsRefuses(prev: Record, next: Record)
    requires Follows(prev, next)
    ensures Exhausted(prev.execution.limits, prev.execution.accounting) ==> !next.transition.cause.StageStart?
  {
    if next.transition.cause.StageStart? {
      FollowsWithinLimits(prev, next);
    }
  }

  lemma StartedWithin(log: seq<Record>, j: nat)
    requires WellFormed(log) && 0 < j < |log|
    ensures Exhausted(log[j - 1].execution.limits, log[j - 1].execution.accounting) ==> !log[j].transition.cause.StageStart?
  {
    assert Linked(log, j);
    FollowsRefuses(log[j - 1], log[j]);
  }

  lemma StillExhausted(log: seq<Record>, i: nat, j: nat)
    requires WellFormed(log) && i <= j < |log| && Exhausted(log[0].execution.limits, log[i].execution.accounting)
    ensures Exhausted(log[j].execution.limits, log[j].execution.accounting)
  {
    SpendingGrows(log, i, j);
    AttemptsCounted(log, j);
  }

  /** Once a limit on turns, tokens or active time has been reached, no stage ever starts again: not after a pause, a
      retry, a signal or a recovery, from any engine. */
  lemma LimitsBind(log: seq<Record>, i: nat, j: nat)
    requires WellFormed(log) && i < j < |log| && Exhausted(log[0].execution.limits, log[i].execution.accounting)
    ensures !log[j].transition.cause.StageStart?
  {
    StillExhausted(log, i, j - 1);
    StartedWithin(log, j);
  }

  // ---------------------------------------------------------------- The store accepts what the engine makes

  /** What every record of one engine has beyond what the store checks. */
  predicate Sane(r: Record) {
    var e := r.execution;
    && RecordRight(r)
    && (e.suspension.Some? <==> e.status.Paused?) && (e.wait.Some? <==> e.status.Waiting?) && (e.block.Some? <==> e.status.Blocked?)
    && (Engaged(e.status) && e.phase.Decide? ==> e.currentAttempt.value.decisionStartedAt != 0)
    && (e.suspension.Some? ==> SuspensionSane(e, e.suspension.value))
  }

  predicate SuspensionSane(e: Execution, s: Suspension) {
    match s.status
    case Ready => s.phase.Decide? ==> HasWork(e.currentAttempt)
    case Interrupted => e.currentAttempt.Some?
    case Waiting => s.phase.Work? && s.block.None?
    case Blocked => s.phase.Work? && s.wait.None?
    case _ => true
  }

  /** A decision lands only on an execution that is deciding: what ownership of the stage guarantees. */
  predicate Lands(e: Execution, m: Move) {
    m.EndingDecision? && Engaged(e.status) ==> e.phase.Decide?
  }

  ghost predicate Remakes(prev: Record, m: Move, now: nat) {
    Sane(prev) && now != 0 && Legal(prev.execution, m, now) && Make(prev.execution, m, now).Changed?
  }

  lemma SaneControls(prev: Record, m: Move, now: nat)
    requires Remakes(prev, m, now) && (m.Pausing? || m.Resuming? || m.RetryingWork? || m.RetryingDecision? || m.Resolving?)
    ensures Sane(NextRecord(prev, Make(prev.execution, m, now), now))
  {}

  lemma SaneEnds(prev: Record, m: Move, now: nat)
    requires Remakes(prev, m, now) && (m.Signalling? || m.Waking? || m.Cancelling? || m.Failing? || m.Limiting?)
    ensures Sane(NextRecord(prev, Make(prev.execution, m, now), now))
  {}

  lemma SaneRecovery(prev: Record, m: Move, now: nat)
    requires Remakes(prev, m, now) && m.Recovering?
    ensures Sane(NextRecord(prev, Make(prev.execution, m, now), now))
  {
    match prev.execution.status {
      case Running =>
      case PauseRequested =>
      case _ =>
    }
  }

  lemma SaneStarts(prev: Record, m: Move, now: nat)
    requires Remakes(prev, m, now) && (m.StartingWork? || m.StartingDecision?)
    ensures Sane(NextRecord(prev, Make(prev.execution, m, now), now))
  {}

  lemma SaneWorkStops(prev: Record, m: Move, now: nat)
    requires Remakes(prev, m, now) && m.EndingWork? && (prev.execution.status.CancelRequested? || prev.execution.status.PauseRequested?)
    ensures Sane(NextRecord(prev, Make(prev.execution, m, now), now))
  {}

  lemma SaneWorkEnds(prev: Record, m: Move, now: nat)
    requires Remakes(prev, m, now) && m.EndingWork? && prev.execution.status.Running?
    ensures Sane(NextRecord(prev, Make(prev.execution, m, now), now))
  {}

  lemma SaneWorkLate(prev: Record, m: Move, now: nat)
    requires Remakes(prev, m, now) && m.EndingWork? && !Engaged(prev.execution.status)
    ensures Sane(NextRecord(prev, Make(prev.execution, m, now), now))
  {}

  lemma SaneDecisionStops(prev: Record, m: Move, now: nat)
    requires Remakes(prev, m, now) && m.EndingDecision? && Lands(prev.execution, m)
    requires prev.execution.status.PauseRequested? || prev.execution.status.CancelRequested?
    ensures Sane(NextRecord(prev, Make(prev.execution, m, now), now))
  {}

  lemma SaneDecisionFails(prev: Record, m: Move, now: nat)
    requires Remakes(prev, m, now) && m.EndingDecision? && Lands(prev.execution, m) && prev.execution.status.Running? && m.decision.None?
    ensures Sane(NextRecord(prev, Make(prev.execution, m, now), now))
  {}

  lemma SaneDecisionLate(prev: Record, m: Move, now: nat)
    requires Remakes(prev, m, now) && m.EndingDecision? && !Engaged(prev.execution.status)
    ensures Sane(NextRecord(prev, Make(prev.execution, m, now), now))
  {}

  lemma SaneDecisionEnds(prev: Record, m: Move, now: nat)
    requires Remakes(prev, m, now) && m.EndingDecision? && Lands(prev.execution, m) && prev.execution.status.Running? && m.decision.Some?
    ensures Sane(NextRecord(prev, Make(prev.execution, m, now), now))
  {
    match m.decision.value.action {
      case Wait =>
      case Block =>
      case _ =>
    }
  }

  /** Whatever an operation makes of a sane record is again sane, so the store's validation never turns it away. */
  lemma SaneKept(prev: Record, m: Move, now: nat)
    requires Remakes(prev, m, now) && Lands(prev.execution, m)
    ensures Sane(NextRecord(prev, Make(prev.execution, m, now), now))
  {
    if m.EndingDecision? {
      if !Engaged(prev.execution.status) {
        SaneDecisionLate(prev, m, now);
      } else if !prev.execution.status.Running? {
        SaneDecisionStops(prev, m, now);
      } else if m.decision.Some? {
        SaneDecisionEnds(prev, m, now);
      } else {
        SaneDecisionFails(prev, m, now);
      }
    } else if m.EndingWork? {
      if prev.execution.status.Running? {
        SaneWorkEnds(prev, m, now);
      } else if Engaged(prev.execution.status) {
        SaneWorkStops(prev, m, now);
      } else {
        SaneWorkLate(prev, m, now);
      }
    } else if m.StartingWork? || m.StartingDecision? {
      SaneStarts(prev, m, now);
    } else if m.Recovering? {
      SaneRecovery(prev, m, now);
    } else if m.Pausing? || m.Resuming? || m.RetryingWork? || m.RetryingDecision? || m.Resolving? {
      SaneControls(prev, m, now);
    } else {
      SaneEnds(prev, m, now);
    }
  }
}
