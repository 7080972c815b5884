/** The engine's operations, each an interleaving of its own store accesses with everything other callers may do in
    between (agent/continuation/engine.go, control.go, advance.go, recovery.go). */
module Engines {
  import opened Options
  import opened Records
  import opened Histories
  import opened Signals
  import opened Stores

  datatype Reply = Done(execution: Execution) | Same(execution: Execution) | Failure(error: Error)

  const MAX_RECONCILIATIONS := 16

  /** The record at revision `expected + 1` is what the move makes of the one before it, and carries this execution. */
  ghost predicate AppliedBy(log: seq<Record>, expected: nat, m: Move, now: nat, e: Execution) {
    && 1 <= expected < |log| && FollowsBy(log[expected - 1], log[expected], m, now) && log[expected].execution == e
  }

  ghost predicate Applied(log: seq<Record>, expected: nat, m: Move, e: Execution) {
    exists now :: AppliedBy(log, expected, m, now, e)
  }

  // ---------------------------------------------------------------- Handlers

  /** What a Worker is asked: the input and the activation of its attempt, and what has been spent. */
  datatype WorkRequest = WorkRequest(executionId: string, attemptId: string, attempt: int, input: Json, activation: Option<Activation>,
                                     limits: Limits, accounting: Accounting)

  /** What a Controller is asked to decide on: the durable result, and the state it left last time. */
  datatype DecisionRequest = DecisionRequest(executionId: string, attemptId: string, attempt: int, work: WorkResult,
                                             activation: Option<Activation>, controllerState: Json, limits: Limits, accounting: Accounting)

  /** The Worker and the Controller, which also see whether their context has been cancelled. */
  datatype Handlers = Handlers(reference: string, worker: (WorkRequest, bool) -> (WorkResult, Option<string>),
                               controller: (DecisionRequest, bool) -> Option<Decision>)

  /** What the Worker makes of an execution as it was started, normalized. */
  function Worked(h: Handlers, e: Execution, cut: bool): (WorkResult, Option<string>)
    requires e.currentAttempt.Some?
  {
    var a := e.currentAttempt.value;
    var (result, failure) := h.worker(WorkRequest(e.id, a.id, a.number, e.nextInput, a.activation, e.limits, e.accounting), cut);
    Normalized(result, failure)
  }

  /** What the Controller makes of it; an invalid decision is none. */
  function Controlled(h: Handlers, e: Execution, cut: bool): (d: Option<Decision>)
    requires HasWork(e.currentAttempt)
    ensures d.Some? ==> DecisionRight(d.value)
  {
    var a := e.currentAttempt.value;
    var answer := h.controller(DecisionRequest(e.id, a.id, a.number, a.work.value, a.activation, e.controllerState, e.limits, e.accounting), cut);
    if answer.Some? && DecisionRight(answer.value) then answer else None
  }

  // ---------------------------------------------------------------- Stages

  /** A stage has come to its end: its result is recorded on the record before, whichever that was, or the execution
      had been ended already. */
  ghost predicate Landed(log: seq<Record>, m: Move, r: Record) {
    r in log && (Terminal(r.execution.status) || exists revision: nat :: Applied(log, revision, m, r.execution))
  }

  /** The record starts a stage of this phase. */
  predicate Starts(r: Record, phase: Phase) {
    && r.transition.cause.StageStart? && r.execution.phase == phase && r.execution.currentAttempt.Some?
    && (phase.Decide? ==> HasWork(r.execution.currentAttempt))
  }

  /** The record that started the stage, if any, at an index that the history did not have before. */
  ghost predicate StartedAt(log: seq<Record>, log': seq<Record>, phase: Phase, start: Option<nat>) {
    start.Some? ==> |log| <= start.value < |log'| && Starts(log'[start.value], phase)
  }

  lemma StartedStays(log: seq<Record>, log': seq<Record>, log'': seq<Record>, phase: Phase, start: Option<nat>)
    requires StartedAt(log, log', phase, start) && log' <= log''
    ensures StartedAt(log, log'', phase, start)
  {}

  lemma StartedSince(log: seq<Record>, log': seq<Record>, log'': seq<Record>, phase: Phase, start: Option<nat>)
    requires log <= log' && StartedAt(log', log'', phase, start)
    ensures StartedAt(log, log'', phase, start)
  {}

  /** What the Worker made of the execution as started at that index came, or failed to come, to its end with `r`. */
  ghost predicate WorkLandedBy(log: seq<Record>, h: Handlers, start: nat, cut: bool, r: Record)
    requires start < |log| && Starts(log[start], Work)
  {
    var (result, failed) := Worked(h, log[start].execution, cut);
    Landed(log, EndingWork(result, failed), r)
  }

  ghost predicate WorkLanded(log: seq<Record>, h: Handlers, start: Option<nat>, failing: bool, r: Record) {
    && start.Some? && start.value < |log| && Starts(log[start.value], Work)
    && exists cut :: WorkLandedBy(log, h, start.value, cut, r) && Worked(h, log[start.value].execution, cut).1.Some? == failing
  }

  ghost predicate DecisionLandedBy(log: seq<Record>, h: Handlers, start: nat, cut: bool, r: Record)
    requires start < |log| && Starts(log[start], Decide)
  {
    Landed(log, EndingDecision(Controlled(h, log[start].execution, cut)), r)
  }

  ghost predicate DecisionLanded(log: seq<Record>, h: Handlers, start: Option<nat>, failing: bool, r: Record) {
    && start.Some? && start.value < |log| && Starts(log[start.value], Decide)
    && exists cut :: DecisionLandedBy(log, h, start.value, cut, r) && Controlled(h, log[start.value].execution, cut).None? == failing
  }

  /** What a completed call reports: the record a stage came to its end with, or the one a reached limit left. */
  ghost predicate EndsStage(log: seq<Record>, h: Handlers, work: Option<nat>, decision: Option<nat>, r: Record) {
    r in log && (r.execution.status.Limited? || WorkLanded(log, h, work, false, r) || DecisionLanded(log, h, decision, false, r))
  }

  ghost predicate StageEnded(log: seq<Record>, h: Handlers, work: Option<nat>, decision: Option<nat>, e: Execution) {
    exists r :: EndsStage(log, h, work, decision, r) && r.execution == e
  }

  /** A handler failed, and its stage came to its end so. */
  ghost predicate StageFailed(log: seq<Record>, h: Handlers, work: Option<nat>, decision: Option<nat>) {
    (exists r :: WorkLanded(log, h, work, true, r)) || (exists r :: DecisionLanded(log, h, decision, true, r))
  }

  lemma LandedStays(log: seq<Record>, log': seq<Record>, m: Move, r: Record)
    requires Landed(log, m, r) && log <= log'
    ensures Landed(log', m, r)
  {
    if !Terminal(r.execution.status) {
      var revision: nat :| Applied(log, revision, m, r.execution);
      AppliedStays(log, log', revision, m, r.execution);
    }
  }

  lemma WorkLandedStays(log: seq<Record>, log': seq<Record>, h: Handlers, start: Option<nat>, failing: bool, r: Record)
    requires WorkLanded(log, h, start, failing, r) && log <= log'
    ensures WorkLanded(log', h, start, failing, r)
  {
    var cut :| WorkLandedBy(log, h, start.value, cut, r) && Worked(h, log[start.value].execution, cut).1.Some? == failing;
    var w := Worked(h, log[start.value].execution, cut);
    LandedStays(log, log', EndingWork(w.0, w.1), r);
    assert WorkLandedBy(log', h, start.value, cut, r);
  }

  lemma DecisionLandedStays(log: seq<Record>, log': seq<Record>, h: Handlers, start: Option<nat>, failing: bool, r: Record)
    requires DecisionLanded(log, h, start, failing, r) && log <= log'
    ensures DecisionLanded(log', h, start, failing, r)
  {
    var cut :| DecisionLandedBy(log, h, start.value, cut, r) && Controlled(h, log[start.value].execution, cut).None? == failing;
    LandedStays(log, log', EndingDecision(Controlled(h, log[start.value].execution, cut)), r);
    assert DecisionLandedBy(log', h, start.value, cut, r);
  }

  lemma EndsStageStays(log: seq<Record>, log': seq<Record>, h: Handlers, work: Option<nat>, decision: Option<nat>, r: Record)
    requires EndsStage(log, h, work, decision, r) && log <= log'
    ensures EndsStage(log', h, work, decision, r)
  {
    if WorkLanded(log, h, work, false, r) {
      WorkLandedStays(log, log', h, work, false, r);
    } else if DecisionLanded(log, h, decision, false, r) {
      DecisionLandedStays(log, log', h, decision, false, r);
    }
  }

  // ---------------------------------------------------------------- Why a call fails

  /** The store turns away what a move makes of the record at some index, although nothing has been written since. */
  ghost predicate TurnedAwayBy(log: seq<Record>, room: nat, error: Error, i: nat, m: Move, now: nat) {
    && i < |log| && now != 0 && Legal(log[i].execution, m, now) && Make(log[i].execution, m, now).Changed? && !error.Conflict?
    && Judge(Some(log[..i + 1]), i + 1, NextRecord(log[i], Make(log[i].execution, m, now), now), room) == Rejected(error)
  }

  ghost predicate TurnedAway(log: seq<Record>, room: nat, error: Error) {
    exists i: nat, m, now :: TurnedAwayBy(log, room, error, i, m, now)
  }

  /** A swap on the record of a revision fails because another record has been written since, or is turned away. */
  ghost predicate Rebuffed(log: seq<Record>, room: nat, revision: nat, error: Error) {
    if error.Conflict? then |log| > revision else TurnedAway(log, room, error)
  }

  lemma RebuffedSwap(log: seq<Record>, room: nat, from: Record, m: Move, now: nat, error: Error)
    requires WellFormed(log) && from in log && now != 0 && Legal(from.execution, m, now) && Make(from.execution, m, now).Changed?
    requires Judge(Some(log), from.execution.revision, NextRecord(from, Make(from.execution, m, now), now), room) == Rejected(error)
    ensures Rebuffed(log, room, from.execution.revision, error)
  {
    AtRevision(log, from);
    Revisions(log, |log| - 1);
    if !error.Conflict? {
      var i := from.execution.revision - 1;
      if i + 1 == |log| {
        assert log[..i + 1] == log;
      }
      assert TurnedAwayBy(log, room, error, i, m, now);
    }
  }

  /** Why a control operation fails: the history was not at the expected revision throughout the call, the store turns
      away what it writes, or the record of that revision refuses the move. */
  ghost predicate ControlExcused(before: seq<Record>, log: seq<Record>, room: nat, expected: nat, m: Move, error: Error) {
    || (error.Conflict? && !(|before| == expected == |log|))
    || TurnedAway(log, room, error)
    || (1 <= expected <= |log| && Refusing(log[expected - 1].execution, m, error))
  }

  predicate Refuses(e: Execution, m: Move, now: nat, error: Error) {
    Legal(e, m, now) && Make(e, m, now) == Refused(error)
  }

  ghost predicate Refusing(e: Execution, m: Move, error: Error) {
    exists now: nat :: Refuses(e, m, now, error)
  }

  /** The record of the expected revision is not one to advance with these handlers. */
  predicate Unready(log: seq<Record>, expected: nat, h: Handlers, error: Error) {
    1 <= expected <= |log| &&
    var e := log[expected - 1].execution;
    match error
    case HandlerMismatch => e.handlers != h.reference
    case TerminalError => Terminal(e.status)
    case RetryRequired => e.status.Interrupted? && e.phase.Work?
    case NotRunnable => !e.status.Ready? && !Terminal(e.status) && !(e.status.Interrupted? && e.phase.Work?)
    case _ => false
  }

  /** An execution is to decide without a durable result. */
  ghost predicate Workless(log: seq<Record>) {
    exists r <- log :: r.execution.status.Ready? && r.execution.phase.Decide? && !HasWork(r.execution.currentAttempt)
  }

  /** Why advancing fails. */
  ghost predicate Excused(before: seq<Record>, log: seq<Record>, room: nat, expected: nat, h: Handlers, work: Option<nat>, decision: Option<nat>,
                          seen: bool, error: Error) {
    || (error.Conflict? && !(|before| == expected == |log|))
    || (error.Busy? && seen)
    || (error.StageFailure? && StageFailed(log, h, work, decision))
    || TurnedAway(log, room, error)
    || Unready(log, expected, h, error)
    || (error.Invalid? && Workless(log))
  }

  /** A history searched in vain for a signal did not hold it at an earlier revision either. */
  lemma SearchedBefore(searched: seq<Record>, log: seq<Record>, expected: nat, signalId: string)
    requires searched <= log && !Delivered(searched, signalId) && expected <= |log|
    ensures expected <= |searched| ==> !Delivered(log[..expected], signalId)
  {
    if expected <= |searched| {
      assert log[..expected] == searched[..expected];
      assert forall r <- log[..expected] :: r in searched;
    }
  }

  ghost predicate AlreadySo(log: seq<Record>, expected: nat, m: Move, e: Execution) {
    && 1 <= expected <= |log| && log[expected - 1].execution == e
    && exists now :: Legal(e, m, now) && Make(e, m, now).Unchanged?
  }

  lemma AppliedStays(log: seq<Record>, log': seq<Record>, expected: nat, m: Move, e: Execution)
    requires Applied(log, expected, m, e) && log <= log'
    ensures Applied(log', expected, m, e)
  {
    var now :| AppliedBy(log, expected, m, now, e);
    assert AppliedBy(log', expected, m, now, e);
  }

  /** What the store accepts of a move is a step of the history, on its latest record. */
  lemma StoredSteps(log: seq<Record>, from: Record, next: Record, m: Move, now: nat, maxTransitions: nat)
    requires WellFormed(log) && from in log && now != 0 && Legal(from.execution, m, now) && Make(from.execution, m, now).Changed?
    requires next == NextRecord(from, Make(from.execution, m, now), now)
    requires Judge(Some(log), from.execution.revision, next, maxTransitions).Stored?
    ensures WellFormed(log + [next]) && from == log[|log| - 1]
  {
    StoredIsSwapped(log, from, next, maxTransitions);
    assert StepBy(log, log + [next], from, m, now);
    StepKeeps(log, log + [next]);
    LoadedIsLatest(log, from);
  }

  /** A record just swapped in follows the one it was made of. */
  lemma SwapApplied(log: seq<Record>, from: Record, next: Record, m: Move, now: nat)
    requires WellFormed(log) && |log| > 1 && log[|log| - 2] == from && log[|log| - 1] == next
    requires now != 0 && Legal(from.execution, m, now) && Make(from.execution, m, now).Changed?
    requires next == NextRecord(from, Make(from.execution, m, now), now)
    ensures Applied(log, from.execution.revision, m, next.execution)
  {
    Revisions(log, |log| - 2);
    assert AppliedBy(log, from.execution.revision, m, now, next.execution);
  }

  lemma SwapLands(log: seq<Record>, log': seq<Record>, from: Record, next: Record, m: Move, now: nat)
    requires WellFormed(log') && log != [] && log' == log + [next] && from == log[|log| - 1]
    requires now != 0 && Legal(from.execution, m, now) && Make(from.execution, m, now).Changed?
    requires next == NextRecord(from, Make(from.execution, m, now), now)
    ensures Landed(log', m, next) && Applied(log', from.execution.revision, m, next.execution)
  {
    SwapApplied(log', from, next, m, now);
  }

  lemma PauseResult(log: seq<Record>, expected: nat, reason: string, e: Execution)
    requires Applied(log, expected, Pausing(reason), e)
    ensures e.status == if log[expected - 1].execution.status.Running? then PauseRequested else Paused
  {}

  lemma ResumeResult(log: seq<Record>, expected: nat, reason: string, e: Execution)
    requires Applied(log, expected, Resuming(reason), e)
    ensures var before := log[expected - 1].execution;
            && before.status.Paused? && before.suspension.Some? && !before.suspension.value.retryRequired
            && e.status == before.suspension.value.status && e.phase == before.suspension.value.phase
            && e.wait == before.suspension.value.wait && e.block == before.suspension.value.block
  {}

  lemma RetryWorkResult(log: seq<Record>, expected: nat, reason: string, e: Execution)
    requires Applied(log, expected, RetryingWork(reason), e)
    ensures Retryable(log[expected - 1].execution) && e.status.Ready? && e.phase.Work? && e.currentAttempt.None?
  {}

  lemma RetryDecisionResult(log: seq<Record>, expected: nat, reason: string, e: Execution)
    requires Applied(log, expected, RetryingDecision(reason), e)
    ensures var before := log[expected - 1].execution;
            && before.currentAttempt.Some? && e.status.Ready? && e.phase.Decide? && e.currentAttempt.Some?
            && e.currentAttempt.value.work == before.currentAttempt.value.work && e.currentAttempt.value.work.Some?
  {}

  lemma BlockResult(log: seq<Record>, expected: nat, payload: Json, e: Execution)
    requires Applied(log, expected, Resolving(payload), e)
    ensures log[expected - 1].execution.status.Blocked? && e.status.Ready?
    ensures e.activation.Some? && e.activation.value.payload == payload
  {}

  lemma DueResult(log: seq<Record>, expected: nat, e: Execution)
    requires Applied(log, expected, Waking, e)
    ensures var before := log[expected - 1].execution;
            && before.status.Waiting? && before.wait.Some? && before.wait.value.notBefore.Some?
            && before.wait.value.notBefore.value <= e.updatedAt && e.status.Ready?
  {}

  lemma CancelResult(log: seq<Record>, expected: nat, reason: string, e: Execution)
    requires Applied(log, expected, Cancelling(reason), e) || AlreadySo(log, expected, Cancelling(reason), e)
    ensures e.status.Cancelled? || e.status.CancelRequested?
  {}

  lemma FailResult(log: seq<Record>, expected: nat, reason: string, e: Execution)
    requires Applied(log, expected, Failing(reason), e)
    ensures e.status.Failed?
  {}

  lemma SignalResult(log: seq<Record>, expected: nat, id: string, key: string, payload: Json, e: Execution)
    requires Applied(log, expected, Signalling(id, key, payload), e)
    ensures Delivers(log[expected], id)
  {}

  /** Only pausing and cancelling can find that nothing is left to do. */
  lemma NeverSame(log: seq<Record>, expected: nat, m: Move, e: Execution)
    requires AlreadySo(log, expected, m, e) && OfCaller(m)
    ensures m.Pausing? || m.Cancelling?
    ensures m.Pausing? ==> e.status.Paused? || e.status.PauseRequested?
  {}

  class Engine {
    const store: MemoryStore
    /** The executions with an active stage, and those that ever had one. */
    var active: set<string>
    ghost var seen: set<string>

    constructor (s: MemoryStore)
      ensures store == s && active == {}
    {
      store := s;
      active, seen := {}, {};
    }

    ghost predicate Tracks(id: string)
      reads store, this
    {
      store.Valid() && id in store.records && WellFormed(store.records[id]) && active <= seen
    }

    /** Swaps in a move on a record that was loaded at some time. */
    method Swap(id: string, from: Record, m: Move, now: nat) returns (swapped: Outcome, next: Record)
      requires Tracks(id) && from in store.records[id] && now != 0 && Legal(from.execution, m, now) && Make(from.execution, m, now).Changed?
      modifies store`records
      ensures Tracks(id) && next == NextRecord(from, Make(from.execution, m, now), now)
      ensures swapped.Stored? ==> from == old(store.records[id][|store.records[id]| - 1]) && store.records[id] == old(store.records[id]) + [next]
      ensures swapped.Rejected? ==> store.records[id] == old(store.records[id])
                                    && Rebuffed(store.records[id], store.maxTransitions, from.execution.revision, swapped.error)
    {
      next := NextRecord(from, Make(from.execution, m, now), now);
      ghost var log := store.records[id];
      swapped := store.CompareAndSwap(id, from.execution.revision, next);
      if swapped.Stored? {
        StoredSteps(log, from, next, m, now, store.maxTransitions);
      } else {
        RebuffedSwap(log, store.maxTransitions, from, m, now, swapped.error);
      }
    }

    /** Whatever other callers, of this engine and of others, do to the execution between two of our accesses. */
    method Others(id: string)
      requires Tracks(id)
      modifies store`records, this`active, this`seen
      ensures Tracks(id) && old(store.records[id]) <= store.records[id]
    {
      var steps: int := *;
      while steps > 0
        invariant Tracks(id) && old(store.records[id]) <= store.records[id]
      {
        steps := steps - 1;
        var m: Move, now: int, index: int := *, *, *;
        if 0 <= index < |store.records[id]| {
          var from := store.records[id][index];
          if now > 0 && Legal(from.execution, m, now) && Make(from.execution, m, now).Changed? {
            var _, _ := Swap(id, from, m, now);
          }
        }
      }
      active := *;
      seen := seen + active;
    }

    method Clock() returns (now: nat)
      ensures now != 0
    {
      var t: int := *;
      now := if t > 0 then t else 1;
    }

    // -------------------------------------------------------------- Control

    /** `loadExpected`. */
    method LoadExpected(id: string, expected: nat) returns (r: Option<Record>)
      requires Tracks(id)
      ensures r.Some? <==> store.records[id][|store.records[id]| - 1].execution.revision == expected
      ensures r.Some? ==> r.value == store.records[id][|store.records[id]| - 1]
    {
      var current := store.Load(id);
      return if current.value.execution.revision == expected then current else None;
    }

    /** `Engine.recover`: an in-progress execution without an active stage here is reconciled, and then no longer has
        the revision that was loaded. */
    method Reconcile(id: string, current: Record) returns (r: Option<Record>, error: Error)
      requires Tracks(id) && current in store.records[id]
      modifies store`records, this`active, this`seen
      ensures Tracks(id) && old(store.records[id]) <= store.records[id]
      ensures r.Some? ==> r.value in store.records[id] && (r.value == current || |store.records[id]| > current.execution.revision)
      ensures r.None? ==> TurnedAway(store.records[id], store.maxTransitions, error)
    {
      if !Engaged(current.execution.status) || id in active {
        return Some(current), Invalid;
      }
      Others(id);
      var now := Clock();
      AtRevision(store.records[id], current);
      var swapped, next := Swap(id, current, Recovering, now);
      match swapped {
        case Stored => return Some(next), Invalid;
        case Rejected(Conflict) =>
          Others(id);
          var latest := store.Load(id);
          return latest, Invalid;
        case Rejected(why) => return None, why;
      }
    }

    /** `controlRecord`: the record of the expected revision, reconciled. */
    method ControlRecord(id: string, expected: nat) returns (r: Option<Record>, error: Error)
      requires Tracks(id)
      modifies store`records, this`active, this`seen
      ensures Tracks(id) && old(store.records[id]) <= store.records[id]
      ensures r.Some? ==> r.value in store.records[id] && r.value.execution.revision == expected
      ensures r.None? ==> if error.Conflict? then !(|old(store.records[id])| == expected == |store.records[id]|)
                          else TurnedAway(store.records[id], store.maxTransitions, error)
    {
      Others(id);
      var current := LoadExpected(id, expected);
      if current.None? {
        LatestRevision(store.records[id]);
        return None, Conflict;
      }
      var reconciled;
      reconciled, error := Reconcile(id, current.value);
      if reconciled.None? {
        TurnedAwayNot(store.records[id], store.maxTransitions, error);
        return None, error;
      }
      if reconciled.value.execution.revision != expected {
        return None, Conflict;
      }
      return reconciled, Invalid;
    }

    /** The end of a control operation that changes something. */
    method Commit(id: string, current: Record, m: Move, now: nat) returns (r: Reply)
      requires Tracks(id) && current in store.records[id]
      requires now != 0 && Legal(current.execution, m, now) && Make(current.execution, m, now).Changed?
      modifies store`records, this`active, this`seen
      ensures Tracks(id) && old(store.records[id]) <= store.records[id] && !r.Same?
      ensures r.Done? ==> Applied(store.records[id], current.execution.revision, m, r.execution)
      ensures r.Failure? ==> Rebuffed(store.records[id], store.maxTransitions, current.execution.revision, r.error)
    {
      Others(id);
      var swapped, next := Swap(id, current, m, now);
      if swapped.Rejected? {
        return Failure(swapped.error);
      }
      SwapApplied(store.records[id], current, next, m, now);
      return Done(next.execution);
    }

    /** The common course of every control operation. */
    method Control(id: string, expected: nat, m: Move) returns (r: Reply)
      requires Tracks(id) && OfCaller(m)
      modifies store`records, this`active, this`seen
      ensures Tracks(id) && old(store.records[id]) <= store.records[id]
      ensures r.Done? ==> Applied(store.records[id], expected, m, r.execution)
      ensures r.Same? ==> AlreadySo(store.records[id], expected, m, r.execution)
      ensures r.Failure? ==> ControlExcused(old(store.records[id]), store.records[id], store.maxTransitions, expected, m, r.error)
    {
      var current, error := ControlRecord(id, expected);
      if current.None? {
        return Failure(error);
      }
      var now := Clock();
      var verdict := Make(current.value.execution, m, now);
      AtRevision(store.records[id], current.value);
      match verdict {
        case Refused(why) =>
          assert Refuses(current.value.execution, m, now, why);
          return Failure(why);
        case Unchanged => return Same(current.value.execution);
        case Changed(_, _, _, _) => r := Commit(id, current.value, m, now);
      }
    }

    /** Pausing suspends at once, or asks a running stage to. */
    method PauseExecution(id: string, expected: nat, reason: string) returns (r: Reply)
      requires Tracks(id)
      modifies store`records, this`active, this`seen
      ensures Tracks(id) && old(store.records[id]) <= store.records[id]
      ensures r.Failure? ==> ControlExcused(old(store.records[id]), store.records[id], store.maxTransitions, expected, Pausing(reason), r.error)
      ensures r.Done? ==> Applied(store.records[id], expected, Pausing(reason), r.execution)
      ensures r.Done? ==> r.execution.status == if store.records[id][expected - 1].execution.status.Running? then PauseRequested else Paused
      ensures r.Same? ==> r.execution.status.Paused? || r.execution.status.PauseRequested?
    {
      r := Control(id, expected, Pausing(reason));
      if r.Done? {
        PauseResult(store.records[id], expected, reason, r.execution);
      } else if r.Same? {
        NeverSame(store.records[id], expected, Pausing(reason), r.execution);
      }
    }

    /** Resuming gives back what pausing suspended. */
    method ResumeExecution(id: string, expected: nat, reason: string) returns (r: Reply)
      requires Tracks(id)
      modifies store`records, this`active, this`seen
      ensures Tracks(id) && old(store.records[id]) <= store.records[id]
      ensures r.Failure? ==> ControlExcused(old(store.records[id]), store.records[id], store.maxTransitions, expected, Resuming(reason), r.error)
      ensures r.Done? ==> Applied(store.records[id], expected, Resuming(reason), r.execution)
      ensures r.Done? ==> var before := store.records[id][expected - 1].execution;
                before.status.Paused? && before.suspension.Some? && !before.suspension.value.retryRequired
                && r.execution.status == before.suspension.value.status && r.execution.phase == before.suspension.value.phase
                && r.execution.wait == before.suspension.value.wait && r.execution.block == before.suspension.value.block
      ensures !r.Same?
    {
      r := Control(id, expected, Resuming(reason));
      if r.Done? {
        ResumeResult(store.records[id], expected, reason, r.execution);
      } else if r.Same? {
        NeverSame(store.records[id], expected, Resuming(reason), r.execution);
      }
    }

    method RetryWorkOf(id: string, expected: nat, reason: string) returns (r: Reply)
      requires Tracks(id)
      modifies store`records, this`active, this`seen
      ensures Tracks(id) && old(store.records[id]) <= store.records[id]
      ensures r.Failure? ==> ControlExcused(old(store.records[id]), store.records[id], store.maxTransitions, expected, RetryingWork(reason), r.error)
      ensures r.Done? ==> Applied(store.records[id], expected, RetryingWork(reason), r.execution)
      ensures r.Done? ==> Retryable(store.records[id][expected - 1].execution) && r.execution.status.Ready? && r.execution.phase.Work?
                          && r.execution.currentAttempt.None?
      ensures !r.Same?
    {
      r := Control(id, expected, RetryingWork(reason));
      if r.Done? {
        RetryWorkResult(store.records[id], expected, reason, r.execution);
      } else if r.Same? {
        NeverSame(store.records[id], expected, RetryingWork(reason), r.execution);
      }
    }

    /** The same durable Work result is decided on again. */
    method RetryDecisionOf(id: string, expected: nat, reason: string) returns (r: Reply)
      requires Tracks(id)
      modifies store`records, this`active, this`seen
      ensures Tracks(id) && old(store.records[id]) <= store.records[id]
      ensures r.Failure? ==> ControlExcused(old(store.records[id]), store.records[id], store.maxTransitions, expected, RetryingDecision(reason), r.error)
      ensures r.Done? ==> Applied(store.records[id], expected, RetryingDecision(reason), r.execution)
      ensures r.Done? ==> var before := store.records[id][expected - 1].execution;
                before.currentAttempt.Some? && r.execution.status.Ready? && r.execution.phase.Decide?
                && r.execution.currentAttempt.Some? && r.execution.currentAttempt.value.work == before.currentAttempt.value.work
                && r.execution.currentAttempt.value.work.Some?
      ensures !r.Same?
    {
      r := Control(id, expected, RetryingDecision(reason));
      if r.Done? {
        RetryDecisionResult(store.records[id], expected, reason, r.execution);
      } else if r.Same? {
        NeverSame(store.records[id], expected, RetryingDecision(reason), r.execution);
      }
    }

    method ResolveBlockOf(id: string, expected: nat, payload: Json) returns (r: Reply)
      requires Tracks(id)
      modifies store`records, this`active, this`seen
      ensures Tracks(id) && old(store.records[id]) <= store.records[id]
      ensures r.Failure? ==> ControlExcused(old(store.records[id]), store.records[id], store.maxTransitions, expected, Resolving(payload), r.error)
      ensures r.Done? ==> Applied(store.records[id], expected, Resolving(payload), r.execution)
      ensures r.Done? ==> store.records[id][expected - 1].execution.status.Blocked? && r.execution.status.Ready?
                          && r.execution.activation.Some? && r.execution.activation.value.payload == payload
      ensures !r.Same?
    {
      r := Control(id, expected, Resolving(payload));
      if r.Done? {
        BlockResult(store.records[id], expected, payload, r.execution);
      } else if r.Same? {
        NeverSame(store.records[id], expected, Resolving(payload), r.execution);
      }
    }

    method ResumeDueOf(id: string, expected: nat) returns (r: Reply)
      requires Tracks(id)
      modifies store`records, this`active, this`seen
      ensures Tracks(id) && old(store.records[id]) <= store.records[id]
      ensures r.Failure? ==> ControlExcused(old(store.records[id]), store.records[id], store.maxTransitions, expected, Waking, r.error)
      ensures r.Done? ==> Applied(store.records[id], expected, Waking, r.execution)
      ensures r.Done? ==> var before := store.records[id][expected - 1].execution;
                before.status.Waiting? && before.wait.Some? && before.wait.value.notBefore.Some?
                && before.wait.value.notBefore.value <= r.execution.updatedAt && r.execution.status.Ready?
      ensures !r.Same?
    {
      r := Control(id, expected, Waking);
      if r.Done? {
        DueResult(store.records[id], expected, r.execution);
      } else if r.Same? {
        NeverSame(store.records[id], expected, Waking, r.execution);
      }
    }

    method CancelExecution(id: string, expected: nat, reason: string) returns (r: Reply)
      requires Tracks(id)
      modifies store`records, this`active, this`seen
      ensures Tracks(id) && old(store.records[id]) <= store.records[id]
      ensures r.Failure? ==> ControlExcused(old(store.records[id]), store.records[id], store.maxTransitions, expected, Cancelling(reason), r.error)
      ensures r.Done? ==> Applied(store.records[id], expected, Cancelling(reason), r.execution)
      ensures r.Done? || r.Same? ==> r.execution.status.Cancelled? || r.execution.status.CancelRequested?
    {
      r := Control(id, expected, Cancelling(reason));
      if r.Done? || r.Same? {
        CancelResult(store.records[id], expected, reason, r.execution);
      }
    }

    method FailExecution(id: string, expected: nat, reason: string) returns (r: Reply)
      requires Tracks(id)
      modifies store`records, this`active, this`seen
      ensures Tracks(id) && old(store.records[id]) <= store.records[id]
      ensures r.Failure? ==> ControlExcused(old(store.records[id]), store.records[id], store.maxTransitions, expected, Failing(reason), r.error)
      ensures r.Done? ==> Applied(store.records[id], expected, Failing(reason), r.execution) && r.execution.status.Failed?
      ensures !r.Same?
    {
      r := Control(id, expected, Failing(reason));
      if r.Done? {
        FailResult(store.records[id], expected, reason, r.execution);
      } else if r.Same? {
        NeverSame(store.records[id], expected, Failing(reason), r.execution);
      }
    }

    /** `Engine.Signal`: a signal found in the history is answered as delivered. One that is delivered by this call, on
        a revision the store had reached when the call began, was not delivered before. */
    method SignalExecution(id: string, expected: nat, signalId: string, key: string, payload: Json) returns (r: Reply)
      requires Tracks(id)
      modifies store`records, this`active, this`seen
      ensures Tracks(id) && old(store.records[id]) <= store.records[id]
      ensures r.Done? ==> Applied(store.records[id], expected, Signalling(signalId, key, payload), r.execution)
                          && Delivers(store.records[id][expected], signalId)
      ensures r.Done? && expected <= |old(store.records[id])| ==> !Delivered(store.records[id][..expected], signalId)
      ensures r.Same? ==> Delivered(store.records[id], signalId)
      ensures r.Failure? ==> ControlExcused(old(store.records[id]), store.records[id], store.maxTransitions, expected, Signalling(signalId, key, payload), r.error)
    {
      Others(id);
      var duplicate := Find(id, signalId);
      if duplicate.Some? {
        return Same(duplicate.value);
      }
      ghost var searched := store.records[id];
      assert |old(store.records[id])| <= |searched|;
      r := Control(id, expected, Signalling(signalId, key, payload));
      if r.Done? {
        SignalResult(store.records[id], expected, signalId, key, payload, r.execution);
        SearchedBefore(searched, store.records[id], expected, signalId);
      } else if r.Same? {
        NeverSame(store.records[id], expected, Signalling(signalId, key, payload), r.execution);
      } else if r == Failure(Conflict) {
        r := Recheck(id, signalId);
      }
    }

    /** A signal that came too late may have been delivered meanwhile. */
    method Recheck(id: string, signalId: string) returns (r: Reply)
      requires Tracks(id)
      modifies store`records, this`active, this`seen
      ensures Tracks(id) && old(store.records[id]) <= store.records[id]
      ensures r == Failure(Conflict) || (r.Same? && Delivered(store.records[id], signalId))
    {
      Others(id);
      var duplicate := Find(id, signalId);
      return if duplicate.Some? then Same(duplicate.value) else Failure(Conflict);
    }

    /** `duplicateSignal`: searches the history for a signal. */
    method Find(id: string, signalId: string) returns (r: Option<Execution>)
      requires Tracks(id)
      ensures r.Some? <==> Delivered(store.records[id], signalId)
    {
      var history := store.History(id);
      var log := history.value;
      for i := 0 to |log|
        invariant forall j | 0 <= j < i :: !Delivers(log[j], signalId)
      {
        if Delivers(log[i], signalId) {
          assert log[i] in log;
          return Some(log[|log| - 1].execution);
        }
      }
      return None;
    }

    // -------------------------------------------------------------- Advancing

    /** `applyLimit`, of a ready execution: the record as it was, its limits not reached, or the record that ends it. */
    method ApplyLimit(id: string, current: Record) returns (r: Option<Record>, checkedAt: nat, error: Error)
      requires Tracks(id) && current in store.records[id] && current.execution.status.Ready?
      modifies store`records, this`active, this`seen
      ensures Tracks(id) && old(store.records[id]) <= store.records[id]
      ensures r.Some? ==> r.value in store.records[id] && (r.value == current || r.value.execution.status.Limited?)
      ensures r.Some? ==> r.value.execution.status.Limited? || Runnable(r.value.execution, r.value.execution.phase, checkedAt)
      ensures r.None? ==> Rebuffed(store.records[id], store.maxTransitions, current.execution.revision, error)
    {
      checkedAt := Clock();
      error := Invalid;
      var verdict := Limit(current.execution, checkedAt);
      if verdict.Unchanged? {
        return Some(current), checkedAt, error;
      }
      Others(id);
      var swapped, next := Swap(id, current, Limiting, checkedAt);
      match swapped {
        case Stored => r := Some(next);
        case Rejected(why) => r, error := None, why;
      }
    }

    /** A swap of a move whose record is then known to follow the one it was made of. */
    method SwapOn(id: string, from: Record, m: Move, now: nat) returns (swapped: Outcome, next: Record)
      requires Tracks(id) && from in store.records[id] && now != 0 && Legal(from.execution, m, now) && Make(from.execution, m, now).Changed?
      modifies store`records
      ensures Tracks(id) && old(store.records[id]) <= store.records[id] && next == NextRecord(from, Make(from.execution, m, now), now)
      ensures swapped.Stored? ==> store.records[id] == old(store.records[id]) + [next] && Landed(store.records[id], m, next)
      ensures swapped.Stored? ==> Applied(store.records[id], from.execution.revision, m, next.execution)
                                  && from.execution.revision == |old(store.records[id])|
      ensures swapped.Rejected? ==> Rebuffed(store.records[id], store.maxTransitions, from.execution.revision, swapped.error)
    {
      ghost var before := store.records[id];
      swapped, next := Swap(id, from, m, now);
      if swapped.Stored? {
        AtRevision(before, from);
        LatestRevision(before);
        SwapLands(before, store.records[id], from, next, m, now);
      }
    }

    /** One round of `finishStage`: the record it leaves, or why there is none. */
    method TryFinish(id: string, m: Move) returns (r: Option<Record>, error: Error)
      requires Tracks(id) && EndRight(m)
      modifies store`records, this`active, this`seen
      ensures Tracks(id) && old(store.records[id]) <= store.records[id]
      ensures r.Some? ==> Landed(store.records[id], m, r.value)
      ensures r.None? ==> Rebuffed(store.records[id], store.maxTransitions, |old(store.records[id])|, error)
    {
      Others(id);
      var latest := store.Load(id);
      LatestRevision(store.records[id]);
      if Terminal(latest.value.execution.status) {
        return latest, Invalid;
      }
      r, error := SwapEnd(id, latest.value, m);
    }

    method SwapEnd(id: string, latest: Record, m: Move) returns (r: Option<Record>, error: Error)
      requires Tracks(id) && EndRight(m) && latest in store.records[id] && !Terminal(latest.execution.status)
      modifies store`records, this`active, this`seen
      ensures Tracks(id) && old(store.records[id]) <= store.records[id]
      ensures r.Some? ==> Landed(store.records[id], m, r.value)
      ensures r.None? ==> Rebuffed(store.records[id], store.maxTransitions, latest.execution.revision, error)
    {
      Others(id);
      var now := Clock();
      EndsChange(latest.execution, m, now);
      var swapped, next := SwapOn(id, latest, m, now);
      match swapped {
        case Stored => return Some(next), Invalid;
        case Rejected(why) => return None, why;
      }
    }

    /** `finishStage`: swaps the stage's result into the latest record, trying again while others get in between, but not
        for ever; a record that has become terminal is left as it is. */
    method FinishStage(id: string, m: Move) returns (r: Option<Record>, error: Error)
      requires Tracks(id) && EndRight(m)
      modifies store`records, this`active, this`seen
      ensures Tracks(id) && old(store.records[id]) <= store.records[id]
      ensures r.Some? ==> Landed(store.records[id], m, r.value)
      ensures r.None? ==> Rebuffed(store.records[id], store.maxTransitions, |old(store.records[id])| + 15, error)
    {
      for i := 0 to MAX_RECONCILIATIONS
        invariant Tracks(id) && old(store.records[id]) <= store.records[id]
        invariant |store.records[id]| >= |old(store.records[id])| + i
      {
        r, error := TryFinish(id, m);
        if r.Some? || !error.Conflict? {
          return;
        }
      }
      return None, Conflict;
    }

    method RecordStart(id: string, current: Record, m: Move) returns (error: Option<Error>)
      requires Tracks(id) && current in store.records[id] && Legal(current.execution, m, 0) && CanBegin(current, m)
      modifies store`records
      ensures Tracks(id) && old(store.records[id]) <= store.records[id]
      ensures error.None? ==> Began(old(store.records[id]), store.records[id], current, PhaseOf(m))
      ensures error.Some? ==> Rebuffed(store.records[id], store.maxTransitions, current.execution.revision, error.value)
    {
      var now := Clock();
      StartsChange(current.execution, m, now);
      var swapped, next := SwapOn(id, current, m, now);
      if swapped.Rejected? {
        return Some(swapped.error);
      }
      StartsRecorded(current, m, now);
      return None;
    }

    /** `reserve` and the record that starts a stage: on failure the reservation is given back. */
    method StartStage(id: string, current: Record, m: Move) returns (error: Option<Error>)
      requires Tracks(id) && current in store.records[id] && Legal(current.execution, m, 0) && CanBegin(current, m)
      modifies store`records, this`active, this`seen
      ensures Tracks(id) && old(store.records[id]) <= store.records[id]
      ensures error.None? ==> Began(old(store.records[id]), store.records[id], current, PhaseOf(m))
      ensures error.Some? ==> error.value.Busy? || id !in active
      ensures error.Some? ==> (error.value.Busy? && id in seen)
                              || Rebuffed(store.records[id], store.maxTransitions, current.execution.revision, error.value)
    {
      if id in active {
        return Some(Busy);
      }
      active := active + {id};
      seen := seen + {id};
      Others(id);
      error := RecordStart(id, current, m);
      if error.Some? {
        active := active - {id};
      }
    }

    /** What the Controller decides, if it is valid, is recorded; an evaluation that fails leaves no record to go on with. */
    method FinishDecision(id: string, h: Handlers, start: nat) returns (r: Option<Record>, error: Error)
      requires Tracks(id) && start < |store.records[id]| && Starts(store.records[id][start], Decide)
      modifies store`records, this`active, this`seen
      ensures Tracks(id) && old(store.records[id]) <= store.records[id]
      ensures r.Some? ==> DecisionLanded(store.records[id], h, Some(start), false, r.value)
      ensures r.None? ==> error.Conflict? || TurnedAway(store.records[id], store.maxTransitions, error)
                          || (error.StageFailure? && exists end :: DecisionLanded(store.records[id], h, Some(start), true, end))
    {
      var cut: bool := *;
      var decision := Controlled(h, store.records[id][start].execution, cut);
      r, error := FinishStage(id, EndingDecision(decision));
      if r.Some? {
        assert DecisionLandedBy(store.records[id], h, start, cut, r.value);
        if decision.None? {
          assert DecisionLanded(store.records[id], h, Some(start), true, r.value);
          r, error := None, StageFailure;
        }
      }
    }

    /** `advanceDecision`: one evaluation of the durable Work result. */
    method AdvanceDecision(id: string, h: Handlers, current: Record, checkedAt: nat) returns (r: Reply, ghost start: Option<nat>)
      requires Tracks(id) && current in store.records[id] && Runnable(current.execution, Decide, checkedAt)
      modifies store`records, this`active, this`seen
      ensures Tracks(id) && old(store.records[id]) <= store.records[id] && !r.Same?
      ensures StartedAt(old(store.records[id]), store.records[id], Decide, start)
      ensures start.Some? ==> start.value == current.execution.revision
      ensures r.Done? ==> start.Some? && StageEnded(store.records[id], h, None, start, r.execution)
      ensures r.Failure? ==> Failed(id, h, current.execution.revision, None, start, r.error)
    {
      start := None;
      if !HasWork(current.execution.currentAttempt) {
        return Failure(Invalid), start;
      }
      var error := StartStage(id, current, StartingDecision(checkedAt));
      if error.Some? {
        return Failure(error.value), start;
      }
      start := Some(current.execution.revision);
      r := Evaluate(id, h, current.execution.revision);
    }

    /** Why a stage that starts on a record of that revision, or goes on from it, fails. */
    ghost predicate Failed(id: string, h: Handlers, revision: nat, work: Option<nat>, decision: Option<nat>, error: Error)
      reads store, this
      requires id in store.records
    {
      var log := store.records[id];
      || (error.Conflict? && |log| > revision)
      || (error.Busy? && id in seen)
      || (error.StageFailure? && StageFailed(log, h, work, decision))
      || TurnedAway(log, store.maxTransitions, error)
      || (error.Invalid? && Workless(log))
    }

    /** The Controller is asked, its decision recorded, and the stage is over. */
    method DecisionStage(id: string, h: Handlers, start: nat) returns (r: Option<Record>, error: Error)
      requires Tracks(id) && start < |store.records[id]| && Starts(store.records[id][start], Decide)
      modifies store`records, this`active, this`seen
      ensures Tracks(id) && old(store.records[id]) <= store.records[id] && id !in active
      ensures r.Some? ==> DecisionLanded(store.records[id], h, Some(start), false, r.value)
      ensures r.None? ==> error.Conflict? || TurnedAway(store.records[id], store.maxTransitions, error)
                          || (error.StageFailure? && exists end :: DecisionLanded(store.records[id], h, Some(start), true, end))
    {
      r, error := FinishDecision(id, h, start);
      active := active - {id};
    }

    /** A decision is evaluated, and the limits are checked once more. */
    method Evaluate(id: string, h: Handlers, start: nat) returns (r: Reply)
      requires Tracks(id) && start < |store.records[id]| && Starts(store.records[id][start], Decide)
      modifies store`records, this`active, this`seen
      ensures Tracks(id) && old(store.records[id]) <= store.records[id] && !r.Same?
      ensures r.Done? ==> StageEnded(store.records[id], h, None, Some(start), r.execution)
      ensures r.Failure? ==> Failed(id, h, start, None, Some(start), r.error)
    {
      var finished, why := DecisionStage(id, h, start);
      if finished.None? {
        return Failure(why);
      }
      assert EndsStage(store.records[id], h, None, Some(start), finished.value);
      if !finished.value.execution.status.Ready? {
        return Done(finished.value.execution);
      }
      r := LimitEnded(id, h, finished.value, start);
    }

    /** The record a stage ended with, or the one its reached limits leave. */
    method LimitEnded(id: string, h: Handlers, ended: Record, ghost start: nat) returns (r: Reply)
      requires Tracks(id) && EndsStage(store.records[id], h, None, Some(start), ended) && ended.execution.status.Ready?
      requires start < |store.records[id]|
      modifies store`records, this`active, this`seen
      ensures Tracks(id) && old(store.records[id]) <= store.records[id] && !r.Same?
      ensures r.Done? ==> StageEnded(store.records[id], h, None, Some(start), r.execution)
      ensures r.Failure? ==> Failed(id, h, start, None, Some(start), r.error)
    {
      ghost var before := store.records[id];
      var limited, _, error := ApplyLimit(id, ended);
      EndsStageStays(before, store.records[id], h, None, Some(start), ended);
      if limited.None? {
        return Failure(error);
      }
      assert EndsStage(store.records[id], h, None, Some(start), limited.value);
      return Done(limited.value.execution);
    }

    /** What the Worker returns, normalized, is recorded; a Worker that fails leaves no record to go on with. */
    method FinishWork(id: string, h: Handlers, start: nat) returns (r: Option<Record>, error: Error)
      requires Tracks(id) && start < |store.records[id]| && Starts(store.records[id][start], Work)
      modifies store`records, this`active, this`seen
      ensures Tracks(id) && old(store.records[id]) <= store.records[id]
      ensures r.Some? ==> WorkLanded(store.records[id], h, Some(start), false, r.value)
      ensures r.None? ==> error.Conflict? || TurnedAway(store.records[id], store.maxTransitions, error)
                          || (error.StageFailure? && exists end :: WorkLanded(store.records[id], h, Some(start), true, end))
    {
      var cut: bool := *;
      var (result, failed) := Worked(h, store.records[id][start].execution, cut);
      r, error := FinishStage(id, EndingWork(result, failed));
      if r.Some? {
        assert WorkLandedBy(store.records[id], h, start, cut, r.value);
        if failed.Some? {
          assert WorkLanded(store.records[id], h, Some(start), true, r.value);
          r, error := None, StageFailure;
        }
      }
    }

    /** The Work stage of `advanceWork`: reserves, starts, invokes the Worker and records what it returned. */
    method WorkStage(id: string, h: Handlers, current: Record, checkedAt: nat) returns (r: Option<Record>, error: Error, ghost start: Option<nat>)
      requires Tracks(id) && current in store.records[id] && Runnable(current.execution, Work, checkedAt)
      modifies store`records, this`active, this`seen
      ensures Tracks(id) && old(store.records[id]) <= store.records[id]
      ensures StartedAt(old(store.records[id]), store.records[id], Work, start)
      ensures start.Some? ==> start.value == current.execution.revision && id !in active
      ensures r.Some? ==> start.Some? && WorkLanded(store.records[id], h, start, false, r.value)
      ensures r.None? ==> Failed(id, h, current.execution.revision, start, None, error)
    {
      ghost var before := store.records[id];
      var attemptId: string := *;
      var busy := StartStage(id, current, StartingWork(attemptId, checkedAt));
      if busy.Some? {
        return None, busy.value, None;
      }
      ghost var log := store.records[id];
      start := Some(current.execution.revision);
      r, error := FinishWork(id, h, current.execution.revision);
      StartedStays(before, log, store.records[id], Work, start);
      active := active - {id};
    }

    /** `advanceWork`: the Worker is invoked at most once, after the record at index `work`, which this call wrote;
        its decision follows. */
    method AdvanceWork(id: string, h: Handlers, current: Record, checkedAt: nat) returns (r: Reply, ghost work: Option<nat>, ghost decision: Option<nat>)
      requires Tracks(id) && current in store.records[id] && Runnable(current.execution, Work, checkedAt)
      modifies store`records, this`active, this`seen
      ensures Tracks(id) && old(store.records[id]) <= store.records[id] && !r.Same?
      ensures StartedAt(old(store.records[id]), store.records[id], Work, work)
      ensures StartedAt(old(store.records[id]), store.records[id], Decide, decision)
      ensures work.Some? ==> work.value == current.execution.revision
      ensures r.Done? ==> Reported(id, h, work, decision, r.execution)
      ensures r.Failure? ==> Failed(id, h, current.execution.revision, work, decision, r.error)
    {
      ghost var before := store.records[id];
      decision := None;
      var finished: Option<Record>, error: Error;
      finished, error, work := WorkStage(id, h, current, checkedAt);
      ghost var log := store.records[id];
      if finished.None? {
        return Failure(error), work, None;
      }
      assert EndsStage(log, h, work, None, finished.value);
      if !finished.value.execution.status.Ready? || !finished.value.execution.phase.Decide? {
        return Done(finished.value.execution), work, None;
      }
      r, decision := DecideIfAllowed(id, h, finished.value, work);
      StartedStays(before, log, store.records[id], Work, work);
      StartedSince(before, log, store.records[id], Decide, decision);
    }

    method DecideIfAllowed(id: string, h: Handlers, current: Record, ghost work: Option<nat>) returns (r: Reply, ghost decision: Option<nat>)
      requires Tracks(id) && EndsStage(store.records[id], h, work, None, current)
      requires current.execution.status.Ready? && current.execution.phase.Decide?
      requires work.Some? && work.value < |store.records[id]|
      modifies store`records, this`active, this`seen
      ensures Tracks(id) && old(store.records[id]) <= store.records[id] && !r.Same?
      ensures StartedAt(old(store.records[id]), store.records[id], Decide, decision)
      ensures r.Done? ==> Reported(id, h, work, decision, r.execution)
      ensures r.Failure? ==> Failed(id, h, work.value, work, decision, r.error)
    {
      ghost var before := store.records[id];
      decision := None;
      var limited, checkedAt, error := ApplyLimit(id, current);
      EndsStageStays(before, store.records[id], h, work, None, current);
      if limited.None? {
        return Failure(error), None;
      }
      assert EndsStage(store.records[id], h, work, None, limited.value);
      if limited.value.execution.status.Limited? || limited.value.execution.phase.Work? {
        return Done(limited.value.execution), None;
      }
      ghost var log := store.records[id];
      r, decision := AdvanceDecision(id, h, limited.value, checkedAt);
      StartedSince(before, log, store.records[id], Decide, decision);
      AfterWork(id, h, work, decision, limited.value.execution.revision, r);
    }

    /** What a decision's call reports is reported of the whole call. */
    lemma AfterWork(id: string, h: Handlers, work: Option<nat>, decision: Option<nat>, revision: nat, r: Reply)
      requires Tracks(id) && work.Some? && work.value < |store.records[id]|
      requires r.Done? ==> StageEnded(store.records[id], h, None, decision, r.execution)
      requires r.Failure? ==> Failed(id, h, revision, None, decision, r.error)
      requires r.Done? ==> decision.Some?
      ensures r.Done? ==> Reported(id, h, work, decision, r.execution)
      ensures r.Failure? ==> Failed(id, h, work.value, work, decision, r.error)
    {}

    /** What a call reports: its decision's end, if it came to a decision; otherwise the end of its Work, which is then not
        one to decide on; or what a reached limit left. */
    ghost predicate Reported(id: string, h: Handlers, work: Option<nat>, decision: Option<nat>, e: Execution)
      reads store
      requires id in store.records
    {
      && StageEnded(store.records[id], h, if decision.Some? then None else work, decision, e)
      && (decision.None? ==> e.status.Limited? || !e.status.Ready? || !e.phase.Decide?)
    }

    /** `prepareAdvance`: only a ready execution of the expected revision goes on. */
    method PrepareAdvance(id: string, h: Handlers, expected: nat) returns (r: Option<Record>, error: Error)
      requires Tracks(id)
      modifies store`records, this`active, this`seen
      ensures Tracks(id) && old(store.records[id]) <= store.records[id]
      ensures r.Some? ==> r.value in store.records[id] && r.value.execution.revision == expected && r.value.execution.status.Ready?
                          && r.value.execution.handlers == h.reference
      ensures r.None? ==> Excused(old(store.records[id]), store.records[id], store.maxTransitions, expected, h, None, None, id in seen, error)
    {
      if id in active {
        return None, Busy;
      }
      r, error := ControlRecord(id, expected);
      if r.Some? {
        AtRevision(store.records[id], r.value);
        var unready := Unwilling(r.value.execution, h);
        if unready.Some? {
          return None, unready.value;
        }
      }
    }

    /** Why an execution is not one to advance with these handlers, if it is not. */
    static function Unwilling(e: Execution, h: Handlers): (r: Option<Error>)
      ensures r.None? <==> e.handlers == h.reference && e.status.Ready?
    {
      if e.handlers != h.reference then Some(HandlerMismatch)
      else if e.status.Ready? then None
      else if Terminal(e.status) then Some(TerminalError)
      else if e.status.Interrupted? && e.phase.Work? then Some(RetryRequired)
      else Some(NotRunnable)
    }

    /** The stage that a runnable execution is in. */
    method Perform(id: string, h: Handlers, current: Record, checkedAt: nat) returns (r: Reply, ghost work: Option<nat>, ghost decision: Option<nat>)
      requires Tracks(id) && current in store.records[id] && Runnable(current.execution, current.execution.phase, checkedAt)
      modifies store`records, this`active, this`seen
      ensures Tracks(id) && old(store.records[id]) <= store.records[id] && !r.Same?
      ensures StartedAt(old(store.records[id]), store.records[id], Work, work)
      ensures StartedAt(old(store.records[id]), store.records[id], Decide, decision)
      ensures work.Some? ==> work.value == current.execution.revision && current.execution.phase.Work?
      ensures r.Done? ==> Reported(id, h, work, decision, r.execution)
      ensures r.Failure? ==> Failed(id, h, current.execution.revision, work, decision, r.error)
    {
      match current.execution.phase {
        case Work => r, work, decision := AdvanceWork(id, h, current, checkedAt);
        case Decide =>
          r, decision := AdvanceDecision(id, h, current, checkedAt);
          work := None;
      }
    }

    /** `Engine.Advance`: one Work stage with its decision, or a decision alone, of an execution that is ready at the
        expected revision. The Worker is invoked only after the record at index `work`, which this call wrote upon that
        revision, and the Controller after the one at `decision`; what they answer to the requests of those records is
        recorded. What is reported as done is the record a stage ended with so, or one that a limit left; the call fails
        only with an excuse. */
    method Advance(id: string, h: Handlers, expected: nat) returns (r: Reply, ghost work: Option<nat>, ghost decision: Option<nat>)
      requires Tracks(id)
      modifies store`records, this`active, this`seen
      ensures Tracks(id) && old(store.records[id]) <= store.records[id] && !r.Same?
      ensures StartedAt(old(store.records[id]), store.records[id], Work, work) && (work.Some? ==> work.value == expected)
      ensures StartedAt(old(store.records[id]), store.records[id], Decide, decision)
      ensures r.Done? ==> Reported(id, h, work, decision, r.execution)
      ensures r.Failure? ==> Excused(old(store.records[id]), store.records[id], store.maxTransitions, expected, h, work, decision, id in seen, r.error)
    {
      ghost var before := store.records[id];
      var current, error := PrepareAdvance(id, h, expected);
      work, decision := None, None;
      if current.None? {
        return Failure(error), None, None;
      }
      var limited, checkedAt, why := ApplyLimit(id, current.value);
      if limited.None? {
        return Failure(why), None, None;
      }
      if limited.value.execution.status.Limited? {
        assert EndsStage(store.records[id], h, None, None, limited.value);
        return Done(limited.value.execution), None, None;
      }
      ghost var log := store.records[id];
      r, work, decision := Perform(id, h, limited.value, checkedAt);
      StartedSince(before, log, store.records[id], Work, work);
      StartedSince(before, log, store.records[id], Decide, decision);
    }
  }

  /** What a stage can end with: a normalized result, a valid decision, or none. */
  predicate EndRight(m: Move) {
    (m.EndingWork? && WorkRight(m.result)) || (m.EndingDecision? && (m.decision.Some? ==> DecisionRight(m.decision.value)))
  }

  /** A stage always has something to record. */
  lemma EndsChange(e: Execution, m: Move, now: nat)
    requires EndRight(m) && !Terminal(e.status)
    ensures Legal(e, m, now) && Make(e, m, now).Changed?
  {}

  lemma StartsChange(e: Execution, m: Move, now: nat)
    requires Legal(e, m, now) && (m.StartingWork? || (m.StartingDecision? && HasWork(e.currentAttempt)))
    ensures Make(e, m, now).Changed? && Make(e, m, now).cause.StageStart?
    ensures Make(e, m, now).execution.phase == if m.StartingWork? then Work else Decide
  {}

  predicate CanBegin(from: Record, m: Move) {
    m.StartingWork? || (m.StartingDecision? && HasWork(from.execution.currentAttempt))
  }

  function PhaseOf(m: Move): Phase {
    if m.StartingWork? then Work else Decide
  }

  /** A stage was started on the record it was decided on, which was the latest. */
  ghost predicate Began(log: seq<Record>, log': seq<Record>, from: Record, phase: Phase) {
    |log| <= from.execution.revision < |log'| && Starts(log'[from.execution.revision], phase)
  }

  lemma StartsRecorded(from: Record, m: Move, now: nat)
    requires Legal(from.execution, m, now) && Make(from.execution, m, now).Changed? && CanBegin(from, m)
    ensures Starts(NextRecord(from, Make(from.execution, m, now), now), PhaseOf(m))
  {
    StartsChange(from.execution, m, now);
  }

  lemma LatestRevision(log: seq<Record>)
    requires WellFormed(log)
    ensures log[|log| - 1].execution.revision == |log|
  {
    Revisions(log, |log| - 1);
  }

  /** What the store turns away is no conflict. */
  lemma TurnedAwayNot(log: seq<Record>, room: nat, error: Error)
    requires TurnedAway(log, room, error)
    ensures !error.Conflict?
  {}

  /** A loaded record sits at the index of its revision. */
  lemma AtRevision(log: seq<Record>, r: Record)
    requires WellFormed(log) && r in log
    ensures 1 <= r.execution.revision <= |log| && log[r.execution.revision - 1] == r
  {
    var i :| 0 <= i < |log| && log[i] == r;
    Revisions(log, i);
  }
}
