/** What the Worker and the Controller are asked, in terms of the history (agent/continuation/advance.go). */
module Requests {
  import opened Options
  import opened Records
  import opened Histories
  import opened Causes
  import opened Engines

  /** The last decision carried out before a record: none, and index 0 stands for how the execution was created. */
  ghost predicate DecidedLast(log: seq<Record>, d: nat, i: nat) {
    && d < i < |log| && (d == 0 || log[d].transition.cause.ControllerAction?)
    && forall k: nat | d < k < i :: !log[k].transition.cause.ControllerAction?
  }

  lemma HeldSince(log: seq<Record>, d: nat, i: nat)
    requires WellFormed(log) && DecidedLast(log, d, i) && log[i].transition.cause.StageStart?
    ensures Keeps(log[d].execution, log[i].execution)
  {
    LastDecisionHolds(log, d, i);
  }

  lemma {:induction false} SameExecution(log: seq<Record>, i: nat)
    requires WellFormed(log) && i < |log|
    ensures log[i].execution.id == log[0].execution.id && log[i].execution.limits == log[0].execution.limits
    decreases i
  {
    if i > 0 {
      SameExecution(log, i - 1);
      var m, now := MoveOf(log, i);
      RecordTells(log[i - 1], log[i], m, now);
    }
  }

  /** The Worker is asked with the input the last decision gave, or the one the execution was created with, with what has
      woken it, and as the attempt that the starts of Work so far make it. */
  lemma WorkerAsked(log: seq<Record>, d: nat, start: nat, h: Handlers, cut: bool) returns (request: WorkRequest)
    requires WellFormed(log) && 0 < start && DecidedLast(log, d, start) && Starts(log[start], Work)
    ensures Worked(h, log[start].execution, cut) == Normalized(h.worker(request, cut).0, h.worker(request, cut).1)
    ensures request.input
         == if d == 0 then log[0].execution.nextInput
            else var a := log[d].execution.lastAttempt; if a.Some? && a.value.decision.Some? then a.value.decision.value.nextInput else ""
    ensures request.activation == log[start - 1].execution.activation
    ensures request.attempt == WorkStarts(log[..start + 1]) == request.accounting.attempts
    ensures request.attemptId == log[start].transition.attemptId && request.executionId == log[0].execution.id
    ensures request.limits == log[0].execution.limits && request.accounting == log[start].execution.accounting
  {
    HeldSince(log, d, start);
    SameExecution(log, start);
    AttemptsCounted(log, start);
    AttemptsCounted(log, start - 1);
    var m, now := MoveOf(log, start);
    WorkBegins(log[start - 1], log[start], m, now);
    RecordTells(log[start - 1], log[start], m, now);
    WorkCounted(log, start);
    if d > 0 {
      WhatDecisionsChange(log, d);
    }
    var e := log[start].execution;
    var a := e.currentAttempt.value;
    request := WorkRequest(e.id, a.id, a.number, e.nextInput, a.activation, e.limits, e.accounting);
  }

  lemma WorkCounted(log: seq<Record>, start: nat)
    requires 0 < start < |log| && StartsWork(log[start])
    ensures WorkStarts(log[..start + 1]) == WorkStarts(log[..start]) + 1
  {
    assert log[..start + 1][..start] == log[..start];
  }

  /** The Controller is asked to decide on the durable result of the attempt, with the state the last decision left and
      the activation the attempt had. */
  lemma ControllerAsked(log: seq<Record>, d: nat, start: nat, h: Handlers, cut: bool) returns (request: DecisionRequest)
    requires WellFormed(log) && 0 < start && DecidedLast(log, d, start) && Starts(log[start], Decide)
    ensures var answer := h.controller(request, cut);
            Controlled(h, log[start].execution, cut) == if answer.Some? && DecisionRight(answer.value) then answer else None
    ensures var before := log[start - 1].execution.currentAttempt;
            && before.Some? && before.value.work == Some(request.work) && before.value.activation == request.activation
            && before.value.id == request.attemptId && before.value.number == request.attempt
    ensures request.controllerState == log[d].execution.controllerState && request.executionId == log[0].execution.id
    ensures request.limits == log[0].execution.limits && request.accounting == log[start].execution.accounting
  {
    HeldSince(log, d, start);
    SameExecution(log, start);
    var m, now := MoveOf(log, start);
    MoveCounts(log[start - 1].execution, m, now);
    StartsAre(log[start - 1].execution, m, now);
    DecisionBegins(log[start - 1], log[start], m, now);
    var e := log[start].execution;
    var a := e.currentAttempt.value;
    request := DecisionRequest(e.id, a.id, a.number, a.work.value, a.activation, e.controllerState, e.limits, e.accounting);
  }
}
