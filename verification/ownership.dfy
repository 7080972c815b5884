/** One engine at work: its stages, its recoveries and its callers' controls interleave over one history. While a
    stage it has started is unfinished, only controls touch the execution, and the attempt stays the stage's own
    (agent/continuation/engine.go, advance.go, recovery.go). */
module Ownership {
  import opened Options
  import opened Records
  import opened Histories

  /** An entry of `Engine.active`: reserved, then started by the record at an index, then ended by its own record. */
  datatype Stage = Stage(phase: Phase, attemptId: string, started: Option<nat>, ended: bool)

  /** `armed` are the revisions of records on which a caller has decided to recover: it found no stage active.
      `invocations` counts the Worker's. */
  datatype Machine = Machine(log: seq<Record>, stage: Option<Stage>, armed: set<nat>, invocations: nat)

  datatype Act = Arm(revision: nat) | Recovered(revision: nat) | Reserve(phase: Phase, attemptId: string)
               | Start(from: Record, checkedAt: nat) | End(from: Record, m: Move) | Release | Control(from: Record, m: Move)

  predicate IsControl(m: Move) {
    OfCaller(m) || m.Limiting?
  }

  predicate Ends(m: Move, phase: Phase) {
    if phase.Work? then m.EndingWork? else m.EndingDecision?
  }

  predicate Makes(from: Record, m: Move, now: nat) {
    now != 0 && Legal(from.execution, m, now) && Make(from.execution, m, now).Changed?
  }

  function Swap(log: seq<Record>, from: Record, m: Move, now: nat): seq<Record>
    requires log != [] && Makes(from, m, now)
  {
    Swapped(log, from, NextRecord(from, Make(from.execution, m, now), now))
  }

  function Starting(stage: Stage, checkedAt: nat): Move {
    if stage.phase.Work? then StartingWork(stage.attemptId, checkedAt) else StartingDecision(checkedAt)
  }

  /** One atomic step: an access to the store or to the map of active stages. */
  ghost predicate Acts(s: Machine, s': Machine, a: Act, now: nat) {
    s.log != [] &&
    match a
    case Arm(revision) => s.stage.None? && 1 <= revision <= |s.log| && s' == s.(armed := s.armed + {revision})
    case Recovered(revision) =>
      && revision in s.armed && 1 <= revision <= |s.log| && Makes(s.log[revision - 1], Recovering, now)
      && s' == s.(log := Swap(s.log, s.log[revision - 1], Recovering, now))
    case Reserve(phase, attemptId) => s.stage.None? && s' == s.(stage := Some(Stage(phase, attemptId, None, false)))
    case Start(from, checkedAt) =>
      && s.stage.Some? && s.stage.value.started.None? && from in s.log && Makes(from, Starting(s.stage.value, checkedAt), now)
      && (s.stage.value.phase.Decide? ==> from.execution.currentAttempt.Some? && from.execution.currentAttempt.value.id == s.stage.value.attemptId)
      && var log' := Swap(s.log, from, Starting(s.stage.value, checkedAt), now);
         s' == if log' == s.log then s
               else s.(log := log', stage := Some(s.stage.value.(started := Some(|s.log|))),
                       invocations := s.invocations + if s.stage.value.phase.Work? then 1 else 0)
    case End(from, m) =>
      && s.stage.Some? && s.stage.value.started.Some? && !s.stage.value.ended && Ends(m, s.stage.value.phase)
      && from in s.log && Makes(from, m, now)
      && var log' := Swap(s.log, from, m, now);
         s' == if log' == s.log then s else s.(log := log', stage := Some(s.stage.value.(ended := true)))
    case Release => s.stage.Some? && s' == s.(stage := None)
    case Control(from, m) => IsControl(m) && from in s.log && Makes(from, m, now) && s' == s.(log := Swap(s.log, from, m, now))
  }

  ghost predicate Behaves(ms: seq<Machine>) {
    && ms != [] && |ms[0].log| == 1 && Initiates(ms[0].log[0]) && ms[0] == Machine(ms[0].log, None, {}, 0)
    && forall i: nat | 0 < i < |ms| :: Proceeds(ms[i - 1], ms[i])
  }

  ghost predicate Proceeds(s: Machine, s': Machine) {
    exists a, now :: Acts(s, s', a, now)
  }

  // ---------------------------------------------------------------- What every step keeps

  /** The record belongs to a stage of this attempt that is in progress, has been asked to stop, or was ended from outside. */
  predicate Held(r: Record, stage: Stage) {
    && (Engaged(r.execution.status) || Terminal(r.execution.status)) && r.execution.phase == stage.phase
    && r.execution.currentAttempt.Some? && r.execution.currentAttempt.value.id == stage.attemptId
  }

  ghost predicate StageHeld(s: Machine, stage: Stage) {
    stage.started.Some? && !stage.ended ==>
      && stage.started.value < |s.log|
      && s.log[stage.started.value].transition.cause.StageStart?
      && (forall i: nat | stage.started.value <= i < |s.log| :: Held(s.log[i], stage))
      && (forall revision <- s.armed :: revision <= stage.started.value)
  }

  ghost predicate Owned(s: Machine) {
    && WellFormed(s.log)
    && (forall i: nat | i < |s.log| :: Sane(s.log[i]))
    && (forall revision <- s.armed :: revision <= |s.log|)
    && (s.stage.Some? ==> StageHeld(s, s.stage.value))
    && s.invocations == s.log[|s.log| - 1].execution.accounting.attempts
  }

  lemma ControlHolds(r: Record, stage: Stage, m: Move, now: nat)
    requires Held(r, stage) && IsControl(m) && Makes(r, m, now)
    ensures Held(NextRecord(r, Make(r.execution, m, now), now), stage)
  {}

  lemma EndCounts(r: Record, m: Move, now: nat)
    requires (m.Recovering? || m.EndingWork? || m.EndingDecision?) && Makes(r, m, now)
    ensures NextRecord(r, Make(r.execution, m, now), now).execution.accounting.attempts == r.execution.accounting.attempts
  {
    if m.EndingWork? {
      assert Make(r.execution, m, now) == WorkOutcome(r.execution, m.result, m.error, now);
    } else if m.EndingDecision? {
      assert Make(r.execution, m, now) == DecisionOutcome(r.execution, m.decision, now);
    } else {
      assert Make(r.execution, m, now) == Recover(r.execution, now);
    }
  }

  lemma ControlCounts(r: Record, m: Move, now: nat)
    requires IsControl(m) && Makes(r, m, now)
    ensures NextRecord(r, Make(r.execution, m, now), now).execution.accounting.attempts == r.execution.accounting.attempts
  {}

  /** A swap appends the move on the latest record, or nothing. */
  lemma SwapAppends(log: seq<Record>, from: Record, m: Move, now: nat)
    requires WellFormed(log) && from in log && Makes(from, m, now)
    ensures WellFormed(Swap(log, from, m, now))
    ensures Swap(log, from, m, now) == log
            || (from == log[|log| - 1] && Swap(log, from, m, now) == log + [NextRecord(from, Make(from.execution, m, now), now)])
  {
    assert StepBy(log, Swap(log, from, m, now), from, m, now);
    StepKeeps(log, Swap(log, from, m, now));
    if Swap(log, from, m, now) != log {
      LoadedIsLatest(log, from);
    }
  }

  lemma SaneAppended(log: seq<Record>, m: Move, now: nat)
    requires WellFormed(log) && (forall i: nat | i < |log| :: Sane(log[i]))
    requires Makes(log[|log| - 1], m, now) && Lands(log[|log| - 1].execution, m)
    ensures var log' := log + [NextRecord(log[|log| - 1], Make(log[|log| - 1].execution, m, now), now)];
            forall i: nat | i < |log'| :: Sane(log'[i])
  {
    SaneKept(log[|log| - 1], m, now);
  }

  /** A machine whose log has grown by one record that its running stage, if any, holds. */
  lemma GrownOwned(s: Machine, s': Machine, m: Move, now: nat)
    requires Owned(s) && Makes(s.log[|s.log| - 1], m, now) && Lands(s.log[|s.log| - 1].execution, m)
    requires s'.log == s.log + [NextRecord(s.log[|s.log| - 1], Make(s.log[|s.log| - 1].execution, m, now), now)] && WellFormed(s'.log)
    requires s'.armed == s.armed && (s'.stage.Some? ==> StageHeld(s', s'.stage.value))
    requires s'.invocations == s'.log[|s'.log| - 1].execution.accounting.attempts
    ensures Owned(s')
  {
    SaneAppended(s.log, m, now);
  }

  lemma StageGrows(s: Machine, s': Machine, stage: Stage, next: Record)
    requires StageHeld(s, stage) && s'.log == s.log + [next] && s'.armed == s.armed
    requires stage.started.Some? && !stage.ended ==> Held(next, stage)
    ensures StageHeld(s', stage)
  {}

  lemma ControlKeeps(s: Machine, from: Record, m: Move, now: nat)
    requires Owned(s) && IsControl(m) && from in s.log && Makes(from, m, now)
    ensures Owned(s.(log := Swap(s.log, from, m, now))) && s.log <= Swap(s.log, from, m, now)
  {
    var log' := Swap(s.log, from, m, now);
    SwapAppends(s.log, from, m, now);
    if log' == s.log {
      assert s.(log := log') == s;
    } else {
      ControlCounts(from, m, now);
      if s.stage.Some? {
        if s.stage.value.started.Some? && !s.stage.value.ended {
          ControlHolds(from, s.stage.value, m, now);
        }
        StageGrows(s, s.(log := log'), s.stage.value, log'[|s.log|]);
      }
      GrownOwned(s, s.(log := log'), m, now);
    }
  }

  /** A recovery decided on before a stage started finds the log moved on; none is decided on while it runs. */
  lemma StaleRecovery(s: Machine, revision: nat)
    requires Owned(s) && revision in s.armed && 1 <= revision <= |s.log| && s.log[revision - 1] == s.log[|s.log| - 1]
    ensures s.stage.Some? && s.stage.value.started.Some? ==> s.stage.value.ended
  {
    Revisions(s.log, revision - 1);
    Revisions(s.log, |s.log| - 1);
  }

  lemma RecoveryKeeps(s: Machine, revision: nat, now: nat)
    requires Owned(s) && revision in s.armed && 1 <= revision <= |s.log| && Makes(s.log[revision - 1], Recovering, now)
    ensures Owned(s.(log := Swap(s.log, s.log[revision - 1], Recovering, now)))
    ensures s.log <= Swap(s.log, s.log[revision - 1], Recovering, now)
  {
    var from := s.log[revision - 1];
    var log' := Swap(s.log, from, Recovering, now);
    SwapAppends(s.log, from, Recovering, now);
    if log' == s.log {
      assert s.(log := log') == s;
    } else {
      StaleRecovery(s, revision);
      EndCounts(from, Recovering, now);
      GrownOwned(s, s.(log := log'), Recovering, now);
    }
  }

  lemma StartHolds(r: Record, stage: Stage, checkedAt: nat, now: nat)
    requires Makes(r, Starting(stage, checkedAt), now)
    requires stage.phase.Decide? ==> r.execution.currentAttempt.Some? && r.execution.currentAttempt.value.id == stage.attemptId
    ensures var next := NextRecord(r, Make(r.execution, Starting(stage, checkedAt), now), now);
            && Held(next, stage) && next.transition.cause.StageStart?
            && next.execution.accounting.attempts == r.execution.accounting.attempts + if stage.phase.Work? then 1 else 0
  {}

  lemma Started(s: Machine, s': Machine, stage: Stage)
    requires Owned(s) && |s'.log| == |s.log| + 1 && s'.armed == s.armed && s'.stage == Some(stage.(started := Some(|s.log|)))
    requires Held(s'.log[|s.log|], stage) && s'.log[|s.log|].transition.cause.StageStart?
    ensures StageHeld(s', s'.stage.value)
  {}

  lemma StartKeeps(s: Machine, s': Machine, from: Record, checkedAt: nat, now: nat)
    requires Owned(s) && Acts(s, s', Start(from, checkedAt), now)
    ensures Owned(s') && s.log <= s'.log
  {
    var stage := s.stage.value;
    var m := Starting(stage, checkedAt);
    SwapAppends(s.log, from, m, now);
    if s'.log != s.log {
      StartHolds(from, stage, checkedAt, now);
      Started(s, s', stage);
      GrownOwned(s, s', m, now);
    }
  }

  lemma EndLands(s: Machine, stage: Stage, from: Record, m: Move)
    requires Owned(s) && s.stage == Some(stage) && stage.started.Some? && !stage.ended && Ends(m, stage.phase)
    requires from == s.log[|s.log| - 1] && (m.EndingWork? || m.EndingDecision?) && !Terminal(from.execution.status)
    ensures Held(from, stage) && Engaged(from.execution.status) && Lands(from.execution, m)
  {
    assert Held(from, stage);
  }

  lemma EndKeeps(s: Machine, s': Machine, from: Record, m: Move, now: nat)
    requires Owned(s) && Acts(s, s', End(from, m), now)
    ensures Owned(s') && s.log <= s'.log
    ensures s'.log != s.log ==> from == s.log[|s.log| - 1] && Held(from, s.stage.value) && Engaged(from.execution.status)
  {
    SwapAppends(s.log, from, m, now);
    if s'.log != s.log {
      EndLands(s, s.stage.value, from, m);
      EndCounts(from, m, now);
      GrownOwned(s, s', m, now);
    }
  }

  /** The steps that leave the history alone. */
  lemma IdleKeeps(s: Machine, s': Machine, a: Act, now: nat)
    requires Owned(s) && Acts(s, s', a, now) && (a.Arm? || a.Reserve? || a.Release?)
    ensures Owned(s') && s'.log == s.log
  {}

  lemma RecoveredKeeps(s: Machine, s': Machine, revision: nat, now: nat)
    requires Owned(s) && Acts(s, s', Recovered(revision), now)
    ensures Owned(s') && s.log <= s'.log
  {
    RecoveryKeeps(s, revision, now);
  }

  lemma ControlledKeeps(s: Machine, s': Machine, from: Record, m: Move, now: nat)
    requires Owned(s) && Acts(s, s', Control(from, m), now)
    ensures Owned(s') && s.log <= s'.log
  {
    ControlKeeps(s, from, m, now);
  }

  lemma ActKeeps(s: Machine, s': Machine, a: Act, now: nat)
    requires Owned(s) && Acts(s, s', a, now)
    ensures Owned(s') && s.log <= s'.log
  {
    match a {
      case Recovered(revision) => RecoveredKeeps(s, s', revision, now);
      case Start(from, checkedAt) => StartKeeps(s, s', from, checkedAt, now);
      case End(from, m) => EndKeeps(s, s', from, m, now);
      case Control(from, m) => ControlledKeeps(s, s', from, m, now);
      case _ => IdleKeeps(s, s', a, now);
    }
  }

  lemma {:induction false} AlwaysOwned(ms: seq<Machine>, i: nat)
    requires Behaves(ms) && i < |ms|
    ensures Owned(ms[i])
    decreases i
  {
    if i > 0 {
      AlwaysOwned(ms, i - 1);
      assert Proceeds(ms[i - 1], ms[i]);
      var a, now :| Acts(ms[i - 1], ms[i], a, now);
      ActKeeps(ms[i - 1], ms[i], a, now);
    }
  }

  // ---------------------------------------------------------------- Ownership

  /** In every interleaving of one engine's calls: from the record that starts a stage on, until the stage's own
      record, every record is of that stage's attempt and is in progress, asked to stop, or terminal. */
  lemma AttemptOwned(ms: seq<Machine>, i: nat, k: nat)
    requires Behaves(ms) && i < |ms| && ms[i].stage.Some? && ms[i].stage.value.started.Some? && !ms[i].stage.value.ended
    requires ms[i].stage.value.started.value <= k < |ms[i].log|
    ensures Held(ms[i].log[k], ms[i].stage.value)
  {
    AlwaysOwned(ms, i);
  }

  /** A stage's result lands only on the attempt that produced it, while its stage is in progress. */
  lemma ResultLands(ms: seq<Machine>, i: nat, s': Machine, from: Record, m: Move, now: nat)
    requires Behaves(ms) && i < |ms| && Acts(ms[i], s', End(from, m), now) && s'.log != ms[i].log
    ensures from == ms[i].log[|ms[i].log| - 1] && Held(from, ms[i].stage.value) && Engaged(from.execution.status)
  {
    AlwaysOwned(ms, i);
    EndKeeps(ms[i], s', from, m, now);
  }

  /** The Worker is invoked once for each counted attempt, and never more often than the limit allows. */
  lemma InvocationsBounded(ms: seq<Machine>, i: nat)
    requires Behaves(ms) && i < |ms|
    ensures ms[i].log != [] && ms[i].invocations == WorkStarts(ms[i].log)
    ensures ms[i].log[0].execution.limits.maxAttempts > 0 ==> ms[i].invocations <= ms[i].log[0].execution.limits.maxAttempts
  {
    AlwaysOwned(ms, i);
    var log := ms[i].log;
    AttemptsCounted(log, |log| - 1);
    assert log[..|log| - 1 + 1] == log;
  }
}
