/** Signals are delivered at most once (agent/continuation/control.go). */
module Signals {
  import opened Options
  import opened Records
  import opened Histories

  predicate Delivers(r: Record, id: string) {
    r.transition.cause.Signalled? && r.transition.signalId == id
  }

  predicate Delivered(log: seq<Record>, id: string) {
    exists r <- log :: Delivers(r, id)
  }

  /** `Engine.Signal`: the caller searched the first `seen` records for the signal without finding it, then loaded the
      record of the revision it expects, which had been written by then. */
  ghost predicate SignalBy(log: seq<Record>, log': seq<Record>, id: string, key: string, payload: Json, seen: nat, expected: nat, now: nat)
    requires log != []
  {
    && 1 <= expected <= seen <= |log| && now != 0 && !Delivered(log[..seen], id)
    && Signal(log[expected - 1].execution, id, key, payload, now).Changed?
    && log' == Swapped(log, log[expected - 1], NextRecord(log[expected - 1], Signal(log[expected - 1].execution, id, key, payload, now), now))
  }

  /** A step of any other operation, or of a signal so guarded. */
  ghost predicate GuardedStep(log: seq<Record>, log': seq<Record>) {
    log != [] &&
    ((exists from, m, now :: StepBy(log, log', from, m, now) && !m.Signalling?)
     || (exists id, key, payload, seen, expected, now :: SignalBy(log, log', id, key, payload, seen, expected, now)))
  }

  ghost predicate GuardedBehaviour(logs: seq<seq<Record>>) {
    && logs != [] && |logs[0]| == 1 && Initiates(logs[0][0])
    && forall i: nat | 0 < i < |logs| :: GuardedStep(logs[i - 1], logs[i])
  }

  ghost predicate OncePerSignal(log: seq<Record>) {
    forall i: nat, j: nat | i < j < |log| && log[i].transition.cause.Signalled? && log[j].transition.cause.Signalled? ::
      log[i].transition.signalId != log[j].transition.signalId
  }

  lemma OtherMoves(e: Execution, m: Move, now: nat)
    requires Legal(e, m, now) && Make(e, m, now).Changed? && !m.Signalling?
    ensures !Make(e, m, now).cause.Signalled?
  {}

  lemma OtherKeeps(log: seq<Record>, log': seq<Record>, from: Record, m: Move, now: nat)
    requires WellFormed(log) && OncePerSignal(log) && StepBy(log, log', from, m, now) && !m.Signalling?
    ensures OncePerSignal(log')
  {
    OtherMoves(from.execution, m, now);
  }

  /** The swap succeeds only if nothing was written after the revision the caller expects, and by then it had
      searched that far: so it had searched everything. */
  lemma SignalKeeps(log: seq<Record>, log': seq<Record>, id: string, key: string, payload: Json, seen: nat, expected: nat, now: nat)
    requires WellFormed(log) && OncePerSignal(log) && SignalBy(log, log', id, key, payload, seen, expected, now)
    ensures OncePerSignal(log') && Step(log, log')
  {
    var from := log[expected - 1];
    assert StepBy(log, log', from, Signalling(id, key, payload), now);
    if log' != log {
      Revisions(log, expected - 1);
      Revisions(log, |log| - 1);
      assert log[..seen] == log;
      forall i: nat | i < |log| ensures !Delivers(log[i], id) {
        assert log[i] in log;
      }
    }
  }

  lemma {:induction false} SignalsOnce(logs: seq<seq<Record>>, i: nat)
    requires GuardedBehaviour(logs) && i < |logs|
    ensures WellFormed(logs[i]) && OncePerSignal(logs[i])
    decreases i
  {
    if i > 0 {
      SignalsOnce(logs, i - 1);
      var log, log' := logs[i - 1], logs[i];
      assert GuardedStep(log, log');
      if from, m, now :| StepBy(log, log', from, m, now) && !m.Signalling? {
        OtherKeeps(log, log', from, m, now);
        assert Step(log, log');
      } else {
        var id, key, payload, seen, expected, now :| SignalBy(log, log', id, key, payload, seen, expected, now);
        SignalKeeps(log, log', id, key, payload, seen, expected, now);
      }
      StepKeeps(log, log');
    }
  }

  /** Under every interleaving a signal identifier is delivered by at most one record of the history. */
  lemma DeliveredOnce(logs: seq<seq<Record>>, id: string, i: nat, j: nat)
    requires GuardedBehaviour(logs) && var log := logs[|logs| - 1]; i < |log| && j < |log| && Delivers(log[i], id) && Delivers(log[j], id)
    ensures i == j
  {
    SignalsOnce(logs, |logs| - 1);
  }
}
