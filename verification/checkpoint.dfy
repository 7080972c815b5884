/** Checkpoints: what an interrupted run saves, what a resumed run restores, and what is checked in between
    (workflow/runner_checkpoint.go, workflow/checkpoint.go). */
module Checkpoints {
  import opened Graphs
  import opened Topology
  import opened Options
  import opened Plans
  import opened Acceptance
  import opened Evaluation
  import opened Guarantees
  import opened Scheduler
  import opened Agreement

  datatype PausedNode = PausedNode(index: nat, paused: Paused)

  datatype Checkpoint = Checkpoint(input: Ports, edges: seq<EdgeState>, nodes: seq<Status>, outputs: seq<Option<Ports>>,
                                   failures: seq<Option<Failure>>, ready: seq<nat>, done: nat, beforePassed: seq<nat>,
                                   paused: seq<PausedNode>, handledFailure: bool, variables: Ports)

  // ---------------------------------------------------------------- Saving and restoring

  /** The queued nodes that are not suspended. */
  function Awake(ready: seq<nat>, paused: map<nat, Paused>): seq<nat> {
    if ready == [] then []
    else (if ready[0] in paused then [] else [ready[0]]) + Awake(ready[1..], paused)
  }

  /** The members of a set below `k`, in increasing order. */
  function Sorted(members: set<nat>, k: nat): seq<nat> {
    if k == 0 then [] else Sorted(members, k - 1) + (if k - 1 in members then [k - 1] else [])
  }

  function PausedBelow(paused: map<nat, Paused>, k: nat): seq<PausedNode> {
    if k == 0 then []
    else PausedBelow(paused, k - 1) + (if k - 1 in paused then [PausedNode(k - 1, paused[k - 1])] else [])
  }

  /** `execution.checkpoint`. */
  function Save(c: Setup, s: State): Checkpoint {
    Checkpoint(c.input, s.edges, s.nodes, s.outputs, s.failures, Awake(s.ready, s.paused), s.done,
               Sorted(s.beforePassed, |c.plan.nodes|), PausedBelow(s.paused, |c.plan.nodes|), s.handledFailure, s.variables)
  }

  function Indexes(paused: seq<PausedNode>): seq<nat> {
    seq(|paused|, i requires 0 <= i < |paused| => paused[i].index)
  }

  /** Later entries for the same index win, as they do when a map is filled in a loop. */
  function PausedMap(paused: seq<PausedNode>): map<nat, Paused> {
    if paused == [] then map[]
    else
      var last := paused[|paused| - 1];
      PausedMap(paused[..|paused| - 1])[last.index := last.paused]
  }

  /** `restoreExecution`: the suspended nodes go back to the end of the queue. */
  function Restore(ck: Checkpoint, targets: set<string>): State {
    State(ck.edges, ck.nodes, ck.outputs, ck.failures, ck.ready + Indexes(ck.paused), ck.done, map[], PausedMap(ck.paused),
          (set n | n in ck.beforePassed), NO_INFO, false, ck.handledFailure, ck.variables, targets)
  }

  lemma {:induction false} AwakeExactly(ready: seq<nat>, paused: map<nat, Paused>)
    ensures forall n :: n in Awake(ready, paused) <==> n in ready && n !in paused
    ensures Distinct(ready) ==> Distinct(Awake(ready, paused))
    decreases |ready|
  {
    if ready != [] {
      AwakeExactly(ready[1..], paused);
      assert ready == [ready[0]] + ready[1..];
      if Distinct(ready) {
        forall i, j | 0 <= i < j < |ready[1..]| ensures ready[1..][i] != ready[1..][j] {
          assert ready[i + 1] != ready[j + 1];
        }
        assert ready[0] !in ready[1..];
      }
    }
  }

  lemma {:induction false} SortedExactly(members: set<nat>, k: nat)
    ensures forall n :: n in Sorted(members, k) <==> n in members && n < k
    ensures Increasing(Sorted(members, k))
    decreases k
  {
    if k > 0 {
      SortedExactly(members, k - 1);
      var before := Sorted(members, k - 1);
      assert forall j | 0 <= j < |before| :: before[j] in before;
    }
  }

  lemma {:induction false} PausedBelowEntries(paused: map<nat, Paused>, k: nat)
    ensures forall p <- PausedBelow(paused, k) :: p.index in paused && p.paused == paused[p.index]
    ensures Indexes(PausedBelow(paused, k)) == Sorted(paused.Keys, k)
    decreases k
  {
    if k > 0 {
      PausedBelowEntries(paused, k - 1);
    }
  }

  lemma {:induction false} PausedBelowMap(paused: map<nat, Paused>, k: nat)
    ensures forall n :: n in PausedMap(PausedBelow(paused, k)) <==> n in paused && n < k
    ensures forall n <- PausedMap(PausedBelow(paused, k)) :: n in paused && PausedMap(PausedBelow(paused, k))[n] == paused[n]
    decreases k
  {
    if k > 0 {
      PausedBelowMap(paused, k - 1);
      var before := PausedBelow(paused, k - 1);
      if k - 1 in paused {
        assert PausedBelow(paused, k)[..|before|] == before;
      } else {
        assert PausedBelow(paused, k) == before;
      }
    }
  }

  lemma RestoredPaused(paused: map<nat, Paused>, size: nat)
    requires forall n <- paused :: n < size
    ensures PausedMap(PausedBelow(paused, size)) == paused && Indexes(PausedBelow(paused, size)) == Sorted(paused.Keys, size)
  {
    PausedBelowMap(paused, size);
    PausedBelowEntries(paused, size);
  }

  lemma RestoredPassed(passed: set<nat>, size: nat)
    requires forall n <- passed :: n < size
    ensures (set n | n in Sorted(passed, size)) == passed
  {
    SortedExactly(passed, size);
  }

  /** Restoring what a drained run saved gives the run back, with its pause cleared, the suspended nodes queued
      last and the new targets. */
  lemma RoundTrip(c: Setup, s: State, targets: set<string>)
    requires (forall n <- s.paused :: n < |c.plan.nodes|) && (forall n <- s.beforePassed :: n < |c.plan.nodes|)
    requires s.inflight == map[]
    ensures Restore(Save(c, s), targets) ==
            s.(ready := Awake(s.ready, s.paused) + Sorted(s.paused.Keys, |c.plan.nodes|),
               info := NO_INFO, pauseRequested := false, targets := targets)
  {
    RestoredPaused(s.paused, |c.plan.nodes|);
    RestoredPassed(s.beforePassed, |c.plan.nodes|);
  }

  lemma QueueDistinct(awake: seq<nat>, asleep: seq<nat>)
    requires Distinct(awake) && Increasing(asleep) && forall n <- asleep :: n !in awake
    ensures Distinct(awake + asleep)
  {
    var q := awake + asleep;
    forall i, j | 0 <= i < j < |q| ensures q[i] != q[j] {
      if i < |awake| <= j {
        assert q[j] == asleep[j - |awake|] && asleep[j - |awake|] in asleep && q[i] in awake;
      } else if |awake| <= i {
        assert asleep[i - |awake|] < asleep[j - |awake|];
      }
    }
  }

  /** The queue of a restored run. */
  lemma RestoredQueue(c: Setup, s: State)
    requires Inv(c, s)
    ensures var queue := Awake(s.ready, s.paused) + Sorted(s.paused.Keys, |c.plan.nodes|);
            Distinct(queue) && forall n :: n in queue <==> n in s.ready || n in s.paused
  {
    AwakeExactly(s.ready, s.paused);
    SortedExactly(s.paused.Keys, |c.plan.nodes|);
    QueueDistinct(Awake(s.ready, s.paused), Sorted(s.paused.Keys, |c.plan.nodes|));
    assert forall n <- s.paused :: n in Sorted(s.paused.Keys, |c.plan.nodes|);
  }

  /** A resumed run starts from a state in which everything a run keeps holds. */
  lemma RestoredInv(c: Setup, s: State, targets: set<string>)
    requires Inv(c, s) && s.inflight == map[]
    ensures Inv(c, Restore(Save(c, s), targets))
  {
    var s' := Restore(Save(c, s), targets);
    RoundTrip(c, s, targets);
    RestoredQueue(c, s);
    forall m: nat | m < |c.plan.nodes| ensures NodeRight(c, s', m) {
      assert NodeRight(c, s, m);
    }
    FlowKept(c, s, s');
    BooksKept(c, s, s');
  }

  lemma RestoredAgrees(c: Setup, s: State, targets: set<string>)
    requires Agrees(c, s) && s.inflight == map[]
    ensures Agrees(c, Restore(Save(c, s), targets))
  {
    var s' := Restore(Save(c, s), targets);
    RestoredInv(c, s, targets);
    RoundTrip(c, s, targets);
    NothingSettles(c, s, s');
    SameWrites(c, s, s');
  }
}
