/** What a SetVariable node writes, and what the loop variables are when a run has ended
    (workflow/node.go, workflow/runner_execution.go). */
module Writings {
  import opened Graphs
  import opened Topology
  import opened Options
  import opened Plans
  import opened Acceptance
  import opened Evaluation
  import opened Guarantees
  import opened Scheduler
  import opened Agreement

  /** Node `n` completes, and assigns the variable the value of the input it names for it. */
  ghost predicate Sets(c: Setup, n: nat, x: string, v: Value)
    requires Sound(c) && n < |c.plan.nodes|
  {
    && c.plan.nodes[n].kind.SetVariable? && Reference(c, n).Finished? && ReferenceInputs(c, n).Some?
    && x in c.plan.nodes[n].kind.assignments
    && var input := c.plan.nodes[n].kind.assignments[x];
       input in ReferenceInputs(c, n).value && ReferenceInputs(c, n).value[input] == v
  }

  ghost predicate SetsSome(c: Setup, n: nat, x: string)
    requires Sound(c) && n < |c.plan.nodes|
  {
    exists v :: Sets(c, n, x, v)
  }

  lemma WrittenExactly(c: Setup, n: nat, x: string)
    requires Sound(c) && n < |c.plan.nodes|
    ensures x in ReferenceWrites(c, n) <==> SetsSome(c, n, x)
    ensures x in ReferenceWrites(c, n) ==> Sets(c, n, x, ReferenceWrites(c, n)[x])
  {
    if x in ReferenceWrites(c, n) {
      assert Sets(c, n, x, ReferenceWrites(c, n)[x]);
    }
  }

  /** The last of the first `k` nodes that sets the variable gave it this value; or none has set it, and it is as it was. */
  ghost predicate LastSet(c: Setup, k: nat, x: string, value: Option<Value>)
    requires Sound(c) && k <= |c.order|
  {
    || (exists j: nat, v :: LastSetBy(c, k, x, j, v) && value == Some(v))
    || (Unset(c, 0, k, x) && value == Port(c.variables, x))
  }

  ghost predicate LastSetBy(c: Setup, k: nat, x: string, j: nat, v: Value)
    requires Sound(c) && k <= |c.order|
  {
    j < k && c.order[j] in c.order && Sets(c, c.order[j], x, v) && Unset(c, j + 1, k, x)
  }

  ghost predicate UnsetAt(c: Setup, j: nat, x: string)
    requires Sound(c) && j < |c.order|
  {
    c.order[j] in c.order && !SetsSome(c, c.order[j], x)
  }

  ghost predicate Unset(c: Setup, from: nat, k: nat, x: string)
    requires Sound(c) && k <= |c.order|
  {
    forall j: nat | from <= j < k :: UnsetAt(c, j, x)
  }

  lemma StepWrites(c: Setup, k: nat)
    requires Sound(c) && k < |c.order|
    ensures c.order[k] in c.order && Evaluate(c, k + 1).variables == Evaluate(c, k).variables + ReferenceWrites(c, c.order[k])
  {
    assert c.order[k] in c.order;
    PositionOf(c.order, k);
    assert Before(c, c.order[k]) == Evaluate(c, k);
  }

  lemma UnsetGrows(c: Setup, from: nat, k: nat, x: string)
    requires Sound(c) && k < |c.order| && Unset(c, from, k, x) && UnsetAt(c, k, x)
    ensures Unset(c, from, k + 1, x)
  {
    forall j: nat | from <= j < k + 1 ensures UnsetAt(c, j, x) {}
  }

  lemma LastSetGrows(c: Setup, k: nat, x: string, value: Option<Value>)
    requires Sound(c) && k < |c.order| && LastSet(c, k, x, value) && UnsetAt(c, k, x)
    ensures LastSet(c, k + 1, x, value)
  {
    if j: nat, v :| LastSetBy(c, k, x, j, v) && value == Some(v) {
      UnsetGrows(c, j + 1, k, x);
      assert LastSetBy(c, k + 1, x, j, v);
    } else {
      UnsetGrows(c, 0, k, x);
    }
  }

  /** Node `order[k]` sets the variable: from then on it is the last to have done so. */
  lemma SetLast(c: Setup, k: nat, x: string)
    requires Sound(c) && k < |c.order| && c.order[k] in c.order && SetsSome(c, c.order[k], x)
    requires Evaluate(c, k + 1).variables == Evaluate(c, k).variables + ReferenceWrites(c, c.order[k])
    ensures LastSet(c, k + 1, x, Port(Evaluate(c, k + 1).variables, x))
  {
    WrittenExactly(c, c.order[k], x);
    assert LastSetBy(c, k + 1, x, k, ReferenceWrites(c, c.order[k])[x]);
  }

  lemma SetNot(c: Setup, k: nat, x: string)
    requires Sound(c) && k < |c.order| && c.order[k] in c.order && !SetsSome(c, c.order[k], x)
    requires LastSet(c, k, x, Port(Evaluate(c, k).variables, x))
    requires Evaluate(c, k + 1).variables == Evaluate(c, k).variables + ReferenceWrites(c, c.order[k])
    ensures LastSet(c, k + 1, x, Port(Evaluate(c, k + 1).variables, x))
  {
    WrittenExactly(c, c.order[k], x);
    LastSetGrows(c, k, x, Port(Evaluate(c, k).variables, x));
  }

  /** In the evaluation a variable has, after any number of nodes, the value the last of them to set it gave it. */
  lemma {:induction false} VariableIs(c: Setup, k: nat, x: string)
    requires Sound(c) && k <= |c.order|
    ensures LastSet(c, k, x, Port(Evaluate(c, k).variables, x))
    decreases k
  {
    if k > 0 {
      VariableIs(c, k - 1, x);
      StepWrites(c, k - 1);
      if SetsSome(c, c.order[k - 1], x) {
        SetLast(c, k - 1, x);
      } else {
        SetNot(c, k - 1, x);
      }
    }
  }

  /** When a run has settled every node each loop variable has the value the last SetVariable node to run gave it, in the
      order of the plan and whatever the schedule was; one that none has set is as the run found it. */
  lemma VariablesAtEnd(c: Setup, s: State, x: string)
    requires Agrees(c, s) && s.done == |c.plan.nodes|
    ensures LastSet(c, |c.order|, x, Port(s.variables, x))
  {
    CompleteAgrees(c, s);
    VariableIs(c, |c.order|, x);
  }

  /** What a flight writes is what its node names, input by input. */
  lemma FlightWrites(c: Setup, s: State, n: nat, x: string)
    requires n < |c.plan.nodes| && n in s.inflight && s.inflight[n].Invoked?
    ensures var node, inputs := c.plan.nodes[n], s.inflight[n].inputs;
            Port(Assigned(c, s, n).variables, x)
            == if node.kind.SetVariable? && x in node.kind.assignments && node.kind.assignments[x] in inputs
               then Some(inputs[node.kind.assignments[x]]) else Port(s.variables, x)
  {}
}
