# Workflow scheduler, durable continuations and agent turns, verified

This project models three stateful cores of the repository in Dafny and proves what they promise over every schedule,
interleaving and crash. `dafny verify dfyconfig.toml` checks all of it.

## The workflow compiler and scheduler

A plan is a graph of nodes with routed edges. `graph.dfy`, `walks.dfy` and `topology.dfy` hold paths, the compiler's walks,
Kahn's algorithm and dominators; `edges.dfy` and `acceptance.dfy` hold the compiler's checks, each an imperative method
proved to decide a statement about paths. `evaluation.dfy` is an independent meaning of a plan: one pass over its nodes in
topological order. `scheduler.dfy` describes the steps of the concurrent machine and the invariant of every run, fresh or
resumed; `execution.dfy` is the machine itself, a class whose methods change its fields as the runner does, with the order
of completions, the number of flights and the moments at which loop variables are written left open. The results join
the two halves:

- every run, under every schedule, ends as the sequential evaluation says (`agreement.dfy`, `runs.dfy`), with breakpoints
  and resumes as without;
- what the compiler proves about paths holds at run time in every state of every run (`availability.dfy`);
- a node completes with the first proper answer among its allowed attempts that only ordinary errors and panics precede
  (`retries.dfy`), on the inputs its bindings lead to (`values.dfy`), and variables end as the last writers left them
  (`writes.dfy`);
- runs stop before and after the nodes with breakpoints, and nowhere else (`breakpoints.dfy`);
- runs end and launch each node at most once; a chain of runs that is resumed only from checkpoints that load, with
  accepted answers, never ends without progress (`progress.dfy`, `runs.dfy`);
- a run that succeeds has executed End unless the plan lets End be avoided, and that condition on the plan is exact
  (`lacking.dfy`, `endings.dfy`);
- what a fresh run saves loads again and restores the run; for resumed runs the exact condition is proved
  (`checkpoint.dfy`, `alignment.dfy`, `loading.dfy`);
- a partial run, on the inputs its slice reads, settles what it selects as the whole plan does (`slice.dfy`,
  `partial.dfy`);
- a Loop is the fold of its body and a Batch the map of its body, for all pauses, resumes and worker schedules
  (`loop.dfy`, `batch.dfy`).

User code is an oracle: a node answers an attempt on given inputs with outputs and a route, a failure, or interruptions.
It is a fixed function of node, attempt and inputs wherever two runs are compared. The bodies of Loops and Batches are
oracles that may pause; that pausing does not change what a body comes to is a hypothesis there, and is what
`WholeRuns.RunOrResume` and `WholeRuns.RunToEnd` prove of plans that do not interrupt themselves.

Where the code does less than it seems to, the exact boundary is proved: `Availability.InputsResolve` and
`Quirks.SelfBindingAccepted` (a node bound to its own output), `Endings.EndAlwaysExecuted` and `Quirks.DefaultsCanStrand`
(control that ends without reaching End), `Loading.LoadsExactly` and `Loading.ResumedStopRejected` (a resumed run that pauses
again too early), `Progress.StuckAsleep` and `Standstills.LoadedStandstill` (a resumed run that makes no progress: possible
only from a checkpoint that no chain of runs saves), `Edges.CompileEdges` and `Edges.KeysCollide` (slashes in identifiers:
a definition is refused exactly when two connections have one key), `Journals.TornAppend` (an append that lacks only its
commit mark), `Causes.RetriedUnwoken` (what woke interrupted Work is not given to its retry) and `Turns.Turn.CallTurn` (a
continuation that fails without retaining its text).

## The durable continuation engine

`record.dfy` has the operations as functions from one snapshot to the next, `history.dfy` the histories that any number of
callers and engines build by optimistic concurrency, `causes.dfy` why each record has its status, what it charges and what
each Work is given, `requests.dfy` what Worker and Controller are asked,
`ownership.dfy` the interleavings of one engine's stages, controls and
recoveries, `signals.dfy` at-most-once delivery, and `pauses.dfy` what pausing and resuming leaves behind. `store.dfy` is
the in-memory log, `journal.dfy` the file log with torn appends, proved to refine it, and `engine.dfy` the engine's methods,
between whose accesses to the store anything that other callers can do may happen; the Worker and the Controller are oracles
of the requests the engine makes. Stored records and their JSON are
related by a codec that is assumed to be faithful in the sense of sections 4 and 7 of RFC 8259: no raw newline inside a
record and no valid strict prefix of one.

## The agent turn

`toolbatch.dfy` walks a batch of tool calls over concurrent workers, `stream.dfy` collects a stream and filters a restated
prefix out of it, and `turn.dfy` retries a broken stream. Tools, the after-tool hook and the model's streams are oracles; what
the consumer was shown, what the streams said and what the turn answers are compared byte for byte.

## Model

| member | source | states |
|---|---|---|
| Walks.Walk | workflow/compiler_graph.go:287-306 | The breadth-first walk marks exactly the nodes some path reaches |
| Walks.WalkBack | workflow/compiler_graph.go:228-249 | The same walk over incoming edges marks exactly the nodes that reach the given one |
| Walks.Reachable | workflow/compiler_binding.go:557-584 | Answers yes exactly when a path leads from source to target |
| Walks.HasOutgoingRoute | workflow/compiler_graph.go:178-186 | Answers yes exactly when the node has an edge for the route |
| Walks.ReachableFromRoute | workflow/compiler_binding.go:697-731 | Answers yes exactly when a path that begins with an edge of the route leads to the target |
| Topology.TopologicalOrder | workflow/compiler_graph.go:188-226 | Succeeds if and only if the graph is acyclic; the order then has every node once, after all its predecessors, and the least available node first |
| Topology.CycleIn | workflow/compiler_graph.go:188-226 | A nonempty set of nodes each fed from within the set contains a cycle: why the algorithm stops short only on cyclic graphs |
| Topology.Dominators | workflow/compiler_binding.go:629-659 | Entry [n][d] of the matrix holds if and only if every path from Start to n passes through d |
| Topology.DominatesVia | workflow/compiler_binding.go:640-656 | The fact the one-pass computation rests on: d dominates n through all its predecessors and only then |
| Edges.CompileEdges | workflow/compiler_node.go:327-430 | Succeeds if and only if every connection joins two known nodes by an allowed route and no two have the same key; the edges are then the connections in order, with exact incoming and outgoing lists |
| Acceptance.AllowedExactly | workflow/compiler_node.go:327-430 | The routes a node may be left by are those it declares and, exactly if its policy routes errors, the error route |
| Edges.NoDuplicateEdges | workflow/compiler_node.go:390-410 | An accepted definition has no two equal edges |
| Edges.KeyTellsApart | workflow/compiler_node.go:390-410 | The key tells connections apart as long as node and route identifiers have no slash |
| Edges.KeysCollide | workflow/compiler_node.go:390-410 | With slashes, which identifiers may have, two different connections can share a key, and a definition with both is refused |
| Acceptance.ValidateGraphNode | workflow/compiler_graph.go:42-176 | A node passes exactly when its degree, fan-in and routes keep the graph contract |
| Acceptance.ValidateReachability | workflow/compiler_graph.go:228-249 | Passes exactly when every node lies on a path from Start and on a path to End |
| Acceptance.ValidateGraph | workflow/compiler_graph.go:8-40 | Succeeds if and only if the graph keeps the whole contract and is acyclic |
| Acceptance.NormalRouteReaches | workflow/compiler_binding.go:733-741 | Answers yes exactly when some declared route of the source leads to the target |
| Acceptance.NodeErrorGuaranteed | workflow/compiler_binding.go:682-695 | Answers yes exactly when the source dominates the target, its error route leads there and no declared route does |
| Acceptance.IsDirectPredecessorRoute | workflow/compiler_binding.go:671-680 | Answers yes exactly when an edge of that route joins the two nodes |
| Acceptance.ValidateOutputAvailability | workflow/compiler_binding.go:177-218 | Accepts an output source exactly when it dominates the node and its error route does not lead there, or by the Merge rules |
| Acceptance.ValidateErrorAvailability | workflow/compiler_binding.go:220-290 | Accepts an error source exactly when error data is guaranteed, or by the Merge rules |
| Acceptance.ValidateBinding | workflow/compiler_binding.go:129-175 | Accepts a binding exactly when its schema fits and its source is available |
| Guarantees.MayName | workflow/compiler_binding.go:129-175 | A binding may name an input of the workflow, a declared output, the error ports of a node that routes errors, or a variable of the body, and nothing else |
| Guarantees.PathDeclared | workflow/compiler_binding.go:129-175 | An accepted binding that looks into a value does so where the schema declares what is there, and that is what the input asks for |
| Acceptance.ValidateNodeBindings | workflow/compiler_binding.go:61-127 | Accepts a node exactly when bindings and inputs correspond, it has default outputs if and only if its policy defaults, these are valid, and each binding is accepted |
| Acceptance.RoutesReaching | workflow/compiler_binding.go:616-627 | Computes exactly the routes of the branch that lead to the target |
| Acceptance.MutuallyExclusive | workflow/compiler_binding.go:586-614 | Answers yes exactly when a common dominator leads to the two nodes by disjoint, nonempty sets of routes |
| Acceptance.AccessesOrdered | workflow/compiler_binding.go:541-555 | Answers yes exactly when one node reaches the other or they are mutually exclusive |
| Acceptance.LoopVariableAccesses | workflow/compiler_binding.go:470-506 | Collects exactly the reads and writes of a loop variable |
| Acceptance.ValidateVariableAccesses | workflow/compiler_binding.go:508-539 | Accepts a variable exactly when of any two accesses with a write the nodes are ordered or exclusive |
| Acceptance.Compile | workflow/compiler_binding.go:11-59 | Checking the graph and then the bindings accepts exactly the plans of which every path keeps every contract |
| Guarantees.SourceUpstream | workflow/compiler_binding.go:129-290 | Whatever node an accepted binding names lies upstream of the node that has the binding |
| Guarantees.AcceptedRunnable | workflow/compiler_binding.go:11-59 | Acceptance implies the part of it that every run rests on |
| Guarantees.ExclusiveNeverBoth | workflow/compiler_binding.go:586-614 | Nodes the compiler calls mutually exclusive never both run in the reference evaluation |
| Guarantees.ContendersOrdered | workflow/compiler_binding.go:541-555 | Two nodes that contend for a loop variable and both run are ordered by a path |
| Guarantees.FinishedDeclares | workflow/runner_invoke.go:398-446 | A node that completes has exactly its declared outputs, accepted by their schemas, on a declared route |
| Evaluation.RunsWhen | workflow/runner_execution.go:722-768 | A node runs in the reference evaluation exactly when it is Start or an edge into it is taken |
| Evaluation.DominatorRoute | workflow/compiler_binding.go:629-659 | What runs has each of its dominators running, on a route that leads to it |
| Availability.ExclusiveApart | workflow/compiler_binding.go:586-614 | In no state of any run, interrupted or resumed, has control reached both of two mutually exclusive nodes |
| Availability.ContendersApart | workflow/compiler_binding.go:443-555 | In every state of every run, of two contending nodes that control has reached one has settled and is upstream of the other |
| Availability.OutputsPresent | workflow/compiler_binding.go:177-218 | In every run, when control has reached a node the outputs of a dominating source, whose error route does not lead there, are present and valid |
| Availability.FailurePresent | workflow/compiler_binding.go:682-695 | In every run, when control has reached a node with guaranteed error data the failure of the source is present |
| Availability.InputsResolve | workflow/runner_binding.go:5-96 | In every run of an accepted plan the inputs of a launched node without binding paths resolve if and only if it is not bound to its own output |
| Quirks.SelfBindingAccepted | workflow/compiler_binding.go:205-218 | A plan with a node bound to its own output is accepted |
| Acceptance.MergeMayBind | workflow/compiler_binding.go:177-290 | A Merge may be bound to the output of any node with an edge to it of a declared route, or of any route if it waits for all, and an exclusive Merge to the error of one with an error edge to it |
| Standstills.RefusedThoughSafe | workflow/compiler_binding.go:177-218 | Availability is of paths: it refuses a binding although on every host, unless something stops the run, the source has completed with its outputs |
| Scheduler.InitialInv | workflow/runner_execution.go:129-164 | A fresh run satisfies the invariant of every run |
| Scheduler.MarkedInv | workflow/runner_execution.go:770-779 | Queueing a node whose incoming edges are resolved, one of them taken, keeps the invariant |
| Scheduler.SettlingInv | workflow/runner_execution.go:362-531 | Completing, rerouting, defaulting or skipping a node keeps the invariant: statuses, data, edges, counters and the one route each node takes |
| Scheduler.SuspendingInv | workflow/runner_execution.go:600-626 | Recording a dynamic interruption keeps the invariant |
| Scheduler.LaunchedInv | workflow/runner_invoke.go:11-84 | Launching the head of the queue, fresh, woken or resurfaced, keeps the invariant |
| Scheduler.AssignedInv | workflow/loop_control.go:258-275 | Writing loop variables keeps the invariant: they stay declared and of their schemas |
| Scheduler.StoppingInv | workflow/runner_execution.go:661-681 | Stopping at before-breakpoints keeps the invariant |
| Scheduler.CompletionSettles | workflow/runner_execution.go:362-531 | Every completion settles its node, suspends it with a point to answer, or ends the run when no policy handles it |
| Agreement.InputsSame | workflow/runner_binding.go:5-96 | Whenever a node is launched, under any schedule, its inputs resolve to its inputs in the sequential evaluation |
| Agreement.ReadsSettled | workflow/compiler_binding.go:443-555 | When a node that reads a loop variable is launched, exactly the writes before it in the order have happened |
| Agreement.WriterLast | workflow/loop_control.go:154-169 | When a node writes a loop variable, it is the last writer the sequential evaluation has at that point |
| Agreement.LaunchedAgrees | workflow/runner_invoke.go:11-70 | Launching keeps the agreement with the sequential evaluation |
| Agreement.SettlingAgrees | workflow/runner_execution.go:362-531 | Settling a node with its reference outcome keeps the agreement |
| Agreement.AssignedAgrees | workflow/loop_control.go:154-169 | Writing loop variables at any moment of the flight keeps the agreement |
| Agreement.CompletionAsReferred | workflow/runner_execution.go:176-266 | Any completion that arrives, in any order, is the outcome the sequential evaluation gives its node |
| Agreement.CompleteAgrees | workflow/runner_execution.go:195-206 | When every node has settled the statuses, data, edges and variables are those of the sequential evaluation, in which nothing failed under the stop policy |
| Executions.Execution.ResolveOutgoing | workflow/runner_execution.go:711-720 | Takes the edges of the selected route and skips the others out of the node, and touches no other edge |
| Executions.Execution.CompleteNode | workflow/runner_execution.go:362-424 | The new state is the old one with the node settled as completed |
| Executions.Execution.CompleteFailedNode | workflow/runner_execution.go:426-531 | Handled failures settle the node by its policy; an unhandled one marks it failed |
| Executions.Execution.RecordInterruption | workflow/runner_execution.go:600-626 | The new state is the old one with the node suspended |
| Executions.Execution.RequestBeforeInterrupt | workflow/runner_execution.go:661-681 | The new state is the old one stopped for the breakpoints not yet passed |
| Executions.Execution.Advance | workflow/runner_execution.go:722-744 | Ends with no pending node whose incoming edges are resolved, each queued or skipped as its edges say |
| Executions.Execution.LaunchOne | workflow/runner_invoke.go:11-84 | The head of the queue is invoked, fresh or woken with the inputs it was suspended on, or goes back to sleep unanswered; in every case but the last it is launched once more |
| Executions.Execution.LaunchReady | workflow/runner_invoke.go:11-70 | When it returns the queue is empty or the limit reached, and nothing is in flight exactly if nothing was and every queued node is suspended and not targeted |
| Executions.Execution.Drain | workflow/runner_execution.go:795-832 | After a failure every flight is received; nodes not in flight keep their status and data |
| Executions.Execution.FinishInterrupted | workflow/runner_checkpoint.go:55-119 | A drained run that pauses always has a context to report, and what it saves loads if and only if it has dealt with every suspended node |
| Executions.Execution.Run | workflow/runner_execution.go:176-266 | Every run ends, launches each node at most once so that the completions channel never blocks a sender, launches nothing behind a before-breakpoint that was not passed when it began, and reports as reached before exactly such nodes and after exactly the completed nodes with after-breakpoints; it ends in one of the ways allowed: all nodes settled and no breakpoint reached, a failure that really occurred and that its node does not handle, after every flight has landed, a pause whose checkpoint is the saved state, or no progress |
| Retries.RetriesExactly | workflow/runner_invoke.go:96-131 | What an invocation comes to is the answer of the one attempt that counts: every attempt before it failed with an error or a panic, and it did not fail, or failed otherwise, or was the last allowed |
| Retries.InvocationCounts | workflow/runner_invoke.go:227-316 | Told by the host's own answers: a proper success or an interruption that counts is the result, a success with wrong outputs or an undeclared route is a failure |
| Retries.CompletesExactly | workflow/runner_invoke.go:227-316 | In the evaluation a node that runs on resolved inputs completes with a proper answer of an allowed attempt that only ordinary errors and panics precede, and with no other |
| Retries.FailsExactly | workflow/runner_invoke.go:366-377 | A node that runs fails exactly for want of inputs, with a failure that is not retried, or on its last attempt |
| Retries.FlightCounts | workflow/runner_invoke.go:96-131 | The same of every flight of every run |
| Retries.ResumedFlightCounts | workflow/runner_invoke.go:134-225 | A resumed flight comes to the attempt that counts: the retry budget starts anew, the numbering goes on |
| Retries.RemainingExactly | workflow/interrupt_dynamic.go:209-225 | What remains are exactly the points that no target answers |
| Retries.MergedExactly | workflow/interrupt_dynamic.go:227-248 | The merged points are those of either side, the left ones first |
| Retries.CompletesWhenAnswered | workflow/runner_invoke.go:227-316 | A resumed attempt completes only when every interruption has been answered; until then the node is suspended on its new ones and on exactly those not answered |
| Values.IndexExactly | workflow/value.go:115-150 | A path segment is read as an index exactly if it writes that number in decimal, after zeros or a sign |
| Values.LookupExactly | workflow/value.go:115-150 | A lookup finds a value exactly if the path leads to it through fields by name and items by index |
| Values.ListExactly | workflow/value.go:157-169 | A list, or a null for the empty one, is read as a list of items, and nothing else |
| Values.FailureTold | workflow/failure.go:40-70 | The error ports carry the message as it was and a different name for each kind: they tell failures apart |
| Values.ResolvesExactly | workflow/runner_binding.go:45-96 | A binding resolves to a value exactly if its path leads there from what its source offers |
| Values.InputsExactly | workflow/runner_binding.go:5-31 | A node gets its inputs exactly if each binding gives a value its input accepts, or is of a Merge and gives none; it gets those values under those names and nothing else |
| Writings.VariableIs | workflow/loop_control.go:154-169 | In the evaluation a loop variable has the value that the last SetVariable node to complete and assign it names for it, or the one it started with |
| Writings.VariablesAtEnd | workflow/loop_control.go:154-169 | Every run that has settled all nodes, whatever its schedule, leaves each loop variable so |
| Writings.FlightWrites | workflow/loop_control.go:154-169 | A SetVariable node in flight writes each variable it names the value of the input it names for it, and no other variable |
| Breakpoints.HeedsStops | workflow/runner_execution.go:661-681 | Stopping reports waiting nodes whose breakpoint was not passed, and passes it for the next run |
| Breakpoints.HeedsMoves | workflow/runner_invoke.go:11-70 | A launch is never of a node behind a breakpoint that was not passed when the run began |
| Breakpoints.HeedsSettles | workflow/runner_execution.go:362-424 | A completion behind an after-breakpoint is reported, and no other is |
| Progress.NothingLeft | workflow/runner_execution.go:195-206 | With nothing queued and nothing in flight every node has settled |
| Progress.StuckAsleep | workflow/runner_execution.go:229-236 | A run that can launch nothing was resumed with some suspended node unanswered, and runs nodes one at a time or had nobody else to launch: a fresh run never makes no progress |
| WholeRuns.AllAnsweredNeverStuck | workflow/runner_execution.go:229-236 | A run resumed with an answer for every suspended node always makes progress |
| WholeRuns.AcceptedAnswers | workflow/checkpoint.go:267-313 | What is restored from a checkpoint that loads, with accepted targets, can be run; without concurrency everyone suspended is then answered |
| WholeRuns.RunAndResume | workflow/runner_execution.go:176-266 | However nodes interrupt, a chain of runs each resumed with accepted targets from a checkpoint that loads never ends for want of progress or context, and when it completes has executed End unless the plan lets End be avoided |
| Standstills.LoadedStandstill | workflow/runner_execution.go:229-236 | A run of an accepted plan, resumed from a checkpoint that loads with an accepted answer, can make no progress: a plan without concurrency and two suspended nodes, of which one is answered |
| WholeRuns.RunOnce | workflow/runner_execution.go:176-266 | Schedule independence: without interruptions every order of completions and every concurrency limit succeeds exactly when the sequential evaluation has no stop failure, with the same statuses, edges, data and result; what retrying makes of each node is Retries.CompletesExactly |
| WholeRuns.RunToEnd | workflow/runner_checkpoint.go:10-53 | Breakpoint transparency: with any breakpoints, resuming whenever the run pauses ends after finitely many pauses in the same state and result |
| WholeRuns.RunOrResume | workflow/runner_checkpoint.go:10-53 | One run of a plan without interruptions, new or resumed: it ends as the sequential evaluation says, or pauses with a checkpoint from which it is due to |
| WholeRuns.SameReference | workflow/runner_execution.go:176-266 | The sequential evaluation, and so the end of every run, does not depend on the concurrency limit or the breakpoints |
| Endings.EndAlwaysExecuted | workflow/runner_execution.go:834-848 | The exact condition: every host executes End of an accepted plan whose bindings do not look into values, unless something halts, if and only if End cannot be avoided along ways out that nodes can take |
| Endings.EndExecuted | workflow/runner_execution.go:834-848 | Where End cannot be avoided, the evaluation of any accepted plan in which nothing halts executes it |
| Endings.EndReached | workflow/runner_execution.go:834-848 | Where End cannot be avoided, every run of an accepted plan that has settled all nodes has executed it, in whatever order, interrupted and resumed or not |
| Endings.EscapeAvoids | workflow/compiler_graph.go:63-77 | A choice of ways out for the nodes control reaches that keeps it from End makes End avoidable |
| Endings.ReferenceFed | workflow/runner_binding.go:5-96 | In the evaluation of an accepted plan a node that runs has its inputs, unless it is bound to its own output or looks into a value |
| Endings.EndRuns | workflow/runner_execution.go:834-848 | If every defaulting node has a success route, an accepted plan in which nothing halts executes End |
| Quirks.DefaultsCanStrand | workflow/runner_execution.go:462-505 | Without that condition an accepted plan with a valid default can succeed while End is passed over |
| Lacking.LaunchedLacks | workflow/runner_invoke.go:11-70 | Launching keeps it that what is invoked has its inputs, and that only nodes that may lack inputs fly without |
| Lacking.SettlingLacks | workflow/loop_control.go:154-169 | A SetVariable node that had its inputs completes: it fails only for want of them |
| Scheduler.TakenShare | workflow/runner_execution.go:711-720 | In every state of every run the edges a node has taken are all of one route |
| Checkpoints.RoundTrip | workflow/runner_checkpoint.go:10-53 | Restoring what a drained run saved gives back edges, nodes, data, counters, suspended nodes and frontier, with the pause cleared |
| Checkpoints.RestoredInv | workflow/runner_checkpoint.go:10-53 | A restored run satisfies the invariant of every run |
| Checkpoints.RestoredAgrees | workflow/runner_checkpoint.go:10-53 | A restored run agrees with the sequential evaluation as the saved one did |
| Alignment.SuspendingMinted | workflow/runner_execution.go:600-626 | The contexts a pausing run reports stay exactly the points of its sleeping nodes, all distinct |
| Loading.SavedConsistent | workflow/checkpoint.go:597-852 | Whatever a drained run saves passes the consistency checks on loading |
| Loading.AlignedExactly | workflow/checkpoint.go:528-557 | A saved checkpoint is aligned with the reported interruptions if and only if no suspended node is still queued |
| Loading.LoadsExactly | workflow/checkpoint.go:324-377 | A saved checkpoint loads if and only if no suspended node is still queued |
| Loading.CheckFrontiers | workflow/checkpoint.go:1087-1106 | Accepts exactly the checkpoints whose queue holds ready nodes and whose suspended nodes are those marked interrupted |
| Loading.CountComplete | workflow/checkpoint.go:1132-1148 | Counts exactly the completed nodes |
| Loading.CheckAlignment | workflow/checkpoint.go:528-557 | Accepts exactly the checkpoints whose points are distinct and are the contexts of the report |
| Loading.CheckConsistent | workflow/checkpoint.go:597-629 | Accepts exactly the consistent checkpoints |
| Loading.Load | workflow/checkpoint.go:324-377 | Loading succeeds exactly on the checkpoints that pass every check |
| Loading.CheckTargets | workflow/checkpoint.go:267-313 | Accepts exactly the target lists without repeats that name reported interruptions |
| Loading.ResumeWakes | workflow/checkpoint.go:171-223 | An accepted resume always has a suspended node to wake |
| Loading.ResumedStopRejected | workflow/runner_execution.go:218-224 | A resumed run that stops again before it has launched its suspended nodes saves a checkpoint that is refused |
| WholeRuns.FreshCheckpointLoads | workflow/runner_checkpoint.go:55-168 | Every checkpoint a fresh run saves loads, and restores edges, nodes, data, failures, done count, suspended nodes, passed breakpoints, variables and frontier |
| Slices.CloneSelectedNodes | workflow/partial_run_plan.go:116-144 | The nodes selected, in order, with old and new indexes inverse to each other |
| Slices.CloneSelectedEdges | workflow/partial_run_plan.go:146-167 | The new edges are exactly the old edges with both ends selected, renumbered, in order |
| Edges.IndexEdges | workflow/partial_run_plan.go:169-175 | The index lists are exactly those of the edges |
| Slices.DerivePartialRunPlan | workflow/partial_run_plan.go:22-114 | There is a slice exactly when Start reaches the destination; it holds exactly what reaches the destination |
| Slices.PredecessorsKept | workflow/partial_run_plan.go:104-108 | The selection is closed under predecessors: every edge into a selected node is kept |
| Slices.RequiredWorkflowInputs | workflow/partial_run_data.go:387-425 | The required inputs are exactly those bound, directly or through Start, by a node without data that the walk along possible edges reaches |
| PartialRuns.SliceAdmitted | workflow/partial_run_execute.go:12-55 | The slice of a plan that can be run can be run, on the required inputs alone, although it would not be accepted |
| PartialRuns.SliceEvaluates | workflow/partial_run_execute.go:12-55 | Each node of the slice other than Start has, on the required inputs alone, the outcome the whole plan gives it |
| PartialRuns.PartialSucceeds | workflow/partial_run_execute.go:12-55 | The partial run succeeds exactly when nothing upstream of the destination fails under the stop policy |
| PartialRuns.RunPartial | workflow/partial_run_execute.go:12-88 | Refused exactly for an unknown destination or a missing required input; otherwise, under every schedule and with any breakpoints, it settles every selected node and edge as the whole plan on all its inputs |
| Loops.IterationState.Assign | workflow/loop_control.go:258-275 | All of the updates are made, or none when one names no variable |
| Loops.ShortestArray | workflow/loop.go:278-292 | The iterations are the length of the shortest array |
| Loops.IterationInputs | workflow/loop.go:274-325 | The iterations asked for, or the reason for refusing them |
| Loops.CountAsked | workflow/loop.go:305-319 | A counting Loop runs as often as the number says, a null being none, and refuses what is no number or is above the limit, each exactly then |
| Loops.ArrayAsked | workflow/loop.go:279-303 | A Loop over arrays runs over the items that all of them have, exactly where all are lists or nulls and the limit allows |
| Loops.BodyGiven | workflow/loop.go:327-344 | Each iteration is given its index, the item at that index of each array and the lifted inputs, which win, and nothing else |
| Loops.StartsFrom | workflow/loop.go:189-213 | The fold starts from the values of the variables and of nothing else |
| Loops.AppendLoopOutputs | workflow/loop.go:259-268 | Each aggregate grows by the output of this iteration on its port |
| Loops.Invoke | workflow/loop.go:134-257 | A Loop, new or resumed, ends as the fold over its iterations says, breaking after the iteration that asks to has committed, or pauses inside an iteration, only because its body has just paused there, with a checkpoint that holds the fold so far and what the body left |
| Loops.EndsOnce | workflow/loop.go:134-187 | A Loop ends in one way only, so pausing inside iterations and resuming, any number of times, does not change how it ends |
| Loops.InvokeAndResume | workflow/loop.go:189-257 | Every sequence of pauses and resumes ends as the fold says |
| Loops.ExhaustedWhen | workflow/loop.go:182-184 | An infinite Loop ends with the iteration limit if and only if no iteration up to the limit fails or breaks |
| Loops.VariablesKept | workflow/loop.go:171-175 | The committed variables are always exactly the declared ones |
| Loops.SavedLoopLoads | workflow/checkpoint_composite.go:210-256 | A checkpoint a Loop saves passes the checks on loading, and each aggregate is as long as the index |
| Batches.NullsInPlace | workflow/batch.go:519-534 | With nulls for failures there is one result for each item, in its place |
| Batches.FailedRemoved | workflow/batch.go:519-534 | With failures removed the results are the values of exactly the items that succeed, in item order |
| Batches.GoodInPlace | workflow/batch.go:519-534 | Where no item fails the results are the items' values one to one, in every error mode |
| Batches.Batch.Candidates | workflow/batch.go:266-288 | The candidates of a round are exactly the interrupted items with a target, or the items that have not run |
| Batches.Batch.RunCandidates | workflow/batch.go:314-375 | Whatever the workers do, either every candidate has its own outcome, or in terminate mode a genuine failure is among the outcomes |
| Batches.Batch.CandidateFailure | workflow/batch.go:377-408 | Reports a failure exactly when there is one in terminate mode, and a cancellation only if all failures are |
| Batches.Batch.ApplyOutcome | workflow/batch.go:453-495 | The item takes its outcome and no other item changes; a failure ends the batch exactly in terminate mode |
| Batches.Batch.Collect | workflow/batch.go:519-534 | The results are the map over the items in item order |
| Batches.Batch.RunSequential | workflow/batch.go:192-221 | Ends as the map over the items, with the first failing item in terminate mode, or pauses resumably for an item that has just paused or that no target answers |
| Batches.Batch.RunParallel | workflow/batch.go:223-264 | Under every schedule of the workers it ends as the map over the items, or pauses resumably after finitely many rounds, having run every interrupted item that a target answers |
| Batches.Invoke | workflow/batch.go:113-181 | Refused exactly for a value that is no list or has too many items; otherwise the batch ends as the map, or pauses only for an item whose body has just paused or that no target answers |
| Batches.InvokeAndResume | workflow/batch.go:166-181 | Every sequence of item pauses and resumes ends as the map |
| Batches.ModesAgree | workflow/batch.go:192-264 | Sequential and parallel batches return the same list, and in terminate mode one succeeds if and only if the other does |
| Histories.Gapless | agent/continuation/engine.go:214-231 | Revisions count up from 1 without a gap and every transition starts from the status before it |
| Histories.StepKeeps | agent/continuation/store.go:101-112 | No step of any caller, on whatever record it has loaded, breaks the history |
| Histories.BehaviourKeeps | agent/continuation/memory_store.go:81-118 | Every interleaving of any number of callers and engines builds a well-formed history, only by appending |
| Histories.TerminalIsLast | agent/continuation/drive.go:127-131 | No record follows a terminal one |
| Histories.CancelHonoured | agent/continuation/control.go:381-466 | The record after a requested cancellation is always Cancelled or Failed |
| Histories.AttemptsCounted | agent/continuation/advance.go:99-183 | Attempts are counted once for each start of Work and never exceed the limit |
| Histories.SpendingGrows | agent/continuation/advance.go:514-531 | Attempts, turns, tokens and active time never decrease along a history |
| Histories.LimitsBind | agent/continuation/advance.go:456-480 | Once a limit on turns, tokens or active time is reached no stage ever starts again: not after a pause, a retry, a signal or a recovery, from any engine |
| Histories.WorkNotRepeated | agent/continuation/control.go:115-160 | After interrupted Work no stage starts before an explicit retry, by whatever path |
| Histories.WaitHolds | agent/continuation/control.go:242-378 | A wait, paused or not, is left only by a signal, at its time, or with the execution |
| Histories.SaneKept | agent/continuation/engine.go:214-231 | Whatever an operation makes of a sane record is sane again, so the store's validation never turns it away |
| Causes.WhyStatus | agent/continuation/advance.go:196-454 | Every record of every history has its status for exactly these causes: Completed, Waiting, Blocked and the rest of the decision's action, Failed also by a failing call, Cancelled also by a cancellation done or recovered, Limited by a limit, Interrupted, Paused, Running and Ready likewise |
| Causes.WhatDecisionsChange | agent/continuation/advance.go:420-454 | A record that carries out a decision waits or is blocked on what the decision says, hands on its input, changes the state only if the decision has one and the output only if it ends the execution; no other record touches any of them |
| Causes.LastDecisionHolds | agent/continuation/advance.go:420-454 | Input, state and output stay as the last decision left them |
| Causes.WhereWorkLeads | agent/continuation/advance.go:196-257 | A Worker that succeeds leads to a decision, at once or after a pause, one that fails to Work that only a retry repeats, and a stage asked to cancel ends cancelled, each exactly so |
| Causes.WhereRecoveryLeads | agent/continuation/recovery.go:10-75 | A recovered stage leaves the execution cancelled or paused exactly if that was asked; Work without a durable result is then to be retried explicitly, and a decision may be taken again |
| Causes.NormalizedExactly | agent/continuation/advance.go:533-575 | A recorded result is valid: it is the result given, or an error goes with it |
| Causes.LimitsExactly | agent/continuation/limits.go:52-67 | A ready execution is ended, with a reason, exactly if attempts before Work, turns, tokens, active time or the deadline have been reached; otherwise it may start |
| Causes.RecordTells | agent/continuation/engine.go:214-231 | A record is stamped once, names the attempt it is about and a signal only if it delivers one, and stays the same execution with the same limits and handlers |
| Causes.RetryKeeps | agent/continuation/control.go:115-160 | A retry of Work keeps what the interrupted attempt has left as the last attempt |
| Causes.DecisionBegins | agent/continuation/advance.go:259-300 | A decision begins on the attempt whose durable Work it is about, which it leaves as it is |
| Causes.CallersAnswered | agent/continuation/control.go:12-466 | An operation of a caller changes an execution exactly where it is open, finds nothing to do exactly if what it asks for is so already, and refuses everything else with the error for the reason |
| Causes.WorkIsCharged | agent/continuation/advance.go:514-531 | The end of Work adds exactly the turns and tokens of its result and the time since it started |
| Causes.DecisionIsCharged | agent/continuation/advance.go:514-531 | The end of a decision adds the time since it started, and its tokens exactly if it is carried out |
| Causes.AccountIsBill | agent/continuation/advance.go:514-531 | The account of an execution is the sum of what its moves charged: an attempt for each start of Work, the turns and tokens of results and decisions, the time of the stages, and nothing else |
| Causes.WorkBegins | agent/continuation/advance.go:99-160 | A start of Work begins an attempt one number on, with the activation there was, and keeps the attempt before |
| Causes.WakeIsDue | agent/continuation/control.go:202-378 | A signal, a due time or a resolved block leaves its payload and identifier as the activation |
| Causes.WakeReachesWork | agent/continuation/advance.go:99-160 | Whatever happens in between, the next Work that starts is given exactly what woke the execution |
| Causes.RetriedUnwoken | agent/continuation/advance.go:99-160 | Work that starts although nothing has woken the execution since the Work before, as a retry does, is given no activation: what woke interrupted Work does not reach its retry |
| Requests.WorkerAsked | agent/continuation/advance.go:145-155 | The Worker is asked with the input the last decision gave, with what has woken the execution, and as the attempt that the starts of Work so far make it |
| Requests.ControllerAsked | agent/continuation/advance.go:285-298 | The Controller is asked about the durable result of the attempt, with the state the last decision left |
| Ownership.AlwaysOwned | agent/continuation/engine.go:233-268 | In every interleaving of one engine, with recovery armed at any time, the running stage holds every record since its start |
| Ownership.AttemptOwned | agent/continuation/advance.go:99-183 | From the record that starts a stage until its own record, every record is of that attempt and in progress, asked to stop or terminal |
| Ownership.ResultLands | agent/continuation/advance.go:331-364 | A result lands only on the attempt that produced it, while its stage is in progress |
| Ownership.StaleRecovery | agent/continuation/recovery.go:10-58 | A recovery decided on before a stage started finds the log moved on |
| Ownership.InvocationsBounded | agent/continuation/limits.go:52-67 | The Worker is invoked once for each counted attempt and never more often than the limit |
| Pauses.PauseBetweenStages | agent/continuation/control.go:12-112 | Pausing an execution without a running stage and resuming it gives it back but for the reason, exactly unless its Work was interrupted |
| Pauses.PauseDuringWork | agent/continuation/advance.go:196-257 | A Worker that succeeds although a pause was requested leads, once resumed, where it would have led unasked |
| Pauses.PauseDuringFailingWork | agent/continuation/advance.go:196-257 | A Worker that fails leaves the same retry, asked to pause or not |
| Pauses.PauseDuringDecision | agent/continuation/advance.go:366-454 | A decision made while a pause is requested is dropped whatever it was; the resumed execution is ready to decide on the same Work |
| Pauses.DecidingAgain | agent/continuation/advance.go:259-318 | The same decision made again then leads where it would have led at first |
| Signals.SignalsOnce | agent/continuation/control.go:242-291 | Every step that searches the history before it swaps keeps signal identifiers unique |
| Signals.DeliveredOnce | agent/continuation/control.go:501-519 | Under every interleaving a signal identifier is delivered by at most one record |
| Stores.StoredIsSwapped | agent/continuation/memory_store.go:81-118 | A swap stores exactly the step made on the latest record |
| Stores.MemoryStore.Create | agent/continuation/memory_store.go:32-61 | Stores a valid first record of a new execution, exactly then |
| Stores.MemoryStore.CompareAndSwap | agent/continuation/memory_store.go:81-118 | Appends the record exactly when it is valid, expected and follows the latest, and there is room |
| Engines.Engine.LoadExpected | agent/continuation/engine.go:201-212 | Returns the latest record exactly when it has the expected revision |
| Engines.Engine.Control | agent/continuation/control.go:468-492 | With other callers stepping in between, a control operation appends its one record on the expected revision or reports that nothing is left to do; it fails only if the history was not at that revision throughout, the store turns its record away, or the record of that revision refuses it |
| Engines.Engine.PauseExecution | agent/continuation/control.go:12-67 | Pausing suspends at once or asks a running stage to |
| Engines.Engine.ResumeExecution | agent/continuation/control.go:70-112 | Resuming gives back status, phase, wait and block that pausing suspended |
| Engines.Engine.RetryDecisionOf | agent/continuation/control.go:163-200 | The same durable Work result is decided on again |
| Engines.Engine.CancelExecution | agent/continuation/control.go:381-428 | Cancelling ends the execution or asks a running stage to stop |
| Engines.Engine.RetryWorkOf | agent/continuation/control.go:115-160 | Interrupted Work, and nothing else, is made ready again, its attempt closed |
| Engines.Engine.ResolveBlockOf | agent/continuation/control.go:203-240 | A blocked execution is made ready with the payload as its activation |
| Engines.Engine.ResumeDueOf | agent/continuation/control.go:342-378 | A wait is left at its time and not before |
| Engines.Engine.FailExecution | agent/continuation/control.go:431-466 | Failing ends the execution as failed |
| Engines.Engine.SignalExecution | agent/continuation/control.go:242-323 | A delivered signal was not in the history up to the expected revision; one found there is answered as delivered; it fails only as a control operation does |
| Engines.Engine.ApplyLimit | agent/continuation/advance.go:456-480 | A ready execution is ended by a limit it has reached, or goes on runnable |
| Engines.Engine.FinishStage | agent/continuation/advance.go:331-364 | While others get in between it tries again, sixteen times; it ends with the result recorded on the latest record, or with an execution that had been ended |
| Engines.Engine.StartStage | agent/continuation/engine.go:233-259 | A stage that starts has written its record on the very record it was decided on; one that fails has given its reservation back |
| Engines.Engine.WorkStage | agent/continuation/advance.go:99-194 | Once started, the Worker runs once on what the record of its start says and what it returned is recorded, unless the execution was ended meanwhile |
| Engines.Engine.Advance | agent/continuation/advance.go:13-183 | Invokes the Worker at most once, after a start record this call wrote on the expected revision, and the Controller after another; what they answer to the requests those records hold is recorded. It reports the end of the decision if it came to one, else the end of Work that is not one to decide on, or the record a reached limit left; it fails only for a stated reason that the history, the handlers or the store show |
| Journals.SplitJoin | agent/continuation/jsonl.go:322-348 | Lines joined with commit marks split back into themselves, whatever unfinished line follows |
| Journals.DecodeRecordLines | agent/continuation/jsonl.go:367-427 | Succeeds exactly on lines that hold a valid sequence of records, and returns it |
| Journals.DecodeExecutionFile | agent/continuation/jsonl.go:304-350 | Reads a file as its lines say, or finds it corrupt |
| Journals.TornAppend | agent/continuation/jsonl.go:146-207 | After a crash in an append reading returns exactly the committed records and size while part of the record is missing, the new history with its mark, and an error exactly when only the mark is missing |
| Journals.JSONLStore.ReadFile | agent/continuation/jsonl.go:277-302 | Returns exactly the committed history and its size |
| Journals.JSONLStore.CompareAndSwap | agent/continuation/jsonl.go:146-207 | Behaves as the in-memory log does, and leaves the committed bytes plus one new line, also over a torn append, and touches nothing if it refuses |
| Journals.JSONLStore.Append | agent/continuation/jsonl.go:170-207 | An append of which a crash keeps a prefix has stored nothing, or the record |
| ToolBatches.GateCalls | agent/exec.go:77-134 | Runnable and pending calls are the calls in order, each with the arguments the gate left it, split at a pause; a denial answers its own call, a batch denial every call |
| ToolBatches.BatchExec.WorkerLands | agent/exec.go:222-245 | A worker that lands leaves the walk as it stood: at most the allowed number executing, every answer in its place |
| ToolBatches.BatchExec.Await | agent/exec.go:249-258 | Returns only when no tool is executing or in flight |
| ToolBatches.BatchExec.RunInline | agent/exec.go:172-210 | A serial tool runs with none in flight |
| ToolBatches.BatchExec.Dispatch | agent/exec.go:222-245 | A concurrent tool starts only in a free slot |
| ToolBatches.BatchExec.Run | agent/exec.go:163-360 | Under every interleaving result i answers call i: a denied call is answered by its denial and its tool never run; any other by its tool, run once, and the after-tool hook; or, only if the context was cancelled, by a cancellation. Without cancellation exactly the tools that are known, local and not denied run. No completion precedes its start, and a consumer that listens is given both for every call, the completion with its result |
| ToolBatches.AnswersItsCall | agent/exec.go:163-360 | An answer carries the identifier of its call, whether a denial, a cancellation or the tool's |
| ToolBatches.PlainAnswers | agent/exec.go:382-430 | Without cancellation and hook each call is answered by its denial, an error for an unknown tool, a note for one of the provider, or what its tool returns, as an error exactly if the tool fails |
| ToolBatches.TerminatesExactly | agent/exec.go:364-377 | Such a batch ends the run exactly if it has a call and every tool is run and hints at the end |
| ToolBatches.BatchExec.Terminated | agent/exec.go:364-377 | Answers yes exactly if there is a call and every answer carries the hint to end the run |
| ToolBatches.HookSays | agent/exec.go:275-313 | The hook changes what it says and nothing else, and only of what a tool was run for |
| ToolBatches.BatchExec.RunTool | agent/exec.go:382-430 | A known local tool is run once unless the context is cancelled by then; an unknown one and one of the provider are answered without |
| ToolBatches.BatchExec.Step | agent/exec.go:172-210 | A denied call is settled by its denial, a tool that may run beside others is left running unless the context is cancelled, and any other runs alone |
| Streams.Accumulator.Add | ai/stream.go:182-230 | The parts, with what is not yet closed, say in order exactly what the events say: text, reasoning and tool calls |
| Streams.LongestOverlap | agent/run.go:1262-1270 | Computes the overlap function on the window |
| Streams.OverlapIsLongest | agent/run.go:1262-1270 | The overlap is a match of at least the minimum and none longer matches |
| Streams.OverlapOfStart | agent/run.go:1204-1257 | Only as many bytes as the window decide the overlap, so it can be decided as soon as they are there |
| Streams.TrimmedExactly | agent/run.go:1193-1270 | What is dropped is exactly the longest start of the text, of 16 bytes at least and 256 at most, that the prefix ends with |
| Streams.FilterStream | agent/run.go:1193-1257 | However a stream is cut into deltas, what is released is what the stream adds to the prefix: its text less its restatement, without what is still held back if the stream is cut short; everything but text passes |
| Streams.AddedWhole | agent/run.go:1193-1257 | What a stream that ends once adds is its whole text less its restatement |
| Turns.MergedText | agent/run.go:1138-1161 | The merged answer reads as the prefix followed by the continuation |
| Turns.MergedAtoms | agent/run.go:1138-1161 | The merged answer keeps the reasoning and the tool calls of the continuation, in order |
| Turns.MergedSeparate | agent/run.go:1138-1161 | The merged answer has no two parts of text in a row |
| Turns.AnswerText | agent/run.go:650-848 | The answer reads as the first text followed by each continuation's less its restatement: what the calls before retained, and what the last call adds to it |
| Turns.WholeAnswer | agent/run.go:650-848 | The answer as a whole: what all the calls have contributed, the first text and each continuation less its restatement of all before it, in order; where nothing is continued, the text of the last call |
| Turns.ContributionIs | agent/run.go:1110-1136 | A call contributes what its stream says, unless it has called tools or says nothing but blanks |
| Turns.AsksNothing | agent/run.go:650-848 | After a fall back, or when failures are not continued, every call answers from the start |
| Turns.FaultIs | agent/run.go:955-1023 | A call is without fault exactly if its stream was whole and ended its message; a fault is final exactly if the stream broke off with one that is |
| Turns.RetryAllowance.Claim | ai/retry_budget.go:72-87 | A claim is granted exactly while the allowance lasts and its window is not spent, and counts exactly one |
| Turns.Turn.CallModel | agent/run.go:955-1023 | The message says what the stream it received says, a continuation's less its restatement and without what a broken stream held back; its text is what the consumer was given; whether it produced output and what fault it ends with are those of the stream |
| Turns.Turn.CallTurn | agent/run.go:650-848 | Each call but the last rightly went on: it failed after output with a fault worth another call and its tier had budget, or was a continuation refused or empty, at most one; each is asked to continue exactly what was retained. The turn answers exactly with a call that succeeds; it gives up only cancelled, out of its window, out of the budget of the tier, or on a fault not worth another call. The draft the consumer has is the answer but for the text that failed continuations left |
| Turns.StrayIsLeftOver | agent/run.go:650-848 | Such text can be left: a continuation that gives only blanks and breaks off leaves two bytes in the draft that the answer lacks |

## Left out

- Acceptance.Compile: does not model `validateMergeNode`, `validateLoopControlEdges` and the shape checks of node types, which refuse further plans; what is proved of accepted plans holds of those that remain.
- Executions.Execution.Run: host interruption signals, cancellation from outside, timeouts, step limits, node debugging, events and recording are not modelled, nor a composite that a child's static breakpoint pauses without a point to answer; the failure text of unusable inputs is one constant.
- Acceptance.ValidateGraph: does not model `validateLoopControlEdges`.
- Executions.Execution.Drain: the cancellation of the flights and the grace period after which they are abandoned are not modelled; a drained flight may succeed or fail.
- Endings.EndAlwaysExecuted: its converse half is for plans whose bindings do not look into values, because what a projected schema says of a value is opaque, and for a host that may make any node but SetVariable fail; built-in nodes fail in fewer cases.
- WholeRuns.RunOnce: for hosts that never interrupt; with dynamic interruptions a node's answer depends on the answers it is given, and the results are the invariant, availability and checkpoint theorems, which hold for all hosts.
- WholeRuns.RunToEnd: attempt and step counts are not compared.
- Loading.SavedConsistent: plan and revision fingerprints and the state of nested composites are not checked.
- Loading.CheckConsistent: as Loading.SavedConsistent.
- Loading.Load: as Loading.SavedConsistent.
- WholeRuns.FreshCheckpointLoads: interruption identifiers are taken to name the node they were made for and not to repeat; the plan and revision fingerprints stored with a checkpoint are not modelled.
- Scheduler.SuspendingInv: a suspended Batch, Loop or SubWorkflow is suspended as any node; its nested checkpoint is not part of the scheduler state.
- Scheduler.AssignedInv: inside an accepted Loop body an assignment cannot fail, so only its success is modelled; the failing case is in Loops.IterationState.Assign.
- PartialRuns.RunPartial: starts without pins and without data of a previous run, on inputs whose defaults have been filled in; `retainReachablePrevious` and its premature reuse of joins are not modelled. Supplied inputs that are not required are dropped at once; the code drops them at Start.
- Slices.RequiredWorkflowInputs: takes the routes of nodes with data as given.
- Loops.Invoke: array items, counts and outputs are values already decoded; encoding failures and integer width are not modelled. Validation accepts aggregates shorter than the index, which no Loop saves.
- Loops.SavedLoopLoads: the checkpoint of the iteration inside is opaque; its own validation is that of a run of the body.
- Batches.Batch.RunCandidates: an item that ends after the pool was cancelled may answer anything; cancellation from outside the batch is not modelled.
- Histories.BehaviourKeeps: each operation reads the clock once; the code may read it again between charging a stage and stamping the record.
- Ownership.AttemptOwned: for one engine per store, since a stage's result is not compared with the attempt it was made by.
- Stores.MemoryStore.Create: the limit on the size of a record is not modelled.
- Stores.MemoryStore.CompareAndSwap: the limits on the size of a record and of the store are not modelled.
- Engines.Engine.Advance: the target and the remaining budget in a request are not modelled, and that the engine is found busy is known only of its own table of active stages.
- Engines.Engine.FinishStage: wall-clock charges follow the single clock reading of the operation.
- Journals.DecodeRecordLines: the limit on the size of a record is not modelled.
- Journals.DecodeExecutionFile: limits on file and record size are not modelled, and the header is reduced to its identifier.
- Journals.JSONLStore.ReadFile: the limit on the size of a file is not modelled.
- Journals.JSONLStore.CompareAndSwap: limits on record and file size are not modelled.
- Journals.TornAppend: limits on record and file size are not modelled; the file system is a byte sequence of which a crash keeps a prefix of the append.
- Streams.Accumulator.Add: the arguments of tool calls and the sealing of their parts are not modelled.
- Turns.Turn.CallModel: as Streams.Accumulator.Add; only the streaming way of calling the model is modelled.
- Turns.Turn.CallTurn: backoff, the wording of notices and usage accounting are not modelled.
- ToolBatches.BatchExec.Run: progress reports of tools are not modelled; a tool that panics is one that returns an error result, and a tool or hook answers a call always alike but for cancellation.
- Engine.Create, List and Get, session queues, tool-choice validation, provider adapters, schemas, fingerprints and JSON encoding are left out: they would add easy members or are values compared for equality.
