/** One turn's tool batch: the gate, and the walker that runs calls inline or on bounded workers while a consumer
    listens (agent/exec.go). */
module ToolBatches {
  import opened Options

  datatype Call = Call(id: string, name: string, args: string)

  datatype Result = Result(id: string, name: string, content: string, isError: bool)

  datatype Decision = Allow | Deny(reason: string) | DenyBatch(reason: string) | Pause

  /** What the gate answers for one call: a decision, and perhaps other arguments. */
  datatype Answer = Answer(decision: Decision, updated: Option<string>)

  function ErrorResult(call: Call, reason: string): Result {
    Result(call.id, call.name, reason, true)
  }

  function Reason(given: string, otherwise: string): string {
    if given == "" then otherwise else given
  }

  function Ids(calls: seq<Call>): seq<string> {
    seq(|calls|, i requires 0 <= i < |calls| => calls[i].id)
  }

  // ---------------------------------------------------------------- The gate

  ghost predicate Denies(calls: seq<Call>, denials: seq<Option<Result>>) {
    |denials| == |calls| && forall i | 0 <= i < |calls| :: denials[i].Some? ==> denials[i].value.id == calls[i].id && denials[i].value.isError
  }

  predicate Ends(d: Decision) {
    d.Pause? || d.DenyBatch?
  }

  predicate EndedBefore(gate: nat -> Answer, i: nat) {
    exists j: nat | j < i :: Ends(gate(j).decision)
  }

  /** A call as the gate leaves it: with other arguments if it was asked and gave some. Nothing is asked after a call
      that ends the batch. */
  function Gated(calls: seq<Call>, gate: nat -> Answer, i: nat): Call
    requires i < |calls|
  {
    if !EndedBefore(gate, i) && gate(i).updated.Some? then calls[i].(args := gate(i).updated.value) else calls[i]
  }

  /** The answer a denied call is given of its own. */
  function Denial(calls: seq<Call>, gate: nat -> Answer, i: nat): Option<Result>
    requires i < |calls|
  {
    match gate(i).decision
    case Deny(reason) => Some(ErrorResult(calls[i], Reason(reason, "tool call denied")))
    case _ => None
  }

  /** The calls have been gated up to `i`, and none has ended the batch. */
  ghost predicate GatedUpTo(calls: seq<Call>, gate: nat -> Answer, runnable: seq<Call>, denials: seq<Option<Result>>, i: nat)
    requires i <= |calls|
  {
    && |runnable| == |denials| == |calls| && !EndedBefore(gate, i)
    && (forall j: nat | j < |calls| :: runnable[j] == if j < i then Gated(calls, gate, j) else calls[j])
    && (forall j: nat | j < |calls| :: denials[j] == if j < i then Denial(calls, gate, j) else None)
  }

  lemma SameIds(calls: seq<Call>, gate: nat -> Answer, runnable: seq<Call>, pending: seq<Call>)
    requires |runnable| + |pending| == |calls| && forall i: nat | i < |calls| :: (runnable + pending)[i] == Gated(calls, gate, i)
    ensures Ids(runnable) + Ids(pending) == Ids(calls)
  {
    assert Ids(runnable) + Ids(pending) == Ids(runnable + pending);
  }

  /** The call at `i` as it is when its decision is carried out. */
  method Revise(calls: seq<Call>, gate: nat -> Answer, runnable: seq<Call>, denials: seq<Option<Result>>, i: nat) returns (revised: seq<Call>)
    requires i < |calls| && GatedUpTo(calls, gate, runnable, denials, i)
    ensures |revised| == |calls| && forall j: nat | j < |calls| :: revised[j] == if j <= i then Gated(calls, gate, j) else calls[j]
  {
    revised := runnable;
    if gate(i).updated.Some? {
      revised := revised[i := revised[i].(args := gate(i).updated.value)];
    }
  }

  /** Where the gate was not asked, a call is as it was. */
  lemma Unasked(calls: seq<Call>, gate: nat -> Answer, i: nat)
    requires Ends(gate(i).decision)
    ensures forall j: nat | i < j < |calls| :: Gated(calls, gate, j) == calls[j]
  {}

  /** `gateCalls`: the calls up to a pause may run, the others are pending, each with the arguments the gate left it; a
      denial answers its own call, the denial of the batch answers every call. */
  method GateCalls(calls: seq<Call>, gate: nat -> Answer) returns (runnable: seq<Call>, denials: seq<Option<Result>>, pending: seq<Call>)
    ensures Ids(runnable) + Ids(pending) == Ids(calls) && Denies(runnable, denials)
    ensures |runnable| + |pending| == |calls| && forall i: nat | i < |calls| :: (runnable + pending)[i] == Gated(calls, gate, i)
    ensures pending != [] ==> gate(|runnable|).decision.Pause? && !EndedBefore(gate, |runnable|)
    ensures !EndedBefore(gate, |runnable|) ==> forall i: nat | i < |runnable| :: denials[i] == Denial(calls, gate, i)
    ensures EndedBefore(gate, |runnable|) ==>
              exists j: nat | j < |calls| :: gate(j).decision.DenyBatch? && !EndedBefore(gate, j)
                && forall i: nat | i < |calls| :: denials[i] == Some(ErrorResult(calls[i], Reason(gate(j).decision.reason, "tool batch denied")))
  {
    runnable, denials, pending := calls, seq(|calls|, _ => None), [];
    for i := 0 to |calls|
      invariant GatedUpTo(calls, gate, runnable, denials, i) && pending == []
    {
      runnable := Revise(calls, gate, runnable, denials, i);
      match gate(i).decision {
        case Allow =>
        case Deny(reason) => denials := denials[i := Some(ErrorResult(runnable[i], Reason(reason, "tool call denied")))];
        case DenyBatch(reason) =>
          Unasked(calls, gate, i);
          denials := seq(|runnable|, j requires 0 <= j < |runnable| => Some(ErrorResult(runnable[j], Reason(reason, "tool batch denied"))));
          assert Ends(gate(i).decision) && EndedBefore(gate, |runnable|);
          SameIds(calls, gate, runnable, []);
          return;
        case Pause =>
          Unasked(calls, gate, i);
          pending := runnable[i..];
          runnable, denials := runnable[..i], denials[..i];
          SameIds(calls, gate, runnable, pending);
          return;
      }
    }
    SameIds(calls, gate, runnable, []);
  }

  // ---------------------------------------------------------------- Tools

  /** What a tool returns, knowing at the end whether its context was cancelled: content, content with the hint to end the
      run, or an error, into which a panic is turned. */
  datatype Reply = Replied(content: string) | Finishing(content: string) | Erred(message: string)

  /** A tool may be declared safe to run beside others. */
  datatype Tool = ByProvider(parallel: bool) | Local(parallel: bool, exec: (Call, bool) -> Reply)

  /** What the after-tool hook makes of a result. */
  datatype Override = Keep | Replace(content: Option<string>, isError: Option<bool>, terminate: Option<bool>) | HookPanicked(message: string)

  datatype Outcome = Outcome(part: Result, terminated: bool, executed: bool)

  /** An answer that no tool gave. */
  function Unexecuted(part: Result): Outcome {
    Outcome(part, false, false)
  }

  function Cancelled(call: Call): Outcome {
    Unexecuted(ErrorResult(call, "tool execution cancelled"))
  }

  predicate IsLocal(tools: map<string, Tool>, call: Call) {
    call.name in tools && tools[call.name].Local?
  }

  /** The answer to a call whose tool is not known, or not run here. */
  function Elsewhere(tools: map<string, Tool>, call: Call): Outcome {
    if call.name !in tools then Unexecuted(ErrorResult(call, "unknown tool: " + call.name))
    else Unexecuted(Result(call.id, call.name, "executed by provider", false))
  }

  /** What a tool's reply makes of its call. */
  function Executed(call: Call, reply: Reply): Outcome {
    match reply
    case Replied(content) => Outcome(Result(call.id, call.name, content, false), false, true)
    case Finishing(content) => Outcome(Result(call.id, call.name, content, false), true, true)
    case Erred(message) => Outcome(ErrorResult(call, message), false, true)
  }

  /** `finalize`: the hook has its say on what was executed, and on nothing else. */
  function Hooked(hook: Option<(Call, Result) -> Override>, call: Call, o: Outcome): Outcome {
    if hook.None? || !o.executed then o
    else
      match hook.value(call, o.part)
      case Keep => o
      case Replace(content, isError, terminate) =>
        Outcome(o.part.(content := if content.Some? then content.value else o.part.content,
                        isError := if isError.Some? then isError.value else o.part.isError),
                if terminate.Some? then terminate.value else o.terminated, true)
      case HookPanicked(message) => Outcome(ErrorResult(call, "after-tool hook panicked: " + message), false, true)
  }

  /** What the gate left of a turn's calls, and what they are run with. */
  datatype Batch = Batch(calls: seq<Call>, denials: seq<Option<Result>>, tools: map<string, Tool>, hook: Option<(Call, Result) -> Override>) {
    predicate Here(i: nat)
      requires i < |calls|
    {
      IsLocal(tools, calls[i])
    }

    predicate Concurrent(i: nat)
      requires i < |calls|
    {
      calls[i].name in tools && tools[calls[i].name].parallel
    }

    /** What running the tool of a call comes to, if its context was cancelled by the end or not. */
    function Answer(i: nat, cut: bool): Outcome
      requires i < |calls| && Here(i)
    {
      Executed(calls[i], tools[calls[i].name].exec(calls[i], cut))
    }

    /** What a worker may have brought: the answer of its tool, which has been run; or, the tool not run, that it is not
        run here, or that the context is cancelled. */
    ghost predicate Brought(ran: seq<nat>, cancelled: bool, i: nat, o: Outcome)
      requires i < |calls|
    {
      if i in ran then Here(i) && exists cut: bool :: (cut ==> cancelled) && o == Answer(i, cut)
      else if Here(i) then cancelled && o == Cancelled(calls[i])
      else o == Elsewhere(tools, calls[i])
    }

    /** The answer to a call: its denial, and the tool is not run; the tool's answer, after the hook; or, only once the
        context is cancelled, that it was. */
    ghost predicate Right(ran: seq<nat>, cancelled: bool, i: nat, o: Outcome)
      requires i < |calls| == |denials|
    {
      if denials[i].Some? then i !in ran && o == Unexecuted(denials[i].value)
      else if i in ran then Here(i) && exists cut: bool :: (cut ==> cancelled) && o == Hooked(hook, calls[i], Answer(i, cut))
      else (cancelled && o == Cancelled(calls[i])) || (!Here(i) && o == Elsewhere(tools, calls[i]))
    }

    lemma HookedRight(ran: seq<nat>, cancelled: bool, i: nat, o: Outcome)
      requires i < |calls| == |denials| && denials[i].None? && Brought(ran, cancelled, i, o)
      ensures Right(ran, cancelled, i, Hooked(hook, calls[i], o))
    {}

    /** What is said of one call outlives the run of another's tool, and a cancellation. */
    lemma StaysRight(ran: seq<nat>, ran': seq<nat>, cancelled: bool, cancelled': bool, i: nat, j: nat, o: Outcome)
      requires j < |calls| == |denials| && i != j && (ran' == ran || ran' == ran + [i]) && (cancelled ==> cancelled')
      ensures Brought(ran, cancelled, j, o) ==> Brought(ran', cancelled', j, o)
      ensures Right(ran, cancelled, j, o) ==> Right(ran', cancelled', j, o)
    {
      assert j in ran' <==> j in ran;
    }

    /** Of the first `k` calls, each that is not in flight has its answer, but for call `missing`; so has each that has
        landed, though the hook has not seen it. */
    ghost predicate Answered(ran: seq<nat>, cancelled: bool, outcomes: seq<Option<Outcome>>, executing: set<nat>, landed: set<nat>, k: nat, missing: nat) {
      && k <= |calls| == |outcomes| == |denials|
      && (forall i <- landed :: i < |calls| && outcomes[i].Some? && Brought(ran, cancelled, i, outcomes[i].value))
      && (forall i: nat | i < k && i !in executing && i !in landed && i != missing ::
            outcomes[i].Some? && Right(ran, cancelled, i, outcomes[i].value))
    }

    lemma StayAnswered(ran: seq<nat>, ran': seq<nat>, cancelled: bool, cancelled': bool, outcomes: seq<Option<Outcome>>,
                       executing: set<nat>, landed: set<nat>, k: nat, missing: nat, i: nat)
      requires Answered(ran, cancelled, outcomes, executing, landed, k, missing)
      requires (ran' == ran || ran' == ran + [i]) && (cancelled ==> cancelled') && i !in landed && (i in executing || i == missing || i >= k)
      ensures Answered(ran', cancelled', outcomes, executing, landed, k, missing)
    {
      forall j <- landed ensures Brought(ran', cancelled', j, outcomes[j].value) {
        StaysRight(ran, ran', cancelled, cancelled', i, j, outcomes[j].value);
      }
      forall j: nat | j < k && j !in executing && j !in landed && j != missing ensures Right(ran', cancelled', j, outcomes[j].value) {
        StaysRight(ran, ran', cancelled, cancelled', i, j, outcomes[j].value);
      }
    }

    lemma AnsweredLand(ran: seq<nat>, cancelled: bool, outcomes: seq<Option<Outcome>>, executing: set<nat>, landed: set<nat>, k: nat, i: nat, o: Outcome)
      requires Answered(ran, cancelled, outcomes, executing, landed, k, |calls|) && i in executing && i < |calls| && Brought(ran, cancelled, i, o)
      ensures Answered(ran, cancelled, outcomes[i := Some(o)], executing - {i}, landed + {i}, k, |calls|)
    {}

    lemma AnsweredConclude(ran: seq<nat>, cancelled: bool, outcomes: seq<Option<Outcome>>, executing: set<nat>, landed: set<nat>, k: nat, i: nat, o: Outcome)
      requires Answered(ran, cancelled, outcomes, executing, landed, k, i) && i !in landed && i < |calls| && Right(ran, cancelled, i, o)
      ensures Answered(ran, cancelled, outcomes[i := Some(o)], executing, landed, k, |calls|)
    {}
  }

  // ---------------------------------------------------------------- The walker

  datatype Event = Started(index: nat) | Completed(index: nat, result: Result)

  ghost predicate StartedIn(events: seq<Event>, i: nat) {
    Started(i) in events
  }

  ghost predicate CompletedIn(events: seq<Event>, i: nat) {
    exists r :: Completed(i, r) in events
  }

  /** No call starts or completes twice, and none completes before it has started. */
  ghost predicate InOrder(events: seq<Event>) {
    && (forall a, b | 0 <= a < b < |events| && events[a].index == events[b].index :: events[a].Started? && events[b].Completed?)
    && (forall b | 0 <= b < |events| && events[b].Completed? :: StartedIn(events[..b], events[b].index))
  }

  lemma StartInOrder(events: seq<Event>, i: nat)
    requires InOrder(events) && forall e <- events :: e.index != i
    ensures InOrder(events + [Started(i)])
  {
    var events' := events + [Started(i)];
    forall b | 0 <= b < |events'| && events'[b].Completed? ensures StartedIn(events'[..b], events'[b].index) {
      assert events'[..b] == events[..b];
    }
    assert forall a | 0 <= a < |events| :: events[a] in events;
  }

  lemma CompleteInOrder(events: seq<Event>, i: nat, r: Result)
    requires InOrder(events) && StartedIn(events, i) && !CompletedIn(events, i)
    ensures InOrder(events + [Completed(i, r)])
  {
    var events' := events + [Completed(i, r)];
    forall b | 0 <= b < |events'| && events'[b].Completed? ensures StartedIn(events'[..b], events'[b].index) {
      assert events'[..b] == events[..b] || b == |events|;
      assert events'[..|events|] == events;
    }
    assert forall a | 0 <= a < |events| && events[a].Completed? :: Completed(events[a].index, events[a].result) in events;
  }

  /** Each of the first `k` calls has been started. */
  ghost predicate AllStarted(events: seq<Event>, k: nat) {
    forall i: nat | i < k :: StartedIn(events, i)
  }

  /** Each of the first `k` calls has been completed with its answer, unless it is in flight. */
  ghost predicate AllCompleted(events: seq<Event>, outcomes: seq<Option<Outcome>>, flying: set<nat>, k: nat)
    requires k <= |outcomes|
  {
    forall i: nat | i < k && i !in flying && outcomes[i].Some? :: Completed(i, outcomes[i].value.part) in events
  }

  /** No call from `k` on has been told of, and no completion of a call in flight. */
  ghost predicate NotYetTold(events: seq<Event>, flying: set<nat>, k: nat) {
    (forall e <- events :: e.index < k) && (forall i <- flying :: !CompletedIn(events, i))
  }

  /** What the consumer has been given of the first `k` calls, of which those in `flying` have yet to complete. */
  ghost predicate Told(events: seq<Event>, outcomes: seq<Option<Outcome>>, flying: set<nat>, stopped: bool, k: nat)
    requires k <= |outcomes|
  {
    InOrder(events) && NotYetTold(events, flying, k) && (!stopped ==> AllStarted(events, k) && AllCompleted(events, outcomes, flying, k))
  }

  lemma NotYetStart(events: seq<Event>, flying: set<nat>, k: nat)
    requires NotYetTold(events, flying, k)
    ensures NotYetTold(events + [Started(k)], flying + {k}, k + 1)
  {
    assert forall i, r | Completed(i, r) in events + [Started(k)] :: Completed(i, r) in events && Completed(i, r).index < k;
  }

  lemma NotYetCompletion(events: seq<Event>, flying: set<nat>, i: nat, r: Result, k: nat)
    requires NotYetTold(events, flying, k) && i < k
    ensures NotYetTold(events + [Completed(i, r)], flying - {i}, k)
  {
    assert forall j, r' | j != i && Completed(j, r') in events + [Completed(i, r)] :: Completed(j, r') in events;
  }

  lemma MoreCompleted(events: seq<Event>, e: Event, outcomes: seq<Option<Outcome>>, outcomes': seq<Option<Outcome>>, flying: set<nat>, i: nat, o: Outcome, k: nat)
    requires k <= |outcomes| == |outcomes'| && AllCompleted(events, outcomes, flying, k) && i < |outcomes| && outcomes' == outcomes[i := Some(o)]
    requires e == Completed(i, o.part)
    ensures AllCompleted(events + [e], outcomes', flying - {i}, k)
  {
    assert e in events + [e];
  }

  lemma TellStart(events: seq<Event>, outcomes: seq<Option<Outcome>>, flying: set<nat>, k: nat, stops: bool)
    requires k < |outcomes| && Told(events, outcomes, flying, false, k)
    ensures Told(events + [Started(k)], outcomes, flying + {k}, stops, k + 1)
  {
    StartInOrder(events, k);
    NotYetStart(events, flying, k);
    assert forall i: nat | StartedIn(events, i) :: StartedIn(events + [Started(k)], i);
    assert Started(k) in events + [Started(k)];
  }

  lemma TellCompletion(events: seq<Event>, outcomes: seq<Option<Outcome>>, outcomes': seq<Option<Outcome>>, flying: set<nat>,
                       i: nat, o: Outcome, k: nat, stops: bool)
    requires k <= |outcomes| && Told(events, outcomes, flying, false, k) && i in flying && i < k && outcomes' == outcomes[i := Some(o)]
    ensures Told(events + [Completed(i, o.part)], outcomes', flying - {i}, stops, k)
  {
    var e := Completed(i, o.part);
    CompleteInOrder(events, i, o.part);
    NotYetCompletion(events, flying, i, o.part, k);
    assert forall j: nat | StartedIn(events, j) :: StartedIn(events + [e], j);
    MoreCompleted(events, e, outcomes, outcomes', flying, i, o, k);
  }

  /** To a consumer that has stopped nothing more is owed. */
  lemma TellNothing(events: seq<Event>, outcomes: seq<Option<Outcome>>, outcomes': seq<Option<Outcome>>, flying: set<nat>, flying': set<nat>, k: nat, k': nat)
    requires k <= k' <= |outcomes| == |outcomes'| && Told(events, outcomes, flying, true, k)
    requires forall i <- flying' :: i in flying || i >= k
    ensures Told(events, outcomes', flying', true, k')
  {
    assert forall i, r | Completed(i, r) in events :: Completed(i, r).index < k;
  }

  /** What is in flight may change its outcome untold. */
  lemma TellSame(events: seq<Event>, outcomes: seq<Option<Outcome>>, outcomes': seq<Option<Outcome>>, flying: set<nat>, stopped: bool, k: nat, i: nat, o: Outcome)
    requires k <= |outcomes| && Told(events, outcomes, flying, stopped, k) && i in flying && i < |outcomes| && outcomes' == outcomes[i := Some(o)]
    ensures Told(events, outcomes', flying, stopped, k)
  {}

  /** `results`: the answers, in call order. */
  function Collected(outcomes: seq<Option<Outcome>>): (r: seq<Result>)
    requires forall i | 0 <= i < |outcomes| :: outcomes[i].Some?
    ensures |r| == |outcomes| && forall i | 0 <= i < |r| :: r[i] == outcomes[i].value.part
  {
    seq(|outcomes|, i requires 0 <= i < |outcomes| => outcomes[i].value.part)
  }

  /** At most `capacity` of the first `k` calls execute; the others in flight have landed. */
  ghost predicate Slots(executing: set<nat>, landed: set<nat>, inflight: nat, capacity: nat, k: nat) {
    && executing !! landed && inflight == |executing| + |landed| && |executing| <= capacity
    && (forall i <- executing :: i < k) && (forall i <- landed :: i < k)
  }

  /** Each tool is run once at most, and none of a call that is denied, still executing or yet to come. */
  ghost predicate RanOnce(ran: seq<nat>, executing: set<nat>, landed: set<nat>, denials: seq<Option<Result>>, k: nat) {
    && k <= |denials| && (forall i, j | 0 <= i < j < |ran| :: ran[i] != ran[j])
    && (forall i <- ran :: i < k && denials[i].None? && i !in executing)
    && (forall i <- executing :: i < k && denials[i].None?) && (forall i <- landed :: i < k && denials[i].None?)
  }

  lemma SlotsLand(executing: set<nat>, landed: set<nat>, inflight: nat, capacity: nat, k: nat, i: nat)
    requires Slots(executing, landed, inflight, capacity, k) && i in executing
    ensures Slots(executing - {i}, landed + {i}, inflight, capacity, k)
  {}

  lemma SlotsReceive(executing: set<nat>, landed: set<nat>, inflight: nat, capacity: nat, k: nat, i: nat)
    requires Slots(executing, landed, inflight, capacity, k) && i in landed
    ensures inflight > 0 && Slots(executing, landed - {i}, inflight - 1, capacity, k)
  {}

  lemma SlotsTake(executing: set<nat>, landed: set<nat>, inflight: nat, capacity: nat, k: nat)
    requires Slots(executing, landed, inflight, capacity, k) && |executing| < capacity
    ensures Slots(executing + {k}, landed, inflight + 1, capacity, k + 1)
  {}

  lemma RanLand(ran: seq<nat>, ran': seq<nat>, executing: set<nat>, landed: set<nat>, denials: seq<Option<Result>>, k: nat, i: nat)
    requires RanOnce(ran, executing, landed, denials, k) && i in executing && (ran' == ran || ran' == ran + [i])
    ensures RanOnce(ran', executing - {i}, landed + {i}, denials, k)
  {
    assert i !in ran;
    forall a, b | 0 <= a < b < |ran'| ensures ran'[a] != ran'[b] {
      assert a < |ran| && ran[a] in ran;
    }
    assert forall j <- ran' :: j in ran || j == i;
  }

  lemma RanInline(ran: seq<nat>, ran': seq<nat>, denials: seq<Option<Result>>, k: nat)
    requires RanOnce(ran, {}, {}, denials, k) && k < |denials| && denials[k].None? && (ran' == ran || ran' == ran + [k])
    ensures RanOnce(ran', {}, {}, denials, k + 1)
  {
    assert k !in ran;
    forall a, b | 0 <= a < b < |ran'| ensures ran'[a] != ran'[b] {
      assert a < |ran| && ran[a] in ran;
    }
    assert forall j <- ran' :: j in ran || j == k;
  }

  class BatchExec {
    const batch: Batch
    const capacity: nat
    var outcomes: seq<Option<Outcome>>
    /** Workers that hold a slot, and workers that have let go of theirs and wait to be received. */
    var executing: set<nat>
    var landed: set<nat>
    var inflight: nat
    var stopped: bool
    var cancelled: bool
    /** What the consumer has been given, and the calls whose tools have been run, in that order. */
    ghost var events: seq<Event>
    ghost var ran: seq<nat>

    constructor (gated: Batch, slots: nat)
      requires slots > 0 && Denies(gated.calls, gated.denials)
      ensures batch == gated && capacity == slots && Walked(0) && !stopped && ran == []
    {
      batch, capacity := gated, slots;
      outcomes := seq(|gated.calls|, _ => None);
      executing, landed, inflight, stopped, cancelled := {}, {}, 0, false, *;
      events, ran := [], [];
    }

    /** Each of the first `k` calls is answered rightly, or in flight, but for call `missing`; at most `capacity` execute,
        all of them declared safe to run beside others. */
    ghost predicate AnswersBut(k: nat, missing: nat)
      reads this
    {
      && capacity > 0 && (stopped ==> cancelled)
      && Slots(executing, landed, inflight, capacity, k) && RanOnce(ran, executing, landed, batch.denials, k)
      && batch.Answered(ran, cancelled, outcomes, executing, landed, k, missing)
      && forall i <- executing :: batch.Concurrent(i)
    }

    ghost predicate Answers(k: nat)
      reads this
    {
      AnswersBut(k, |batch.calls|)
    }

    ghost predicate Walked(k: nat)
      reads this
    {
      Answers(k) && Told(events, outcomes, executing + landed, stopped, k)
    }

    /** What has been stopped or cancelled stays so. */
    twostate predicate Onward()
      reads this
    {
      (old(stopped) ==> stopped) && (old(cancelled) ==> cancelled)
    }

    /** `emit`: a consumer that stops is given nothing more, and the run is cancelled. */
    method Emit(e: Event)
      modifies this`events, this`stopped, this`cancelled
      ensures events == if old(stopped) then old(events) else old(events) + [e]
      ensures Onward() && (stopped && !old(stopped) ==> cancelled)
    {
      if stopped {
        return;
      }
      events := events + [e];
      var listening: bool := *;
      if !listening {
        stopped, cancelled := true, true;
      }
    }

    /** The outside world may cancel the context at any moment. */
    method Context()
      modifies this`cancelled
      ensures Onward()
    {
      var cancel: bool := *;
      cancelled := cancelled || cancel;
    }

    /** `runTool`: a known local tool is run, unless the context is cancelled by then. */
    method RunTool(i: nat) returns (o: Outcome)
      requires i < |batch.calls| && i !in ran
      modifies this`cancelled, this`ran
      ensures Onward() && batch.Brought(ran, cancelled, i, o) && (ran == old(ran) || ran == old(ran) + [i])
    {
      var call := batch.calls[i];
      if !batch.Here(i) {
        return Elsewhere(batch.tools, call);
      }
      Context();
      if cancelled {
        return Cancelled(call);
      }
      ran := ran + [i];
      assert i in ran;
      Context();
      o := batch.Answer(i, cancelled);
    }

    /** A worker that has landed still counts as flying. */
    static lemma StillFlying(before: set<nat>, landed: set<nat>, i: nat)
      requires i in before && i !in landed
      ensures (before - {i}) + (landed + {i}) == before + landed
      ensures |before - {i}| == |before| - 1 && |landed + {i}| == |landed| + 1
    {}

    /** One executing worker writes its outcome, lets go of its slot and waits to be received. */
    method WorkerLands(k: nat)
      requires Walked(k) && executing != {}
      modifies this`executing, this`landed, this`outcomes, this`cancelled, this`ran
      ensures Walked(k) && |executing| == |old(executing)| - 1 && |landed| == |old(landed)| + 1 && Onward()
    {
      var i :| i in executing;
      StillFlying(executing, landed, i);
      ghost var before, flying := outcomes, executing + landed;
      ghost var o := Land(i, k);
      TellSame(events, before, outcomes, flying, stopped, k, i, o);
    }

    method Land(i: nat, k: nat) returns (o: Outcome)
      requires Answers(k) && i in executing
      modifies this`executing, this`landed, this`outcomes, this`cancelled, this`ran
      ensures Answers(k) && Onward() && i < |old(outcomes)| && outcomes == old(outcomes)[i := Some(o)]
      ensures executing == old(executing) - {i} && landed == old(landed) + {i}
    {
      o := RunTool(i);
      batch.StayAnswered(old(ran), ran, old(cancelled), cancelled, outcomes, executing, landed, k, |batch.calls|, i);
      SlotsLand(executing, landed, inflight, capacity, k, i);
      RanLand(old(ran), ran, executing, landed, batch.denials, k, i);
      batch.AnsweredLand(ran, cancelled, outcomes, executing, landed, k, i, o);
      outcomes := outcomes[i := Some(o)];
      executing, landed := executing - {i}, landed + {i};
    }

    /** Workers make progress of their own while the walker does something else. */
    method Workers(k: nat)
      requires Walked(k)
      modifies this`executing, this`landed, this`outcomes, this`cancelled, this`ran
      ensures Walked(k) && Onward()
    {
      Cut(k);
      var more: bool := *;
      while more && executing != {}
        invariant Walked(k) && Onward()
        decreases |executing|
      {
        WorkerLands(k);
        more := *;
      }
    }

    /** The context may be cancelled. */
    method Cut(k: nat)
      requires Answers(k)
      modifies this`cancelled
      ensures Answers(k) && Onward()
    {
      Context();
      batch.StayAnswered(ran, ran, old(cancelled), cancelled, outcomes, executing, landed, k, |batch.calls|, k);
    }

    /** `finish`: receives one landed worker, and lets the hook have its say. */
    method Finish(k: nat)
      requires Walked(k) && landed != {}
      modifies this`landed, this`inflight, this`outcomes, this`events, this`stopped, this`cancelled
      ensures Walked(k) && inflight == old(inflight) - 1 && Onward()
    {
      var i :| i in landed;
      ghost var flying := executing + landed;
      var o := Receive(i, k);
      assert executing + landed + {i} == flying;
      Conclude(i, k, o);
    }

    method Receive(i: nat, k: nat) returns (o: Outcome)
      requires Answers(k) && i in landed
      modifies this`landed, this`inflight
      ensures AnswersBut(k, i) && landed == old(landed) - {i} && inflight == old(inflight) - 1
      ensures i < k && i !in executing && batch.Right(ran, cancelled, i, o)
    {
      batch.HookedRight(ran, cancelled, i, outcomes[i].value);
      SlotsReceive(executing, landed, inflight, capacity, k, i);
      o := Hooked(batch.hook, batch.calls[i], outcomes[i].value);
      inflight, landed := inflight - 1, landed - {i};
    }

    /** Waits for a worker to land, and receives it. */
    method ReceiveOne(k: nat)
      requires Walked(k) && inflight > 0
      modifies this`executing, this`landed, this`inflight, this`outcomes, this`events, this`stopped, this`cancelled, this`ran
      ensures Walked(k) && inflight < old(inflight) && Onward()
    {
      Workers(k);
      if landed == {} {
        WorkerLands(k);
      }
      Finish(k);
    }

    /** `await`: receives workers until none is in flight. */
    method Await(k: nat)
      requires Walked(k)
      modifies this`executing, this`landed, this`inflight, this`outcomes, this`events, this`stopped, this`cancelled, this`ran
      ensures Walked(k) && executing == {} && landed == {} && Onward()
    {
      while inflight > 0
        invariant Walked(k) && Onward()
        decreases inflight
      {
        ReceiveOne(k);
      }
    }

    /** `settle`: an answer that no tool gave. */
    method Settle(k: nat, r: Result)
      requires Walked(k) && k < |batch.calls|
      requires if batch.denials[k].Some? then r == batch.denials[k].value else cancelled && Unexecuted(r) == Cancelled(batch.calls[k])
      modifies this`outcomes, this`events, this`stopped, this`cancelled
      ensures Walked(k + 1) && Onward()
    {
      NotYet(k);
      Announce(k);
      Conclude(k, k + 1, Unexecuted(r));
    }

    /** Gives the consumer the start of the next call. */
    method Announce(k: nat)
      requires Walked(k) && k < |batch.calls|
      modifies this`events, this`stopped, this`cancelled
      ensures Told(events, outcomes, executing + landed + {k}, stopped, k + 1) && AnswersBut(k + 1, k) && Onward()
    {
      ghost var told, silent, flying := events, stopped, executing + landed;
      Emit(Started(k));
      if silent {
        TellNothing(told, outcomes, outcomes, flying, flying + {k}, k, k + 1);
      } else {
        TellStart(told, outcomes, flying, k, stopped);
      }
      batch.StayAnswered(ran, ran, old(cancelled), cancelled, outcomes, executing, landed, k, |batch.calls|, k);
    }

    /** Records the answer of a call that is no longer in flight, and gives it to the consumer. */
    method Conclude(i: nat, k: nat, o: Outcome)
      requires AnswersBut(k, i) && i < k && i !in executing && i !in landed && batch.Right(ran, cancelled, i, o)
      requires Told(events, outcomes, executing + landed + {i}, stopped, k)
      modifies this`outcomes, this`events, this`stopped, this`cancelled
      ensures Walked(k) && Onward()
    {
      ghost var flying := executing + landed + {i};
      Record(i, k, o);
      Tell(i, k, o, old(outcomes), flying);
      assert executing + landed == flying - {i};
    }

    method Record(i: nat, k: nat, o: Outcome)
      requires AnswersBut(k, i) && i < k && i !in landed && batch.Right(ran, cancelled, i, o)
      modifies this`outcomes
      ensures Answers(k) && i < |old(outcomes)| && outcomes == old(outcomes)[i := Some(o)]
    {
      batch.AnsweredConclude(ran, cancelled, outcomes, executing, landed, k, i, o);
      outcomes := outcomes[i := Some(o)];
    }

    method Tell(i: nat, k: nat, o: Outcome, ghost before: seq<Option<Outcome>>, ghost flying: set<nat>)
      requires Answers(k) && k <= |before| && i < k && i in flying && outcomes == before[i := Some(o)]
      requires Told(events, before, flying, stopped, k)
      modifies this`events, this`stopped, this`cancelled
      ensures Answers(k) && Told(events, outcomes, flying - {i}, stopped, k) && Onward()
    {
      Emit(Completed(i, o.part));
      if old(stopped) {
        TellNothing(old(events), before, outcomes, flying, flying - {i}, k, k);
      } else {
        TellCompletion(old(events), before, outcomes, flying, i, o, k, stopped);
      }
      batch.StayAnswered(ran, ran, old(cancelled), cancelled, outcomes, executing, landed, k, |batch.calls|, k);
    }

    /** `dispatch`: receives landed workers until a slot is free, then starts one more. */
    method Dispatch(k: nat)
      requires Walked(k) && k < |batch.calls| && batch.denials[k].None? && batch.Concurrent(k)
      modifies this`executing, this`landed, this`inflight, this`outcomes, this`events, this`stopped, this`cancelled, this`ran
      ensures Walked(k + 1) && Onward() && k in executing
    {
      var wait: bool := *;
      while inflight > 0 && (wait || |executing| == capacity)
        invariant Walked(k) && Onward()
        decreases inflight
      {
        ReceiveOne(k);
        wait := *;
      }
      Occupy(k);
    }

    /** Takes a free slot for the next call. */
    method Occupy(k: nat)
      requires Walked(k) && k < |batch.calls| && |executing| < capacity && batch.denials[k].None? && batch.Concurrent(k)
      modifies this`executing, this`inflight, this`events, this`stopped, this`cancelled
      ensures Walked(k + 1) && Onward() && k in executing
    {
      NotYet(k);
      Announce(k);
      assert executing + landed + {k} == (executing + {k}) + landed;
      TakeSlot(k);
    }

    lemma NotYet(k: nat)
      requires Answers(k)
      ensures k !in ran && k !in executing && k !in landed
    {}

    method TakeSlot(k: nat)
      requires AnswersBut(k + 1, k) && k < |batch.calls| && |executing| < capacity && batch.denials[k].None? && batch.Concurrent(k)
      requires k !in ran && k !in executing && k !in landed
      modifies this`executing, this`inflight
      ensures Answers(k + 1) && executing == old(executing) + {k}
    {
      SlotsTake(executing, landed, inflight, capacity, k);
      inflight, executing := inflight + 1, executing + {k};
    }

    /** A serial tool runs inline, and alone. */
    method RunInline(k: nat)
      requires Walked(k) && k < |batch.calls| && executing == {} && landed == {} && !stopped && batch.denials[k].None?
      modifies this`outcomes, this`events, this`stopped, this`cancelled, this`ran
      ensures Walked(k + 1) && Onward()
    {
      NotYet(k);
      Announce(k);
      var o := RunNow(k);
      assert executing == landed == {};
      Conclude(k, k + 1, o);
    }

    method RunNow(k: nat) returns (o: Outcome)
      requires AnswersBut(k + 1, k) && k < |batch.calls| && executing == {} && landed == {} && batch.denials[k].None? && k !in ran
      modifies this`cancelled, this`ran
      ensures AnswersBut(k + 1, k) && Onward() && batch.Right(ran, cancelled, k, o)
    {
      o := RunTool(k);
      batch.StayAnswered(old(ran), ran, old(cancelled), cancelled, outcomes, {}, {}, k + 1, k, k);
      RanInline(old(ran), ran, batch.denials, k);
      batch.HookedRight(ran, cancelled, k, o);
      o := Hooked(batch.hook, batch.calls[k], o);
    }

    /** One call of the walk: a tool that may run beside others is left running, unless the context is cancelled. */
    method Step(k: nat)
      requires Walked(k) && k < |batch.calls|
      modifies this`executing, this`landed, this`inflight, this`outcomes, this`events, this`stopped, this`cancelled, this`ran
      ensures Walked(k + 1) && Onward()
      ensures batch.denials[k].None? && batch.Concurrent(k) && !cancelled ==> k in executing
    {
      Workers(k);
      if stopped || cancelled {
        Settle(k, if batch.denials[k].Some? then batch.denials[k].value else ErrorResult(batch.calls[k], "tool execution cancelled"));
        return;
      }
      if batch.denials[k].Some? {
        Settle(k, batch.denials[k].value);
        return;
      }
      if batch.Concurrent(k) {
        Dispatch(k);
        return;
      }
      StepSerial(k);
    }

    method StepSerial(k: nat)
      requires Walked(k) && k < |batch.calls| && batch.denials[k].None?
      modifies this`executing, this`landed, this`inflight, this`outcomes, this`events, this`stopped, this`cancelled, this`ran
      ensures Walked(k + 1) && Onward()
    {
      Await(k);
      if stopped || cancelled {
        Settle(k, ErrorResult(batch.calls[k], "tool execution cancelled"));
        return;
      }
      RunInline(k);
    }

    /** `batchExec.run`: every call is answered once, in its place, and rightly: a denied call by its denial, its tool not
        being run; any other by its tool, run once, and the hook; or, only if the context was cancelled, by that. A
        consumer that listens to the end is given one start and then one completion of each call, carrying its answer. */
    method Run() returns (results: seq<Result>)
      requires Walked(0)
      modifies this
      ensures |results| == |batch.calls| == |outcomes| == |batch.denials|
      ensures forall i: nat | i < |results| :: outcomes[i].Some? && results[i] == outcomes[i].value.part && batch.Right(ran, cancelled, i, outcomes[i].value)
      ensures forall i, j | 0 <= i < j < |ran| :: ran[i] != ran[j]
      ensures !cancelled ==> forall i: nat | i < |results| :: i in ran <==> batch.denials[i].None? && batch.Here(i)
      ensures InOrder(events)
      ensures !stopped ==> forall i: nat | i < |results| :: StartedIn(events, i) && Completed(i, results[i]) in events
    {
      for k := 0 to |batch.calls|
        invariant Walked(k)
      {
        Step(k);
      }
      Await(|batch.calls|);
      results := Collected(outcomes);
    }

    /** `terminated`: there is a call, and every answer carries the hint to end the run. */
    method Terminated() returns (all: bool)
      requires forall o <- outcomes :: o.Some?
      ensures all <==> outcomes != [] && forall o <- outcomes :: o.value.terminated
    {
      if outcomes == [] {
        return false;
      }
      for i := 0 to |outcomes|
        invariant forall j | 0 <= j < i :: outcomes[j].value.terminated
      {
        if !outcomes[i].value.terminated {
          return false;
        }
      }
      return true;
    }
  }

  /** An answer carries the identifier of its call. */
  lemma AnswersItsCall(b: Batch, ran: seq<nat>, cancelled: bool, i: nat, o: Outcome)
    requires i < |b.calls| && Denies(b.calls, b.denials) && b.Right(ran, cancelled, i, o)
    ensures o.part.id == b.calls[i].id
  {}

  /** What the calls of a batch that is not cancelled are answered where no hook is set: a denied call by its denial, an
      unknown tool by an error, one of the provider by a note, and any other by what its tool returns, as an error exactly
      if the tool fails. */
  lemma PlainAnswers(b: Batch, ran: seq<nat>, i: nat, o: Outcome)
    requires i < |b.calls| == |b.denials| && b.hook.None? && b.Right(ran, false, i, o)
    ensures var call := b.calls[i];
            if b.denials[i].Some? then o.part == b.denials[i].value
            else if call.name !in b.tools then o.part == Result(call.id, call.name, "unknown tool: " + call.name, true)
            else match b.tools[call.name]
                 case ByProvider(_) => o.part == Result(call.id, call.name, "executed by provider", false)
                 case Local(_, exec) =>
                   match exec(call, false)
                   case Replied(content) => o.part == Result(call.id, call.name, content, false)
                   case Finishing(content) => o.part == Result(call.id, call.name, content, false)
                   case Erred(message) => o.part == Result(call.id, call.name, message, true)
    ensures o.terminated
       <==> b.denials[i].None? && b.Here(i) && b.tools[b.calls[i].name].exec(b.calls[i], false).Finishing?
  {}

  /** A batch that is not cancelled ends the run exactly if it has a call and every tool is run and hints at the end. */
  lemma TerminatesExactly(b: Batch, ran: seq<nat>, outcomes: seq<Outcome>)
    requires |outcomes| == |b.calls| == |b.denials| && b.hook.None? && forall i: nat | i < |outcomes| :: b.Right(ran, false, i, outcomes[i])
    ensures outcomes != [] && (forall o <- outcomes :: o.terminated)
       <==> b.calls != [] && forall i: nat | i < |b.calls| ::
              b.denials[i].None? && b.Here(i) && b.tools[b.calls[i].name].exec(b.calls[i], false).Finishing?
  {
    forall i: nat | i < |outcomes|
      ensures outcomes[i].terminated <==> b.denials[i].None? && b.Here(i) && b.tools[b.calls[i].name].exec(b.calls[i], false).Finishing?
    {
      PlainAnswers(b, ran, i, outcomes[i]);
    }
    if forall o <- outcomes :: o.terminated {
      forall i: nat | i < |outcomes| ensures outcomes[i].terminated {
        assert outcomes[i] in outcomes;
      }
    }
  }

  /** The hook changes what it says and nothing else, and only of what a tool was run for; a hook that panics makes an error
      of the call. */
  lemma HookSays(hook: (Call, Result) -> Override, call: Call, o: Outcome)
    ensures var h := Hooked(Some(hook), call, o);
            if !o.executed then h == o
            else match hook(call, o.part)
                 case Keep => h == o
                 case Replace(content, isError, terminate) =>
                   && h.part.id == o.part.id && h.part.name == o.part.name
                   && (if content.Some? then Some(h.part.content) == content else h.part.content == o.part.content)
                   && (if isError.Some? then Some(h.part.isError) == isError else h.part.isError == o.part.isError)
                   && (if terminate.Some? then Some(h.terminated) == terminate else h.terminated == o.terminated)
                 case HookPanicked(message) => h.part.id == call.id && h.part.isError && !h.terminated
  {}
}
