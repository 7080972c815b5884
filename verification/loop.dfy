/** A Loop node: the sequential fold of its body over the iterations, with variables that commit once an iteration
    has finished, and a checkpoint inside an iteration (workflow/loop.go, workflow/loop_control.go). */
module Loops {
  import opened Options
  import opened Plans

  datatype Mode = Array | Count | Infinite

  datatype LoopOutput = LoopOutput(name: string, fromBody: bool, port: string)

  datatype Config = Config(mode: Mode, arrays: seq<string>, lifted: seq<string>, variables: set<string>,
                           outputs: seq<LoopOutput>, maxIterations: nat)

  const COUNT := "count"
  const INDEX := "index"

  /** How one run of the body ends. The variables and the break flag are those of its iteration state. */
  datatype Answer = Done(outputs: Ports, variables: Ports, breaks: bool) | Broken(failure: Failure)
                  | Paused(child: Value, variables: Ports, breaks: bool)

  /** The body: a fresh iteration on its inputs and the committed variables, and the continuation of a paused one. */
  datatype Body = Body(start: (Ports, Ports) -> Answer, resume: (Value, Ports, bool, set<string>) -> Answer)

  datatype LoopError = BadInput | OverLimit | BodyFailed(failure: Failure) | Exhausted

  datatype Checkpoint = Checkpoint(iterations: int, index: nat, committed: Ports, aggregated: map<string, seq<Value>>,
                                   iterationState: Ports, shouldBreak: bool, child: Value)

  datatype LoopResult = Output(values: Ports) | Error(error: LoopError) | Suspended(checkpoint: Checkpoint)

  // ---------------------------------------------------------------- The state of one iteration

  class IterationState {
    var variables: Ports
    var shouldBreak: bool

    constructor (variables: Ports, shouldBreak: bool)
      ensures this.variables == variables && this.shouldBreak == shouldBreak
    {
      this.variables, this.shouldBreak := variables, shouldBreak;
    }

    /** `assign`: all of the updates or, when one names no variable, none. */
    method Assign(updates: Ports) returns (ok: bool)
      modifies this`variables
      ensures ok <==> updates.Keys <= old(variables).Keys
      ensures variables.Keys == old(variables).Keys
      ensures forall x <- variables :: variables[x] == if ok && x in updates then updates[x] else old(variables)[x]
    {
      var names := updates.Keys;
      while names != {}
        invariant names <= updates.Keys && updates.Keys - names <= variables.Keys
      {
        var x :| x in names;
        if x !in variables {
          return false;
        }
        names := names - {x};
      }
      variables := variables + updates;
      ok := true;
    }

    method RequestBreak()
      modifies this`shouldBreak
      ensures shouldBreak
    {
      shouldBreak := true;
    }

    /** `runLoopChild`: the body works on this state, also when it pauses. */
    method RunChild(body: Body, inputs: Ports, child: Option<Value>, targets: set<string>) returns (a: Answer)
      modifies this
      ensures a == if child.None? then body.start(inputs, old(variables)) else body.resume(child.value, old(variables), old(shouldBreak), targets)
      ensures !a.Broken? ==> variables == a.variables && shouldBreak == a.breaks
    {
      a := if child.None? then body.start(inputs, variables) else body.resume(child.value, variables, shouldBreak, targets);
      if !a.Broken? {
        variables, shouldBreak := a.variables, a.breaks;
      }
    }
  }

  // ---------------------------------------------------------------- What the body comes to

  /** What an iteration comes to, and what a paused iteration is due to come to, however often it pauses. */
  datatype Course = Course(settled: (Ports, Ports) -> Answer, due: (Value, Ports, bool) -> Answer)

  /** Pausing and resuming do not change what the body comes to. */
  ghost predicate Transparent(body: Body, course: Course) {
    && (forall inputs, variables :: !course.settled(inputs, variables).Paused?)
    && (forall inputs, variables :: Leads(course, body.start(inputs, variables), course.settled(inputs, variables)))
    && (forall child, variables, breaks, targets ::
          Leads(course, body.resume(child, variables, breaks, targets), course.due(child, variables, breaks)))
  }

  ghost predicate Leads(course: Course, a: Answer, settled: Answer) {
    if a.Paused? then course.due(a.child, a.variables, a.breaks) == settled else a == settled
  }

  /** A finished body has its declared outputs and the same variables as before. */
  ghost predicate Declares(config: Config, course: Course) {
    forall inputs, variables :: OutputsDeclared(config, course.settled(inputs, variables), variables)
  }

  ghost predicate OutputsDeclared(config: Config, a: Answer, variables: Ports) {
    a.Done? ==> a.variables.Keys == variables.Keys && forall o <- config.outputs | o.fromBody :: o.port in a.outputs
  }

  /** What `validateLoopConfig` and `loopOutputContract` have settled. */
  ghost predicate Checked(config: Config) {
    && (config.mode.Array? <==> config.arrays != [])
    && (forall i, j | 0 <= i < j < |config.outputs| :: config.outputs[i].name != config.outputs[j].name)
    && (forall o <- config.outputs | !o.fromBody :: o.port in config.variables)
  }

  /** The inputs of a Loop node have been resolved. */
  ghost predicate Supplied(config: Config, values: Ports) {
    && config.variables <= values.Keys
    && (forall name <- config.arrays :: name in values) && (forall name <- config.lifted :: name in values)
    && (config.mode.Count? ==> COUNT in values)
  }

  /** One Loop to run. */
  datatype Job = Job(config: Config, values: Ports, body: Body)

  ghost predicate Ready(x: Job, course: Course) {
    Checked(x.config) && Supplied(x.config, x.values) && Transparent(x.body, course) && Declares(x.config, course)
  }

  // ---------------------------------------------------------------- The inputs of the iterations

  /** `DecodeValue`: a null decodes as zero. */
  function DecodeCount(v: Value): Option<int> {
    match v
    case Number(n) => Some(n)
    case Null => Some(0)
    case _ => None
  }

  /** The shortest of the arrays bounds the iterations. */
  ghost predicate Shortest(values: Ports, arrays: seq<string>, n: int) {
    && (forall name <- arrays :: name in values && DecodeList(values[name]).Some? && n <= |DecodeList(values[name]).value|)
    && exists name <- arrays :: name in values && DecodeList(values[name]).Some? && n == |DecodeList(values[name]).value|
  }

  ghost predicate Undecodable(values: Ports, arrays: seq<string>) {
    exists name <- arrays :: name in values && DecodeList(values[name]).None?
  }

  /** How many iterations the inputs ask for, or why the node refuses them. */
  ghost predicate Asked(x: Job, r: Result) {
    match x.config.mode
    case Array =>
      if Undecodable(x.values, x.config.arrays) then r == Refused(BadInput)
      else exists n: nat :: Shortest(x.values, x.config.arrays, n) && r == Limited(n, x.config.maxIterations)
    case Count =>
      COUNT in x.values
      && if DecodeCount(x.values[COUNT]).None? then r == Refused(BadInput)
         else r == Limited(DecodeCount(x.values[COUNT]).value, x.config.maxIterations)
    case Infinite => r == Granted(x.config.maxIterations)
  }

  datatype Result = Granted(n: int) | Refused(error: LoopError)

  function Limited(n: int, limit: nat): Result {
    if n > limit then Refused(OverLimit) else Granted(n)
  }

  method ShortestArray(values: Ports, arrays: seq<string>) returns (r: Option<nat>)
    requires arrays != [] && forall name <- arrays :: name in values
    ensures r.None? <==> Undecodable(values, arrays)
    ensures r.Some? ==> Shortest(values, arrays, r.value)
  {
    var iterations := -1;
    for i := 0 to |arrays|
      invariant if i == 0 then iterations == -1 else iterations >= 0 && Shortest(values, arrays[..i], iterations)
    {
      assert arrays[i] in arrays && arrays[..i + 1] == arrays[..i] + [arrays[i]];
      var items := DecodeList(values[arrays[i]]);
      if items.None? {
        return None;
      }
      if iterations < 0 || |items.value| < iterations {
        iterations := |items.value|;
      }
    }
    assert arrays[..|arrays|] == arrays;
    return Some(iterations);
  }

  /** `iterationInputs`. */
  method IterationInputs(x: Job) returns (r: Result)
    requires Checked(x.config) && Supplied(x.config, x.values)
    ensures Asked(x, r)
  {
    match x.config.mode {
      case Array =>
        var n := ShortestArray(x.values, x.config.arrays);
        r := if n.None? then Refused(BadInput) else Limited(n.value, x.config.maxIterations);
      case Count =>
        var n := DecodeCount(x.values[COUNT]);
        r := if n.None? then Refused(BadInput) else Limited(n.value, x.config.maxIterations);
      case Infinite =>
        r := Granted(x.config.maxIterations);
    }
  }

  /** The inputs of the body in iteration `k`: its index, the `k`-th item of each array, and the lifted inputs. */
  function BodyInputs(x: Job, k: nat): Ports {
    WithArrays(x, k, x.config.arrays) + Picked(x.values, x.config.lifted)
  }

  function Picked(values: Ports, names: seq<string>): Ports {
    map name | name in values && name in names :: values[name]
  }

  // ---------------------------------------------------------------- The fold

  /** The variables after `k` iterations: the body folded `k` times over the initial ones. */
  ghost function Committed(x: Job, course: Course, k: nat): Ports
    decreases k, 0
  {
    if k == 0 then Initial(x) else if At(x, course, k - 1).Done? then At(x, course, k - 1).variables else Committed(x, course, k - 1)
  }

  /** What iteration `k` comes to, on what the iterations before it have committed. */
  ghost function At(x: Job, course: Course, k: nat): Answer
    decreases k, 1
  {
    course.settled(BodyInputs(x, k), Committed(x, course, k))
  }

  function Initial(x: Job): Ports {
    map name | name in x.config.variables && name in x.values :: x.values[name]
  }

  /** The outputs of the first `k` iterations on one port, in their order. */
  ghost predicate IsAggregate(x: Job, course: Course, k: nat, port: string, items: seq<Value>) {
    && |items| == k
    && forall j: nat | j < k :: At(x, course, j).Done? && port in At(x, course, j).outputs && items[j] == At(x, course, j).outputs[port]
  }

  ghost predicate Aggregates(x: Job, course: Course, k: nat, aggregated: map<string, seq<Value>>) {
    && (forall name :: name in aggregated <==> exists o <- x.config.outputs :: o.fromBody && o.name == name)
    && (forall o <- x.config.outputs | o.fromBody :: o.name in aggregated && IsAggregate(x, course, k, o.port, aggregated[o.name]))
  }

  /** The first `k` iterations have been committed and none of them has asked to break. */
  ghost predicate Through(x: Job, course: Course, k: nat) {
    forall j: nat | j < k :: At(x, course, j).Done? && !At(x, course, j).breaks
  }

  /** The outputs after `m` iterations. */
  ghost predicate OutputsAfter(x: Job, course: Course, m: nat, values: Ports) {
    && (forall name :: name in values <==> exists o <- x.config.outputs :: o.name == name)
    && (forall o <- x.config.outputs :: o.name in values && OutputAfter(x, course, m, o, values[o.name]))
  }

  ghost predicate OutputAfter(x: Job, course: Course, m: nat, o: LoopOutput, v: Value) {
    if o.fromBody then v.List? && IsAggregate(x, course, m, o.port, v.items)
    else o.port in Committed(x, course, m) && v == Committed(x, course, m)[o.port]
  }

  /** The loop is over after `m` of `n` iterations: the last one breaks, or there are no more. */
  ghost predicate OverAfter(x: Job, course: Course, n: int, m: nat) {
    || (m > 0 && m <= n && Through(x, course, m - 1) && At(x, course, m - 1).Done? && At(x, course, m - 1).breaks)
    || (Through(x, course, m) && !x.config.mode.Infinite? && m == if n > 0 then n else 0)
  }

  /** What a Loop node may end with, when its inputs ask for these iterations. */
  ghost predicate EndsOn(x: Job, course: Course, asked: Result, r: LoopResult) {
    match r
    case Output(values) => asked.Granted? && exists m: nat :: OverAfter(x, course, asked.n, m) && OutputsAfter(x, course, m, values)
    case Error(BodyFailed(failure)) =>
      asked.Granted? && exists m: nat :: m < asked.n && Through(x, course, m) && At(x, course, m) == Broken(failure)
    case Error(Exhausted) => asked.Granted? && asked.n >= 0 && x.config.mode.Infinite? && Through(x, course, asked.n)
    case Error(error) => asked == Refused(error)
    case Suspended(_) => false
  }

  ghost predicate EndsWith(x: Job, course: Course, r: LoopResult) {
    exists asked :: Asked(x, asked) && EndsOn(x, course, asked, r)
  }

  // ---------------------------------------------------------------- What is asked for, and what the body is given

  /** A Loop that counts runs as often as the number says, a null being none, and refuses what is no number or is above the
      limit. */
  lemma CountAsked(x: Job, n: int)
    requires x.config.mode.Count? && COUNT in x.values
    ensures var v := x.values[COUNT];
            && (Asked(x, Granted(n)) <==> n <= x.config.maxIterations && (v == Number(n) || (v.Null? && n == 0)))
            && (Asked(x, Refused(OverLimit)) <==> v.Number? && v.n > x.config.maxIterations)
            && (Asked(x, Refused(BadInput)) <==> !v.Number? && !v.Null?)
  {}

  ghost predicate LongAtLeast(v: Value, n: nat) {
    (v.Null? && n == 0) || (v.List? && n <= |v.items|)
  }

  /** A Loop over arrays runs over the items that all of them have, a null being an empty array. */
  lemma ArrayAsked(x: Job, n: nat)
    requires x.config.mode.Array? && x.config.arrays != [] && forall name <- x.config.arrays :: name in x.values
    ensures Asked(x, Granted(n))
       <==> && n <= x.config.maxIterations && (forall name <- x.config.arrays :: LongAtLeast(x.values[name], n))
            && exists name <- x.config.arrays :: !LongAtLeast(x.values[name], n + 1)
  {
    if Undecodable(x.values, x.config.arrays) {
      var name :| name in x.config.arrays && name in x.values && DecodeList(x.values[name]).None?;
      assert !LongAtLeast(x.values[name], n);
    } else {
      ShortestExactly(x, n);
      if Asked(x, Granted(n)) {
        var m: nat :| Shortest(x.values, x.config.arrays, m) && Granted(n) == Limited(m, x.config.maxIterations);
        assert m == n;
      } else {
        assert !(Shortest(x.values, x.config.arrays, n) && Granted(n) == Limited(n, x.config.maxIterations));
      }
    }
  }

  lemma ShortestExactly(x: Job, m: nat)
    requires !Undecodable(x.values, x.config.arrays) && forall name <- x.config.arrays :: name in x.values
    ensures Shortest(x.values, x.config.arrays, m)
       <==> (forall name <- x.config.arrays :: LongAtLeast(x.values[name], m))
            && exists name <- x.config.arrays :: !LongAtLeast(x.values[name], m + 1)
  {
    forall name <- x.config.arrays
      ensures DecodeList(x.values[name]).Some? && (LongAtLeast(x.values[name], m) <==> m <= |DecodeList(x.values[name]).value|)
    {}
  }

  /** Iteration `k` is given its index, the item at that index of each array, and the lifted inputs, which come last. */
  lemma BodyGiven(x: Job, n: int, k: nat, name: string)
    requires Checked(x.config) && Supplied(x.config, x.values) && Asked(x, Granted(n)) && k < n
    ensures name in BodyInputs(x, k) <==> name == INDEX || name in x.config.arrays || name in x.config.lifted
    ensures name in x.config.lifted ==> BodyInputs(x, k)[name] == x.values[name]
    ensures name in x.config.arrays && name !in x.config.lifted ==>
              x.values[name].List? && k < |x.values[name].items| && BodyInputs(x, k)[name] == x.values[name].items[k]
    ensures name == INDEX && name !in x.config.arrays && name !in x.config.lifted ==> BodyInputs(x, k)[name] == Number(k)
  {
    if name in x.config.arrays {
      LongEnough(x, n, name);
    }
  }

  /** The fold starts from the values of the variables, and of nothing else. */
  lemma StartsFrom(x: Job, course: Course, name: string)
    requires x.config.variables <= x.values.Keys
    ensures name in Committed(x, course, 0) <==> name in x.config.variables
    ensures name in x.config.variables ==> Committed(x, course, 0)[name] == x.values[name]
  {}

  // ---------------------------------------------------------------- The loop

  lemma LongEnough(x: Job, n: int, name: string)
    requires Asked(x, Granted(n)) && name in x.config.arrays && name in x.values && x.config.mode.Array?
    ensures DecodeList(x.values[name]).Some? && n <= |DecodeList(x.values[name]).value|
  {
    assert Undecodable(x.values, x.config.arrays) ==> !Asked(x, Granted(n));
    var m: nat :| Shortest(x.values, x.config.arrays, m) && Granted(n) == Limited(m, x.config.maxIterations);
  }

  /** The index, and the `k`-th item of each of the arrays. */
  function WithArrays(x: Job, k: nat, arrays: seq<string>): Ports {
    map name | name in {INDEX} + Set(arrays) :: ItemOf(x, k, name, arrays)
  }

  function ItemOf(x: Job, k: nat, name: string, arrays: seq<string>): Value {
    if name in arrays && name in x.values then
      var items := DecodeList(x.values[name]);
      if items.Some? && k < |items.value| then items.value[k] else Null
    else Number(k)
  }

  function Set(names: seq<string>): set<string> {
    set name | name in names
  }

  method ArrayInputs(x: Job, n: int, k: nat) returns (inputs: Ports)
    requires Checked(x.config) && Supplied(x.config, x.values) && Asked(x, Granted(n)) && k < n
    ensures inputs == WithArrays(x, k, x.config.arrays)
  {
    var arrays := x.config.arrays;
    inputs := map[INDEX := Number(k)];
    for i := 0 to |arrays|
      invariant inputs == WithArrays(x, k, arrays[..i])
    {
      var name := arrays[i];
      assert name in arrays && arrays[..i + 1] == arrays[..i] + [name];
      LongEnough(x, n, name);
      inputs := inputs[name := DecodeList(x.values[name]).value[k]];
      assert inputs.Keys == WithArrays(x, k, arrays[..i + 1]).Keys;
    }
    assert arrays[..|arrays|] == arrays;
  }

  method LiftedInputs(values: Ports, lifted: seq<string>, items: Ports) returns (inputs: Ports)
    requires forall name <- lifted :: name in values
    ensures inputs == items + Picked(values, lifted)
  {
    inputs := items;
    for i := 0 to |lifted|
      invariant inputs == items + Picked(values, lifted[..i])
    {
      var name := lifted[i];
      assert name in lifted && lifted[..i + 1] == lifted[..i] + [name];
      assert Picked(values, lifted[..i + 1]) == Picked(values, lifted[..i])[name := values[name]];
      inputs := inputs[name := values[name]];
    }
    assert lifted[..|lifted|] == lifted;
  }

  /** `bodyInputs`: lifted inputs are written last. */
  method MakeBodyInputs(x: Job, n: int, k: nat) returns (inputs: Ports)
    requires Checked(x.config) && Supplied(x.config, x.values) && Asked(x, Granted(n)) && k < n
    ensures inputs == BodyInputs(x, k)
  {
    inputs := ArrayInputs(x, n, k);
    inputs := LiftedInputs(x.values, x.config.lifted, inputs);
  }

  /** A checkpoint taken inside an iteration: all before it is committed, and the iteration is due as it would have been. */
  ghost predicate Resumable(x: Job, course: Course, ck: Checkpoint) {
    && Asked(x, Granted(ck.iterations)) && ck.index < ck.iterations
    && Through(x, course, ck.index) && ck.committed == Committed(x, course, ck.index)
    && Aggregates(x, course, ck.index, ck.aggregated)
    && course.due(ck.child, ck.iterationState, ck.shouldBreak) == At(x, course, ck.index)
  }

  method EmptyAggregates(outputs: seq<LoopOutput>) returns (aggregated: map<string, seq<Value>>)
    ensures forall name :: name in aggregated <==> exists o <- outputs :: o.fromBody && o.name == name
    ensures forall name <- aggregated :: aggregated[name] == []
  {
    aggregated := map[];
    for i := 0 to |outputs|
      invariant forall name :: name in aggregated <==> exists o <- outputs[..i] :: o.fromBody && o.name == name
      invariant forall name <- aggregated :: aggregated[name] == []
    {
      assert outputs[..i + 1] == outputs[..i] + [outputs[i]];
      if outputs[i].fromBody {
        aggregated := aggregated[outputs[i].name := []];
      }
    }
    assert outputs[..|outputs|] == outputs;
  }

  /** `appendLoopOutputs`: each aggregate grows by this iteration's output on its port. */
  method AppendLoopOutputs(outputs: seq<LoopOutput>, aggregated: map<string, seq<Value>>, values: Ports) returns (aggregated': map<string, seq<Value>>)
    requires forall i, j | 0 <= i < j < |outputs| :: outputs[i].name != outputs[j].name
    requires forall o <- outputs | o.fromBody :: o.name in aggregated && o.port in values
    ensures aggregated'.Keys == aggregated.Keys
    ensures forall o <- outputs | o.fromBody :: aggregated'[o.name] == aggregated[o.name] + [values[o.port]]
  {
    aggregated' := aggregated;
    for i := 0 to |outputs|
      invariant aggregated'.Keys == aggregated.Keys
      invariant forall j | 0 <= j < i && outputs[j].fromBody :: aggregated'[outputs[j].name] == aggregated[outputs[j].name] + [values[outputs[j].port]]
      invariant forall j | i <= j < |outputs| && outputs[j].fromBody :: aggregated'[outputs[j].name] == aggregated[outputs[j].name]
    {
      var o := outputs[i];
      assert o in outputs;
      if o.fromBody {
        aggregated' := aggregated'[o.name := aggregated'[o.name] + [values[o.port]]];
      }
    }
  }

  lemma AggregatesGrow(x: Job, course: Course, k: nat, aggregated: map<string, seq<Value>>, aggregated': map<string, seq<Value>>)
    requires Aggregates(x, course, k, aggregated) && At(x, course, k).Done?
    requires aggregated'.Keys == aggregated.Keys
    requires forall o <- x.config.outputs | o.fromBody :: o.port in At(x, course, k).outputs
    requires forall o <- x.config.outputs | o.fromBody :: aggregated'[o.name] == aggregated[o.name] + [At(x, course, k).outputs[o.port]]
    ensures Aggregates(x, course, k + 1, aggregated')
  {
    forall o <- x.config.outputs | o.fromBody ensures o.name in aggregated' && IsAggregate(x, course, k + 1, o.port, aggregated'[o.name]) {
      assert IsAggregate(x, course, k, o.port, aggregated[o.name]);
    }
  }

  function OutputNames(outputs: seq<LoopOutput>): set<string> {
    set o | o in outputs :: o.name
  }

  function OutputValue(o: LoopOutput, committed: Ports, aggregated: map<string, seq<Value>>): Value {
    if o.fromBody && o.name in aggregated then List(aggregated[o.name])
    else if !o.fromBody && o.port in committed then committed[o.port]
    else Null
  }

  /** `output`: every declared output, from an aggregate or from a variable. */
  method MakeOutput(outputs: seq<LoopOutput>, committed: Ports, aggregated: map<string, seq<Value>>) returns (values: Ports)
    requires forall i, j | 0 <= i < j < |outputs| :: outputs[i].name != outputs[j].name
    requires forall o <- outputs :: if o.fromBody then o.name in aggregated else o.port in committed
    ensures values.Keys == OutputNames(outputs)
    ensures forall o <- outputs :: values[o.name] == OutputValue(o, committed, aggregated)
  {
    values := map[];
    for i := 0 to |outputs|
      invariant values.Keys == OutputNames(outputs[..i])
      invariant forall j | 0 <= j < i :: values[outputs[j].name] == OutputValue(outputs[j], committed, aggregated)
    {
      var o := outputs[i];
      assert o in outputs && outputs[..i + 1] == outputs[..i] + [o];
      assert OutputNames(outputs[..i + 1]) == OutputNames(outputs[..i]) + {o.name};
      values := values[o.name := if o.fromBody then List(aggregated[o.name]) else committed[o.port]];
    }
    assert outputs[..|outputs|] == outputs;
  }

  lemma OutputMade(x: Job, course: Course, m: nat, committed: Ports, aggregated: map<string, seq<Value>>, values: Ports)
    requires Checked(x.config) && x.config.variables <= committed.Keys
    requires committed == Committed(x, course, m) && Aggregates(x, course, m, aggregated)
    requires values.Keys == OutputNames(x.config.outputs)
    requires forall o <- x.config.outputs :: values[o.name] == OutputValue(o, committed, aggregated)
    ensures OutputsAfter(x, course, m, values)
  {
    forall o <- x.config.outputs ensures OutputAfter(x, course, m, o, values[o.name]) {
      if o.fromBody {
        assert IsAggregate(x, course, m, o.port, aggregated[o.name]);
      }
    }
  }

  /** The loop is over after `m` iterations. */
  method Conclude(x: Job, ghost course: Course, n: int, ghost m: nat, committed: Ports, aggregated: map<string, seq<Value>>) returns (r: LoopResult)
    requires Ready(x, course) && Asked(x, Granted(n)) && OverAfter(x, course, n, m)
    requires committed == Committed(x, course, m) && committed.Keys == x.config.variables && Aggregates(x, course, m, aggregated)
    ensures r.Output? && EndsWith(x, course, r)
  {
    var values := MakeOutput(x.config.outputs, committed, aggregated);
    OutputMade(x, course, m, committed, aggregated, values);
    r := Output(values);
  }

  lemma {:induction false} VariablesKept(x: Job, course: Course, k: nat)
    requires Ready(x, course) && Through(x, course, k)
    ensures Committed(x, course, k).Keys == x.config.variables
    decreases k
  {
    if k > 0 {
      VariablesKept(x, course, k - 1);
      assert OutputsDeclared(x.config, At(x, course, k - 1), Committed(x, course, k - 1));
    }
  }

  /** How the loop stands when iteration `k` begins: what it holds, and what a resumed first iteration brings along. */
  ghost predicate Stands(x: Job, course: Course, k: nat, committed: Ports, aggregated: map<string, seq<Value>>, resumed: Option<Checkpoint>) {
    && Through(x, course, k) && committed == Committed(x, course, k) && Aggregates(x, course, k, aggregated)
    && (resumed.Some? ==> resumed.value.index == k && Resumable(x, course, resumed.value))
  }

  /** What the body answers in iteration `k`: from its inputs and the committed variables, or from where it paused. */
  ghost function Ran(x: Job, course: Course, k: nat, resumed: Option<Checkpoint>, targets: set<string>): Answer {
    match resumed
    case None => x.body.start(BodyInputs(x, k), Committed(x, course, k))
    case Some(ck) => x.body.resume(ck.child, ck.iterationState, ck.shouldBreak, targets)
  }

  /** A Loop pauses only because its body has just paused, in the iteration it was resumed in or a later one, and keeps
      what the body left. */
  ghost predicate PausedNow(x: Job, course: Course, resume: Option<Checkpoint>, targets: set<string>, ck: Checkpoint) {
    && (resume.Some? ==> ck.index >= resume.value.index)
    && Ran(x, course, ck.index, if resume.Some? && ck.index == resume.value.index then resume else None, targets)
       == Answer.Paused(ck.child, ck.iterationState, ck.shouldBreak)
  }

  /** One iteration: what it comes to, or where it pauses. */
  method Iterate(x: Job, ghost course: Course, n: int, k: nat, committed: Ports, ghost aggregated: map<string, seq<Value>>,
                 resumed: Option<Checkpoint>, targets: set<string>) returns (a: Answer)
    requires Ready(x, course) && Asked(x, Granted(n)) && k < n && Stands(x, course, k, committed, aggregated, resumed)
    ensures Leads(course, a, At(x, course, k)) && a == Ran(x, course, k, resumed, targets)
  {
    var inputs := MakeBodyInputs(x, n, k);
    var state;
    if resumed.None? {
      state := new IterationState(committed, false);
    } else {
      state := new IterationState(resumed.value.iterationState, resumed.value.shouldBreak);
    }
    a := state.RunChild(x.body, inputs, if resumed.None? then None else Some(resumed.value.child), targets);
  }

  /** A finished iteration commits: its variables become the committed ones, its outputs join the aggregates. */
  method Commit(x: Job, ghost course: Course, k: nat, ghost committed: Ports, aggregated: map<string, seq<Value>>, a: Answer)
      returns (committed': Ports, aggregated': map<string, seq<Value>>)
    requires Ready(x, course) && Stands(x, course, k, committed, aggregated, None)
    requires a.Done? && a == At(x, course, k)
    ensures committed' == Committed(x, course, k + 1) && committed'.Keys == x.config.variables
    ensures Aggregates(x, course, k + 1, aggregated')
  {
    VariablesKept(x, course, k);
    assert OutputsDeclared(x.config, At(x, course, k), Committed(x, course, k));
    aggregated' := AppendLoopOutputs(x.config.outputs, aggregated, a.outputs);
    AggregatesGrow(x, course, k, aggregated, aggregated');
    committed' := a.variables;
  }

  /** `initialLoopState`. */
  method Begin(x: Job, ghost course: Course, n: int, resume: Option<Checkpoint>) returns (committed: Ports, aggregated: map<string, seq<Value>>, index: nat)
    requires Ready(x, course) && Asked(x, Granted(n)) && (resume.Some? ==> Resumable(x, course, resume.value))
    ensures Stands(x, course, index, committed, aggregated, resume) && committed.Keys == x.config.variables
    ensures index == if resume.None? then 0 else resume.value.index
  {
    if resume.None? {
      committed, index := Initial(x), 0;
      aggregated := EmptyAggregates(x.config.outputs);
    } else {
      committed, aggregated, index := resume.value.committed, resume.value.aggregated, resume.value.index;
    }
    VariablesKept(x, course, index);
  }

  /** `compiledLoop.Invoke`, of a new Loop or one resumed from its checkpoint: it ends as the fold says, or pauses
      inside an iteration, because the body does, with a checkpoint from which it will. */
  method Invoke(x: Job, ghost course: Course, resume: Option<Checkpoint>, targets: set<string>) returns (r: LoopResult)
    requires Ready(x, course) && (resume.Some? ==> Resumable(x, course, resume.value))
    ensures if r.Suspended? then Resumable(x, course, r.checkpoint) else EndsWith(x, course, r)
    ensures r.Suspended? ==> PausedNow(x, course, resume, targets, r.checkpoint)
  {
    var asked := IterationInputs(x);
    if asked.Refused? {
      return Error(asked.error);
    }
    r := Iterations(x, course, asked.n, resume, targets);
  }

  method Iterations(x: Job, ghost course: Course, n: int, resume: Option<Checkpoint>, targets: set<string>) returns (r: LoopResult)
    requires Ready(x, course) && Asked(x, Granted(n)) && (resume.Some? ==> Resumable(x, course, resume.value))
    ensures if r.Suspended? then Resumable(x, course, r.checkpoint) else EndsWith(x, course, r)
    ensures r.Suspended? ==> PausedNow(x, course, resume, targets, r.checkpoint)
  {
    var committed, aggregated, index := Begin(x, course, n, resume);
    var resumed := resume;
    while index < n
      invariant Stands(x, course, index, committed, aggregated, resumed) && committed.Keys == x.config.variables
      invariant index == 0 || index <= n
      invariant if resume.Some? && index == resume.value.index then resumed == resume else resumed.None?
      invariant resume.Some? ==> index >= resume.value.index
      decreases n - index
    {
      var a := Iterate(x, course, n, index, committed, aggregated, resumed, targets);
      resumed := None;
      if !a.Done? {
        r := Interrupted(x, course, n, index, committed, aggregated, a);
        return;
      }
      committed, aggregated := Commit(x, course, index, committed, aggregated, a);
      index := index + 1;
      if a.breaks {
        r := Conclude(x, course, n, index, committed, aggregated);
        return;
      }
    }
    r := RunOut(x, course, n, index, committed, aggregated);
  }

  /** No iteration is left. */
  method RunOut(x: Job, ghost course: Course, n: int, ghost m: nat, committed: Ports, aggregated: map<string, seq<Value>>) returns (r: LoopResult)
    requires Ready(x, course) && Asked(x, Granted(n)) && Stands(x, course, m, committed, aggregated, None)
    requires m >= n && (m == 0 || m <= n) && committed.Keys == x.config.variables
    ensures !r.Suspended? && EndsWith(x, course, r)
  {
    if x.config.mode.Infinite? {
      return Error(Exhausted);
    }
    r := Conclude(x, course, n, m, committed, aggregated);
  }

  /** `loopIterationError`: a failed iteration ends the loop, a paused one is saved with what came before it. */
  method Interrupted(x: Job, ghost course: Course, n: int, index: nat, committed: Ports, aggregated: map<string, seq<Value>>, a: Answer)
      returns (r: LoopResult)
    requires Ready(x, course) && Asked(x, Granted(n)) && index < n && Stands(x, course, index, committed, aggregated, None)
    requires !a.Done? && Leads(course, a, At(x, course, index))
    ensures r.Suspended? <==> a.Paused?
    ensures r.Suspended? ==> r.checkpoint.index == index && a == Answer.Paused(r.checkpoint.child, r.checkpoint.iterationState, r.checkpoint.shouldBreak)
    ensures if r.Suspended? then Resumable(x, course, r.checkpoint) else EndsWith(x, course, r)
  {
    if a.Paused? {
      return Suspended(Checkpoint(n, index, committed, aggregated, a.variables, a.breaks, a.child));
    }
    r := Error(BodyFailed(a.failure));
    assert EndsWith(x, course, r) by {
      assert Asked(x, Granted(n)) && Through(x, course, index);
    }
  }

  // ---------------------------------------------------------------- Pausing makes no difference

  lemma AskedOnce(x: Job, r: Result, r': Result)
    requires Asked(x, r) && Asked(x, r')
    ensures r == r'
  {
    if x.config.mode.Array? && !Undecodable(x.values, x.config.arrays) {
      var n: nat :| Shortest(x.values, x.config.arrays, n) && r == Limited(n, x.config.maxIterations);
      var m: nat :| Shortest(x.values, x.config.arrays, m) && r' == Limited(m, x.config.maxIterations);
    }
  }

  lemma OverOnce(x: Job, course: Course, n: int, m: nat, m': nat)
    requires OverAfter(x, course, n, m) && OverAfter(x, course, n, m')
    ensures m == m'
  {
  }

  lemma AggregateOnce(x: Job, course: Course, m: nat, port: string, items: seq<Value>, items': seq<Value>)
    requires IsAggregate(x, course, m, port, items) && IsAggregate(x, course, m, port, items')
    ensures items == items'
  {}

  lemma OutputsOnce(x: Job, course: Course, m: nat, values: Ports, values': Ports)
    requires OutputsAfter(x, course, m, values) && OutputsAfter(x, course, m, values')
    ensures values == values'
  {
    forall name | name in values || name in values' ensures name in values && name in values' && values[name] == values'[name] {
      var o :| o in x.config.outputs && o.name == name;
      assert OutputAfter(x, course, m, o, values[name]) && OutputAfter(x, course, m, o, values'[name]);
      if o.fromBody {
        AggregateOnce(x, course, m, o.port, values[name].items, values'[name].items);
      }
    }
  }

  /** How far a loop gets before it ends, and how. */
  ghost predicate EndsAt(x: Job, course: Course, n: int, m: nat, r: LoopResult) {
    match r
    case Output(values) => OverAfter(x, course, n, m) && OutputsAfter(x, course, m, values)
    case Error(BodyFailed(failure)) => m < n && Through(x, course, m) && At(x, course, m) == Broken(failure)
    case Error(Exhausted) => m == n && x.config.mode.Infinite? && Through(x, course, m)
    case _ => false
  }

  lemma EndsSomewhere(x: Job, course: Course, n: int, r: LoopResult) returns (m: nat)
    requires EndsWith(x, course, r) && Asked(x, Granted(n))
    ensures EndsAt(x, course, n, m, r)
  {
    var asked :| Asked(x, asked) && EndsOn(x, course, asked, r);
    AskedOnce(x, asked, Granted(n));
    m := 0;
    match r {
      case Output(values) => m :| OverAfter(x, course, n, m) && OutputsAfter(x, course, m, values);
      case Error(BodyFailed(failure)) => m :| m < n && Through(x, course, m) && At(x, course, m) == Broken(failure);
      case Error(Exhausted) => m := n;
      case _ =>
    }
  }

  /** Every iteration before the last one has been committed. */
  lemma DoneBefore(x: Job, course: Course, n: int, m: nat, r: LoopResult)
    requires EndsAt(x, course, n, m, r)
    ensures forall j: nat | j < m :: At(x, course, j).Done?
  {}

  lemma EndsAtOnce(x: Job, course: Course, n: int, m: nat, r: LoopResult, m': nat, r': LoopResult)
    requires EndsAt(x, course, n, m, r) && EndsAt(x, course, n, m', r')
    ensures r == r'
  {
    DoneBefore(x, course, n, m, r);
    DoneBefore(x, course, n, m', r');
    if r.Output? && r'.Output? {
      OverOnce(x, course, n, m, m');
      OutputsOnce(x, course, m, r.values, r'.values);
    }
  }

  /** A Loop ends in one way only. So a Loop that is paused inside its iterations and resumed, any number of times,
      ends exactly as one that is never paused. */
  lemma EndsOnce(x: Job, course: Course, r: LoopResult, r': LoopResult)
    requires EndsWith(x, course, r) && EndsWith(x, course, r')
    ensures r == r'
  {
    var asked :| Asked(x, asked);
    if asked.Granted? {
      var m := EndsSomewhere(x, course, asked.n, r);
      var m' := EndsSomewhere(x, course, asked.n, r');
      EndsAtOnce(x, course, asked.n, m, r, m', r');
    } else {
      RefusedOnce(x, course, asked.error, r);
      RefusedOnce(x, course, asked.error, r');
    }
  }

  lemma RefusedOnce(x: Job, course: Course, error: LoopError, r: LoopResult)
    requires EndsWith(x, course, r) && Asked(x, Refused(error))
    ensures r == Error(error)
  {
    forall asked | Asked(x, asked) ensures asked == Refused(error) {
      AskedOnce(x, asked, Refused(error));
    }
  }

  /** A Loop resumed once for each set of targets, as long as it is suspended. */
  method InvokeAndResume(x: Job, ghost course: Course, resumes: seq<set<string>>) returns (r: LoopResult)
    requires Ready(x, course)
    ensures if r.Suspended? then Resumable(x, course, r.checkpoint) else EndsWith(x, course, r)
  {
    r := Invoke(x, course, None, {});
    for i := 0 to |resumes|
      invariant if r.Suspended? then Resumable(x, course, r.checkpoint) else EndsWith(x, course, r)
    {
      if r.Suspended? {
        r := Invoke(x, course, Some(r.checkpoint), resumes[i]);
      }
    }
  }

  /** An infinite Loop fails with the iteration limit exactly when no iteration up to the limit fails or breaks. */
  lemma ExhaustedWhen(x: Job, course: Course, r: LoopResult)
    requires Ready(x, course) && x.config.mode.Infinite? && EndsWith(x, course, r)
    ensures r == Error(Exhausted) <==> Through(x, course, x.config.maxIterations)
  {
    var n := x.config.maxIterations;
    assert Asked(x, Granted(n));
    var m := EndsSomewhere(x, course, n, r);
    if Through(x, course, n) {
      assert EndsAt(x, course, n, n, Error(Exhausted));
      EndsAtOnce(x, course, n, m, r, n, Error(Exhausted));
    }
  }

  /** What `validateLoopCheckpointShape` and `validateLoopCheckpointAggregates` check of a saved Loop. */
  ghost predicate LoopLoads(x: Job, ck: Checkpoint) {
    && Asked(x, Granted(ck.iterations)) && ck.index < ck.iterations
    && ck.committed.Keys == x.config.variables
    && ck.aggregated.Keys == OutputNames(BodyOutputs(x.config.outputs))
    && forall name <- ck.aggregated :: |ck.aggregated[name]| <= ck.index
  }

  function BodyOutputs(outputs: seq<LoopOutput>): (r: seq<LoopOutput>)
    ensures forall o :: o in r <==> o in outputs && o.fromBody
  {
    if outputs == [] then [] else (if outputs[0].fromBody then [outputs[0]] else []) + BodyOutputs(outputs[1..])
  }

  /** A checkpoint a Loop saves passes the checks on loading it, and each of its aggregates is as long as its index. */
  lemma SavedLoopLoads(x: Job, course: Course, ck: Checkpoint)
    requires Ready(x, course) && Resumable(x, course, ck)
    ensures LoopLoads(x, ck)
    ensures forall name <- ck.aggregated :: |ck.aggregated[name]| == ck.index
  {
    VariablesKept(x, course, ck.index);
    forall name <- ck.aggregated ensures |ck.aggregated[name]| == ck.index {
      var o :| o in x.config.outputs && o.fromBody && o.name == name;
      assert IsAggregate(x, course, ck.index, o.port, ck.aggregated[name]);
    }
  }
}
