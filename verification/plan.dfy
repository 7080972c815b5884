/** Values, schemas, bindings and nodes: the parts of a compiled plan the scheduler runs on
    (workflow/value.go, workflow/definition.go, workflow/node.go, workflow/compiler.go). */
module Plans {
  import opened Options
  import opened Graphs

  datatype Value = Null | Bool(b: bool) | Number(n: int) | Text(s: string)
                 | List(items: seq<Value>) | Object(fields: map<string, Value>)

  type Ports = map<string, Value>

  /** `Value.Lookup`: object keys and decimal array indexes, absent when a segment does not apply. */
  function Lookup(v: Value, path: seq<string>): Option<Value>
    decreases |path|
  {
    if path == [] then Some(v)
    else
      match v
      case Object(fields) => if path[0] in fields then Lookup(fields[path[0]], path[1..]) else None
      case List(items) =>
        var i := ParseIndex(path[0]);
        if i.Some? && 0 <= i.value < |items| then Lookup(items[i.value], path[1..]) else None
      case _ => None
  }

  /** `strconv.Atoi`: an optional sign and at least one decimal digit. */
  function ParseIndex(s: string): Option<int> {
    if s != [] && s[0] == '-' then
      var r := ParseDigits(s[1..]);
      if r.Some? then Some(-r.value) else None
    else if s != [] && s[0] == '+' then ParseDigits(s[1..])
    else ParseDigits(s)
  }

  function ParseDigits(s: string): Option<int> {
    if s == [] then None
    else
      var last := s[|s| - 1];
      if !('0' <= last <= '9') then None
      else
        var digit := last as int - '0' as int;
        if |s| == 1 then Some(digit)
        else
          var front := ParseDigits(s[..|s| - 1]);
          if front.Some? then Some(10 * front.value + digit) else None
  }

  /** `DecodeValue`: a null decodes as an empty list. */
  function DecodeList(v: Value): Option<seq<Value>> {
    match v
    case List(items) => Some(items)
    case Null => Some([])
    case _ => None
  }

  /** The schema `true` accepts every value; any other schema is known by its identity. */
  datatype Schema = Anything | Declared(id: nat)

  datatype Source = Literal(value: Value) | WorkflowInput(port: string) | NodeOutput(node: nat, port: string)
                  | NodeError(node: nat, port: string) | LoopVariable(port: string)

  datatype Binding = Binding(source: Source, path: seq<string>)

  datatype ErrorPolicy = Stop | RouteError | ContinueWithDefault

  /** SetVariable assigns each target variable the value of one of the node's inputs. */
  datatype Kind = Ordinary | Merge(exclusive: bool, second: bool) | SetVariable(assignments: map<string, string>)

  datatype Node = Node(kind: Kind, policy: ErrorPolicy, defaults: Ports, inputs: map<string, Schema>,
                       outputs: map<string, Schema>, routes: seq<string>, bindings: map<string, Binding>,
                       maxAttempts: int)

  datatype Plan = Plan(graph: Graph, nodes: seq<Node>, inputs: map<string, Schema>, variables: Option<map<string, Schema>>,
                       maxConcurrency: int, before: set<nat>, after: set<nat>)

  const SUCCESS := "success"
  const ERROR := "error"
  const ERROR_MESSAGE := "error_message"
  const ERROR_TYPE := "error_type"

  /** The schemas of the two error ports: a string, and the name of a failure kind. */
  const MESSAGE_SCHEMA := Declared(0)
  const TYPE_SCHEMA := Declared(1)

  datatype FailureKind = Errored | TimedOut | Panicked | Canceled | Limited

  datatype Failure = Failure(kind: FailureKind, message: string)

  /** An outstanding dynamic interruption. */
  datatype Point = Point(id: string, info: Value)

  datatype Attempt = Succeed(values: Ports, route: string) | Fail(failure: Failure) | Interrupt(points: seq<Point>)

  /** User code and schemas: what the plan's host supplies. `invoke` is the answer of one attempt at a node,
      `resume` that of an attempt that continues after interruptions, some of them now answered, and `owner`
      the node an interruption identifier was made for. */
  datatype World = World(accepts: (nat, Value) -> bool,
                         project: (nat, seq<string>) -> Option<Schema>,
                         invoke: (nat, nat, Ports) -> Attempt,
                         resume: (nat, nat, Ports, seq<Point>, set<string>) -> Attempt,
                         owner: string -> nat)

  predicate Accepts(w: World, schema: Schema, v: Value) {
    schema.Anything? || w.accepts(schema.id, v)
  }

  /** The error-port schemas accept what `newNodeFailureData` builds. */
  ghost predicate KnowsErrorPorts(w: World) {
    && (forall text: string :: Accepts(w, MESSAGE_SCHEMA, Text(text)))
    && (forall kind: FailureKind :: Accepts(w, TYPE_SCHEMA, Text(KindName(kind))))
  }

  /** `validatePortValues`: exactly the declared ports, each accepted by its schema. */
  predicate PortsValid(w: World, values: Ports, schemas: map<string, Schema>) {
    values.Keys == schemas.Keys && forall name <- schemas :: Accepts(w, schemas[name], values[name])
  }

  function KindName(kind: FailureKind): string {
    match kind
    case Errored => "error"
    case TimedOut => "timeout"
    case Panicked => "panic"
    case Canceled => "canceled"
    case Limited => "limit"
  }

  /** `newNodeFailureData`. */
  function FailurePorts(f: Failure): Ports {
    map[ERROR_MESSAGE := Text(f.message), ERROR_TYPE := Text(KindName(f.kind))]
  }

  // ---------------------------------------------------------------- Resolving inputs

  /** What a running execution has to offer its bindings. */
  datatype View = View(outputs: seq<Option<Ports>>, failures: seq<Option<Failure>>, input: Ports, variables: Ports)

  function Port(ports: Ports, name: string): Option<Value> {
    if name in ports then Some(ports[name]) else None
  }

  /** `resolveBinding`. */
  function ResolveBinding(view: View, b: Binding): Option<Value> {
    var source :=
      match b.source
      case Literal(v) => Some(v)
      case WorkflowInput(port) => Port(view.input, port)
      case NodeOutput(node, port) =>
        if node < |view.outputs| && view.outputs[node].Some? then Port(view.outputs[node].value, port) else None
      case NodeError(node, port) =>
        if node < |view.failures| && view.failures[node].Some? then Port(FailurePorts(view.failures[node].value), port) else None
      case LoopVariable(port) => Port(view.variables, port);
    if source.Some? then Lookup(source.value, b.path) else None
  }

  /** A binding `resolveInputs` can use: a Merge may lack a source, any other node may not, and a value
      that is present has to be accepted. */
  predicate Usable(w: World, view: View, node: Node, name: string)
    requires name in node.bindings
  {
    var v := ResolveBinding(view, node.bindings[name]);
    if v.None? then node.kind.Merge? else name in node.inputs && Accepts(w, node.inputs[name], v.value)
  }

  /** `resolveInputs`: the values of the bindings that resolve, or nothing when one is unusable. */
  function ResolveInputs(w: World, view: View, node: Node): Option<Ports> {
    if forall name <- node.bindings :: Usable(w, view, node, name)
    then Some(map name | name in node.bindings && ResolveBinding(view, node.bindings[name]).Some? ::
                ResolveBinding(view, node.bindings[name]).value)
    else None
  }

  // ---------------------------------------------------------------- Invoking a node

  /** `invokeAttempt`: a success has to carry exactly the declared outputs and a declared route. */
  function Checked(w: World, node: Node, a: Attempt): Attempt {
    if !a.Succeed? then a
    else if !PortsValid(w, a.values, node.outputs) then Fail(Failure(Errored, "node output"))
    else if a.route !in node.routes then Fail(Failure(Errored, "node selected unknown route"))
    else a
  }

  /** `terminalAttempt`. */
  predicate Terminal(attempt: nat, maximum: nat, kind: FailureKind) {
    attempt == maximum || kind in {Canceled, TimedOut, Limited}
  }

  function MaxAttempts(node: Node): (m: nat)
    ensures m >= 1
  {
    if node.maxAttempts > 1 then node.maxAttempts else 1
  }

  /** One attempt at node `n`: SetVariable always succeeds with no outputs, anything else asks the host. */
  function AttemptNode(w: World, node: Node, n: nat, attempt: nat, inputs: Ports): Attempt {
    if node.kind.SetVariable? then Succeed(map[], SUCCESS) else Checked(w, node, w.invoke(n, attempt, inputs))
  }

  /** The last attempt of `invokeNode`, counting from attempt `from`. */
  function LastAttempt(w: World, node: Node, n: nat, inputs: Ports, from: nat): (r: (Attempt, nat))
    requires 1 <= from <= MaxAttempts(node)
    ensures from <= r.1 <= MaxAttempts(node)
    decreases MaxAttempts(node) - from
  {
    var a := AttemptNode(w, node, n, from, inputs);
    if !a.Fail? || Terminal(from, MaxAttempts(node), a.failure.kind) then (a, from)
    else LastAttempt(w, node, n, inputs, from + 1)
  }

  /** What a whole invocation of node `n` on these inputs comes to. */
  function Invocation(w: World, node: Node, n: nat, inputs: Ports): Attempt {
    LastAttempt(w, node, n, inputs, 1).0
  }

  // ---------------------------------------------------------------- Resuming a node

  /** What a node suspended on: its inputs, the attempts made so far and the outstanding interruptions. */
  datatype Paused = Paused(inputs: Ports, attempts: nat, points: seq<Point>)

  /** `remainingDynamicInterrupts`: the points this resume does not answer. */
  function Remaining(points: seq<Point>, targets: set<string>): seq<Point> {
    if points == [] then []
    else if points[0].id in targets then Remaining(points[1..], targets)
    else [points[0]] + Remaining(points[1..], targets)
  }

  predicate HasPoint(points: seq<Point>, id: string) {
    exists point <- points :: point.id == id
  }

  /** `mergeDynamicInterrupts`: the left points, then the right ones with identifiers not yet seen. */
  function MergePoints(left: seq<Point>, right: seq<Point>): seq<Point>
    decreases |right|
  {
    if right == [] then left
    else MergePoints(if HasPoint(left, right[0].id) then left else left + [right[0]], right[1..])
  }

  /** `finishNodeAttempt` on a resumed node: it stays suspended until every point has been answered. */
  function Outstanding(a: Attempt, remaining: seq<Point>): Attempt {
    match a
    case Interrupt(points) => Interrupt(MergePoints(points, remaining))
    case Succeed(_, _) => if remaining == [] then a else Interrupt(remaining)
    case Fail(_) => a
  }

  /** One attempt at a resumed node. */
  function ResumeAttempt(w: World, node: Node, n: nat, paused: Paused, targets: set<string>, attempt: nat): Attempt {
    Outstanding(Checked(w, node, w.resume(n, attempt, paused.inputs, paused.points, targets)), Remaining(paused.points, targets))
  }

  /** The last attempt of a resumed node: the retry budget starts anew, the attempt number goes on. */
  function LastResumed(w: World, node: Node, n: nat, paused: Paused, targets: set<string>, from: nat): (r: (Attempt, nat))
    requires 1 <= from <= MaxAttempts(node)
    ensures paused.attempts + from <= r.1
    decreases MaxAttempts(node) - from
  {
    var a := ResumeAttempt(w, node, n, paused, targets, paused.attempts + from);
    if !a.Fail? || Terminal(from, MaxAttempts(node), a.failure.kind) then (a, paused.attempts + from)
    else LastResumed(w, node, n, paused, targets, from + 1)
  }
}
