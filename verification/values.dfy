/** What paths, numbers and bindings mean: the value a path leads to, the index a segment names, the inputs a node is
    given, and what failure data says (workflow/value.go, workflow/runner_invoke.go). */
module Values {
  import opened Options
  import opened Plans

  // ---------------------------------------------------------------- Indexes

  function Digit(d: nat): char
    requires d < 10
  {
    '0' + d as char
  }

  /** A number in decimal, without leading zeros. */
  function Decimal(n: nat): (s: string)
    ensures s != []
  {
    if n < 10 then [Digit(n)] else Decimal(n / 10) + [Digit(n % 10)]
  }

  function Zeros(k: nat): (s: string)
    ensures |s| == k
  {
    seq(k, _ => '0')
  }

  lemma DigitRead(d: nat)
    requires d < 10
    ensures '0' <= Digit(d) <= '9' && Digit(d) as int - '0' as int == d
  {}

  lemma ParseSnoc(s: string, d: nat)
    requires d < 10
    ensures s == [] ==> ParseDigits(s + [Digit(d)]) == Some(d)
    ensures s != [] ==> ParseDigits(s + [Digit(d)]) == (if ParseDigits(s).Some? then Some(10 * ParseDigits(s).value + d) else None)
  {
    DigitRead(d);
    assert (s + [Digit(d)])[..|s|] == s;
  }

  lemma {:induction false} ParseDecimal(n: nat)
    ensures ParseDigits(Decimal(n)) == Some(n)
    decreases n
  {
    if n < 10 {
      ParseSnoc([], n);
      assert [] + [Digit(n)] == [Digit(n)];
    } else {
      ParseDecimal(n / 10);
      ParseSnoc(Decimal(n / 10), n % 10);
    }
  }

  /** Leading zeros do not count. */
  lemma {:induction false} ParseZeros(k: nat, s: string)
    requires s != [] && ParseDigits(s).Some?
    ensures ParseDigits(Zeros(k) + s) == ParseDigits(s)
    decreases |s|
  {
    var front, last := s[..|s| - 1], s[|s| - 1];
    assert (Zeros(k) + s)[..|Zeros(k) + s| - 1] == Zeros(k) + front;
    if front == [] {
      assert Zeros(k) + front == Zeros(k);
      AllZeros(k);
    } else {
      ParseZeros(k, front);
    }
  }

  lemma {:induction false} AllZeros(k: nat)
    ensures k > 0 ==> ParseDigits(Zeros(k)) == Some(0)
    decreases k
  {
    if k > 0 {
      AllZeros(k - 1);
      assert Zeros(k)[..k - 1] == Zeros(k - 1);
    }
  }

  /** A segment is the decimal form of a number, after zeros. */
  ghost predicate Writes(s: string, n: nat) {
    exists k: nat :: s == Zeros(k) + Decimal(n)
  }

  lemma WritesSnoc(s: string, n: nat, d: nat)
    requires d < 10 && Writes(s, n)
    ensures Writes(s + [Digit(d)], 10 * n + d)
  {
    var k: nat :| s == Zeros(k) + Decimal(n);
    var m := 10 * n + d;
    assert m / 10 == n && m % 10 == d;
    if n == 0 {
      assert s + [Digit(d)] == Zeros(k + 1) + Decimal(m) by {
        assert Zeros(k + 1) == Zeros(k) + ['0'];
      }
    } else {
      assert Decimal(m) == Decimal(n) + [Digit(d)];
      assert s + [Digit(d)] == Zeros(k) + Decimal(m);
    }
  }

  lemma {:induction false} DigitsWrite(s: string)
    requires ParseDigits(s).Some?
    ensures ParseDigits(s).value >= 0 && Writes(s, ParseDigits(s).value)
    decreases |s|
  {
    var front, last := s[..|s| - 1], s[|s| - 1];
    var d := last as int - '0' as int;
    assert last == Digit(d) && s == front + [last];
    if front == [] {
      assert s == Zeros(0) + Decimal(d);
    } else {
      DigitsWrite(front);
      WritesSnoc(front, ParseDigits(front).value, d);
    }
  }

  /** Digits are read as the number they write, and nothing else is a number. */
  lemma DigitsExactly(s: string, n: nat)
    ensures ParseDigits(s) == Some(n) <==> Writes(s, n)
  {
    if ParseDigits(s) == Some(n) {
      DigitsWrite(s);
    }
    if Writes(s, n) {
      var k: nat :| s == Zeros(k) + Decimal(n);
      ParseDecimal(n);
      ParseZeros(k, Decimal(n));
    }
  }

  /** A segment names an index: its decimal form, perhaps with a sign; only zero may be negative. */
  ghost predicate Names(segment: string, i: nat) {
    || Writes(segment, i)
    || (segment != [] && segment[0] == '+' && Writes(segment[1..], i))
    || (segment != [] && segment[0] == '-' && Writes(segment[1..], i) && i == 0)
  }

  lemma SignWritesNothing(s: string, n: nat)
    requires s != [] && (s[0] == '-' || s[0] == '+')
    ensures !Writes(s, n)
  {
    DigitsExactly(s, n);
    SignNoDigit(s);
  }

  lemma {:induction false} SignNoDigit(s: string)
    requires s != [] && (s[0] == '-' || s[0] == '+')
    ensures ParseDigits(s).None?
    decreases |s|
  {
    if |s| > 1 {
      SignNoDigit(s[..|s| - 1]);
    }
  }

  lemma {:induction false} NoNegativeDigits(s: string)
    ensures ParseDigits(s).Some? ==> ParseDigits(s).value >= 0
  {
    if ParseDigits(s).Some? {
      DigitsWrite(s);
    }
  }

  /** A segment is read as a natural number exactly if it names it. */
  lemma IndexExactly(segment: string, i: nat)
    ensures ParseIndex(segment) == Some(i) <==> Names(segment, i)
  {
    DigitsExactly(segment, i);
    if segment != [] {
      DigitsExactly(segment[1..], i);
      NoNegativeDigits(segment[1..]);
      if segment[0] == '-' || segment[0] == '+' {
        SignWritesNothing(segment, i);
      }
    }
  }

  // ---------------------------------------------------------------- Paths

  /** One step of a path: a field of an object, or an item of a list. */
  ghost predicate Child(v: Value, segment: string, child: Value) {
    || (v.Object? && segment in v.fields && v.fields[segment] == child)
    || (v.List? && exists i: nat :: i < |v.items| && Names(segment, i) && v.items[i] == child)
  }

  /** A path leads from one value to another through the values between. */
  ghost predicate LeadsBy(v: Value, path: seq<string>, between: seq<Value>, end: Value) {
    && |between| == |path| + 1 && between[0] == v && between[|path|] == end
    && forall i: nat | i < |path| :: Child(between[i], path[i], between[i + 1])
  }

  ghost predicate Leads(v: Value, path: seq<string>, end: Value) {
    exists between :: LeadsBy(v, path, between, end)
  }

  lemma StepExactly(v: Value, segment: string, rest: seq<string>, child: Value)
    requires Child(v, segment, child)
    ensures Lookup(v, [segment] + rest) == Lookup(child, rest)
  {
    assert ([segment] + rest)[1..] == rest;
    if v.List? {
      var i: nat :| i < |v.items| && Names(segment, i) && v.items[i] == child;
      IndexExactly(segment, i);
    }
  }

  lemma StepFound(v: Value, path: seq<string>) returns (child: Value)
    requires path != [] && Lookup(v, path).Some?
    ensures Child(v, path[0], child) && Lookup(v, path) == Lookup(child, path[1..])
  {
    match v {
      case Object(fields) => child := fields[path[0]];
      case List(items) =>
        var i := ParseIndex(path[0]).value;
        IndexExactly(path[0], i);
        child := items[i];
    }
  }

  lemma {:induction false} LookupLeads(v: Value, path: seq<string>) returns (between: seq<Value>)
    requires Lookup(v, path).Some?
    ensures LeadsBy(v, path, between, Lookup(v, path).value)
    decreases |path|
  {
    if path == [] {
      between := [v];
    } else {
      var child := StepFound(v, path);
      var rest := LookupLeads(child, path[1..]);
      between := [v] + rest;
    }
  }

  lemma {:induction false} LeadsLookup(v: Value, path: seq<string>, between: seq<Value>, end: Value)
    requires LeadsBy(v, path, between, end)
    ensures Lookup(v, path) == Some(end)
    decreases |path|
  {
    if path != [] {
      assert Child(between[0], path[0], between[1]);
      assert [path[0]] + path[1..] == path;
      StepExactly(v, path[0], path[1..], between[1]);
      assert LeadsBy(between[1], path[1..], between[1..], end);
      LeadsLookup(between[1], path[1..], between[1..], end);
    }
  }

  /** A lookup finds a value exactly if the path leads to it: through fields by name and items by index. */
  lemma LookupExactly(v: Value, path: seq<string>, end: Value)
    ensures Lookup(v, path) == Some(end) <==> Leads(v, path, end)
  {
    if Lookup(v, path) == Some(end) {
      var between := LookupLeads(v, path);
      assert LeadsBy(v, path, between, end);
    }
    if Leads(v, path, end) {
      var between :| LeadsBy(v, path, between, end);
      LeadsLookup(v, path, between, end);
    }
  }

  /** What is read as a list of items: a list, or a null for the empty one. */
  lemma ListExactly(v: Value, items: seq<Value>)
    ensures DecodeList(v) == Some(items) <==> v == List(items) || (v.Null? && items == [])
  {}

  // ---------------------------------------------------------------- Failure data

  /** The error ports say what failed: the message as it was, and a different name for each kind. */
  lemma FailureTold(f: Failure, g: Failure)
    ensures FailurePorts(f).Keys == {ERROR_MESSAGE, ERROR_TYPE} && FailurePorts(f)[ERROR_MESSAGE] == Text(f.message)
    ensures FailurePorts(f) == FailurePorts(g) <==> f == g
  {
    if FailurePorts(f) == FailurePorts(g) {
      assert FailurePorts(f)[ERROR_TYPE] == FailurePorts(g)[ERROR_TYPE];
      assert FailurePorts(f)[ERROR_MESSAGE] == FailurePorts(g)[ERROR_MESSAGE];
      KindNamed(f.kind, g.kind);
    }
  }

  lemma KindNamed(a: FailureKind, b: FailureKind)
    ensures KindName(a) == KindName(b) <==> a == b
  {
    assert "error"[0] != "timeout"[0] && "error"[0] != "panic"[0] && "error"[0] != "canceled"[0] && "error"[0] != "limit"[0];
    assert "timeout"[0] != "panic"[0] && "timeout"[0] != "canceled"[0] && "timeout"[0] != "limit"[0];
    assert "panic"[0] != "canceled"[0] && "panic"[0] != "limit"[0] && "canceled"[0] != "limit"[0];
  }

  // ---------------------------------------------------------------- Inputs

  /** What a source gives: the literal, the input of the workflow, an output of the node, its error data, or the variable. */
  ghost predicate Offers(view: View, source: Source, v: Value) {
    match source
    case Literal(value) => v == value
    case WorkflowInput(port) => port in view.input && view.input[port] == v
    case NodeOutput(node, port) => node < |view.outputs| && view.outputs[node].Some? && port in view.outputs[node].value && view.outputs[node].value[port] == v
    case NodeError(node, port) =>
      node < |view.failures| && view.failures[node].Some? &&
      (if port == ERROR_MESSAGE then v == Text(view.failures[node].value.message)
       else port == ERROR_TYPE && v == Text(KindName(view.failures[node].value.kind)))
    case LoopVariable(port) => port in view.variables && view.variables[port] == v
  }

  /** A binding gives the value its path leads to from what its source gives. */
  ghost predicate Gives(view: View, b: Binding, v: Value) {
    exists whole :: Offers(view, b.source, whole) && Leads(whole, b.path, v)
  }

  lemma ResolvesExactly(view: View, b: Binding, v: Value)
    ensures ResolveBinding(view, b) == Some(v) <==> Gives(view, b, v)
  {
    forall whole ensures Lookup(whole, b.path) == Some(v) <==> Leads(whole, b.path, v) {
      LookupExactly(whole, b.path, v);
    }
  }

  /** A binding can be used if it gives a value its input accepts; a Merge may lack it. */
  ghost predicate Suits(w: World, view: View, node: Node, name: string)
    requires name in node.bindings
  {
    || (node.kind.Merge? && !Giving(view, node.bindings[name]))
    || (name in node.inputs && exists v :: Gives(view, node.bindings[name], v) && Accepts(w, node.inputs[name], v))
  }

  ghost predicate Giving(view: View, b: Binding) {
    exists v :: Gives(view, b, v)
  }

  lemma SuitsExactly(w: World, view: View, node: Node, name: string)
    requires name in node.bindings
    ensures Usable(w, view, node, name) <==> Suits(w, view, node, name)
    ensures ResolveBinding(view, node.bindings[name]).Some? <==> Giving(view, node.bindings[name])
  {
    var b := node.bindings[name];
    forall v ensures ResolveBinding(view, b) == Some(v) <==> Gives(view, b, v) {
      ResolvesExactly(view, b, v);
    }
    if ResolveBinding(view, b).Some? {
      assert Gives(view, b, ResolveBinding(view, b).value);
    }
  }

  /** A node gets its inputs exactly if each of its bindings can be used, and then it gets under each name the value the
      binding gives, and nothing else. */
  lemma InputsExactly(w: World, view: View, node: Node)
    ensures ResolveInputs(w, view, node).Some? <==> forall name <- node.bindings :: Suits(w, view, node, name)
    ensures ResolveInputs(w, view, node).Some? ==>
              && (forall name :: name in ResolveInputs(w, view, node).value <==> name in node.bindings && Giving(view, node.bindings[name]))
              && (forall name <- ResolveInputs(w, view, node).value ::
                    Gives(view, node.bindings[name], ResolveInputs(w, view, node).value[name]))
  {
    forall name <- node.bindings
      ensures Usable(w, view, node, name) <==> Suits(w, view, node, name)
      ensures ResolveBinding(view, node.bindings[name]).Some? <==> Giving(view, node.bindings[name])
    {
      SuitsExactly(w, view, node, name);
    }
    if ResolveInputs(w, view, node).Some? {
      forall name <- ResolveInputs(w, view, node).value ensures Gives(view, node.bindings[name], ResolveInputs(w, view, node).value[name]) {
        ResolvesExactly(view, node.bindings[name], ResolveInputs(w, view, node).value[name]);
      }
    }
  }
}
