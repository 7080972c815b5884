/** The edges of a plan: its control connections resolved to node indexes, with the lists of edges into and out of
    each node (workflow/compiler_node.go:327-439). */
module Edges {
  import opened Graphs
  import opened Options
  import opened Plans
  import opened Acceptance

  // ---------------------------------------------------------------- The index lists

  ghost predicate ListsUpTo(size: nat, edges: seq<Edge>, k: nat, lists: seq<seq<nat>>, end: Edge -> nat) {
    && |lists| == size && k <= |edges|
    && (forall e: nat | e < k :: end(edges[e]) < size && e in lists[end(edges[e])])
    && (forall v: nat, j: nat | v < size && j < |lists[v]| :: lists[v][j] < k && end(edges[lists[v][j]]) == v)
    && (forall v: nat | v < size :: Increasing(lists[v]))
  }

  lemma ListOne(size: nat, edges: seq<Edge>, k: nat, lists: seq<seq<nat>>, end: Edge -> nat)
    requires ListsUpTo(size, edges, k, lists, end) && k < |edges| && end(edges[k]) < size
    ensures ListsUpTo(size, edges, k + 1, lists[end(edges[k]) := lists[end(edges[k])] + [k]], end)
  {
    var v := end(edges[k]);
    var after := lists[v := lists[v] + [k]];
    forall e: nat | e < k + 1 ensures end(edges[e]) < size && e in after[end(edges[e])] {
      if e < k {
        assert e in lists[end(edges[e])];
      } else {
        assert after[v][|lists[v]|] == k;
      }
    }
  }

  function From(edge: Edge): nat { edge.from }

  function To(edge: Edge): nat { edge.to }

  /** The loop that fills `incoming` and `outgoing`: it ends with exactly the index lists of the edges. */
  method IndexEdges(size: nat, edges: seq<Edge>) returns (incoming: seq<seq<nat>>, outgoing: seq<seq<nat>>)
    requires forall e: nat | e < |edges| :: edges[e].from < size && edges[e].to < size
    ensures forall start: nat, end: nat | start < size && end < size :: Indexed(Graph(size, edges, incoming, outgoing, start, end))
  {
    incoming, outgoing := seq(size, _ => []), seq(size, _ => []);
    for e := 0 to |edges|
      invariant ListsUpTo(size, edges, e, outgoing, From) && ListsUpTo(size, edges, e, incoming, To)
    {
      ListOne(size, edges, e, outgoing, From);
      ListOne(size, edges, e, incoming, To);
      outgoing := outgoing[edges[e].from := outgoing[edges[e].from] + [e]];
      incoming := incoming[edges[e].to := incoming[edges[e].to] + [e]];
    }
  }

  // ---------------------------------------------------------------- Compiling the connections

  /** `ControlEdge`: identifiers as the definition gives them. */
  datatype Wire = Wire(from: string, route: string, to: string)

  /** The key by which `compileEdges` tells edges apart. */
  function Key(wire: Wire): string {
    wire.from + "/" + wire.route + "/" + wire.to
  }

  predicate WireAccepted(nodes: seq<Node>, index: map<string, nat>, wire: Wire) {
    && wire.from in index && wire.to in index && index[wire.from] != index[wire.to]
    && index[wire.from] < |nodes| && RouteAllowed(nodes[index[wire.from]], wire.route)
  }

  ghost predicate KeysDistinct(wires: seq<Wire>) {
    forall i, j | 0 <= i < j < |wires| :: Key(wires[i]) != Key(wires[j])
  }

  ghost predicate WiresAccepted(nodes: seq<Node>, index: map<string, nat>, wires: seq<Wire>) {
    KeysDistinct(wires) && forall wire <- wires :: WireAccepted(nodes, index, wire)
  }

  /** The edges are the connections, in their order, with identifiers resolved. */
  ghost predicate Resolved(index: map<string, nat>, wires: seq<Wire>, edges: seq<Edge>) {
    && |edges| == |wires|
    && forall i | 0 <= i < |wires| :: wires[i].from in index && wires[i].to in index
         && edges[i] == Edge(index[wires[i].from], index[wires[i].to], wires[i].route)
  }

  lemma ListAppended(size: nat, edges: seq<Edge>, lists: seq<seq<nat>>, end: Edge -> nat, edge: Edge)
    requires ListsUpTo(size, edges, |edges|, lists, end) && end(edge) < size
    ensures ListsUpTo(size, edges + [edge], |edges| + 1, lists[end(edge) := lists[end(edge)] + [|edges|]], end)
  {
    var all := edges + [edge];
    assert forall e: nat | e < |edges| :: all[e] == edges[e];
    assert ListsUpTo(size, all, |edges|, lists, end);
    ListOne(size, all, |edges|, lists, end);
  }

  /** Appends an edge to the list and to the lists of its ends. */
  method AddEdge(size: nat, edges: seq<Edge>, incoming: seq<seq<nat>>, outgoing: seq<seq<nat>>, edge: Edge)
      returns (edges': seq<Edge>, incoming': seq<seq<nat>>, outgoing': seq<seq<nat>>)
    requires ListsUpTo(size, edges, |edges|, outgoing, From) && ListsUpTo(size, edges, |edges|, incoming, To)
    requires edge.from < size && edge.to < size
    ensures edges' == edges + [edge]
    ensures ListsUpTo(size, edges', |edges'|, outgoing', From) && ListsUpTo(size, edges', |edges'|, incoming', To)
  {
    ListAppended(size, edges, outgoing, From, edge);
    ListAppended(size, edges, incoming, To, edge);
    outgoing' := outgoing[edge.from := outgoing[edge.from] + [|edges|]];
    incoming' := incoming[edge.to := incoming[edge.to] + [|edges|]];
    edges' := edges + [edge];
  }

  ghost predicate KeySeen(wires: seq<Wire>, k: nat, key: string)
    requires k <= |wires|
  {
    exists i | 0 <= i < k :: Key(wires[i]) == key
  }

  /** One more connection is accepted when it is allowed and its key is new. */
  lemma OneMore(nodes: seq<Node>, index: map<string, nat>, wires: seq<Wire>, k: nat)
    requires k < |wires|
    ensures WiresAccepted(nodes, index, wires[..k + 1])
            <==> WiresAccepted(nodes, index, wires[..k]) && WireAccepted(nodes, index, wires[k]) && !KeySeen(wires, k, Key(wires[k]))
  {
    var front, all := wires[..k], wires[..k + 1];
    assert all == front + [wires[k]];
    if KeySeen(wires, k, Key(wires[k])) {
      var i :| 0 <= i < k && Key(wires[i]) == Key(wires[k]);
      assert all[i] == wires[i] && all[k] == wires[k];
    }
    assert KeysDistinct(all) ==> KeysDistinct(front) by {
      assert forall i | 0 <= i < k :: all[i] == front[i];
    }
    assert wires[k] in all && forall wire <- front :: wire in all;
  }

  /** What compiling the first `k` connections has come to. */
  ghost predicate Compiled(nodes: seq<Node>, index: map<string, nat>, wires: seq<Wire>, k: nat, seen: set<string>, edges: seq<Edge>, ok: bool)
    requires k <= |wires|
  {
    && (ok <==> WiresAccepted(nodes, index, wires[..k]))
    && (ok ==> Resolved(index, wires[..k], edges) && forall key :: key in seen <==> KeySeen(wires, k, key))
  }

  lemma CompiledUnknown(nodes: seq<Node>, index: map<string, nat>, wires: seq<Wire>, k: nat, seen: set<string>, edges: seq<Edge>)
    requires k < |wires| && (wires[k].from !in index || wires[k].to !in index)
    ensures Compiled(nodes, index, wires, k + 1, seen, edges, false)
  {
    OneMore(nodes, index, wires, k);
  }

  lemma CompiledNext(nodes: seq<Node>, index: map<string, nat>, wires: seq<Wire>, k: nat, seen: set<string>, edges: seq<Edge>, ok: bool, edge: Edge)
    requires k < |wires| && wires[k].from in index && wires[k].to in index && index[wires[k].from] < |nodes|
    requires edge == Edge(index[wires[k].from], index[wires[k].to], wires[k].route) && Compiled(nodes, index, wires, k, seen, edges, ok)
    ensures Compiled(nodes, index, wires, k + 1, seen + {Key(wires[k])}, edges + [edge],
                     ok && edge.from != edge.to && RouteAllowed(nodes[edge.from], edge.route) && Key(wires[k]) !in seen)
  {
    OneMore(nodes, index, wires, k);
    forall key ensures KeySeen(wires, k + 1, key) <==> KeySeen(wires, k, key) || key == Key(wires[k]) {
      if KeySeen(wires, k, key) {
        var i :| 0 <= i < k && Key(wires[i]) == key;
      }
    }
  }

  /** `compileEdges`: succeeds exactly when each connection joins two known nodes by an allowed route and no two have
      the same key; the edges are then those connections, with exact index lists. */
  method CompileEdges(nodes: seq<Node>, index: map<string, nat>, wires: seq<Wire>)
      returns (edges: seq<Edge>, incoming: seq<seq<nat>>, outgoing: seq<seq<nat>>, ok: bool)
    requires forall id <- index :: index[id] < |nodes|
    ensures ok <==> WiresAccepted(nodes, index, wires)
    ensures ok ==> Resolved(index, wires, edges)
    ensures ok ==> forall start: nat, end: nat | start < |nodes| && end < |nodes| :: Indexed(Graph(|nodes|, edges, incoming, outgoing, start, end))
  {
    var seen: set<string> := {};
    edges, incoming, outgoing, ok := [], seq(|nodes|, _ => []), seq(|nodes|, _ => []), true;
    for k := 0 to |wires|
      invariant Compiled(nodes, index, wires, k, seen, edges, ok)
      invariant ListsUpTo(|nodes|, edges, |edges|, outgoing, From) && ListsUpTo(|nodes|, edges, |edges|, incoming, To)
    {
      var wire := wires[k];
      if wire.from !in index || wire.to !in index {
        CompiledUnknown(nodes, index, wires, k, seen, edges);
        ok := false;
        continue;
      }
      var from, to := index[wire.from], index[wire.to];
      CompiledNext(nodes, index, wires, k, seen, edges, ok, Edge(from, to, wire.route));
      ok := ok && from != to && RouteAllowed(nodes[from], wire.route) && Key(wire) !in seen;
      seen := seen + {Key(wire)};
      edges, incoming, outgoing := AddEdge(|nodes|, edges, incoming, outgoing, Edge(from, to, wire.route));
    }
    assert wires[..|wires|] == wires;
  }

  /** No two edges of an accepted plan are the same connection. */
  lemma NoDuplicateEdges(nodes: seq<Node>, index: map<string, nat>, wires: seq<Wire>, edges: seq<Edge>)
    requires WiresAccepted(nodes, index, wires) && Resolved(index, wires, edges)
    requires forall a, b | a in index && b in index && index[a] == index[b] :: a == b
    ensures forall i, j | 0 <= i < j < |edges| :: edges[i] != edges[j]
  {
    forall i, j | 0 <= i < j < |edges| ensures edges[i] != edges[j] {
      assert edges[i] == edges[j] ==> wires[i] == wires[j];
    }
  }

  // ---------------------------------------------------------------- The key

  lemma {:induction false} FirstSlash(a: string, x: string, b: string, y: string)
    requires '/' !in a && '/' !in b && a + "/" + x == b + "/" + y
    ensures a == b && x == y
    decreases |a|
  {
    var s, t := a + "/" + x, b + "/" + y;
    assert if a == [] then s[0] == '/' else s[0] == a[0] && a[0] in a;
    assert if b == [] then t[0] == '/' else t[0] == b[0] && b[0] in b;
    if a == [] {
      assert s[1..] == x && t[1..] == y;
    } else {
      assert s[1..] == a[1..] + "/" + x && t[1..] == b[1..] + "/" + y;
      FirstSlash(a[1..], x, b[1..], y);
    }
  }

  /** Without slashes in the node and route identifiers, equal keys mean equal connections. */
  lemma KeyTellsApart(v: Wire, w: Wire)
    requires '/' !in v.from && '/' !in v.route && '/' !in w.from && '/' !in w.route
    ensures Key(v) == Key(w) <==> v == w
  {
    if Key(v) == Key(w) {
      assert Key(v) == v.from + "/" + (v.route + "/" + v.to);
      assert Key(w) == w.from + "/" + (w.route + "/" + w.to);
      FirstSlash(v.from, v.route + "/" + v.to, w.from, w.route + "/" + w.to);
      FirstSlash(v.route, v.to, w.route, w.to);
    }
  }

  /** With them, different connections can have one key, and a definition that has both is refused. */
  lemma KeysCollide()
    ensures var v, w := Wire("a", "b/c", "d"), Wire("a/b", "c", "d");
            v != w && Key(v) == Key(w) && !KeysDistinct([v, w])
  {
    var v, w := Wire("a", "b/c", "d"), Wire("a/b", "c", "d");
    assert Key(v) == "a/b/c/d" && Key(w) == "a/b/c/d";
    assert [v, w][0] == v && [v, w][1] == w;
  }
}
