/** The control graph of a compiled plan: edges with their index lists, the paths
    through them, and what the compiler's graph walks compute about those paths
    (workflow/compiler_graph.go, workflow/compiler_binding.go). */
module Graphs {

  datatype Edge = Edge(from: nat, to: nat, route: string)

  datatype Graph = Graph(size: nat, edges: seq<Edge>, incoming: seq<seq<nat>>, outgoing: seq<seq<nat>>,
                         start: nat, end: nat)

  /** The index lists name exactly the edges into and out of each node, in edge order. */
  ghost predicate Indexed(g: Graph) {
    && |g.incoming| == g.size && |g.outgoing| == g.size
    && g.start < g.size && g.end < g.size
    && (forall e | 0 <= e < |g.edges| ::
          && g.edges[e].from < g.size && g.edges[e].to < g.size
          && e in g.outgoing[g.edges[e].from] && e in g.incoming[g.edges[e].to])
    && (forall v, j | 0 <= v < g.size && 0 <= j < |g.outgoing[v]| :: OutOf(g, v, g.outgoing[v][j]))
    && (forall v, j | 0 <= v < g.size && 0 <= j < |g.incoming[v]| :: Into(g, v, g.incoming[v][j]))
    && (forall v | 0 <= v < g.size :: Increasing(g.outgoing[v]) && Increasing(g.incoming[v]))
  }

  predicate OutOf(g: Graph, v: nat, e: nat) {
    e < |g.edges| && g.edges[e].from == v
  }

  predicate Into(g: Graph, v: nat, e: nat) {
    e < |g.edges| && g.edges[e].to == v
  }

  predicate Increasing(s: seq<nat>) {
    forall j, k | 0 <= j < k < |s| :: s[j] < s[k]
  }

  // ---------------------------------------------------------------- Paths

  /** `es` lists the edges of a path from `a` to `b`. */
  ghost predicate IsPath(g: Graph, a: nat, es: seq<nat>, b: nat) {
    if es == [] then a == b
    else
      var e := es[|es| - 1];
      e < |g.edges| && g.edges[e].to == b && IsPath(g, a, es[..|es| - 1], g.edges[e].from)
  }

  ghost predicate Reaches(g: Graph, a: nat, b: nat) {
    exists es :: IsPath(g, a, es, b)
  }

  /** `b` can be reached from `a` by a path whose first edge carries `route`. */
  ghost predicate ReachesBy(g: Graph, a: nat, route: string, b: nat) {
    exists e :: 0 <= e < |g.edges| && g.edges[e].from == a && g.edges[e].route == route && Reaches(g, g.edges[e].to, b)
  }

  /** Node `v` lies on the path `es` from `a`. */
  ghost predicate Visits(g: Graph, a: nat, es: seq<nat>, v: nat) {
    a == v || exists i :: 0 <= i < |es| && es[i] < |g.edges| && g.edges[es[i]].to == v
  }

  /** Every path from Start to `n` passes through `d`. */
  ghost predicate Dominates(g: Graph, d: nat, n: nat) {
    forall es | IsPath(g, g.start, es, n) :: Visits(g, g.start, es, d)
  }

  ghost predicate Acyclic(g: Graph) {
    forall v, es | es != [] :: !IsPath(g, v, es, v)
  }

  lemma PathSnoc(g: Graph, a: nat, es: seq<nat>, e: nat)
    requires e < |g.edges| && IsPath(g, a, es, g.edges[e].from)
    ensures IsPath(g, a, es + [e], g.edges[e].to)
  {
    assert (es + [e])[..|es|] == es;
  }

  lemma {:induction false} PathConcat(g: Graph, a: nat, es: seq<nat>, b: nat, fs: seq<nat>, c: nat)
    requires IsPath(g, a, es, b) && IsPath(g, b, fs, c)
    ensures IsPath(g, a, es + fs, c)
    decreases |fs|
  {
    if fs == [] {
      assert es + fs == es;
    } else {
      var e := fs[|fs| - 1];
      PathConcat(g, a, es, b, fs[..|fs| - 1], g.edges[e].from);
      assert (es + fs)[..|es + fs| - 1] == es + fs[..|fs| - 1];
    }
  }

  lemma ReachesTrans(g: Graph, a: nat, b: nat, c: nat)
    requires Reaches(g, a, b) && Reaches(g, b, c)
    ensures Reaches(g, a, c)
  {
    var es :| IsPath(g, a, es, b);
    var fs :| IsPath(g, b, fs, c);
    PathConcat(g, a, es, b, fs, c);
  }

  lemma EdgePath(g: Graph, e: nat)
    requires e < |g.edges|
    ensures IsPath(g, g.edges[e].from, [e], g.edges[e].to)
  {
    PathSnoc(g, g.edges[e].from, [], e);
    assert [] + [e] == [e];
  }

  lemma EdgeReaches(g: Graph, e: nat)
    requires e < |g.edges|
    ensures Reaches(g, g.edges[e].from, g.edges[e].to)
  {
    EdgePath(g, e);
  }

  lemma ReachesSelf(g: Graph, a: nat)
    ensures Reaches(g, a, a)
  {
    assert IsPath(g, a, [], a);
  }

  /** A nonempty path splits at its first edge. */
  lemma {:induction false} PathHead(g: Graph, a: nat, es: seq<nat>, b: nat)
    requires es != [] && IsPath(g, a, es, b)
    ensures es[0] < |g.edges| && g.edges[es[0]].from == a && IsPath(g, g.edges[es[0]].to, es[1..], b)
    decreases |es|
  {
    var m := |es| - 1;
    if m == 0 {
      assert es[..0] == [] && es[1..] == [];
    } else {
      PathHead(g, a, es[..m], g.edges[es[m]].from);
      assert es[..m][0] == es[0];
      assert es[1..][..m - 1] == es[..m][1..];
      assert es[1..][m - 1] == es[m];
    }
  }

  /** A path that visits `v` splits there. */
  lemma {:induction false} PathSplit(g: Graph, a: nat, es: seq<nat>, b: nat, v: nat) returns (i: nat)
    requires IsPath(g, a, es, b) && Visits(g, a, es, v)
    ensures i <= |es| && IsPath(g, a, es[..i], v) && IsPath(g, v, es[i..], b)
    decreases |es|
  {
    if v == b {
      i := |es|;
      assert es[..i] == es && es[i..] == [];
    } else {
      var m := |es| - 1;
      var before := es[..m];
      if a != v {
        var j :| 0 <= j < |es| && es[j] < |g.edges| && g.edges[es[j]].to == v;
        assert j < m && before[j] == es[j];
      }
      i := PathSplit(g, a, before, g.edges[es[m]].from, v);
      assert before[..i] == es[..i];
      assert es[i..][..m - i] == before[i..];
      assert es[i..][m - i] == es[m];
    }
  }

  /** What a closed set of nodes contains: everything a member reaches. */
  lemma {:induction false} PathStaysIn(g: Graph, a: nat, es: seq<nat>, b: nat, closed: set<nat>)
    requires a in closed
    requires forall e | 0 <= e < |g.edges| && g.edges[e].from in closed :: g.edges[e].to in closed
    requires IsPath(g, a, es, b)
    ensures b in closed
    decreases |es|
  {
    if es != [] {
      var e := es[|es| - 1];
      PathStaysIn(g, a, es[..|es| - 1], g.edges[e].from, closed);
    }
  }

  lemma ReachedStaysIn(g: Graph, a: nat, b: nat, closed: set<nat>)
    requires a in closed
    requires forall e | 0 <= e < |g.edges| && g.edges[e].from in closed :: g.edges[e].to in closed
    requires Reaches(g, a, b)
    ensures b in closed
  {
    var es :| IsPath(g, a, es, b);
    PathStaysIn(g, a, es, b, closed);
  }
}
