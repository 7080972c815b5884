/** Kahn's ordering of the control graph and the dominator matrix computed over it
    (workflow/compiler_graph.go:188-226, workflow/compiler_binding.go:629-659). */
module Topology {
  import opened Graphs

  /** Every node once, and no node before one of its predecessors. */
  ghost predicate IsTopological(g: Graph, order: seq<nat>) {
    && Distinct(order)
    && (forall v: nat :: v < g.size <==> v in order)
    && (forall e, j | 0 <= e < |g.edges| && 0 <= j < |order| && order[j] == g.edges[e].to ::
          g.edges[e].from in order[..j])
  }

  ghost predicate Distinct(order: seq<nat>) {
    forall i, j | 0 <= i < j < |order| :: order[i] != order[j]
  }

  ghost function Position(order: seq<nat>, v: nat): (i: nat)
    requires v in order
    ensures i < |order| && order[i] == v
  {
    var i :| 0 <= i < |order| && order[i] == v; i
  }

  lemma PositionOf(order: seq<nat>, i: nat)
    requires Distinct(order) && i < |order|
    ensures Position(order, order[i]) == i
  {}

  lemma EdgeForward(g: Graph, order: seq<nat>, e: nat)
    requires Indexed(g) && IsTopological(g, order) && e < |g.edges|
    ensures g.edges[e].from in order && g.edges[e].to in order
    ensures Position(order, g.edges[e].from) < Position(order, g.edges[e].to)
  {
    var j := Position(order, g.edges[e].to);
    var i :| 0 <= i < j && order[i] == g.edges[e].from;
    PositionOf(order, i);
  }

  lemma {:induction false} PathForward(g: Graph, order: seq<nat>, a: nat, es: seq<nat>, b: nat)
    requires Indexed(g) && IsTopological(g, order) && a < g.size && IsPath(g, a, es, b)
    ensures b < g.size && Position(order, a) + |es| <= Position(order, b)
    decreases |es|
  {
    if es != [] {
      var e := es[|es| - 1];
      PathForward(g, order, a, es[..|es| - 1], g.edges[e].from);
      EdgeForward(g, order, e);
    }
  }

  lemma ReachesForward(g: Graph, order: seq<nat>, a: nat, b: nat)
    requires Indexed(g) && IsTopological(g, order) && a < g.size && Reaches(g, a, b)
    ensures b < g.size && (a != b ==> Position(order, a) < Position(order, b))
  {
    var es :| IsPath(g, a, es, b);
    PathForward(g, order, a, es, b);
  }

  lemma OrderedAcyclic(g: Graph, order: seq<nat>)
    requires Indexed(g) && IsTopological(g, order)
    ensures Acyclic(g)
  {
    forall v, es | es != [] ensures !IsPath(g, v, es, v) {
      if IsPath(g, v, es, v) {
        PathHead(g, v, es, v);
        PathForward(g, order, v, es, v);
      }
    }
  }

  // ---------------------------------------------------------------- A set without sources has a cycle

  ghost predicate Fed(g: Graph, stuck: set<nat>, v: nat) {
    exists e :: 0 <= e < |g.edges| && g.edges[e].to == v && g.edges[e].from in stuck
  }

  ghost predicate FeedsInto(g: Graph, u: nat, v: nat) {
    exists es :: es != [] && IsPath(g, u, es, v)
  }

  /** Walks backwards inside `stuck` until a node repeats: `met` holds the nodes met so far, all downstream of `v`. */
  lemma {:induction false} CycleIn(g: Graph, stuck: set<nat>, met: set<nat>, v: nat)
    requires v in stuck && met <= stuck && forall w <- met :: FeedsInto(g, v, w)
    requires forall w <- stuck :: Fed(g, stuck, w)
    ensures !Acyclic(g)
    decreases stuck - met
  {
    if v in met {
      var es :| es != [] && IsPath(g, v, es, v);
    } else {
      assert Fed(g, stuck, v);
      var e :| 0 <= e < |g.edges| && g.edges[e].to == v && g.edges[e].from in stuck;
      forall w <- met + {v} ensures FeedsInto(g, g.edges[e].from, w) {
        FeedsBack(g, e, w);
      }
      CycleIn(g, stuck, met + {v}, g.edges[e].from);
    }
  }

  lemma FeedsBack(g: Graph, e: nat, w: nat)
    requires e < |g.edges| && (w == g.edges[e].to || FeedsInto(g, g.edges[e].to, w))
    ensures FeedsInto(g, g.edges[e].from, w)
  {
    EdgePath(g, e);
    if w != g.edges[e].to {
      var es :| es != [] && IsPath(g, g.edges[e].to, es, w);
      PathConcat(g, g.edges[e].from, [e], g.edges[e].to, es, w);
      assert [e] + es != [];
    }
  }

  // ---------------------------------------------------------------- Kahn's algorithm

  /** The edges into `v` whose source has not been emitted. */
  ghost function Waiting(g: Graph, emitted: set<nat>, v: nat): (r: set<nat>)
    ensures forall e: nat :: e in r <==> e < |g.edges| && g.edges[e].to == v && e !in emitted
  {
    WaitingIn(g.edges, emitted, v)
  }

  ghost function WaitingIn(edges: seq<Edge>, emitted: set<nat>, v: nat): (r: set<nat>)
    ensures forall e: nat :: e in r <==> e < |edges| && edges[e].to == v && e !in emitted
  {
    if edges == [] then {}
    else
      var last := |edges| - 1;
      WaitingIn(edges[..last], emitted, v) + (if edges[last].to == v && last !in emitted then {last} else {})
  }

  lemma {:induction false} IncreasingSize(s: seq<nat>, elements: set<nat>)
    requires Increasing(s) && forall x: nat :: x in elements <==> x in s
    ensures |elements| == |s|
    decreases |s|
  {
    if s == [] {
      assert elements == {};
    } else {
      var last := s[|s| - 1];
      assert s == s[..|s| - 1] + [last];
      IncreasingSize(s[..|s| - 1], elements - {last});
    }
  }

  lemma DistinctSnoc(s: seq<nat>, x: nat)
    requires Distinct(s) && x !in s
    ensures Distinct(s + [x])
  {}

  function Without(s: seq<nat>, i: nat): (r: seq<nat>)
    requires i < |s|
    ensures |r| == |s| - 1
    ensures forall x | x in s && x != s[i] :: x in r
    ensures forall x <- r :: x in s
  {
    assert s == s[..i] + [s[i]] + s[i + 1..];
    s[..i] + s[i + 1..]
  }

  lemma WithoutDistinct(s: seq<nat>, i: nat)
    requires i < |s| && Distinct(s)
    ensures Distinct(Without(s, i)) && s[i] !in Without(s, i)
  {}

  /** The smallest member of a queue, and the rest: what `sort.Ints` and a pop give. */
  method PopSmallest(queue: seq<nat>) returns (least: nat, rest: seq<nat>)
    requires queue != [] && Distinct(queue)
    ensures least in queue && forall q <- queue :: least <= q
    ensures Distinct(rest) && forall q :: q in rest <==> q in queue && q != least
  {
    var at := 0;
    for i := 1 to |queue|
      invariant 0 <= at < i && forall j | 0 <= j < i :: queue[at] <= queue[j]
    {
      if queue[i] < queue[at] {
        at := i;
      }
    }
    WithoutDistinct(queue, at);
    least, rest := queue[at], Without(queue, at);
  }

  /** The state of the ordering loop: `emitted` holds the edges already discounted. */
  ghost predicate Kahn(g: Graph, indegree: seq<nat>, ready: seq<nat>, order: seq<nat>, emitted: set<nat>) {
    && |indegree| == g.size && Distinct(ready)
    && (forall v | 0 <= v < g.size :: indegree[v] == |Waiting(g, emitted, v)|)
    && (forall v <- ready :: v < g.size && v !in order && indegree[v] == 0)
    && (forall v | 0 <= v < g.size && v !in order && indegree[v] == 0 :: v in ready)
  }

  /** What has been emitted so far is the start of a topological order. */
  ghost predicate Emitted(g: Graph, order: seq<nat>) {
    && Distinct(order)
    && (forall v <- order :: v < g.size)
    && (forall e, j | 0 <= e < |g.edges| && 0 <= j < |order| && order[j] == g.edges[e].to ::
          g.edges[e].from in order[..j])
  }

  ghost predicate Discounted(g: Graph, order: seq<nat>, emitted: set<nat>) {
    forall e: nat :: e in emitted <==> e < |g.edges| && g.edges[e].from in order
  }

  /** Each emitted node was the least one whose predecessors had all been emitted. */
  ghost predicate LeastFirst(g: Graph, order: seq<nat>) {
    forall k, v | 0 <= k < |order| && 0 <= v < order[k] :: v in order[..k] || Blocked(g, order[..k], v)
  }

  ghost predicate Blocked(g: Graph, before: seq<nat>, v: nat) {
    exists e :: 0 <= e < |g.edges| && g.edges[e].to == v && g.edges[e].from !in before
  }

  lemma EmitNext(g: Graph, indegree: seq<nat>, ready: seq<nat>, order: seq<nat>, v: nat, emitted: set<nat>)
    requires Indexed(g) && Kahn(g, indegree, ready, order, emitted)
    requires Emitted(g, order) && Discounted(g, order, emitted) && LeastFirst(g, order)
    requires v in ready && forall w <- ready :: v <= w
    ensures Emitted(g, order + [v]) && LeastFirst(g, order + [v]) && |order| < g.size
    ensures Waiting(g, emitted, v) == {}
  {
    var order' := order + [v];
    assert forall j | 0 <= j <= |order| :: order'[..j] == order[..j];
    assert order[..|order|] == order;
    assert Waiting(g, emitted, v) == {};
    forall e, j | 0 <= e < |g.edges| && 0 <= j < |order'| && order'[j] == g.edges[e].to
      ensures g.edges[e].from in order'[..j]
    {
      if j == |order| {
        assert e !in Waiting(g, emitted, v);
      }
    }
    forall w | 0 <= w < v ensures w in order || Blocked(g, order, w) {
      if w !in order {
        assert w !in ready;
        assert Waiting(g, emitted, w) != {};
        var e :| e in Waiting(g, emitted, w);
      }
    }
    DistinctFits(order', g.size);
  }

  lemma {:induction false} DistinctFits(order: seq<nat>, size: nat)
    requires Distinct(order) && forall v <- order :: v < size
    ensures |order| <= size
    ensures |order| == size ==> forall v: nat | v < size :: v in order
    decreases size
  {
    if order != [] {
      assert order[0] in order;
      if size - 1 in order {
        var i := Position(order, size - 1);
        WithoutDistinct(order, i);
        DistinctFits(Without(order, i), size - 1);
      } else {
        DistinctFits(order, size - 1);
      }
    }
  }

  lemma Stuck(g: Graph, indegree: seq<nat>, order: seq<nat>, emitted: set<nat>)
    requires Indexed(g) && Kahn(g, indegree, [], order, emitted)
    requires Discounted(g, order, emitted) && |order| < g.size
    ensures !Acyclic(g)
  {
    var stuck := Missing(order, g.size);
    forall v <- stuck ensures Fed(g, stuck, v) {
      StuckFed(g, indegree, order, emitted, v);
    }
    if stuck == {} {
      assert forall v: nat | v < g.size :: v !in stuck;
      Surplus(order, g.size);
    } else {
      var v :| v in stuck;
      CycleIn(g, stuck, {}, v);
    }
  }

  lemma StuckFed(g: Graph, indegree: seq<nat>, order: seq<nat>, emitted: set<nat>, v: nat)
    requires Indexed(g) && Kahn(g, indegree, [], order, emitted) && Discounted(g, order, emitted)
    requires v in Missing(order, g.size)
    ensures Fed(g, Missing(order, g.size), v)
  {
    assert Waiting(g, emitted, v) != {};
    var e :| e in Waiting(g, emitted, v);
    assert g.edges[e].to == v && g.edges[e].from in Missing(order, g.size);
  }

  ghost function Missing(order: seq<nat>, size: nat): (r: set<nat>)
    ensures forall v: nat :: v in r <==> v < size && v !in order
  {
    if size == 0 then {} else Missing(order, size - 1) + (if size - 1 in order then {} else {size - 1})
  }

  lemma {:induction false} Surplus(order: seq<nat>, size: nat)
    requires forall v: nat | v < size :: v in order
    ensures size <= |order|
    decreases size
  {
    if size > 0 {
      var i := Position(order, size - 1);
      Surplus(Without(order, i), size - 1);
    }
  }

  /** `topologicalOrder`: succeeds exactly on acyclic graphs, and then lists every node after its
      predecessors, taking the least available node each time. */
  method TopologicalOrder(g: Graph) returns (order: seq<nat>, ok: bool)
    requires Indexed(g)
    ensures ok <==> Acyclic(g)
    ensures ok ==> IsTopological(g, order) && LeastFirst(g, order)
  {
    var indegree, ready := InitialDegrees(g);
    order := [];
    ghost var emitted: set<nat> := {};
    while ready != []
      invariant Kahn(g, indegree, ready, order, emitted)
      invariant Emitted(g, order) && Discounted(g, order, emitted) && LeastFirst(g, order)
      decreases g.size - |order|
    {
      var index, rest := PopSmallest(ready);
      EmitNext(g, indegree, ready, order, index, emitted);
      indegree, ready, emitted := Discount(g, indegree, ready, rest, order, index, emitted);
      order := order + [index];
    }
    ok := |order| == g.size;
    DistinctFits(order, g.size);
    if ok {
      OrderedAcyclic(g, order);
    } else {
      Stuck(g, indegree, order, emitted);
    }
  }

  lemma IndegreeCounts(g: Graph, v: nat)
    requires Indexed(g) && v < g.size
    ensures |g.incoming[v]| == |Waiting(g, {}, v)|
  {
    assert forall j | 0 <= j < |g.incoming[v]| :: Into(g, v, g.incoming[v][j]);
    IncreasingSize(g.incoming[v], Waiting(g, {}, v));
  }

  lemma KahnStart(g: Graph, indegree: seq<nat>, ready: seq<nat>)
    requires Indexed(g) && |indegree| == g.size && Distinct(ready)
    requires forall v | 0 <= v < g.size :: indegree[v] == |g.incoming[v]|
    requires forall v: nat :: v in ready <==> v < g.size && indegree[v] == 0
    ensures Kahn(g, indegree, ready, [], {})
  {
    forall v | 0 <= v < g.size ensures indegree[v] == |Waiting(g, {}, v)| {
      IndegreeCounts(g, v);
    }
  }

  method InitialDegrees(g: Graph) returns (indegree: seq<nat>, ready: seq<nat>)
    requires Indexed(g)
    ensures Kahn(g, indegree, ready, [], {})
  {
    indegree, ready := [], [];
    for v := 0 to g.size
      invariant |indegree| == v && Distinct(ready)
      invariant forall w | 0 <= w < v :: indegree[w] == |g.incoming[w]|
      invariant forall w: nat :: w in ready <==> w < v && indegree[w] == 0
    {
      indegree := indegree + [|g.incoming[v]|];
      if |g.incoming[v]| == 0 {
        DistinctSnoc(ready, v);
        ready := ready + [v];
      }
    }
    KahnStart(g, indegree, ready);
  }

  lemma DegreeAfter(g: Graph, emitted: set<nat>, e: nat, v: nat)
    requires e < |g.edges| && e !in emitted
    ensures g.edges[e].to == v ==> |Waiting(g, emitted, v)| > 0
    ensures |Waiting(g, emitted + {e}, v)| == |Waiting(g, emitted, v)| - (if g.edges[e].to == v then 1 else 0)
  {
    if g.edges[e].to == v {
      assert Waiting(g, emitted + {e}, v) == Waiting(g, emitted, v) - {e};
    } else {
      assert Waiting(g, emitted + {e}, v) == Waiting(g, emitted, v);
    }
  }

  /** One decrement of the inner loop. */
  lemma DiscountOne(g: Graph, indegree: seq<nat>, ready: seq<nat>, order: seq<nat>, emitted: set<nat>, e: nat, to: nat)
    requires Kahn(g, indegree, ready, order, emitted)
    requires e < |g.edges| && e !in emitted && g.edges[e].to == to < g.size && to !in order
    ensures indegree[to] > 0
    ensures Kahn(g, indegree[to := indegree[to] - 1], if indegree[to] == 1 then ready + [to] else ready, order, emitted + {e})
  {
    DegreeAfter(g, emitted, e, to);
    var indegree' := indegree[to := indegree[to] - 1];
    forall v | 0 <= v < g.size ensures indegree'[v] == |Waiting(g, emitted + {e}, v)| {
      DegreeAfter(g, emitted, e, v);
    }
    assert to !in ready;
  }

  /** The edges discounted once the first `i` edges out of the emitted node have been followed. */
  ghost predicate DiscountedTo(emitted: set<nat>, emitted': set<nat>, adjacent: seq<nat>, i: nat)
    requires i <= |adjacent|
  {
    forall e: nat :: e in emitted' <==> e in emitted || e in adjacent[..i]
  }

  lemma DiscountStep(emitted: set<nat>, emitted': set<nat>, adjacent: seq<nat>, i: nat)
    requires i < |adjacent| && Increasing(adjacent) && DiscountedTo(emitted, emitted', adjacent, i) && adjacent[i] !in emitted
    ensures adjacent[i] !in emitted' && DiscountedTo(emitted, emitted' + {adjacent[i]}, adjacent, i + 1)
  {
    assert adjacent[..i + 1] == adjacent[..i] + [adjacent[i]];
  }

  lemma DiscountAll(g: Graph, order: seq<nat>, index: nat, emitted: set<nat>, emitted': set<nat>)
    requires Indexed(g) && index < g.size && Discounted(g, order, emitted)
    requires DiscountedTo(emitted, emitted', g.outgoing[index], |g.outgoing[index]|)
    ensures Discounted(g, order + [index], emitted')
  {
    var adjacent := g.outgoing[index];
    assert adjacent[..|adjacent|] == adjacent;
    assert forall j | 0 <= j < |adjacent| :: OutOf(g, index, adjacent[j]);
  }

  /** The inner loop: discounts the edges out of the emitted node, queueing each node it frees. */
  method Discount(g: Graph, indegree: seq<nat>, ghost ready: seq<nat>, rest: seq<nat>, ghost order: seq<nat>, index: nat, ghost emitted: set<nat>)
    returns (indegree': seq<nat>, ready': seq<nat>, ghost emitted': set<nat>)
    requires Indexed(g) && index in ready && Kahn(g, indegree, ready, order, emitted)
    requires Distinct(rest) && forall q :: q in rest <==> q in ready && q != index
    requires Emitted(g, order + [index]) && Discounted(g, order, emitted) && Waiting(g, emitted, index) == {}
    ensures Kahn(g, indegree', ready', order + [index], emitted')
    ensures Discounted(g, order + [index], emitted')
  {
    indegree', ready', emitted' := indegree, rest, emitted;
    var adjacent := g.outgoing[index];
    for i := 0 to |adjacent|
      invariant Kahn(g, indegree', ready', order + [index], emitted')
      invariant DiscountedTo(emitted, emitted', adjacent, i)
    {
      var e := adjacent[i];
      assert OutOf(g, index, e);
      var to := g.edges[e].to;
      Fresh(g, order, index, emitted, e);
      DiscountStep(emitted, emitted', adjacent, i);
      DiscountOne(g, indegree', ready', order + [index], emitted', e, to);
      ready' := if indegree'[to] == 1 then ready' + [to] else ready';
      indegree' := indegree'[to := indegree'[to] - 1];
      emitted' := emitted' + {e};
    }
    DiscountAll(g, order, index, emitted, emitted');
  }

  lemma Fresh(g: Graph, order: seq<nat>, index: nat, emitted: set<nat>, e: nat)
    requires OutOf(g, index, e) && Emitted(g, order + [index]) && Discounted(g, order, emitted)
    requires Waiting(g, emitted, index) == {}
    ensures e !in emitted && g.edges[e].to !in order + [index]
  {
    var order', to := order + [index], g.edges[e].to;
    assert index !in order by {
      assert order'[|order|] == index && forall i | 0 <= i < |order| :: order'[i] == order[i];
    }
    assert e !in emitted;
    assert forall j | 0 <= j < |order| :: order'[j] == order[j] && order'[..j] == order[..j];
    assert e !in Waiting(g, emitted, index);
  }

  // ---------------------------------------------------------------- Dominators

  /** Only Start lacks an incoming edge: what `validateEndpointDegree` establishes about the sources. */
  ghost predicate OneSource(g: Graph) {
    && |g.incoming| == g.size
    && forall v | 0 <= v < g.size :: v != g.start ==> g.incoming[v] != []
  }

  /** The paths to `n` are the paths to its predecessors, each one edge longer. */
  lemma DominatesVia(g: Graph, d: nat, n: nat)
    requires Indexed(g) && n < g.size && n != g.start && d != n
    ensures Dominates(g, d, n) <==> forall e: nat | Into(g, n, e) :: Dominates(g, d, g.edges[e].from)
  {
    if Dominates(g, d, n) {
      forall e: nat, es | Into(g, n, e) && IsPath(g, g.start, es, g.edges[e].from) ensures Visits(g, g.start, es, d) {
        PathSnoc(g, g.start, es, e);
        assert Visits(g, g.start, es + [e], d);
        VisitsSnoc(g, es, e, d);
      }
    }
    if forall e: nat | Into(g, n, e) :: Dominates(g, d, g.edges[e].from) {
      forall es | IsPath(g, g.start, es, n) ensures Visits(g, g.start, es, d) {
        var e := es[|es| - 1];
        assert Into(g, n, e) && es == es[..|es| - 1] + [e];
        VisitsSnoc(g, es[..|es| - 1], e, d);
      }
    }
  }

  lemma VisitsSnoc(g: Graph, es: seq<nat>, e: nat, d: nat)
    requires e < |g.edges| && d != g.edges[e].to
    ensures Visits(g, g.start, es + [e], d) <==> Visits(g, g.start, es, d)
  {
    if Visits(g, g.start, es, d) && d != g.start {
      var i :| 0 <= i < |es| && es[i] < |g.edges| && g.edges[es[i]].to == d;
      assert (es + [e])[i] == es[i];
    }
    if Visits(g, g.start, es + [e], d) && d != g.start {
      var i :| 0 <= i < |es + [e]| && (es + [e])[i] < |g.edges| && g.edges[(es + [e])[i]].to == d;
      assert es[i] == (es + [e])[i];
    }
  }

  lemma DominatesSelf(g: Graph, n: nat)
    ensures Dominates(g, n, n)
  {
    forall es | IsPath(g, g.start, es, n) ensures Visits(g, g.start, es, n) {
      if es != [] {
        assert es[|es| - 1] < |g.edges|;
      }
    }
  }

  lemma StartDominates(g: Graph, order: seq<nat>, d: nat)
    requires Indexed(g) && IsTopological(g, order)
    ensures Dominates(g, d, g.start) <==> d == g.start
  {
    DominatesSelf(g, g.start);
    if Dominates(g, d, g.start) {
      assert IsPath(g, g.start, [], g.start);
      assert Visits(g, g.start, [], d);
    }
  }

  /** Row `n` of the matrix is exact. */
  ghost predicate RowExact(g: Graph, row: seq<bool>, n: nat) {
    && |row| == g.size
    && forall d | 0 <= d < g.size :: row[d] <==> Dominates(g, d, n)
  }

  /** `dominators`: entry [n][d] of the matrix says whether every path from Start to n passes through d. */
  method Dominators(g: Graph, order: seq<nat>) returns (matrix: seq<seq<bool>>)
    requires Indexed(g) && OneSource(g) && IsTopological(g, order)
    ensures |matrix| == g.size
    ensures forall n | 0 <= n < g.size :: RowExact(g, matrix[n], n)
  {
    matrix := seq(g.size, _ => seq(g.size, _ => false));
    matrix := matrix[g.start := matrix[g.start][g.start := true]];
    StartRow(g, order, matrix[g.start]);
    for k := 0 to |order|
      invariant |matrix| == g.size && RowExact(g, matrix[g.start], g.start)
      invariant forall v | 0 <= v < g.size :: |matrix[v]| == g.size
      invariant forall j | 0 <= j < k :: order[j] < g.size && RowExact(g, matrix[order[j]], order[j])
    {
      var n := order[k];
      assert n in order;
      if n != g.start {
        PredecessorsExact(g, order, k, matrix);
        var row := CommonRow(g, n, matrix);
        matrix := matrix[n := row];
      }
    }
    forall n | 0 <= n < g.size ensures RowExact(g, matrix[n], n) {
      assert order[Position(order, n)] == n;
    }
  }

  lemma StartRow(g: Graph, order: seq<nat>, row: seq<bool>)
    requires Indexed(g) && IsTopological(g, order)
    requires |row| == g.size && forall d | 0 <= d < g.size :: row[d] <==> d == g.start
    ensures RowExact(g, row, g.start)
  {
    forall d | 0 <= d < g.size ensures row[d] <==> Dominates(g, d, g.start) {
      StartDominates(g, order, d);
    }
  }

  lemma PredecessorsExact(g: Graph, order: seq<nat>, k: nat, matrix: seq<seq<bool>>)
    requires Indexed(g) && IsTopological(g, order) && k < |order| && |matrix| == g.size
    requires forall j | 0 <= j < k :: order[j] < g.size && RowExact(g, matrix[order[j]], order[j])
    ensures forall e: nat | Into(g, order[k], e) :: g.edges[e].from < g.size && RowExact(g, matrix[g.edges[e].from], g.edges[e].from)
  {
    forall e: nat | Into(g, order[k], e) ensures g.edges[e].from < g.size && RowExact(g, matrix[g.edges[e].from], g.edges[e].from) {
      assert g.edges[e].from in order[..k];
    }
  }

  /** The two inner loops: a candidate stays when every predecessor has it, and the node itself is added. */
  method CommonRow(g: Graph, n: nat, matrix: seq<seq<bool>>) returns (row: seq<bool>)
    requires Indexed(g) && OneSource(g) && n < g.size && n != g.start && |matrix| == g.size
    requires forall e: nat | Into(g, n, e) :: g.edges[e].from < g.size && RowExact(g, matrix[g.edges[e].from], g.edges[e].from)
    ensures RowExact(g, row, n)
  {
    row := [];
    for candidate := 0 to g.size
      invariant |row| == candidate
      invariant forall d | 0 <= d < candidate && d != n :: row[d] <==> Dominates(g, d, n)
    {
      var isCommon := IsCommon(g, n, matrix, candidate);
      if candidate != n {
        DominatesVia(g, candidate, n);
      }
      row := row + [isCommon];
    }
    DominatesSelf(g, n);
    row := row[n := true];
  }

  method IsCommon(g: Graph, n: nat, matrix: seq<seq<bool>>, candidate: nat) returns (isCommon: bool)
    requires Indexed(g) && n < g.size && candidate < g.size && |matrix| == g.size
    requires forall e: nat | Into(g, n, e) :: g.edges[e].from < g.size && RowExact(g, matrix[g.edges[e].from], g.edges[e].from)
    ensures isCommon <==> forall e: nat | Into(g, n, e) :: Dominates(g, candidate, g.edges[e].from)
  {
    var into := g.incoming[n];
    for i := 0 to |into|
      invariant forall j | 0 <= j < i :: Into(g, n, into[j]) && Dominates(g, candidate, g.edges[into[j]].from)
    {
      var e := into[i];
      assert Into(g, n, e);
      if !matrix[g.edges[e].from][candidate] {
        return false;
      }
    }
    return true;
  }
}
