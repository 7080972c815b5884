/** The checks a saved checkpoint must pass before it is resumed, and which checkpoints pass them
    (workflow/checkpoint.go). */
module Loading {
  import opened Graphs
  import opened Topology
  import opened Options
  import opened Plans
  import opened Acceptance
  import opened Evaluation
  import opened Guarantees
  import opened Scheduler
  import opened Agreement
  import opened Alignment
  import opened Progress
  import opened Checkpoints

  // ---------------------------------------------------------------- What is checked

  ghost predicate ShapeMatches(c: Setup, ck: Checkpoint) {
    && PortsValid(c.world, ck.input, c.plan.inputs)
    && |ck.edges| == |c.plan.graph.edges| && |ck.nodes| == |ck.outputs| == |ck.failures| == |c.plan.nodes|
    && ck.done <= |c.plan.nodes|
  }

  ghost predicate IndexesRight(indexes: seq<nat>, size: nat) {
    Distinct(indexes) && forall n <- indexes :: n < size
  }

  /** `checkpointNodeSelectedRoute`. */
  ghost predicate SelectedRoute(c: Setup, ck: Checkpoint, n: nat, route: string)
    requires ShapeMatches(c, ck)
  {
    forall e: nat | e < |ck.edges| && OutOf(c.plan.graph, n, e) ::
      ck.edges[e] == if c.plan.graph.edges[e].route == route then EdgeTaken else EdgeSkipped
  }

  /** `validateCheckpointNodeFailure`. */
  ghost predicate FailureMatches(c: Setup, ck: Checkpoint, n: nat)
    requires ShapeMatches(c, ck) && n < |c.plan.nodes|
  {
    if !ck.nodes[n].Exception? then ck.failures[n].None?
    else
      && ck.failures[n].Some?
      && match c.plan.nodes[n].policy
         case RouteError => ck.outputs[n].None? && SelectedRoute(c, ck, n, ERROR)
         case ContinueWithDefault => ck.outputs[n] == Some(c.plan.nodes[n].defaults) && SelectedRoute(c, ck, n, SUCCESS)
         case Stop => false
  }

  /** `validateCheckpointNodeState`. */
  ghost predicate NodeMatches(c: Setup, ck: Checkpoint, n: nat)
    requires ShapeMatches(c, ck) && n < |c.plan.nodes|
  {
    && !ck.nodes[n].Running? && (ck.nodes[n].Ready? ==> n in ck.ready)
    && FailureMatches(c, ck, n)
    && (ck.outputs[n].Some? ==> PortsValid(c.world, ck.outputs[n].value, c.plan.nodes[n].outputs))
  }

  /** `validateDynamicInterrupts`. */
  predicate PointsRight(points: seq<Point>) {
    DistinctIds(points) && forall point <- points :: point.id != ""
  }

  /** `validateCheckpointPausedNode`, of a node with no child execution. */
  ghost predicate PausedMatches(c: Setup, ck: Checkpoint, p: PausedNode)
    requires ShapeMatches(c, ck)
  {
    && p.index < |c.plan.nodes| && ck.nodes[p.index].Interrupted? && p.paused.attempts >= 1
    && InputsRight(c.world, c.plan.nodes[p.index], p.paused.inputs)
    && PointsRight(p.paused.points) && p.paused.points != []
  }

  predicate Complete(status: Status) {
    Settled(status) || status.Failed?
  }

  ghost function CompleteNodes(ck: Checkpoint): set<nat> {
    set n: nat | n < |ck.nodes| && Complete(ck.nodes[n])
  }

  /** `validateExecutionCheckpoint`, and the accounting of handled failures. */
  ghost predicate Consistent(c: Setup, ck: Checkpoint) {
    && ShapeMatches(c, ck)
    && IndexesRight(ck.ready, |c.plan.nodes|)
    && (forall n: nat | n < |c.plan.nodes| :: NodeMatches(c, ck, n))
    && (forall p <- ck.paused :: PausedMatches(c, ck, p)) && Distinct(Indexes(ck.paused))
    && (forall n <- ck.ready :: ck.nodes[n].Ready?)
    && (forall n: nat | n < |c.plan.nodes| :: ck.nodes[n].Interrupted? <==> n in Indexes(ck.paused))
    && IndexesRight(ck.beforePassed, |c.plan.nodes|) && (forall n <- ck.beforePassed :: n in c.plan.before)
    && ck.done == |CompleteNodes(ck)|
    && (!ck.handledFailure ==> forall n: nat | n < |c.plan.nodes| :: !ck.nodes[n].Exception?)
  }

  function AllPoints(paused: seq<PausedNode>): seq<Point> {
    if paused == [] then [] else AllPoints(paused[..|paused| - 1]) + paused[|paused| - 1].paused.points
  }

  /** `validateCheckpointDynamicAlignment`: the reported contexts are as many as the saved interruptions,
      and each is one of them. */
  ghost predicate Aligned(info: Info, ck: Checkpoint) {
    && DistinctIds(AllPoints(ck.paused))
    && |AllPoints(ck.paused)| == |info.contexts|
    && forall point <- info.contexts :: point in AllPoints(ck.paused)
  }

  /** What loading a checkpoint checks of it. */
  ghost predicate Loads(c: Setup, info: Info, ck: Checkpoint) {
    info != NO_INFO && Consistent(c, ck) && Aligned(info, ck)
  }

  // ---------------------------------------------------------------- A saved checkpoint is consistent

  lemma SavedNodes(c: Setup, s: State)
    requires Inv(c, s) && s.inflight == map[] && ShapeMatches(c, Save(c, s))
    ensures forall n: nat | n < |c.plan.nodes| :: NodeMatches(c, Save(c, s), n)
  {
    var ck := Save(c, s);
    AwakeExactly(s.ready, s.paused);
    forall n: nat | n < |c.plan.nodes| ensures NodeMatches(c, ck, n) {
      assert NodeRight(c, s, n) && NodeRunnable(c.world, c.plan, n);
      forall e: nat | e < |s.edges| && OutOf(c.plan.graph, n, e) && s.nodes[n].Exception?
        ensures s.edges[e] == if c.plan.graph.edges[e].route == HandledRoute(c.plan.nodes[n]) then EdgeTaken else EdgeSkipped
      {
        assert EdgeRight(c, s, e);
      }
    }
  }

  lemma SavedPaused(c: Setup, s: State)
    requires Inv(c, s) && Named(c, s) && ShapeMatches(c, Save(c, s))
    ensures forall p <- Save(c, s).paused :: PausedMatches(c, Save(c, s), p)
    ensures Distinct(Indexes(Save(c, s).paused))
    ensures forall n: nat | n < |c.plan.nodes| :: s.nodes[n].Interrupted? <==> n in Indexes(Save(c, s).paused)
  {
    PausedBelowEntries(s.paused, |c.plan.nodes|);
    SortedExactly(s.paused.Keys, |c.plan.nodes|);
    forall p <- Save(c, s).paused ensures PausedMatches(c, Save(c, s), p) {
      assert NodeRight(c, s, p.index);
    }
    forall n: nat | n < |c.plan.nodes| ensures s.nodes[n].Interrupted? <==> n in s.paused {
      assert NodeRight(c, s, n);
    }
  }

  lemma SavedFrontier(c: Setup, s: State)
    requires Inv(c, s) && s.inflight == map[]
    ensures ShapeMatches(c, Save(c, s))
    ensures IndexesRight(Save(c, s).ready, |c.plan.nodes|) && forall n <- Save(c, s).ready :: s.nodes[n].Ready?
    ensures IndexesRight(Save(c, s).beforePassed, |c.plan.nodes|) && forall n <- Save(c, s).beforePassed :: n in c.plan.before
  {
    AwakeExactly(s.ready, s.paused);
    SortedExactly(s.beforePassed, |c.plan.nodes|);
    forall n <- Save(c, s).ready ensures s.nodes[n].Ready? {
      assert NodeRight(c, s, n);
    }
    FitsBelow(SettledNodes(s), |c.plan.nodes|);
  }

  lemma SavedCounts(c: Setup, s: State)
    requires Inv(c, s)
    ensures CompleteNodes(Save(c, s)) == SettledNodes(s)
  {
    forall n: nat | n < |c.plan.nodes| ensures !s.nodes[n].Failed? {
      assert NodeRight(c, s, n);
    }
  }

  lemma SavedConsistent(c: Setup, s: State)
    requires Inv(c, s) && Named(c, s) && s.inflight == map[]
    ensures Consistent(c, Save(c, s))
  {
    SavedFrontier(c, s);
    SavedNodes(c, s);
    SavedPaused(c, s);
    SavedCounts(c, s);
  }

  // ---------------------------------------------------------------- Alignment, exactly

  lemma {:induction false} AllPointsExactly(w: World, paused: map<nat, Paused>, k: nat)
    requires forall n <- paused :: PointsOf(w, paused[n].points, n)
    ensures var all := AllPoints(PausedBelow(paused, k));
            && DistinctIds(all)
            && (forall point <- all :: w.owner(point.id) in paused && w.owner(point.id) < k && point in paused[w.owner(point.id)].points)
            && (forall n: nat | n in paused && n < k :: forall point <- paused[n].points :: point in all)
    decreases k
  {
    if k > 0 {
      AllPointsExactly(w, paused, k - 1);
      var before := PausedBelow(paused, k - 1);
      if k - 1 in paused {
        assert PausedBelow(paused, k)[..|before|] == before;
        IdsApart(w, AllPoints(before), paused[k - 1].points, k - 1);
      } else {
        assert PausedBelow(paused, k) == before;
      }
    }
  }

  /** Lists of distinct points with the same members have the same length, and longer ones have more. */
  lemma {:induction false} SameLength(left: seq<Point>, right: seq<Point>)
    requires DistinctIds(left) && DistinctIds(right) && forall point <- left :: point in right
    ensures |left| <= |right|
    ensures |left| == |right| ==> forall point <- right :: point in left
    decreases |left|
  {
    if left != [] {
      var last := left[|left| - 1];
      assert last in right;
      var i :| 0 <= i < |right| && right[i] == last;
      var left', right' := left[..|left| - 1], right[..i] + right[i + 1..];
      assert forall point <- left' :: point in left && point.id != last.id;
      forall point <- left' ensures point in right' {
        var j :| 0 <= j < |right| && right[j] == point;
        assert right'[if j < i then j else j - 1] == point;
      }
      SameLength(left', right');
      assert forall point <- right :: point == last || point in right';
    }
  }

  /** A drained run's checkpoint is aligned with what the run reports exactly when no suspended node is still
      queued: a resumed run that pauses again before it has launched or resurfaced them all saves a checkpoint
      that cannot be loaded. */
  lemma AlignedExactly(c: Setup, s: State)
    requires Inv(c, s) && Minted(c, s)
    ensures Aligned(s.info, Save(c, s)) <==> NoneQueued(s)
  {
    var all := AllPoints(Save(c, s).paused);
    AllPointsExactly(c.world, s.paused, |c.plan.nodes|);
    forall point <- s.info.contexts ensures point in all {
      assert Asleep(s, c.world.owner(point.id));
    }
    SameLength(s.info.contexts, all);
    if NoneQueued(s) {
      forall point <- all ensures point in s.info.contexts {
        assert Asleep(s, c.world.owner(point.id));
      }
      SameLength(all, s.info.contexts);
    } else {
      var n :| n in s.paused && n in s.ready;
      assert NodeRight(c, s, n);
      var point := s.paused[n].points[0];
      assert point in s.paused[n].points && point in all && c.world.owner(point.id) == n && !Asleep(s, n);
    }
  }

  /** Which checkpoints load: those of runs that have dealt with every suspended node. */
  lemma LoadsExactly(c: Setup, s: State)
    requires Inv(c, s) && Minted(c, s) && s.inflight == map[] && s.pauseRequested
    ensures Loads(c, s.info, Save(c, s)) <==> NoneQueued(s)
  {
    SavedConsistent(c, s);
    AlignedExactly(c, s);
  }

  // ---------------------------------------------------------------- The checks themselves

  /** The loops that look for indexes out of range or repeated. */
  method CheckIndexes(indexes: seq<nat>, size: nat) returns (ok: bool)
    ensures ok <==> IndexesRight(indexes, size)
  {
    var seen: set<nat> := {};
    for i := 0 to |indexes|
      invariant forall n :: n in seen <==> n in indexes[..i]
      invariant IndexesRight(indexes[..i], size)
    {
      assert indexes[..i + 1] == indexes[..i] + [indexes[i]];
      if indexes[i] >= size || indexes[i] in seen {
        Repeated(indexes, i, size);
        return false;
      }
      DistinctSnoc(indexes[..i], indexes[i]);
      seen := seen + {indexes[i]};
    }
    assert indexes[..|indexes|] == indexes;
    return true;
  }

  lemma Repeated(indexes: seq<nat>, i: nat, size: nat)
    requires i < |indexes| && (indexes[i] >= size || indexes[i] in indexes[..i])
    ensures !IndexesRight(indexes, size)
  {
    assert indexes[i] in indexes;
    if indexes[i] in indexes[..i] {
      var j :| 0 <= j < i && indexes[..i][j] == indexes[i];
      assert indexes[j] == indexes[i];
    }
  }

  method CheckSelectedRoute(c: Setup, ck: Checkpoint, n: nat, route: string) returns (ok: bool)
    requires Indexed(c.plan.graph) && c.plan.graph.size == |c.plan.nodes| && ShapeMatches(c, ck) && n < |c.plan.nodes|
    ensures ok <==> SelectedRoute(c, ck, n, route)
  {
    var out := c.plan.graph.outgoing[n];
    assert forall e: nat | e < |ck.edges| && OutOf(c.plan.graph, n, e) :: e in out;
    for i := 0 to |out|
      invariant forall j | 0 <= j < i :: out[j] < |ck.edges| && ck.edges[out[j]] == if c.plan.graph.edges[out[j]].route == route then EdgeTaken else EdgeSkipped
    {
      assert OutOf(c.plan.graph, n, out[i]);
      if ck.edges[out[i]] != if c.plan.graph.edges[out[i]].route == route then EdgeTaken else EdgeSkipped {
        return false;
      }
    }
    return true;
  }

  method CheckFailure(c: Setup, ck: Checkpoint, n: nat) returns (ok: bool)
    requires Indexed(c.plan.graph) && c.plan.graph.size == |c.plan.nodes| && ShapeMatches(c, ck) && n < |c.plan.nodes|
    ensures ok <==> FailureMatches(c, ck, n)
  {
    if !ck.nodes[n].Exception? || ck.failures[n].None? {
      return !ck.nodes[n].Exception? && ck.failures[n].None?;
    }
    match c.plan.nodes[n].policy {
      case RouteError =>
        if ck.outputs[n].Some? {
          return false;
        }
        ok := CheckSelectedRoute(c, ck, n, ERROR);
      case ContinueWithDefault =>
        if ck.outputs[n] != Some(c.plan.nodes[n].defaults) {
          return false;
        }
        ok := CheckSelectedRoute(c, ck, n, SUCCESS);
      case Stop => ok := false;
    }
  }

  method CheckNodes(c: Setup, ck: Checkpoint) returns (ok: bool)
    requires Indexed(c.plan.graph) && c.plan.graph.size == |c.plan.nodes| && ShapeMatches(c, ck)
    ensures ok <==> forall n: nat | n < |c.plan.nodes| :: NodeMatches(c, ck, n)
  {
    for n := 0 to |c.plan.nodes|
      invariant forall m: nat | m < n :: NodeMatches(c, ck, m)
    {
      var failureRight := CheckFailure(c, ck, n);
      if !failureRight || ck.nodes[n].Running? || (ck.nodes[n].Ready? && n !in ck.ready)
        || (ck.outputs[n].Some? && !PortsValid(c.world, ck.outputs[n].value, c.plan.nodes[n].outputs)) {
        assert !NodeMatches(c, ck, n);
        return false;
      }
    }
    return true;
  }

  method CheckPaused(c: Setup, ck: Checkpoint) returns (ok: bool)
    requires ShapeMatches(c, ck)
    ensures ok <==> (forall p <- ck.paused :: PausedMatches(c, ck, p)) && Distinct(Indexes(ck.paused))
  {
    for i := 0 to |ck.paused|
      invariant forall j | 0 <= j < i :: PausedMatches(c, ck, ck.paused[j])
    {
      var p := ck.paused[i];
      if p.index >= |c.plan.nodes| || !ck.nodes[p.index].Interrupted? || p.paused.attempts < 1
        || !InputsRight(c.world, c.plan.nodes[p.index], p.paused.inputs) || !PointsRight(p.paused.points) || p.paused.points == [] {
        assert p in ck.paused && !PausedMatches(c, ck, p);
        return false;
      }
    }
    ok := CheckIndexes(Indexes(ck.paused), |c.plan.nodes|);
    assert forall j | 0 <= j < |ck.paused| :: PausedMatches(c, ck, ck.paused[j]) && Indexes(ck.paused)[j] < |c.plan.nodes|;
  }

  /** `validateCheckpointFrontiers`. */
  method CheckFrontiers(c: Setup, ck: Checkpoint) returns (ok: bool)
    requires ShapeMatches(c, ck) && IndexesRight(ck.ready, |c.plan.nodes|)
    ensures ok <==> (forall n <- ck.ready :: ck.nodes[n].Ready?)
                    && (forall n: nat | n < |c.plan.nodes| :: ck.nodes[n].Interrupted? <==> n in Indexes(ck.paused))
  {
    for i := 0 to |ck.ready|
      invariant forall j | 0 <= j < i :: ck.ready[j] < |ck.nodes| && ck.nodes[ck.ready[j]].Ready?
    {
      assert ck.ready[i] in ck.ready;
      if !ck.nodes[ck.ready[i]].Ready? {
        return false;
      }
    }
    for n := 0 to |c.plan.nodes|
      invariant forall m: nat | m < n :: ck.nodes[m].Interrupted? <==> m in Indexes(ck.paused)
    {
      if ck.nodes[n].Interrupted? != (n in Indexes(ck.paused)) {
        return false;
      }
    }
    return true;
  }

  /** `validateCheckpointDone`: counts the nodes that have completed. */
  method CountComplete(nodes: seq<Status>) returns (completed: nat)
    ensures completed == |set n: nat | n < |nodes| && Complete(nodes[n])|
  {
    completed := 0;
    ghost var counted: set<nat> := {};
    for n := 0 to |nodes|
      invariant counted == set m: nat | m < n && Complete(nodes[m])
      invariant completed == |counted|
    {
      if Complete(nodes[n]) {
        completed := completed + 1;
        counted := counted + {n};
      }
    }
  }

  /** Adds one node's interruptions to those seen, unless one of them has been seen. */
  method Collect(points: seq<Point>, stored: map<string, Point>, ghost before: seq<Point>) returns (stored': map<string, Point>, ok: bool)
    requires Stores(stored, before)
    ensures ok <==> DistinctIds(before + points)
    ensures ok ==> Stores(stored', before + points)
  {
    stored' := stored;
    assert before + points[..0] == before;
    for i := 0 to |points|
      invariant Stores(stored', before + points[..i])
    {
      if points[i].id in stored' {
        assert stored'[points[i].id] in before + points[..i];
        RepeatedId(before, points, i);
        return stored', false;
      }
      StoresNext(stored', before, points, i);
      stored' := stored'[points[i].id := points[i]];
    }
    assert before + points[..|points|] == before + points;
    return stored', true;
  }

  /** The map from identifiers holds exactly these points. */
  ghost predicate Stores(stored: map<string, Point>, points: seq<Point>) {
    && DistinctIds(points) && |stored| == |points|
    && (forall id <- stored :: stored[id].id == id && stored[id] in points)
    && (forall point <- points :: point.id in stored && stored[point.id] == point)
  }

  lemma StoresMore(stored: map<string, Point>, points: seq<Point>, point: Point)
    requires Stores(stored, points) && point.id !in stored
    ensures Stores(stored[point.id := point], points + [point])
  {
    assert forall j | 0 <= j < |points| :: points[j] in points;
    assert stored[point.id := point].Keys == stored.Keys + {point.id};
  }

  lemma StoresNext(stored: map<string, Point>, before: seq<Point>, points: seq<Point>, i: nat)
    requires i < |points| && Stores(stored, before + points[..i]) && points[i].id !in stored
    ensures Stores(stored[points[i].id := points[i]], before + points[..i + 1])
  {
    assert before + points[..i + 1] == before + points[..i] + [points[i]];
    StoresMore(stored, before + points[..i], points[i]);
  }

  lemma RepeatedId(before: seq<Point>, points: seq<Point>, i: nat)
    requires i < |points| && HasPoint(before + points[..i], points[i].id)
    ensures !DistinctIds(before + points)
  {
    var seen := before + points[..i];
    var point :| point in seen && point.id == points[i].id;
    var j :| 0 <= j < |seen| && seen[j] == point;
    assert (before + points)[j] == point && (before + points)[|before| + i] == points[i];
  }

  lemma {:induction false} PrefixRepeats(paused: seq<PausedNode>, i: nat)
    requires i <= |paused| && !DistinctIds(AllPoints(paused[..i]))
    ensures !DistinctIds(AllPoints(paused))
    decreases |paused| - i
  {
    if i == |paused| {
      assert paused[..i] == paused;
    } else {
      assert paused[..i + 1][..i] == paused[..i];
      var shorter := AllPoints(paused[..i]);
      assert AllPoints(paused[..i + 1])[..|shorter|] == shorter;
      PrefixRepeats(paused, i + 1);
    }
  }

  /** `validateCheckpointDynamicAlignment`. */
  method CheckAlignment(info: Info, ck: Checkpoint) returns (ok: bool)
    ensures ok <==> Aligned(info, ck)
  {
    var stored: map<string, Point> := map[];
    for i := 0 to |ck.paused|
      invariant Stores(stored, AllPoints(ck.paused[..i]))
    {
      assert ck.paused[..i + 1][..i] == ck.paused[..i];
      var unseen: bool;
      stored, unseen := Collect(ck.paused[i].paused.points, stored, AllPoints(ck.paused[..i]));
      if !unseen {
        PrefixRepeats(ck.paused, i + 1);
        return false;
      }
    }
    assert ck.paused[..|ck.paused|] == ck.paused;
    if |stored| != |info.contexts| {
      return false;
    }
    for i := 0 to |info.contexts|
      invariant forall j | 0 <= j < i :: info.contexts[j] in AllPoints(ck.paused)
    {
      var context := info.contexts[i];
      if context.id !in stored || stored[context.id] != context {
        assert context in info.contexts && context !in AllPoints(ck.paused);
        return false;
      }
    }
    return true;
  }

  /** `validateExecutionCheckpoint` and the accounting of handled failures. */
  method CheckConsistent(c: Setup, ck: Checkpoint) returns (ok: bool)
    requires Indexed(c.plan.graph) && c.plan.graph.size == |c.plan.nodes|
    ensures ok <==> Consistent(c, ck)
  {
    if !PortsValid(c.world, ck.input, c.plan.inputs) || |ck.edges| != |c.plan.graph.edges| || |ck.nodes| != |c.plan.nodes|
      || |ck.outputs| != |c.plan.nodes| || |ck.failures| != |c.plan.nodes| || ck.done > |c.plan.nodes| {
      return false;
    }
    ok := CheckIndexes(ck.ready, |c.plan.nodes|);
    if !ok { return; }
    ok := CheckNodes(c, ck);
    if !ok { return; }
    ok := CheckPaused(c, ck);
    if !ok { return; }
    ok := CheckFrontiers(c, ck);
    if !ok { return; }
    ok := CheckIndexes(ck.beforePassed, |c.plan.nodes|);
    if !ok || exists n <- ck.beforePassed :: n !in c.plan.before {
      return false;
    }
    var completed := CountComplete(ck.nodes);
    if completed != ck.done {
      return false;
    }
    ok := ck.handledFailure || forall n | 0 <= n < |ck.nodes| :: !ck.nodes[n].Exception?;
  }

  /** `decodeWorkflowCheckpoint`, of a checkpoint of this plan. */
  method Load(c: Setup, info: Info, ck: Checkpoint) returns (ok: bool)
    requires Indexed(c.plan.graph) && c.plan.graph.size == |c.plan.nodes|
    ensures ok <==> Loads(c, info, ck)
  {
    if info == NO_INFO {
      return false;
    }
    ok := CheckConsistent(c, ck);
    if ok {
      ok := CheckAlignment(info, ck);
    }
  }

  // ---------------------------------------------------------------- Resume targets

  /** `validateResumeTargets`: one answer at least, each to an interruption the run reported, none answered twice. */
  ghost predicate TargetsRight(info: Info, targets: seq<string>) {
    if info.contexts == [] then targets == []
    else
      && targets != [] && DistinctIds(info.contexts)
      && (forall i, j | 0 <= i < j < |targets| :: targets[i] != targets[j])
      && forall id <- targets :: id != "" && HasPoint(info.contexts, id)
  }

  method CheckTargets(info: Info, targets: seq<string>) returns (answered: Option<set<string>>)
    ensures answered.Some? <==> TargetsRight(info, targets)
    ensures answered.Some? ==> answered.value == set id | id in targets
  {
    if info.contexts == [] {
      return if targets == [] then Some({}) else None;
    }
    if targets == [] || !DistinctIds(info.contexts) {
      return None;
    }
    var normalized: set<string> := {};
    for i := 0 to |targets|
      invariant normalized == set id | id in targets[..i]
      invariant forall j, k | 0 <= j < k < i :: targets[j] != targets[k]
      invariant forall j | 0 <= j < i :: targets[j] != "" && HasPoint(info.contexts, targets[j])
    {
      assert targets[..i + 1] == targets[..i] + [targets[i]];
      if targets[i] == "" || !HasPoint(info.contexts, targets[i]) {
        assert targets[i] in targets;
        return None;
      }
      if targets[i] in normalized {
        var j :| 0 <= j < i && targets[..i][j] == targets[i];
        assert targets[j] == targets[i];
        return None;
      }
      normalized := normalized + {targets[i]};
    }
    assert targets[..|targets|] == targets;
    return Some(normalized);
  }

  /** A resumed run always has something to launch: if interruptions were reported, a suspended node that one
      of the accepted targets answers is in its queue. */
  lemma ResumeWakes(c: Setup, s: State, targets: seq<string>)
    requires Inv(c, s) && Minted(c, s) && s.inflight == map[] && s.info.contexts != [] && TargetsRight(s.info, targets)
    ensures var s' := Restore(Save(c, s), set id | id in targets);
            exists n :: n in s'.ready && n in s'.paused && !Sleeps(s', n)
  {
    var answered := set id | id in targets;
    var s' := Restore(Save(c, s), answered);
    RoundTrip(c, s, answered);
    RestoredQueue(c, s);
    assert targets[0] in targets;
    var point :| point in s.info.contexts && point.id == targets[0];
    var n := c.world.owner(point.id);
    assert Asleep(s, n) && point in s.paused[n].points && point.id in answered;
    assert n in s'.ready && n in s'.paused && !Sleeps(s', n);
  }

  /** A run resumed with some node unanswered that stops again at a before-breakpoint, before it has launched
      anything, saves a checkpoint that does not load. */
  lemma ResumedStopRejected(c: Setup, s: State)
    requires Startable(c, s) && Minted(c, s) && s.paused != map[] && Stops(c, s.ready, s.beforePassed) != []
    ensures Stopping(c, s).pauseRequested && !Loads(c, Stopping(c, s).info, Save(c, Stopping(c, s)))
  {
    StoppingInv(c, s);
    StoppingMinted(c, s);
    var n :| n in s.paused;
    assert n in s.ready;
    LoadsExactly(c, Stopping(c, s));
  }
}
