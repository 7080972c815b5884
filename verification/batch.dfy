/** A Batch node: a bounded map of its body over the items, one after another or by a pool of workers, that can pause
    inside items (workflow/batch.go). */
module Batches {
  import opened Options
  import opened Plans

  datatype Mode = Sequential | Parallel

  datatype ErrorMode = Terminate | ContinueWithNull | RemoveFailed

  datatype Config = Config(mode: Mode, errorMode: ErrorMode, maxConcurrency: nat, maxItems: nat)

  datatype ItemStatus = Pending | Succeeded | Failed | Interrupted

  datatype Item = Item(index: nat, status: ItemStatus, result: Option<Value>, child: Option<Value>, points: seq<string>)

  /** How one run of the body on an item ends; a canceled error comes from a cancelled context. */
  datatype Answer = Good(value: Value) | Bad(canceled: bool, message: string) | Pause(child: Value, points: seq<string>)

  /** The body on an item and its index, and the continuation of a paused one. */
  datatype Body = Body(start: (nat, Value) -> Answer, resume: (Value, set<string>) -> Answer)

  datatype BatchResult = Refused | Results(values: seq<Value>) | ItemError(index: nat, canceled: bool, message: string)
                       | Interruption(items: seq<Item>)

  // ---------------------------------------------------------------- What the items come to

  /** What an item comes to, and what a paused one is due to come to, however often it pauses. */
  datatype Course = Course(settled: (nat, Value) -> Answer, due: Value -> Answer)

  ghost predicate Leads(course: Course, a: Answer, settled: Answer) {
    if a.Pause? then course.due(a.child) == settled else a == settled
  }

  /** Pausing and resuming do not change what an item comes to. */
  ghost predicate Transparent(body: Body, course: Course) {
    && (forall i: nat, v :: !course.settled(i, v).Pause? && Leads(course, body.start(i, v), course.settled(i, v)))
    && (forall child, targets :: Leads(course, body.resume(child, targets), course.due(child)))
  }

  /** What one item adds to the results. */
  function Image(errorMode: ErrorMode, a: Answer): seq<Value> {
    match a
    case Good(v) => [v]
    case Bad(_, _) => if errorMode.ContinueWithNull? then [Null] else []
    case Pause(_, _) => []
  }

  /** The map: the images of the first `k` items, in item order. */
  function Mapped(errorMode: ErrorMode, course: Course, values: seq<Value>, k: nat): seq<Value>
    requires k <= |values|
  {
    if k == 0 then [] else Mapped(errorMode, course, values, k - 1) + Image(errorMode, course.settled(k - 1, values[k - 1]))
  }

  ghost predicate AllGood(course: Course, values: seq<Value>, k: nat)
    requires k <= |values|
  {
    forall i: nat | i < k :: course.settled(i, values[i]).Good?
  }

  /** Failures become nulls, each in its place. */
  lemma {:induction false} NullsInPlace(course: Course, values: seq<Value>, k: nat)
    requires k <= |values| && forall i: nat | i < k :: !course.settled(i, values[i]).Pause?
    ensures |Mapped(ContinueWithNull, course, values, k)| == k
    ensures forall i: nat | i < k ::
              Mapped(ContinueWithNull, course, values, k)[i] == if course.settled(i, values[i]).Good? then course.settled(i, values[i]).value else Null
    decreases k
  {
    if k > 0 {
      NullsInPlace(course, values, k - 1);
    }
  }

  /** `kept` are, in order, those of the first `k` items that succeed. */
  ghost predicate Survivors(course: Course, values: seq<Value>, k: nat, kept: seq<nat>)
    requires k <= |values|
  {
    && (forall a, b | 0 <= a < b < |kept| :: kept[a] < kept[b])
    && (forall i <- kept :: i < k) && (forall i: nat | i < k :: i in kept <==> course.settled(i, values[i]).Good?)
  }

  lemma MoreSurvivors(course: Course, values: seq<Value>, k: nat, kept: seq<nat>)
    requires k < |values| && Survivors(course, values, k, kept)
    ensures Survivors(course, values, k + 1, if course.settled(k, values[k]).Good? then kept + [k] else kept)
  {
    forall a | 0 <= a < |kept| ensures kept[a] < k {
      assert kept[a] in kept;
    }
    assert k in kept + [k];
  }

  /** The results are the values of the kept items, one to one. */
  ghost predicate Valued(course: Course, values: seq<Value>, kept: seq<nat>, results: seq<Value>) {
    && |results| == |kept|
    && forall j: nat | j < |kept| :: kept[j] < |values| && course.settled(kept[j], values[kept[j]]) == Good(results[j])
  }

  lemma MoreValued(course: Course, values: seq<Value>, kept: seq<nat>, results: seq<Value>, k: nat)
    requires Valued(course, values, kept, results) && k < |values| && course.settled(k, values[k]).Good?
    ensures Valued(course, values, kept + [k], results + [course.settled(k, values[k]).value])
  {}

  lemma RemovedStep(course: Course, values: seq<Value>, k: nat)
    requires k < |values|
    ensures Mapped(RemoveFailed, course, values, k + 1)
         == if course.settled(k, values[k]).Good? then Mapped(RemoveFailed, course, values, k) + [course.settled(k, values[k]).value]
            else Mapped(RemoveFailed, course, values, k)
  {}

  ghost predicate Removed(course: Course, values: seq<Value>, k: nat, kept: seq<nat>)
    requires k <= |values|
  {
    Survivors(course, values, k, kept) && Valued(course, values, kept, Mapped(RemoveFailed, course, values, k))
  }

  lemma RemovedGood(course: Course, values: seq<Value>, k: nat, kept: seq<nat>)
    requires k < |values| && Removed(course, values, k, kept) && course.settled(k, values[k]).Good?
    ensures Removed(course, values, k + 1, kept + [k])
  {
    RemovedStep(course, values, k);
    MoreSurvivors(course, values, k, kept);
    MoreValued(course, values, kept, Mapped(RemoveFailed, course, values, k), k);
  }

  lemma RemovedBad(course: Course, values: seq<Value>, k: nat, kept: seq<nat>)
    requires k < |values| && Removed(course, values, k, kept) && !course.settled(k, values[k]).Good?
    ensures Removed(course, values, k + 1, kept)
  {
    RemovedStep(course, values, k);
    MoreSurvivors(course, values, k, kept);
  }

  /** Where failures are removed, the results are the values of exactly the items that succeed, in item order. */
  lemma {:induction false} FailedRemoved(course: Course, values: seq<Value>, k: nat) returns (kept: seq<nat>)
    requires k <= |values|
    ensures Removed(course, values, k, kept)
    decreases k
  {
    if k == 0 {
      kept := [];
    } else {
      kept := FailedRemoved(course, values, k - 1);
      if course.settled(k - 1, values[k - 1]).Good? {
        RemovedGood(course, values, k - 1, kept);
        kept := kept + [k - 1];
      } else {
        RemovedBad(course, values, k - 1, kept);
      }
    }
  }

  /** Where no item fails, the results are the items' values one to one, in every error mode. */
  lemma {:induction false} GoodInPlace(errorMode: ErrorMode, course: Course, values: seq<Value>, k: nat)
    requires k <= |values| && AllGood(course, values, k)
    ensures |Mapped(errorMode, course, values, k)| == k
    ensures forall i: nat | i < k :: Mapped(errorMode, course, values, k)[i] == course.settled(i, values[i]).value
    decreases k
  {
    if k > 0 {
      GoodInPlace(errorMode, course, values, k - 1);
    }
  }

  // ---------------------------------------------------------------- The item checkpoints

  /** An item's checkpoint holds what the item has come to, or what it is due to come to. */
  ghost predicate ItemRight(errorMode: ErrorMode, course: Course, item: Item, i: nat, v: Value) {
    item.index == i &&
    match item.status
    case Pending => item.child.None? && item.result.None?
    case Succeeded => item.result.Some? && course.settled(i, v) == Good(item.result.value)
    case Failed => !errorMode.Terminate? && course.settled(i, v).Bad? && item.result.None?
    case Interrupted => item.child.Some? && item.result.None? && course.due(item.child.value) == course.settled(i, v)
  }

  ghost predicate ItemsRight(errorMode: ErrorMode, course: Course, items: seq<Item>, values: seq<Value>) {
    && |items| == |values|
    && forall i: nat | i < |items| :: ItemRight(errorMode, course, items[i], i, values[i])
  }

  predicate HasInterrupted(items: seq<Item>) {
    exists item <- items :: item.status.Interrupted?
  }

  /** How the items may end, or pause. */
  ghost predicate EndsRight(config: Config, course: Course, values: seq<Value>, r: BatchResult) {
    match r
    case Results(results) =>
      && results == Mapped(config.errorMode, course, values, |values|)
      && (config.errorMode.Terminate? ==> AllGood(course, values, |values|))
    case ItemError(_, _, _) => config.errorMode.Terminate? && !AllGood(course, values, |values|)
    case Interruption(items) => ItemsRight(config.errorMode, course, items, values) && HasInterrupted(items)
    case Refused => false
  }

  predicate IsOpen(item: Item) {
    item.status.Pending? || item.status.Interrupted?
  }

  /** How many items have not come to an end. */
  function Open(items: seq<Item>): nat {
    if items == [] then 0
    else Open(items[..|items| - 1]) + (if IsOpen(items[|items| - 1]) then 1 else 0)
  }

  lemma {:induction false} OpenShrinks(items: seq<Item>, items': seq<Item>, i: nat)
    requires |items'| == |items| && i < |items|
    requires forall j: nat | j < |items| && IsOpen(items'[j]) :: IsOpen(items[j])
    ensures Open(items') <= Open(items)
    ensures IsOpen(items[i]) && !IsOpen(items'[i]) ==> Open(items') < Open(items)
    decreases |items|
  {
    var last := |items| - 1;
    if last > 0 {
      OpenShrinks(items[..last], items'[..last], if i < last then i else 0);
    }
  }

  // ---------------------------------------------------------------- The node

  // ---------------------------------------------------------------- What one call does with its items

  /** `newBatchCheckpoint`, or the checkpoint a call is resumed from. */
  ghost function Begun(resume: Option<seq<Item>>, values: seq<Value>): (items: seq<Item>)
    ensures resume.None? ==> |items| == |values|
  {
    match resume
    case None => seq(|values|, i requires 0 <= i < |values| => Item(i, Pending, None, None, []))
    case Some(items) => items
  }

  /** An interruption of the item is answered; one paused at breakpoints alone needs no answer. */
  ghost predicate Answered(item: Item, targets: set<string>) {
    item.points == [] || exists id <- item.points :: id in targets
  }

  /** What the body answers an item in this call has become of it. */
  ghost predicate Came(body: Body, targets: set<string>, v: Value, before: Item, after: Item) {
    match if before.child.None? then body.start(before.index, v) else body.resume(before.child.value, targets)
    case Pause(child, points) => after.status.Interrupted? && after.child == Some(child) && after.points == points
    case Good(value) => after.status.Succeeded? && after.result == Some(value)
    case Bad(_, _) => after.status.Failed?
  }

  /** An item is interrupted because its body has just paused, or because nothing answers it. */
  ghost predicate Excused(body: Body, targets: set<string>, v: Value, before: Item, after: Item) {
    after.status.Interrupted? && (Came(body, targets, v, before, after) || (after == before && !Answered(before, targets)))
  }

  /** A batch pauses only for such an item; one that runs its items in parallel has run all that are answered. */
  ghost predicate PausesFor(config: Config, body: Body, targets: set<string>, values: seq<Value>, begun: seq<Item>, items: seq<Item>) {
    && |items| == |values| == |begun|
    && (exists i: nat :: i < |items| && Excused(body, targets, values[i], begun[i], items[i]))
    && (config.mode.Parallel? ==>
          forall i: nat | i < |items| && items[i].status.Interrupted? :: Excused(body, targets, values[i], begun[i], items[i]))
  }

  class Batch {
    const config: Config
    const values: seq<Value>
    const body: Body
    const targets: set<string>
    ghost const course: Course

    /** The batch checkpoint, rewritten in place; as it was when the call began; and the items run in this call. */
    var items: seq<Item>
    ghost const begun: seq<Item>
    ghost var ran: set<nat>

    ghost predicate Valid()
      reads this
    {
      && Transparent(body, course) && ItemsRight(config.errorMode, course, items, values)
      && (config.mode.Parallel? ==> config.maxConcurrency >= 1) && Kept()
    }

    /** The items that were run have become what the body answered, and the others are as they were. */
    ghost predicate Kept()
      reads this
    {
      && |begun| == |items| == |values|
      && forall j: nat | j < |items| :: if j in ran then Came(body, targets, values[j], begun[j], items[j]) else items[j] == begun[j]
    }

    /** `newBatchCheckpoint`, or the checkpoint of the run that is resumed with these targets. */
    constructor (config: Config, values: seq<Value>, body: Body, ghost course: Course, resume: Option<seq<Item>>, targets: set<string>)
      requires Transparent(body, course) && (config.mode.Parallel? ==> config.maxConcurrency >= 1)
      requires resume.Some? ==> ItemsRight(config.errorMode, course, resume.value, values)
      ensures Valid() && this.config == config && this.values == values && this.course == course && this.body == body && this.targets == targets
      ensures begun == Begun(resume, values) && ran == {}
    {
      this.config, this.values, this.body, this.course, this.targets := config, values, body, course, targets;
      begun, ran := Begun(resume, values), {};
      if resume.None? {
        items := seq(|values|, i requires 0 <= i < |values| => Item(i, Pending, None, None, []));
      } else {
        items := resume.value;
      }
    }

    /** `batchItemHasResumeTarget`: an item paused at breakpoints alone needs no target. */
    predicate HasResumeTarget(item: Item) {
      item.points == [] || exists id <- item.points :: id in targets
    }

    /** `runResumableItem`: the item from the start, or from where it paused. */
    function Genuine(item: Item): Answer
      requires item.index < |values|
    {
      if item.child.None? then body.start(item.index, values[item.index]) else body.resume(item.child.value, targets)
    }

    lemma GenuineLeads(i: nat)
      requires Valid() && i < |items| && (items[i].status.Pending? || items[i].status.Interrupted?)
      ensures items[i].index == i && Leads(course, Genuine(items[i]), course.settled(i, values[i]))
    {
      assert ItemRight(config.errorMode, course, items[i], i, values[i]);
    }

    function StatusAfter(a: Answer): ItemStatus {
      match a
      case Good(_) => Succeeded
      case Pause(_, _) => Interrupted
      case Bad(_, _) => Failed
    }

    /** `applyBatchOutcome`: the item takes its outcome, and a failure ends the batch when it is to terminate. */
    method ApplyOutcome(i: nat, a: Answer) returns (failed: bool)
      requires Valid() && i < |items| && i !in ran && IsOpen(items[i]) && items[i].index == i && a == Genuine(items[i])
      modifies this`items, this`ran
      ensures failed <==> a.Bad? && config.errorMode.Terminate?
      ensures !failed ==> Valid() && |items| == |old(items)| && items[i].status == StatusAfter(a)
      ensures !failed ==> forall j: nat | j < |items| && j != i :: items[j] == old(items)[j]
      ensures !failed ==> ran == old(ran) + {i}
    {
      GenuineLeads(i);
      var item := items[i].(result := None, child := None, points := []);
      failed := false;
      match a {
        case Pause(child, points) => item := item.(status := Interrupted, child := Some(child), points := points);
        case Good(v) => item := item.(status := Succeeded, result := Some(v));
        case Bad(_, _) =>
          failed := config.errorMode.Terminate?;
          if !failed {
            item := item.(status := Failed);
          }
      }
      assert ItemRight(config.errorMode, course, items[i], i, values[i]);
      items := items[i := item];
      ran := ran + {i};
    }

    /** `batchResults`: the results in item order, a null or nothing for an item that failed. */
    method Collect() returns (results: seq<Value>)
      requires Valid() && forall item <- items :: item.status.Succeeded? || item.status.Failed?
      ensures EndsRight(config, course, values, Results(results))
    {
      results := [];
      for i := 0 to |items|
        invariant results == Mapped(config.errorMode, course, values, i)
        invariant config.errorMode.Terminate? ==> AllGood(course, values, i)
      {
        assert ItemRight(config.errorMode, course, items[i], i, values[i]) && items[i] in items;
        if items[i].status.Succeeded? {
          results := results + [items[i].result.value];
        } else if config.errorMode.ContinueWithNull? {
          results := results + [Null];
        }
      }
    }

    /** `runResumableSequential`: in terminate mode it reports the first item that fails. */
    method RunSequential() returns (r: BatchResult)
      requires Valid() && ran == {} && config.mode.Sequential?
      modifies this`items, this`ran
      ensures r.Interruption? ==> PausesFor(config, body, targets, values, begun, r.items)
      ensures EndsRight(config, course, values, r)
      ensures r.ItemError? ==> r.index < |values| && AllGood(course, values, r.index) && course.settled(r.index, values[r.index]) == Bad(r.canceled, r.message)
    {
      for i := 0 to |items|
        invariant Valid() && |items| == |values|
        invariant forall j: nat | j < i :: items[j].status.Succeeded? || items[j].status.Failed?
        invariant forall j <- ran :: j < i
      {
        if items[i].status.Succeeded? || items[i].status.Failed? {
          continue;
        }
        if items[i].status.Interrupted? && !HasResumeTarget(items[i]) {
          PausesAt(i);
          return Interruption(items);
        }
        GenuineLeads(i);
        FirstGood(i);
        var a := Genuine(items[i]);
        var failed := ApplyOutcome(i, a);
        if failed {
          return ItemError(i, a.canceled, a.message);
        }
        if items[i].status.Interrupted? {
          PausesAt(i);
          return Interruption(items);
        }
      }
      var results := Collect();
      r := Results(results);
    }

    lemma PausesAt(i: nat)
      requires Valid() && config.mode.Sequential? && i < |items| && items[i].status.Interrupted? && (i !in ran ==> !HasResumeTarget(items[i]))
      ensures HasInterrupted(items) && PausesFor(config, body, targets, values, begun, items)
    {
      assert items[i] in items;
      assert Excused(body, targets, values[i], begun[i], items[i]);
    }

    lemma FirstGood(i: nat)
      requires Valid() && i < |items| && forall j: nat | j < i :: items[j].status.Succeeded? || items[j].status.Failed?
      ensures config.errorMode.Terminate? ==> AllGood(course, values, i)
    {
      forall j: nat | j < i && config.errorMode.Terminate? ensures course.settled(j, values[j]).Good? {
        assert ItemRight(config.errorMode, course, items[j], j, values[j]);
      }
    }

    // -------------------------------------------------------------- The pool

    /** `batchCandidates`: while some item is interrupted only interrupted items with a target run, otherwise
        every item that has not run yet. */
    method Candidates() returns (candidates: seq<nat>, hasInterrupted: bool)
      requires Valid()
      ensures hasInterrupted == HasInterrupted(items)
      ensures forall i: nat :: i in candidates <==> i < |items| && IsCandidate(items[i], hasInterrupted)
      ensures forall i, j | 0 <= i < j < |candidates| :: candidates[i] < candidates[j]
    {
      hasInterrupted, candidates := HasInterrupted(items), [];
      for i := 0 to |items|
        invariant forall k: nat :: k in candidates <==> k < i && IsCandidate(items[k], hasInterrupted)
        invariant forall j | 0 <= j < |candidates| :: candidates[j] < i
        invariant forall j, k | 0 <= j < k < |candidates| :: candidates[j] < candidates[k]
      {
        assert ItemRight(config.errorMode, course, items[i], i, values[i]);
        if IsCandidate(items[i], hasInterrupted) {
          candidates := candidates + [items[i].index];
        }
      }
    }

    predicate IsCandidate(item: Item, hasInterrupted: bool) {
      if hasInterrupted then item.status.Interrupted? && HasResumeTarget(item) else item.status.Pending?
    }

    /** What the pool has gathered: an outcome is the item's own, unless a failure had already cancelled the pool. */
    ghost predicate Gathered(candidates: seq<nat>, next: nat, working: set<nat>, outcomes: map<nat, Answer>, failed: bool)
      reads this
    {
      && next <= |candidates| && |items| == |values|
      && (forall i <- outcomes :: i in candidates[..next] && i !in working && i < |items| && items[i].index == i)
      && (forall i <- working :: i in candidates[..next] && i < |items| && items[i].index == i)
      && (forall i <- candidates[..next] :: i in outcomes || i in working)
      && (failed ==> config.errorMode.Terminate? && exists i <- outcomes :: outcomes[i].Bad? && outcomes[i] == Genuine(items[i]))
      && (!failed ==> forall i <- outcomes :: outcomes[i] == Genuine(items[i]) && (config.errorMode.Terminate? ==> !outcomes[i].Bad?))
    }

    lemma Dispatched(candidates: seq<nat>, next: nat, working: set<nat>, outcomes: map<nat, Answer>, failed: bool)
      requires Valid() && Gathered(candidates, next, working, outcomes, failed) && next < |candidates|
      requires forall i, j | 0 <= i < j < |candidates| :: candidates[i] < candidates[j]
      requires candidates[next] < |items|
      ensures Gathered(candidates, next + 1, working + {candidates[next]}, outcomes, failed) && candidates[next] !in working
    {
      var i := candidates[next];
      assert candidates[..next + 1] == candidates[..next] + [i];
      assert i !in candidates[..next];
      assert ItemRight(config.errorMode, course, items[i], i, values[i]);
    }

    lemma Finished(candidates: seq<nat>, next: nat, working: set<nat>, outcomes: map<nat, Answer>, failed: bool, cancelled: bool, i: nat, answer: Answer)
      requires Gathered(candidates, next, working, outcomes, failed) && i in working && (cancelled ==> failed)
      requires cancelled || answer == Genuine(items[i])
      ensures Gathered(candidates, next, working - {i}, outcomes[i := answer], failed || (config.errorMode.Terminate? && answer.Bad?))
    {
      var all := outcomes[i := answer];
      assert forall j <- outcomes :: j != i && all[j] == outcomes[j];
      if failed {
        var j :| j in outcomes && outcomes[j].Bad? && outcomes[j] == Genuine(items[j]);
        assert j in all && all[j].Bad? && all[j] == Genuine(items[j]);
      } else if config.errorMode.Terminate? && answer.Bad? {
        assert i in all && all[i].Bad? && all[i] == Genuine(items[i]);
      }
    }

    /** `runBatchCandidates`: workers take items in order and finish them in any order; the first failure may, at any
        later moment, cancel the items at work and keep further ones from being handed out. */
    method RunCandidates(candidates: seq<nat>) returns (outcomes: map<nat, Answer>)
      requires Valid() && candidates != [] && config.maxConcurrency >= 1
      requires forall i, j | 0 <= i < j < |candidates| :: candidates[i] < candidates[j]
      requires forall i <- candidates :: i < |items|
      ensures outcomes.Keys <= (set i | i in candidates)
      ensures || (exists i <- outcomes :: i < |items| && items[i].index == i && config.errorMode.Terminate? && outcomes[i].Bad? && outcomes[i] == Genuine(items[i]))
              || forall i <- candidates :: i in outcomes && items[i].index == i && outcomes[i] == Genuine(items[i]) && (config.errorMode.Terminate? ==> !outcomes[i].Bad?)
    {
      outcomes := map[];
      var next, working: set<nat>, failed, cancelled, closed := 0, {}, false, false, false;
      var workers := if config.maxConcurrency < |candidates| then config.maxConcurrency else |candidates|;
      while working != {} || (next < |candidates| && !closed)
        invariant Gathered(candidates, next, working, outcomes, failed) && |working| <= workers
        invariant cancelled ==> failed
        invariant closed ==> cancelled
        decreases |candidates| - next, |working|, !cancelled, !closed
      {
        if
        case next < |candidates| && !closed && |working| < workers =>
          assert candidates[next] in candidates;
          Dispatched(candidates, next, working, outcomes, failed);
          working, next := working + {candidates[next]}, next + 1;
        case working != {} =>
          var i :| i in working;
          var answer: Answer := *;
          if !cancelled {
            answer := Genuine(items[i]);
          }
          Finished(candidates, next, working, outcomes, failed, cancelled, i, answer);
          outcomes, working := outcomes[i := answer], working - {i};
          failed := failed || (config.errorMode.Terminate? && answer.Bad?);
        case failed && !cancelled =>
          cancelled := true;
        case cancelled && !closed =>
          closed := true;
      }
    }

    /** `batchCandidateFailure`: the first failure that is not a cancellation, or else the last cancellation. */
    method CandidateFailure(candidates: seq<nat>, outcomes: map<nat, Answer>) returns (r: Option<BatchResult>)
      ensures r.None? <==> !config.errorMode.Terminate? || forall i <- candidates | i in outcomes :: !outcomes[i].Bad?
      ensures r.Some? ==> r.value.ItemError? && r.value.index in outcomes && outcomes[r.value.index] == Bad(r.value.canceled, r.value.message)
      ensures r.Some? && r.value.canceled ==> forall i <- candidates | i in outcomes && outcomes[i].Bad? :: outcomes[i].canceled
    {
      r := None;
      if !config.errorMode.Terminate? {
        return;
      }
      for k := 0 to |candidates|
        invariant r.None? ==> forall j | 0 <= j < k && candidates[j] in outcomes :: !outcomes[candidates[j]].Bad?
        invariant forall j | 0 <= j < k && candidates[j] in outcomes && outcomes[candidates[j]].Bad? :: outcomes[candidates[j]].canceled
        invariant r.Some? ==> r.value.ItemError? && r.value.canceled && r.value.index in candidates && r.value.index in outcomes
        invariant r.Some? ==> outcomes[r.value.index] == Bad(true, r.value.message)
      {
        var i := candidates[k];
        assert i in candidates;
        if i in outcomes && outcomes[i].Bad? {
          r := Some(ItemError(i, outcomes[i].canceled, outcomes[i].message));
          if !outcomes[i].canceled {
            return;
          }
        }
      }
    }

    /** The loop that applies the outcomes of a round, in item order. */
    method ApplyAll(candidates: seq<nat>, outcomes: map<nat, Answer>)
      requires Valid() && candidates != []
      requires forall i, j | 0 <= i < j < |candidates| :: candidates[i] < candidates[j]
      requires forall i <- candidates :: i < |items|
      requires forall i <- candidates :: i in outcomes && items[i].index == i && outcomes[i] == Genuine(items[i])
      requires forall i <- candidates :: config.errorMode.Terminate? ==> !outcomes[i].Bad?
      requires forall i <- candidates :: IsOpen(items[i]) && i !in ran
      modifies this`items, this`ran
      ensures Valid() && |items| == |old(items)| && forall i <- candidates :: i in ran
      ensures forall j: nat | j < |items| && j !in candidates :: items[j] == old(items)[j]
      ensures !HasInterrupted(items) ==> Open(items) < Open(old(items))
    {
      ghost var before := items;
      assert forall j | 0 <= j < |candidates| :: candidates[j] in candidates;
      for k := 0 to |candidates|
        invariant Valid() && |items| == |before|
        invariant forall j | 0 <= j < |candidates| :: candidates[j] < |items|
        invariant forall j: nat | j < |items| && IsOpen(items[j]) :: IsOpen(before[j])
        invariant k > 0 ==> !items[candidates[0]].status.Pending?
        invariant forall j | k <= j < |candidates| :: items[candidates[j]] == before[candidates[j]] && candidates[j] !in ran
        invariant forall j | 0 <= j < k :: candidates[j] in ran
        invariant forall j: nat | j < |items| && j !in candidates :: items[j] == before[j]
      {
        var i := candidates[k];
        assert i in candidates;
        var failed := ApplyOutcome(i, outcomes[i]);
      }
      FewerOpen(before, items, candidates[0]);
    }

    /** A round that leaves nothing interrupted leaves fewer items open. */
    static lemma FewerOpen(before: seq<Item>, after: seq<Item>, i: nat)
      requires |after| == |before| && i < |after| && IsOpen(before[i]) && !after[i].status.Pending?
      requires forall j: nat | j < |after| && IsOpen(after[j]) :: IsOpen(before[j])
      ensures !HasInterrupted(after) ==> Open(after) < Open(before)
    {
      OpenShrinks(before, after, i);
      assert after[i] in after;
    }

    /** `runResumableParallel`: rounds of the pool, until no item is left to run or some item is interrupted. */
    method RunParallel() returns (r: BatchResult)
      requires Valid() && config.maxConcurrency >= 1 && ran == {}
      modifies this`items, this`ran
      ensures EndsRight(config, course, values, r)
      ensures r.Interruption? ==> PausesFor(config, body, targets, values, begun, r.items)
    {
      while true
        invariant Valid() && (HasInterrupted(items) ==> ran == {})
        decreases Open(items)
      {
        var candidates, hasInterrupted := Candidates();
        if candidates == [] {
          if hasInterrupted {
            PausesUnanswered(items, candidates, hasInterrupted);
            return Interruption(items);
          }
          NoneLeft(candidates);
          var results := Collect();
          return Results(results);
        }
        var outcomes := RunCandidates(candidates);
        var failure := CandidateFailure(candidates, outcomes);
        OutcomesLead(candidates, hasInterrupted, outcomes);
        if failure.Some? {
          return failure.value;
        }
        NotRanYet(candidates, hasInterrupted);
        ghost var before := items;
        ApplyAll(candidates, outcomes);
        if HasInterrupted(items) {
          PausesUnanswered(before, candidates, hasInterrupted);
          return Interruption(items);
        }
      }
    }

    /** A candidate has not been run in this call. */
    lemma NotRanYet(candidates: seq<nat>, hasInterrupted: bool)
      requires Valid() && hasInterrupted == HasInterrupted(items) && (hasInterrupted ==> ran == {})
      requires forall i: nat :: i in candidates <==> i < |items| && IsCandidate(items[i], hasInterrupted)
      ensures forall i <- candidates :: i !in ran && IsOpen(items[i])
    {
      forall j: nat | j in ran && j < |items| ensures !items[j].status.Pending? {
        assert Came(body, targets, values[j], begun[j], items[j]);
      }
    }

    /** Whatever is interrupted after a round has just paused, or was interrupted before and is not answered. */
    lemma PausesUnanswered(before: seq<Item>, candidates: seq<nat>, hasInterrupted: bool)
      requires Valid() && HasInterrupted(items) && |before| == |items|
      requires hasInterrupted == HasInterrupted(before)
      requires forall i: nat :: i in candidates <==> i < |before| && IsCandidate(before[i], hasInterrupted)
      requires forall j: nat | j < |items| && j !in candidates :: items[j] == before[j]
      requires candidates != [] ==> forall i <- candidates :: i in ran
      ensures PausesFor(config, body, targets, values, begun, items)
    {
      forall i: nat | i < |items| && items[i].status.Interrupted? ensures Excused(body, targets, values[i], begun[i], items[i]) {
        if i !in ran {
          assert i !in candidates && before[i] in before;
        }
      }
      var item :| item in items && item.status.Interrupted?;
      var i :| 0 <= i < |items| && items[i] == item;
      assert Excused(body, targets, values[i], begun[i], items[i]);
    }

    lemma NoneLeft(candidates: seq<nat>)
      requires Valid() && candidates == [] && !HasInterrupted(items)
      requires forall i: nat :: i in candidates <==> i < |items| && IsCandidate(items[i], false)
      ensures forall item <- items :: item.status.Succeeded? || item.status.Failed?
    {
      forall item <- items ensures item.status.Succeeded? || item.status.Failed? {
        var i :| 0 <= i < |items| && items[i] == item;
        assert i !in candidates;
      }
    }

    /** A round of the pool either shows a genuine failure in terminate mode or holds every candidate's own outcome. */
    lemma OutcomesLead(candidates: seq<nat>, hasInterrupted: bool, outcomes: map<nat, Answer>)
      requires Valid() && forall i: nat :: i in candidates <==> i < |items| && IsCandidate(items[i], hasInterrupted)
      requires outcomes.Keys <= (set i | i in candidates)
      requires || (exists i <- outcomes :: i < |items| && items[i].index == i && config.errorMode.Terminate? && outcomes[i].Bad? && outcomes[i] == Genuine(items[i]))
               || forall i <- candidates :: i in outcomes && items[i].index == i && outcomes[i] == Genuine(items[i]) && (config.errorMode.Terminate? ==> !outcomes[i].Bad?)
      ensures if config.errorMode.Terminate? && exists i <- candidates :: i in outcomes && outcomes[i].Bad? then !AllGood(course, values, |values|)
              else forall i <- candidates :: i in outcomes && items[i].index == i && outcomes[i] == Genuine(items[i])
    {
      if i :| i in outcomes && i < |items| && items[i].index == i && config.errorMode.Terminate? && outcomes[i].Bad? && outcomes[i] == Genuine(items[i]) {
        assert i in candidates;
        GenuineLeads(i);
        assert !course.settled(i, values[i]).Good?;
      }
    }

    /** `runResumableItems`: whatever the mode, the schedule of the workers and the pauses so far, the batch ends as
        the map over its items, or pauses with a checkpoint from which it will. */
    method Run() returns (r: BatchResult)
      requires Valid() && ran == {}
      modifies this`items, this`ran
      ensures r.Interruption? ==> PausesFor(config, body, targets, values, begun, r.items)
      ensures EndsRight(config, course, values, r)
    {
      if config.mode.Sequential? {
        r := RunSequential();
      } else {
        r := RunParallel();
      }
    }
  }

  // ---------------------------------------------------------------- Whole batches

  /** `compiledBatch.Invoke`: a batch over a list of at most `maxItems` items. */
  method Invoke(config: Config, input: Value, body: Body, ghost course: Course, resume: Option<seq<Item>>, targets: set<string>)
      returns (r: BatchResult)
    requires Transparent(body, course) && (config.mode.Parallel? ==> config.maxConcurrency >= 1)
    requires resume.Some? ==> DecodeList(input).Some? && ItemsRight(config.errorMode, course, resume.value, DecodeList(input).value)
    ensures r.Refused? <==> DecodeList(input).None? || |DecodeList(input).value| > config.maxItems
    ensures !r.Refused? ==> EndsRight(config, course, DecodeList(input).value, r)
    ensures r.Interruption? ==> PausesFor(config, body, targets, DecodeList(input).value, Begun(resume, DecodeList(input).value), r.items)
  {
    var values := DecodeList(input);
    if values.None? || |values.value| > config.maxItems {
      return Refused;
    }
    if values.value == [] {
      return Results([]);
    }
    var batch := new Batch(config, values.value, body, course, resume, targets);
    r := batch.Run();
  }

  /** A batch resumed once for each set of targets, as long as it is interrupted. */
  method InvokeAndResume(config: Config, input: Value, body: Body, ghost course: Course, resumes: seq<set<string>>) returns (r: BatchResult)
    requires Transparent(body, course) && (config.mode.Parallel? ==> config.maxConcurrency >= 1)
    ensures r.Refused? <==> DecodeList(input).None? || |DecodeList(input).value| > config.maxItems
    ensures !r.Refused? ==> EndsRight(config, course, DecodeList(input).value, r)
  {
    r := Invoke(config, input, body, course, None, {});
    for i := 0 to |resumes|
      invariant r.Refused? <==> DecodeList(input).None? || |DecodeList(input).value| > config.maxItems
      invariant !r.Refused? ==> EndsRight(config, course, DecodeList(input).value, r)
    {
      if r.Interruption? {
        r := Invoke(config, input, body, course, Some(r.items), resumes[i]);
      }
    }
  }

  /** Sequential and parallel batches, under any schedule and with any pauses on the way, succeed on the same items
      and with the same results. */
  lemma ModesAgree(config: Config, config': Config, course: Course, values: seq<Value>, r: BatchResult, r': BatchResult)
    requires config'.errorMode == config.errorMode
    requires EndsRight(config, course, values, r) && EndsRight(config', course, values, r')
    requires !r.Interruption? && !r'.Interruption?
    ensures r.Results? <==> r'.Results?
    ensures r.Results? ==> r == r'
    ensures r.Results? <==> (config.errorMode.Terminate? ==> AllGood(course, values, |values|))
  {}
}
