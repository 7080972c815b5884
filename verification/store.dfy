/** The optimistic store: what a compare-and-swap does to a history, and the store that keeps histories in memory
    (agent/continuation/store.go, memory_store.go). */
module Stores {
  import opened Options
  import opened Records
  import opened Histories

  datatype Outcome = Stored | Rejected(error: Error)

  /** `validateCreateRecord`. */
  predicate Begins(r: Record) {
    r.execution.revision == 1 && r.transition.revision == 1 && r.transition.from.None? && r.transition.cause.Create?
  }

  /** `validateNextRecord`, once the revision is the expected one. */
  predicate Continues(previous: Record, expected: nat, next: Record) {
    && next.execution.id == previous.execution.id && next.execution.revision == expected + 1
    && next.transition.revision == expected + 1 && next.transition.from == Some(previous.execution.status)
  }

  /** The abstract compare-and-swap: which error it answers, in the order the store checks, or that it appends. */
  function Judge(log: Option<seq<Record>>, expected: nat, next: Record, maxTransitions: nat): Outcome
    requires log.Some? ==> log.value != []
  {
    if !RecordRight(next) then Rejected(Invalid)
    else if log.None? then Rejected(NotFound)
    else
      var previous := log.value[|log.value| - 1];
      if previous.execution.revision != expected then Rejected(Conflict)
      else if !Continues(previous, expected, next) then Rejected(Invalid)
      else if |log.value| >= maxTransitions then Rejected(StoreFull)
      else Stored
  }

  /** What is stored is a step of the history: the swap of a record loaded at the expected revision. */
  lemma StoredIsSwapped(log: seq<Record>, from: Record, next: Record, maxTransitions: nat)
    requires log != [] && Judge(Some(log), from.execution.revision, next, maxTransitions).Stored?
    ensures Swapped(log, from, next) == log + [next]
  {}

  /** A chain as any sequence of accepted operations builds it, also of callers that are not the engine. */
  predicate Chain(log: seq<Record>) {
    && log != [] && RecordRight(log[0]) && Begins(log[0])
    && forall i: nat | 0 < i < |log| :: RecordRight(log[i]) && Continues(log[i - 1], log[i - 1].execution.revision, log[i])
  }

  lemma ChainGrows(log: seq<Record>, expected: nat, next: Record, maxTransitions: nat)
    requires Chain(log) && Judge(Some(log), expected, next, maxTransitions).Stored?
    ensures Chain(log + [next])
  {}

  function Lookup(records: map<string, seq<Record>>, id: string): Option<seq<Record>> {
    if id in records then Some(records[id]) else None
  }

  class MemoryStore {
    const maxTransitions: nat
    var records: map<string, seq<Record>>

    ghost predicate Valid()
      reads this
    {
      forall id <- records :: Chain(records[id])
    }

    constructor (limit: nat)
      ensures maxTransitions == limit && records == map[] && Valid()
    {
      maxTransitions := limit;
      records := map[];
    }

    method Create(record: Record) returns (r: Outcome)
      requires Valid()
      modifies this`records
      ensures Valid()
      ensures r.Stored? <==> RecordRight(record) && Begins(record) && record.execution.id !in old(records)
      ensures records == if r.Stored? then old(records)[record.execution.id := [record]] else old(records)
    {
      if !RecordRight(record) || !Begins(record) {
        return Rejected(Invalid);
      }
      if record.execution.id in records {
        return Rejected(Exists);
      }
      records := records[record.execution.id := [record]];
      return Stored;
    }

    method Load(id: string) returns (r: Option<Record>)
      requires Valid()
      ensures r == if id in records then Some(records[id][|records[id]| - 1]) else None
    {
      if id !in records {
        return None;
      }
      var log := records[id];
      return Some(log[|log| - 1]);
    }

    method CompareAndSwap(id: string, expected: nat, next: Record) returns (r: Outcome)
      requires Valid()
      modifies this`records
      ensures Valid()
      ensures r == Judge(Lookup(old(records), id), expected, next, maxTransitions)
      ensures records == if r.Stored? then old(records)[id := old(records)[id] + [next]] else old(records)
    {
      if !RecordRight(next) {
        return Rejected(Invalid);
      }
      if id !in records {
        return Rejected(NotFound);
      }
      var log := records[id];
      var previous := log[|log| - 1];
      if previous.execution.revision != expected {
        return Rejected(Conflict);
      }
      if !Continues(previous, expected, next) {
        return Rejected(Invalid);
      }
      if |log| >= maxTransitions {
        return Rejected(StoreFull);
      }
      ChainGrows(log, expected, next, maxTransitions);
      records := records[id := log + [next]];
      return Stored;
    }

    method History(id: string) returns (r: Option<seq<Record>>)
      ensures r == Lookup(records, id)
    {
      r := if id in records then Some(records[id]) else None;
    }
  }
}
