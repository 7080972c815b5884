/** The file store: one line of JSON per record, a newline as its commit mark, and recovery from appends that a crash
    has cut short (agent/continuation/jsonl.go). */
module Journals {
  import opened Options
  import opened Records
  import opened Histories
  import opened Stores

  type Byte = b: int | 0 <= b < 256

  const NEWLINE: Byte := 10

  /** JSON as this store uses it: `valid` is `json.Valid`. */
  datatype Codec = Codec(encode: Record -> seq<Byte>, decode: seq<Byte> -> Option<Record>, valid: seq<Byte> -> bool,
                         header: string -> seq<Byte>, headerId: seq<Byte> -> Option<string>)

  /** What sections 4 and 7 of RFC 8259 give for compact encodings of objects: no raw newline, decoding undoes encoding,
      and no strict prefix of an object is a JSON text. */
  ghost predicate Faithful(k: Codec) {
    && (forall r: Record :: NEWLINE !in k.encode(r) && k.decode(k.encode(r)) == Some(r) && k.encode(r) != [] && k.valid(k.encode(r)))
    && (forall r: Record, n: nat | n < |k.encode(r)| :: !k.valid(k.encode(r)[..n]))
    && (forall id: string :: NEWLINE !in k.header(id) && k.headerId(k.header(id)) == Some(id))
  }

  datatype Reading = Read(records: seq<Record>, size: nat) | Corrupt | Full

  // ---------------------------------------------------------------- Lines

  function IndexOf(data: seq<Byte>, b: Byte): (i: nat)
    ensures i <= |data| && (forall j | 0 <= j < i :: data[j] != b) && (i < |data| ==> data[i] == b)
  {
    if data == [] || data[0] == b then 0 else IndexOf(data[1..], b) + 1
  }

  /** `bytes.Split` at newlines. */
  function Split(data: seq<Byte>): (r: seq<seq<Byte>>)
    ensures r != [] && |r[|r| - 1]| <= |data|
    decreases |data|
  {
    var i := IndexOf(data, NEWLINE);
    if i == |data| then [data] else [data[..i]] + Split(data[i + 1..])
  }

  function Join(lines: seq<seq<Byte>>): seq<Byte> {
    if lines == [] then [] else lines[0] + [NEWLINE] + Join(lines[1..])
  }

  lemma IndexOfFirst(line: seq<Byte>, rest: seq<Byte>)
    requires NEWLINE !in line
    ensures IndexOf(line + [NEWLINE] + rest, NEWLINE) == |line|
  {
    var data := line + [NEWLINE] + rest;
    assert data[|line|] == NEWLINE && forall j | 0 <= j < |line| :: data[j] == line[j] && line[j] in line;
  }

  lemma SplitFirst(line: seq<Byte>, rest: seq<Byte>)
    requires NEWLINE !in line
    ensures Split(line + [NEWLINE] + rest) == [line] + Split(rest)
  {
    var data := line + [NEWLINE] + rest;
    IndexOfFirst(line, rest);
    assert data[..|line|] == line && data[|line| + 1..] == rest;
  }

  lemma SplitWhole(tail: seq<Byte>)
    requires NEWLINE !in tail
    ensures Split(tail) == [tail]
  {
    assert forall j | 0 <= j < |tail| :: tail[j] in tail;
  }

  lemma JoinFirst(lines: seq<seq<Byte>>, tail: seq<Byte>)
    requires lines != []
    ensures Join(lines) + tail == lines[0] + [NEWLINE] + (Join(lines[1..]) + tail)
  {}

  lemma FirstAndRest(lines: seq<seq<Byte>>, tail: seq<Byte>)
    requires lines != []
    ensures [lines[0]] + (lines[1..] + [tail]) == lines + [tail]
  {}

  /** Lines joined and split again, the last one unfinished. */
  lemma {:induction false} SplitJoin(lines: seq<seq<Byte>>, tail: seq<Byte>)
    requires (forall line <- lines :: NEWLINE !in line) && NEWLINE !in tail
    ensures Split(Join(lines) + tail) == lines + [tail]
    decreases |lines|
  {
    if lines == [] {
      assert Join(lines) + tail == tail;
      SplitWhole(tail);
    } else {
      SplitJoin(lines[1..], tail);
      JoinFirst(lines, tail);
      SplitFirst(lines[0], Join(lines[1..]) + tail);
      FirstAndRest(lines, tail);
    }
  }

  lemma {:induction false} JoinSnoc(lines: seq<seq<Byte>>, line: seq<Byte>)
    ensures Join(lines + [line]) == Join(lines) + line + [NEWLINE]
    decreases |lines|
  {
    if lines == [] {
      assert [line][1..] == [];
      assert Join([line]) == line + [NEWLINE];
    } else {
      assert (lines + [line])[1..] == lines[1..] + [line];
      JoinSnoc(lines[1..], line);
    }
  }

  lemma {:induction false} JoinEnds(lines: seq<seq<Byte>>)
    requires lines != []
    ensures Join(lines) != [] && Join(lines)[|Join(lines)| - 1] == NEWLINE
    decreases |lines|
  {
    if |lines| > 1 {
      JoinEnds(lines[1..]);
    }
  }

  // ---------------------------------------------------------------- Reading

  datatype Committed = Lines(lines: seq<seq<Byte>>, size: nat) | Broken

  /** `committedLines`: an unfinished last line is not part of the file, unless it is a whole record that lacks only
      its commit mark. */
  function CommittedLines(k: Codec, data: seq<Byte>): Committed {
    if data == [] then Broken
    else
      var lines := Split(data);
      var last := lines[|lines| - 1];
      if data[|data| - 1] != NEWLINE && k.valid(last) then Broken
      else if |lines| - 1 < 2 then Broken
      else Lines(lines[..|lines| - 1], if data[|data| - 1] == NEWLINE then |data| else |data| - |last|)
  }

  predicate LineRight(k: Codec, id: string, line: seq<Byte>) {
    line != [] && k.decode(line).Some? && RecordRight(k.decode(line).value) && k.decode(line).value.execution.id == id
  }

  /** The lines hold the records of a chain. */
  predicate LinesHold(k: Codec, id: string, lines: seq<seq<Byte>>, records: seq<Record>) {
    && |lines| == |records| && Chain(records)
    && forall i: nat | i < |lines| :: LineRight(k, id, lines[i]) && k.decode(lines[i]) == Some(records[i])
  }

  /** The error of a record line, by its own content or by its place in the chain. */
  predicate Follows(records: seq<Record>, r: Record) {
    if records == [] then Begins(r)
    else Continues(records[|records| - 1], records[|records| - 1].execution.revision, r)
  }

  /** `decodeRecordLines`. */
  method DecodeRecordLines(k: Codec, id: string, lines: seq<seq<Byte>>) returns (records: Option<seq<Record>>)
    requires lines != []
    ensures records.Some? <==> exists r :: LinesHold(k, id, lines, r)
    ensures records.Some? ==> LinesHold(k, id, lines, records.value)
  {
    var decoded: seq<Record> := [];
    for i := 0 to |lines|
      invariant |decoded| == i && (i > 0 ==> LinesHold(k, id, lines[..i], decoded))
    {
      if !LineRight(k, id, lines[i]) || !Follows(decoded, k.decode(lines[i]).value) {
        forall r | LinesHold(k, id, lines, r) ensures false {
          SameRecords(k, id, lines, r, decoded, i);
        }
        return None;
      }
      var record := k.decode(lines[i]).value;
      decoded := decoded + [record];
    }
    assert lines[..|lines|] == lines;
    return Some(decoded);
  }

  /** Lines hold at most one sequence of records, whose next record follows. */
  lemma SameRecords(k: Codec, id: string, lines: seq<seq<Byte>>, r: seq<Record>, decoded: seq<Record>, i: nat)
    requires i < |lines| && LinesHold(k, id, lines, r) && |decoded| == i && (i > 0 ==> LinesHold(k, id, lines[..i], decoded))
    ensures LineRight(k, id, lines[i]) && Follows(decoded, k.decode(lines[i]).value)
  {
    forall j: nat | j < i ensures decoded[j] == r[j] {
      assert lines[..i][j] == lines[j];
    }
  }

  /** The bytes of a file whose committed records are `log`. */
  function FileLines(k: Codec, id: string, log: seq<Record>): seq<seq<Byte>> {
    [k.header(id)] + seq(|log|, i requires 0 <= i < |log| => k.encode(log[i]))
  }

  function File(k: Codec, id: string, log: seq<Record>): seq<Byte> {
    Join(FileLines(k, id, log))
  }

  /** `decodeExecutionFile`, as a relation between the bytes and what is read. */
  ghost predicate Reads(k: Codec, id: string, data: seq<Byte>, maxTransitions: nat, r: Reading) {
    var c := CommittedLines(k, data);
    if c.Broken? || k.headerId(c.lines[0]) != Some(id) then r.Corrupt?
    else if !exists log :: LinesHold(k, id, c.lines[1..], log) then r.Corrupt?
    else if |c.lines| - 1 > maxTransitions then r.Full?
    else r.Read? && LinesHold(k, id, c.lines[1..], r.records) && r.size == c.size
  }

  method DecodeExecutionFile(k: Codec, id: string, data: seq<Byte>, maxTransitions: nat) returns (r: Reading)
    ensures Reads(k, id, data, maxTransitions, r)
  {
    var c := CommittedLines(k, data);
    if c.Broken? || k.headerId(c.lines[0]) != Some(id) {
      return Corrupt;
    }
    var records := DecodeRecordLines(k, id, c.lines[1..]);
    if records.None? {
      return Corrupt;
    }
    if |records.value| > maxTransitions {
      return Full;
    }
    return Read(records.value, c.size);
  }

  // ---------------------------------------------------------------- Torn appends

  /** A committed history of one execution. */
  ghost predicate Kept(id: string, log: seq<Record>, maxTransitions: nat) {
    Chain(log) && |log| <= maxTransitions && forall i: nat | i < |log| :: log[i].execution.id == id
  }

  lemma FileLinesClean(k: Codec, id: string, log: seq<Record>)
    requires Faithful(k)
    ensures forall line <- FileLines(k, id, log) :: NEWLINE !in line
  {
    var lines := FileLines(k, id, log);
    forall line <- lines ensures NEWLINE !in line {
      var i :| 0 <= i < |lines| && lines[i] == line;
      if i > 0 {
        assert line == k.encode(log[i - 1]);
      }
    }
  }

  lemma FileLinesHold(k: Codec, id: string, log: seq<Record>, maxTransitions: nat)
    requires Faithful(k) && Kept(id, log, maxTransitions)
    ensures LinesHold(k, id, FileLines(k, id, log)[1..], log)
  {
    var lines := FileLines(k, id, log)[1..];
    forall i: nat | i < |lines| ensures lines[i] == k.encode(log[i]) {}
  }

  lemma HeldOnce(k: Codec, id: string, lines: seq<seq<Byte>>, log: seq<Record>, log': seq<Record>)
    requires LinesHold(k, id, lines, log) && LinesHold(k, id, lines, log')
    ensures log == log'
  {
    forall i: nat | i < |log| ensures log[i] == log'[i] {
      assert k.decode(lines[i]) == Some(log[i]);
    }
  }

  /** What is read of a committed file with an unfinished line after it. */
  lemma TailRead(k: Codec, id: string, log: seq<Record>, tail: seq<Byte>, maxTransitions: nat, r: Reading)
    requires Faithful(k) && Kept(id, log, maxTransitions) && NEWLINE !in tail
    requires Reads(k, id, File(k, id, log) + tail, maxTransitions, r)
    ensures r == if tail != [] && k.valid(tail) then Corrupt else Read(log, |File(k, id, log)|)
  {
    var lines, data := FileLines(k, id, log), File(k, id, log) + tail;
    FileLinesClean(k, id, log);
    SplitJoin(lines, tail);
    JoinEnds(lines);
    if tail == [] {
      assert data == File(k, id, log);
    } else {
      assert data[|data| - 1] == tail[|tail| - 1] && tail[|tail| - 1] in tail;
    }
    assert (lines + [tail])[..|lines|] == lines;
    FileLinesHold(k, id, log, maxTransitions);
    if r.Read? {
      HeldOnce(k, id, lines[1..], log, r.records);
    }
  }

  lemma TakeAll(line: seq<Byte>)
    ensures line[..|line|] == line
  {}

  lemma GlueLine(file: seq<Byte>, record: seq<Byte>)
    ensures file + record + [NEWLINE] == file + (record + [NEWLINE])
  {}

  /** A line that reaches the file whole makes it the file of the longer history. */
  lemma FileWhole(k: Codec, id: string, log: seq<Record>, next: Record)
    ensures File(k, id, log) + (k.encode(next) + [NEWLINE])[..|k.encode(next)| + 1] == File(k, id, log + [next])
  {
    FileGrows(k, id, log, next);
    TakeAll(k.encode(next) + [NEWLINE]);
    GlueLine(File(k, id, log), k.encode(next));
  }

  lemma FileGrows(k: Codec, id: string, log: seq<Record>, next: Record)
    ensures File(k, id, log + [next]) == File(k, id, log) + k.encode(next) + [NEWLINE]
  {
    assert FileLines(k, id, log + [next]) == FileLines(k, id, log) + [k.encode(next)];
    JoinSnoc(FileLines(k, id, log), k.encode(next));
  }

  /** A crash keeps the first `n` bytes of an append. What is then read is the committed history, with its size, as long
      as part of the record is missing; the new history, once the commit mark is there; and, exactly when only the mark
      is missing, an error. */
  lemma TornAppend(k: Codec, id: string, log: seq<Record>, next: Record, n: nat, maxTransitions: nat, r: Reading)
    requires Faithful(k) && Kept(id, log, maxTransitions) && Kept(id, log + [next], maxTransitions) && n <= |k.encode(next)| + 1
    requires Reads(k, id, File(k, id, log) + (k.encode(next) + [NEWLINE])[..n], maxTransitions, r)
    ensures r == if n < |k.encode(next)| then Read(log, |File(k, id, log)|)
                 else if n == |k.encode(next)| then Corrupt
                 else Read(log + [next], |File(k, id, log + [next])|)
  {
    var line := k.encode(next);
    var torn := (line + [NEWLINE])[..n];
    if n <= |line| {
      assert torn == line[..n];
      if n == |line| {
        assert torn == line;
      }
      assert forall b <- torn :: b in line;
      TailRead(k, id, log, torn, maxTransitions, r);
    } else {
      FileGrows(k, id, log, next);
      assert torn == line + [NEWLINE];
      assert File(k, id, log) + torn == File(k, id, log + [next]) + [];
      TailRead(k, id, log + [next], [], maxTransitions, r);
    }
  }

  /** The bytes a crash can leave behind: the start of some record. */
  ghost predicate Torn(k: Codec, tail: seq<Byte>) {
    exists r: Record, n: nat :: n < |k.encode(r)| && tail == k.encode(r)[..n]
  }

  lemma TornInvalid(k: Codec, tail: seq<Byte>)
    requires Faithful(k) && Torn(k, tail)
    ensures NEWLINE !in tail && !k.valid(tail)
  {
    var r: Record, n: nat :| n < |k.encode(r)| && tail == k.encode(r)[..n];
    assert forall b <- tail :: b in k.encode(r);
  }

  lemma KeptGrows(id: string, log: seq<Record>, expected: nat, next: Record, maxTransitions: nat)
    requires Kept(id, log, maxTransitions) && Judge(Some(log), expected, next, maxTransitions).Stored?
    ensures Kept(id, log + [next], maxTransitions)
  {
    ChainGrows(log, expected, next, maxTransitions);
  }

  /** The file store, with the histories its files stand for and the bytes crashes have left after them. */
  class JSONLStore {
    const codec: Codec
    const maxTransitions: nat
    var files: map<string, seq<Byte>>
    ghost var logs: map<string, seq<Record>>
    ghost var tails: map<string, seq<Byte>>

    ghost predicate Valid()
      reads this
    {
      && Faithful(codec) && maxTransitions > 0 && logs.Keys == files.Keys == tails.Keys
      && forall id <- files :: Stands(id)
    }

    ghost predicate Stands(id: string)
      reads this
      requires id in files && id in logs && id in tails
    {
      Kept(id, logs[id], maxTransitions) && Torn(codec, tails[id]) && files[id] == File(codec, id, logs[id]) + tails[id]
    }

    constructor (k: Codec, limit: nat)
      requires Faithful(k) && limit > 0
      ensures Valid() && files == map[] && logs == map[] && maxTransitions == limit
    {
      codec, maxTransitions := k, limit;
      files, logs, tails := map[], map[], map[];
    }

    /** `JSONLStore.read`: the committed history, and how many bytes it takes. */
    method ReadFile(id: string) returns (r: Option<(seq<Record>, nat)>)
      requires Valid()
      ensures r == if id in logs then Some((logs[id], |File(codec, id, logs[id])|)) else None
    {
      if id !in files {
        return None;
      }
      assert Stands(id);
      TornInvalid(codec, tails[id]);
      var reading := DecodeExecutionFile(codec, id, files[id], maxTransitions);
      TailRead(codec, id, logs[id], tails[id], maxTransitions, reading);
      return Some((reading.records, reading.size));
    }

    method Load(id: string) returns (r: Option<Record>)
      requires Valid()
      ensures r == if id in logs && logs[id] != [] then Some(logs[id][|logs[id]| - 1]) else None
    {
      var read := ReadFile(id);
      if read.None? {
        return None;
      }
      assert Stands(id);
      var records := read.value.0;
      return Some(records[|records| - 1]);
    }

    method Create(record: Record) returns (r: Outcome)
      requires Valid()
      modifies this`files, this`logs, this`tails
      ensures Valid()
      ensures r.Stored? <==> RecordRight(record) && Begins(record) && record.execution.id !in old(logs)
      ensures logs == if r.Stored? then old(logs)[record.execution.id := [record]] else old(logs)
      ensures files == if r.Stored? then old(files)[record.execution.id := File(codec, record.execution.id, [record])] else old(files)
    {
      if !RecordRight(record) || !Begins(record) {
        return Rejected(Invalid);
      }
      var id := record.execution.id;
      if id in files {
        return Rejected(Exists);
      }
      FirstFile(codec, id, record);
      assert [] == codec.encode(record)[..0];
      Put(id, codec.header(id) + [NEWLINE] + codec.encode(record) + [NEWLINE], [record], []);
      return Stored;
    }

    /** Replaces a file by one that stands for a history, with what a crash left after it. */
    method Put(id: string, data: seq<Byte>, ghost log: seq<Record>, ghost tail: seq<Byte>)
      requires Valid() && Kept(id, log, maxTransitions) && Torn(codec, tail) && data == File(codec, id, log) + tail
      modifies this`files, this`logs, this`tails
      ensures Valid() && files == old(files)[id := data] && logs == old(logs)[id := log]
    {
      files, logs, tails := files[id := data], logs[id := log], tails[id := tail];
      forall other <- files | other != id ensures Stands(other) {
        assert old(Stands(other));
      }
    }

    /** Truncates what a crash left, then appends the record and its commit mark. */
    method CompareAndSwap(id: string, expected: nat, next: Record) returns (r: Outcome)
      requires Valid()
      modifies this`files, this`logs, this`tails
      ensures Valid()
      ensures r == Judge(Lookup(old(logs), id), expected, next, maxTransitions)
      ensures logs == if r.Stored? then old(logs)[id := old(logs)[id] + [next]] else old(logs)
      ensures files == if r.Stored? then old(files)[id := File(codec, id, logs[id])] else old(files)
    {
      r := Check(id, expected, next);
      if !r.Stored? {
        return;
      }
      AppendWhole(id, expected, next);
    }

    method AppendWhole(id: string, expected: nat, next: Record)
      requires Valid() && Judge(Lookup(logs, id), expected, next, maxTransitions).Stored?
      modifies this`files, this`logs, this`tails
      ensures Valid() && id in old(logs) && logs == old(logs)[id := old(logs)[id] + [next]]
      ensures files == old(files)[id := File(codec, id, logs[id])]
    {
      FileWhole(codec, id, logs[id], next);
      Append(id, expected, next, |codec.encode(next)| + 1);
    }

    method Check(id: string, expected: nat, next: Record) returns (r: Outcome)
      requires Valid()
      ensures r == Judge(Lookup(logs, id), expected, next, maxTransitions)
    {
      if !RecordRight(next) {
        return Rejected(Invalid);
      }
      var read := ReadFile(id);
      if read.None? {
        return Rejected(NotFound);
      }
      assert Stands(id);
      var records := read.value.0;
      var previous := records[|records| - 1];
      if previous.execution.revision != expected {
        return Rejected(Conflict);
      }
      if !Continues(previous, expected, next) {
        return Rejected(Invalid);
      }
      return if |records| >= maxTransitions then Rejected(StoreFull) else Stored;
    }

    /** The append of an accepted record, of which a crash lets only the first `kept` bytes reach the file. Short of
        the whole record nothing has happened; with the commit mark the record is stored. */
    method Append(id: string, expected: nat, next: Record, kept: nat)
      requires Valid() && Judge(Lookup(logs, id), expected, next, maxTransitions).Stored?
      requires kept <= |codec.encode(next)| + 1
      modifies this`files, this`logs, this`tails
      ensures files == old(files)[id := File(codec, id, old(logs)[id]) + (codec.encode(next) + [NEWLINE])[..kept]]
      ensures kept != |codec.encode(next)| ==> Valid()
      ensures logs == if kept > |codec.encode(next)| then old(logs)[id := old(logs)[id] + [next]] else old(logs)
    {
      var read := ReadFile(id);
      var size, line := read.value.1, codec.encode(next) + [NEWLINE];
      assert Stands(id);
      assert files[id][..size] == File(codec, id, logs[id]);
      var data := files[id][..size] + line[..kept];
      if kept > |codec.encode(next)| {
        assert line[..kept] == line;
        PutWhole(id, expected, next, data);
      } else if kept < |codec.encode(next)| {
        assert line[..kept] == codec.encode(next)[..kept];
        assert logs[id := logs[id]] == logs;
        Put(id, data, logs[id], line[..kept]);
      } else {
        files := files[id := data];
      }
    }

    /** The whole line with its commit mark reaches the file. */
    method PutWhole(id: string, expected: nat, next: Record, data: seq<Byte>)
      requires Valid() && Judge(Lookup(logs, id), expected, next, maxTransitions).Stored?
      requires id in logs && data == File(codec, id, logs[id]) + (codec.encode(next) + [NEWLINE])
      modifies this`files, this`logs, this`tails
      ensures Valid() && files == old(files)[id := data] && logs == old(logs)[id := old(logs)[id] + [next]]
    {
      KeptGrows(id, logs[id], expected, next, maxTransitions);
      FileGrows(codec, id, logs[id], next);
      assert data == File(codec, id, logs[id] + [next]) + [];
      assert [] == codec.encode(next)[..0];
      Put(id, data, logs[id] + [next], []);
    }
  }

  lemma FirstFile(k: Codec, id: string, record: Record)
    ensures File(k, id, [record]) == k.header(id) + [NEWLINE] + k.encode(record) + [NEWLINE]
  {
    var lines := FileLines(k, id, [record]);
    assert lines == [k.header(id)] + [k.encode(record)];
    JoinSnoc([k.header(id)], k.encode(record));
    assert Join([k.header(id)]) == k.header(id) + [NEWLINE] + Join([]);
  }
}
