/** One turn's model call with stream recovery: what the consumer has read since the last retraction is what the turn
    answers with (agent/run.go, ai/retry_budget.go). */
module Turns {
  import opened Options
  import opened Streams

  datatype Fault = Fault(retryable: bool)

  datatype Notice = Delta(event: Event) | Discarded | Retrying | Incomplete(text: string)

  /** What one call comes to, unless the consumer leaves. */
  datatype Attempt = Attempt(parts: seq<Part>, produced: bool, retractable: bool, error: Option<Fault>)

  /** How a stream is over: the provider has said all it had, it broke off, or an event had an invalid type. */
  datatype Ending = Whole | Broken(fault: Fault) | Malformed

  /** One model call of a turn: the text it was asked to continue, if any, what was streamed, and what it came to. */
  datatype Call = Call(prefix: Option<string>, script: seq<Event>, ending: Ending, attempt: Attempt)

  datatype Outcome = Answered(parts: seq<Part>) | GaveUp | CutShort | ConsumerLeft

  // ---------------------------------------------------------------- One call

  /** Model output, as against notices and the frame of the message. */
  predicate Outputs(e: Event) {
    !e.Control? && !e.End?
  }

  /** Output that a consumer would miss: anything but reasoning and blank text. */
  predicate Shows(e: Event) {
    Outputs(e) && !e.Reasoning? && !(e.Text? && Blank(e.text))
  }

  /** `classifyStreamOutput`. */
  function Classify(e: Event): (r: (bool, bool))
    ensures r == (Outputs(e), Shows(e))
  {
    match e
    case Control => (false, false)
    case End => (false, false)
    case Reasoning(_) => (true, false)
    case Text(text) => (true, !Blank(text))
    case _ => (true, true)
  }

  /** The error a call ends with: a stream without the end of its message is incomplete, which is worth another try, and
      so is an event of an invalid type. */
  function ErrorOf(script: seq<Event>, ending: Ending): Option<Fault> {
    match ending
    case Broken(fault) => Some(fault)
    case Malformed => Some(Fault(true))
    case Whole => if Ends(script) then None else Some(Fault(true))
  }

  /** A call has produced output, and output that a consumer would miss. */
  predicate Judged(events: seq<Event>, produced: bool, retractable: bool) {
    (produced <==> exists e <- events :: Outputs(e)) && (retractable <==> exists e <- events :: Shows(e))
  }

  /** A message says what a stream says. */
  ghost predicate Says(prefix: Option<string>, script: seq<Event>, ending: Ending, parts: seq<Part>) {
    && MessageText(parts) == (if prefix.None? then StreamText(script) else Added(prefix.value, script, !ending.Broken?))
    && (HasCall(parts) <==> Calls(script)) && (prefix.None? ==> Atoms(parts) == StreamAtoms(script))
    && Others(Atoms(parts)) == Others(StreamAtoms(script))
  }

  lemma SaysFaithfully(prefix: Option<string>, script: seq<Event>, ending: Ending, a: Attempt)
    requires Says(prefix, script, ending, a.parts) && Judged(script, a.produced, a.retractable) && a.error == ErrorOf(script, ending)
    ensures Faithful(Call(prefix, script, ending, a))
  {}

  /** A call has come to what its stream says. */
  ghost predicate Faithful(call: Call) {
    var a := call.attempt;
    && Says(call.prefix, call.script, call.ending, a.parts) && Judged(call.script, a.produced, a.retractable)
    && a.error == ErrorOf(call.script, call.ending)
  }

  /** A call is without fault exactly if its stream was whole and ended its message; a fault is final exactly if the stream
      broke off with one that is. */
  lemma FaultIs(call: Call)
    requires Faithful(call)
    ensures call.attempt.error.None? <==> call.ending.Whole? && exists e <- call.script :: e.End?
    ensures call.attempt.error.Some? && !call.attempt.error.value.retryable <==> call.ending.Broken? && !call.ending.fault.retryable
  {}

  /** `retainPrefix`: text that a continuation can take up, unless there are tool calls or only blanks. */
  function Retained(parts: seq<Part>): Option<string> {
    if HasCall(parts) || Blank(MessageText(parts)) then None else Some(MessageText(parts))
  }

  /** A continuation extends one answer, so its text accumulates; alternatives replace one another. */
  function Extended(prefix: string, retained: Option<string>, accumulate: bool): string {
    if retained.None? then prefix else if accumulate then prefix + retained.value else retained.value
  }

  /** Appends a part, folding text into text. */
  function Folded(front: seq<Part>, part: Part): (r: seq<Part>)
    requires front != []
    ensures r != []
  {
    var last := front[|front| - 1];
    if part.TextPart? && last.TextPart? then front[..|front| - 1] + [TextPart(last.text + part.text)] else front + [part]
  }

  lemma FoldedText(front: seq<Part>, part: Part)
    requires front != []
    ensures MessageText(Folded(front, part)) == MessageText(front) + (if part.TextPart? then part.text else "")
  {
    var last, before := front[|front| - 1], front[..|front| - 1];
    assert front == before + [last];
    PartAppended(before, last);
    PartAppended(front, part);
    if part.TextPart? && last.TextPart? {
      PartAppended(before, TextPart(last.text + part.text));
      assert MessageText(before) + (last.text + part.text) == MessageText(before) + last.text + part.text;
    }
  }

  /** `mergeContinuation`: the prefix comes first, and adjacent text parts are folded. */
  function Merged(prefix: string, parts: seq<Part>): (r: seq<Part>)
    ensures r != []
  {
    if parts == [] then [TextPart(prefix)] else Folded(Merged(prefix, parts[..|parts| - 1]), parts[|parts| - 1])
  }

  lemma {:induction false} MergedText(prefix: string, parts: seq<Part>)
    ensures MessageText(Merged(prefix, parts)) == prefix + MessageText(parts)
    decreases |parts|
  {
    if parts == [] {
      PartAppended([], TextPart(prefix));
      assert [] + [TextPart(prefix)] == [TextPart(prefix)];
    } else {
      var shorter, part := parts[..|parts| - 1], parts[|parts| - 1];
      MergedText(prefix, shorter);
      FoldedText(Merged(prefix, shorter), part);
      Associates(prefix, MessageText(shorter), if part.TextPart? then part.text else "");
    }
  }

  /** The prefix comes first, and then everything the parts hold, in their order. */
  lemma {:induction false} MergedAtoms(prefix: string, parts: seq<Part>)
    ensures Atoms(Merged(prefix, parts)) == Saying(prefix) + Atoms(parts)
    decreases |parts|
  {
    if parts == [] {
      AtomsSnoc([], TextPart(prefix));
      assert [] + [TextPart(prefix)] == [TextPart(prefix)];
    } else {
      var shorter, part := parts[..|parts| - 1], parts[|parts| - 1];
      MergedAtoms(prefix, shorter);
      FoldedAtoms(Merged(prefix, shorter), part);
      AtomsAssociate(Saying(prefix), Atoms(shorter), PartAtoms(part));
    }
  }

  lemma FoldedAtoms(front: seq<Part>, part: Part)
    requires front != []
    ensures Atoms(Folded(front, part)) == Atoms(front) + PartAtoms(part)
  {
    var last, before := front[|front| - 1], front[..|front| - 1];
    assert front == before + [last];
    AtomsSnoc(before, last);
    AtomsSnoc(front, part);
    if part.TextPart? && last.TextPart? {
      AtomsSnoc(before, TextPart(last.text + part.text));
      SayingMore(last.text, part.text);
      AtomsAssociate(Atoms(before), Saying(last.text), Saying(part.text));
    }
  }

  lemma Associates(a: string, b: string, c: string)
    ensures a + (b + c) == a + b + c
  {}

  /** No two parts of text follow each other. */
  predicate Separate(parts: seq<Part>) {
    forall i: nat | i + 1 < |parts| :: !parts[i].TextPart? || !parts[i + 1].TextPart?
  }

  /** Text is folded into the text before it, so the merged answer has no two parts of text in a row. */
  lemma {:induction false} MergedSeparate(prefix: string, parts: seq<Part>)
    ensures Separate(Merged(prefix, parts))
    decreases |parts|
  {
    if parts != [] {
      MergedSeparate(prefix, parts[..|parts| - 1]);
    }
  }

  // ---------------------------------------------------------------- The calls of a turn

  /** A continuation that was accepted and adds no answer: `continuationEmpty`. */
  predicate AddsNothing(a: Attempt) {
    !HasCall(a.parts) && Retained(a.parts).None?
  }

  /** A call that answers the turn. */
  predicate Succeeded(call: Call) {
    call.attempt.error.None? && !(call.prefix.Some? && AddsNothing(call.attempt))
  }

  /** A continuation that the provider refuses or that adds nothing: the turn answers from the start instead. */
  predicate Abandoned(call: Call) {
    call.prefix.Some? && if call.attempt.error.None? then AddsNothing(call.attempt) else !call.attempt.error.value.retryable
  }

  /** A failure after output that is worth another call. */
  predicate Reissuable(call: Call) {
    call.attempt.error.Some? && call.attempt.error.value.retryable && call.attempt.produced
  }

  predicate FellBack(log: seq<Call>) {
    exists call <- log :: Abandoned(call)
  }

  /** What calls have retained for the turn, and whether the next call is to continue it. While failures are continued
      their texts follow one another; otherwise the last one counts. */
  function Carried(log: seq<Call>, continues: bool): (string, bool) {
    if log == [] then ("", false)
    else
      var front, last := log[..|log| - 1], log[|log| - 1];
      var (text, have) := Carried(front, continues);
      var accumulate := continues && !FellBack(front);
      if Abandoned(last) then ("", false)
      else (Extended(text, Retained(last.attempt.parts), accumulate), have || (accumulate && Retained(last.attempt.parts).Some?))
  }

  /** What call `i` is asked to continue: exactly what the calls before it have retained. */
  function Asked(log: seq<Call>, continues: bool): Option<string> {
    if Carried(log, continues).1 then Some(Carried(log, continues).0) else None
  }

  ghost predicate Continues(log: seq<Call>, continues: bool) {
    forall i: nat | i < |log| :: ContinuesAt(log, i, continues)
  }

  ghost predicate ContinuesAt(log: seq<Call>, i: nat, continues: bool)
    requires i < |log|
  {
    log[i].prefix == Asked(log[..i], continues) && Faithful(log[i])
  }

  lemma ContinuesStill(log: seq<Call>, i: nat, continues: bool, call: Call)
    requires i < |log| && ContinuesAt(log, i, continues)
    ensures ContinuesAt(log + [call], i, continues)
  {
    assert (log + [call])[..i] == log[..i];
  }

  lemma ContinuesLast(log: seq<Call>, continues: bool, call: Call)
    requires call.prefix == Asked(log, continues) && Faithful(call)
    ensures ContinuesAt(log + [call], |log|, continues)
  {
    assert (log + [call])[..|log|] == log;
  }

  lemma ContinuesSnoc(log: seq<Call>, continues: bool, call: Call)
    requires Continues(log, continues) && call.prefix == Asked(log, continues) && Faithful(call)
    ensures Continues(log + [call], continues)
  {
    forall i: nat | i < |log + [call]| ensures ContinuesAt(log + [call], i, continues) {
      if i < |log| {
        ContinuesStill(log, i, continues, call);
      } else {
        ContinuesLast(log, continues, call);
      }
    }
  }

  lemma CarriedSnoc(log: seq<Call>, continues: bool, call: Call)
    ensures Carried(log + [call], continues)
            == if Abandoned(call) then ("", false)
               else (Extended(Carried(log, continues).0, Retained(call.attempt.parts), continues && !FellBack(log)),
                     Carried(log, continues).1 || (continues && !FellBack(log) && Retained(call.attempt.parts).Some?))
    ensures FellBack(log + [call]) <==> FellBack(log) || Abandoned(call)
  {
    assert (log + [call])[..|log|] == log;
    assert call in log + [call] && forall c <- log :: c in log + [call];
  }

  /** The bytes that failed continuations gave the consumer without retaining them, since the last call that was not
      a continuation. */
  function Stray(log: seq<Call>): nat {
    if log == [] then 0
    else
      var last := log[|log| - 1];
      if last.prefix.None? then 0
      else Stray(log[..|log| - 1]) + (if Retained(last.attempt.parts).None? then |MessageText(last.attempt.parts)| else 0)
  }

  /** The answer a call gives: what it streamed, after the text it continues. */
  function Answer(call: Call): seq<Part> {
    if call.prefix.None? then call.attempt.parts else Merged(call.prefix.value, call.attempt.parts)
  }

  /** What of that is left when a call answers. */
  function Leftover(past: seq<Call>, last: Call): nat {
    if last.prefix.None? then 0 else Stray(past)
  }

  /** The text of the answer: that of the last call or, if it is a continuation, what the calls before it have retained
      and what it adds to that. */
  lemma AnswerText(past: seq<Call>, last: Call, continues: bool)
    requires Continues(past + [last], continues)
    ensures MessageText(Answer(last)) == match Asked(past, continues)
                                         case None => StreamText(last.script)
                                         case Some(kept) => kept + Added(kept, last.script, !last.ending.Broken?)
  {
    var log := past + [last];
    assert log[|past|] == last && log[..|past|] == past && ContinuesAt(log, |past|, continues);
    if last.prefix.Some? {
      MergedText(last.prefix.value, last.attempt.parts);
    }
  }

  /** What of a call a continuation takes up: its text, unless it has called tools or says nothing but blanks. */
  function Contribution(call: Call): string {
    if Calls(call.script) || Blank(MessageText(call.attempt.parts)) then "" else MessageText(call.attempt.parts)
  }

  function Contributions(log: seq<Call>): string {
    if log == [] then "" else Contributions(log[..|log| - 1]) + Contribution(log[|log| - 1])
  }

  /** A contribution is what the stream of its call says, a continuation's without its restatement. */
  lemma ContributionIs(call: Call)
    requires Faithful(call) && Contribution(call) != ""
    ensures Contribution(call)
         == match call.prefix
            case None => StreamText(call.script)
            case Some(prefix) => Added(prefix, call.script, !call.ending.Broken?)
  {}

  lemma ContributionRetained(call: Call)
    requires Faithful(call)
    ensures Retained(call.attempt.parts) == if Contribution(call) == "" then None else Some(Contribution(call))
  {}

  lemma ContributionsSnoc(log: seq<Call>, call: Call)
    ensures Contributions(log + [call]) == Contributions(log) + Contribution(call)
  {
    assert (log + [call])[..|log|] == log;
  }

  lemma ExtendedBy(a: string, b: string)
    ensures Extended(a, if b == "" then None else Some(b), true) == a + b
    ensures a + b != "" <==> a != "" || b != ""
  {
    if b == "" {
      assert a + b == a;
    } else {
      assert |a + b| > 0;
    }
  }

  lemma CarriedMore(front: seq<Call>, last: Call)
    requires Carried(front, true) == (Contributions(front), Contributions(front) != "") && !FellBack(front) && !Abandoned(last)
    requires Retained(last.attempt.parts) == if Contribution(last) == "" then None else Some(Contribution(last))
    ensures Carried(front + [last], true) == (Contributions(front + [last]), Contributions(front + [last]) != "")
  {
    CarriedSnoc(front, true, last);
    ContributionsSnoc(front, last);
    ExtendedBy(Contributions(front), Contribution(last));
  }

  lemma NoFallBack(front: seq<Call>, last: Call)
    requires !FellBack(front + [last])
    ensures !FellBack(front) && !Abandoned(last)
  {
    CarriedSnoc(front, true, last);
  }

  /** Before a fall back, and while failures are continued, what is carried is what all the calls have contributed. */
  lemma {:induction false} CarriedWhole(log: seq<Call>)
    requires !FellBack(log) && forall call <- log :: Faithful(call)
    ensures Carried(log, true) == (Contributions(log), Contributions(log) != "")
    decreases |log|
  {
    if log != [] {
      var front, last := log[..|log| - 1], log[|log| - 1];
      assert log == front + [last];
      NoFallBack(front, last);
      assert forall call <- front :: call in log;
      CarriedWhole(front);
      ContributionRetained(last);
      CarriedMore(front, last);
    }
  }

  /** After a fall back, or when failures are not continued, nothing is: every call answers from the start. */
  lemma {:induction false} AsksNothing(log: seq<Call>, continues: bool)
    requires !continues || FellBack(log)
    ensures Asked(log, continues) == None
    decreases |log|
  {
    if log != [] {
      var front, last := log[..|log| - 1], log[|log| - 1];
      assert log == front + [last];
      CarriedSnoc(front, continues, last);
      if !Abandoned(last) {
        AsksNothing(front, continues);
      }
    }
  }

  /** The answer as a whole: the text of the first call that contributed, followed by that of each continuation less its
      restatement of all before it; or, where nothing is continued, the text of the last call. */
  lemma WholeAnswer(past: seq<Call>, last: Call, continues: bool)
    requires Continues(past + [last], continues)
    ensures MessageText(Answer(last))
         == if !continues || FellBack(past) || Contributions(past) == "" then StreamText(last.script)
            else Contributions(past) + Added(Contributions(past), last.script, !last.ending.Broken?)
  {
    AnswerText(past, last, continues);
    if !continues || FellBack(past) {
      AsksNothing(past, continues);
    } else {
      forall call <- past ensures Faithful(call) {
        var i :| 0 <= i < |past| && past[i] == call;
        assert (past + [last])[i] == call && ContinuesAt(past + [last], i, continues);
      }
      CarriedWhole(past);
    }
  }

  /** A first call breaks off, a continuation gives two blanks and breaks off, and another completes the answer. */
  function StrayLog(first: string, last: string): seq<Call> {
    [Call(None, [Text(first)], Broken(Fault(true)), Attempt([TextPart(first)], true, true, Some(Fault(true)))),
     Call(Some(first), [Text("  ")], Broken(Fault(true)), Attempt([TextPart("  ")], true, false, Some(Fault(true)))),
     Call(Some(first), [Text(last), End], Whole, Attempt([TextPart(last)], true, true, None))]
  }

  /** Text can be left over: what the consumer has read is then longer than the answer. */
  lemma StrayIsLeftOver(first: string, last: string)
    requires !Blank(first)
    ensures Leftover(StrayLog(first, last)[..2], StrayLog(first, last)[2]) == 2
    ensures forall i: nat | i < 3 :: StrayLog(first, last)[i].prefix == Asked(StrayLog(first, last)[..i], true)
  {
    var log := StrayLog(first, last);
    OneText(first);
    OneText("  ");
    assert "  "[1..] == " " && " "[1..] == "" && Blank(" ");
    assert log[..2] == [log[0], log[1]] && log[..2][..1] == [log[0]] && log[..1] == [log[0]];
    assert Stray([log[0]]) == 0;
    CarriedSnoc([], true, log[0]);
    CarriedSnoc([log[0]], true, log[1]);
    assert [] + [log[0]] == [log[0]] && [log[0]] + [log[1]] == [log[0], log[1]];
  }

  lemma OneText(text: string)
    ensures MessageText([TextPart(text)]) == text && !HasCall([TextPart(text)])
  {
    PartAppended([], TextPart(text));
    assert [] + [TextPart(text)] == [TextPart(text)];
  }

  // ---------------------------------------------------------------- The replay allowance

  /** `RetryAllowance`: replays that the turn and the layers below it share, within a window that begins with the first. */
  class RetryAllowance {
    const limit: nat
    var used: nat
    var started: bool
    var expired: bool

    ghost predicate Valid()
      reads this
    {
      used <= limit && (expired ==> started) && (used > 0 ==> started)
    }

    constructor (retries: nat)
      ensures Valid() && limit == retries && used == 0 && !started && !expired
    {
      limit, used, started, expired := retries, 0, false, false;
    }

    /** Time passes: the window may come to its end, once it has begun. */
    method Elapse()
      requires Valid()
      modifies this`expired
      ensures Valid() && (old(expired) ==> expired)
    {
      var over: bool := *;
      expired := expired || (started && over);
    }

    /** `Begin`: a re-issue that no replay is claimed for begins the window, too. */
    method Begin()
      requires Valid()
      modifies this`started
      ensures Valid() && started
    {
      started := true;
    }

    /** `Claim`: reserves one replay, exactly while the count and the window allow it. */
    method Claim() returns (allowed: bool)
      requires Valid()
      modifies this`used, this`started
      ensures Valid() && (allowed <==> old(used) < limit && !expired)
      ensures used == old(used) + (if allowed then 1 else 0) && (old(started) || allowed <==> started)
    {
      if used >= limit || expired {
        return false;
      }
      used, started := used + 1, true;
      return true;
    }

    /** Other owners of the allowance claim replays, too, while time passes. */
    method Others()
      requires Valid()
      modifies this
      ensures Valid() && old(used) <= used && (old(started) ==> started) && (old(expired) ==> expired)
    {
      var n: int := *;
      while n > 0
        invariant Valid() && old(used) <= used && (old(started) ==> started) && (old(expired) ==> expired)
      {
        n := n - 1;
        Elapse();
        var _ := Claim();
      }
      Elapse();
    }
  }

  // ---------------------------------------------------------------- The turn

  lemma OutputsSnoc(events: seq<Event>, e: Event)
    ensures (exists f <- events + [e] :: Outputs(f)) <==> (exists f <- events :: Outputs(f)) || Outputs(e)
    ensures (exists f <- events + [e] :: Shows(f)) <==> (exists f <- events :: Shows(f)) || Shows(e)
  {
    assert e in events + [e] && forall f <- events :: f in events + [e];
  }

  lemma TextOnly(before: seq<Event>, out: seq<Event>)
    requires forall f <- out :: f.Text?
    ensures Others(StreamAtoms(before + out)) == Others(StreamAtoms(before)) && (Calls(before + out) <==> Calls(before))
  {
    StreamAtomsConcat(before, out);
    OthersConcat(StreamAtoms(before), StreamAtoms(out));
    TextHasNoOthers(out);
    PassedCalls(before, out, Text(""));
  }

  /** What of a stream has been passed on: all of it or, of a continuation, what its filter has let through. */
  ghost predicate Screened(prefix: Option<string>, filter: Filter, passed: seq<Event>, seen: seq<Event>)
    reads filter
  {
    && Others(StreamAtoms(passed)) == Others(StreamAtoms(seen)) && (Calls(passed) <==> Calls(seen))
    && if prefix.Some? then filter.prefix == prefix.value && Heard(filter, seen) && filter.released == StreamText(passed)
       else passed == seen
  }

  method Screen(prefix: Option<string>, filter: Filter, ghost passed: seq<Event>, ghost seen: seq<Event>, e: Event) returns (out: seq<Event>)
    requires Screened(prefix, filter, passed, seen)
    modifies filter
    ensures Screened(prefix, filter, passed + out, seen + [e])
  {
    CallsSnoc(seen, e);
    if prefix.None? {
      return [e];
    }
    HeardMore(seen, e);
    out := filter.Forward(e);
    PassedOthers(passed, out, seen, e);
    PassedCalls(passed, out, e);
    StreamTextConcat(passed, out);
  }

  class Turn {
    /** Re-issues allowed after answer text or a tool call was streamed, replays allowed after reasoning alone. */
    const attempts: nat
    const replayAttempts: nat
    const continues: bool
    /** The consumer has left; the context of the turn is cancelled. */
    var left: bool
    var cancelled: bool
    /** The text given to the consumer since the last retraction, the notices besides, and the number of model calls. */
    ghost var draft: string
    ghost var notices: seq<Notice>
    ghost var calls: nat
    /** The calls that have ended, the consumer still listening. */
    ghost var log: seq<Call>

    constructor (reissues: nat, replays: nat, continuation: bool)
      ensures attempts == reissues && replayAttempts == replays && continues == continuation
      ensures !left && draft == "" && notices == [] && calls == 0 && log == []
    {
      attempts, replayAttempts, continues := reissues, replays, continuation;
      left, cancelled := false, *;
      draft, notices, calls, log := "", [], 0, [];
    }

    /** The outside world may cancel the context at any moment. */
    method Context()
      modifies this`cancelled
      ensures old(cancelled) ==> cancelled
    {
      var cancel: bool := *;
      cancelled := cancelled || cancel;
    }

    method Emit(n: Notice) returns (more: bool)
      requires !left
      modifies this`draft, this`notices, this`left
      ensures more <==> !left
      ensures draft == match n
                       case Delta(Text(text)) => old(draft) + text
                       case Discarded => ""
                       case _ => old(draft)
      ensures notices == if n.Delta? then old(notices) else old(notices) + [n]
    {
      match n {
        case Delta(Text(text)) => draft := draft + text;
        case Discarded => draft := "";
        case _ =>
      }
      if !n.Delta? {
        notices := notices + [n];
      }
      more := *;
      left := !more;
    }

    // -------------------------------------------------------------- One call

    /** What the accumulator has been given is what the consumer has. */
    ghost predicate InStep(before: string, acc: Accumulator)
      reads this, acc
    {
      acc.Valid() && draft == before + StreamText(acc.folded)
    }

    method DeliverOne(e: Event, acc: Accumulator) returns (more: bool)
      requires acc.Valid() && !left
      modifies this`draft, this`notices, this`left, acc
      ensures (more <==> !left) && notices == old(notices)
      ensures more ==> acc.Valid() && acc.folded == old(acc.folded) + [e]
      ensures more ==> draft == old(draft) + if e.Text? then e.text else ""
    {
      more := Emit(Delta(e));
      if more {
        acc.Add(e);
      }
    }

    /** Gives events to the consumer and to the accumulator alike. */
    method Deliver(events: seq<Event>, acc: Accumulator) returns (more: bool)
      requires acc.Valid() && !left
      modifies this`draft, this`notices, this`left, acc
      ensures (more <==> !left) && notices == old(notices)
      ensures more ==> acc.Valid() && acc.folded == old(acc.folded) + events && draft == old(draft) + StreamText(events)
    {
      ghost var folded, read := acc.folded, draft;
      more := true;
      var i := 0;
      AllGiven(read, folded, events);
      while more && i < |events|
        invariant i <= |events| && (more <==> !left) && notices == old(notices)
        invariant more ==> acc.Valid() && acc.folded == folded + events[..i] && draft == read + StreamText(events[..i])
      {
        OneGiven(read, folded, events, i);
        more := DeliverOne(events[i], acc);
        i := i + 1;
      }
    }

    lemma OneGiven(read: string, folded: seq<Event>, events: seq<Event>, i: nat)
      requires i < |events|
      ensures folded + events[..i] + [events[i]] == folded + events[..i + 1]
      ensures read + StreamText(events[..i]) + (if events[i].Text? then events[i].text else "") == read + StreamText(events[..i + 1])
    {
      assert events[..i + 1] == events[..i] + [events[i]];
      StreamTextSnoc(events[..i], events[i]);
    }

    lemma AllGiven(read: string, folded: seq<Event>, events: seq<Event>)
      ensures folded + events[..0] == folded && folded + events[..|events|] == folded + events
      ensures events[..|events|] == events && read + StreamText(events[..0]) == read
    {}

    lemma DeliveredInStep(before: string, folded: seq<Event>, out: seq<Event>)
      ensures before + StreamText(folded) + StreamText(out) == before + StreamText(folded + out)
    {
      StreamTextConcat(folded, out);
    }

    /** What has become of the events of a call so far. */
    ghost predicate Streaming(prefix: Option<string>, filter: Filter, acc: Accumulator, before: string, seen: seq<Event>)
      reads this, filter, acc
    {
      InStep(before, acc) && !left && Screened(prefix, filter, acc.folded, seen)
    }

    /** One event of the stream, through the filter if the call is a continuation. */
    method Feed(prefix: Option<string>, filter: Filter, acc: Accumulator, ghost before: string, ghost seen: seq<Event>, e: Event)
        returns (more: bool)
      requires Streaming(prefix, filter, acc, before, seen)
      modifies this`draft, this`notices, this`left, acc, filter
      ensures (more <==> !left) && notices == old(notices)
      ensures more ==> Streaming(prefix, filter, acc, before, seen + [e])
    {
      var out := Screen(prefix, filter, acc.folded, seen, e);
      DeliveredInStep(before, acc.folded, out);
      more := Deliver(out, acc);
    }

    /** A continuation that breaks off gives up what was held back. */
    method GiveUpRest(prefix: Option<string>, filter: Filter, acc: Accumulator, ghost before: string, ghost script: seq<Event>)
        returns (more: bool)
      requires Streaming(prefix, filter, acc, before, script) && prefix.Some?
      modifies this`draft, this`notices, this`left, acc, filter
      ensures (more <==> !left) && notices == old(notices)
      ensures more ==> InStep(before, acc) && StreamText(acc.folded) == Added(prefix.value, script, false)
      ensures more ==> Others(StreamAtoms(acc.folded)) == Others(StreamAtoms(script)) && (Calls(acc.folded) <==> Calls(script))
    {
      ghost var folded := acc.folded;
      WithoutEnd(script);
      var out := filter.Flush();
      TextOnly(folded, out);
      StreamTextConcat(folded, out);
      ReleasedAdded(filter, script, true);
      DeliveredInStep(before, folded, out);
      more := Deliver(out, acc);
    }

    /** What has become of a stream that is over. */
    ghost predicate Streamed(prefix: Option<string>, acc: Accumulator, before: string, script: seq<Event>, ending: Ending)
      reads this, acc
    {
      && InStep(before, acc) && !left
      && Others(StreamAtoms(acc.folded)) == Others(StreamAtoms(script)) && (Calls(acc.folded) <==> Calls(script))
      && if prefix.Some? then StreamText(acc.folded) == Added(prefix.value, script, !ending.Broken?) else acc.folded == script
    }

    /** One more event has been heard, and judged. */
    method HearOne(prefix: Option<string>, filter: Filter, acc: Accumulator, ghost before: string, ghost seen: seq<Event>, e: Event,
                   produced: bool, retractable: bool)
        returns (more: bool, produced': bool, retractable': bool)
      requires Streaming(prefix, filter, acc, before, seen) && Judged(seen, produced, retractable)
      modifies this`draft, this`notices, this`left, acc, filter
      ensures (more <==> !left) && notices == old(notices)
      ensures more ==> Streaming(prefix, filter, acc, before, seen + [e]) && Judged(seen + [e], produced', retractable')
    {
      OutputsSnoc(seen, e);
      var (output, answer) := Classify(e);
      produced', retractable' := produced || output, retractable || answer;
      more := Feed(prefix, filter, acc, before, seen, e);
    }

    /** Hears a stream, to its end unless the consumer leaves. */
    method Hear(prefix: Option<string>, filter: Filter, acc: Accumulator, ghost before: string, script: seq<Event>)
        returns (more: bool, produced: bool, retractable: bool)
      requires Streaming(prefix, filter, acc, before, [])
      modifies this`draft, this`notices, this`left, acc, filter
      ensures (more <==> !left) && notices == old(notices)
      ensures more ==> Streaming(prefix, filter, acc, before, script) && Judged(script, produced, retractable)
    {
      more, produced, retractable := true, false, false;
      var i := 0;
      HeardSoFar(script, 0);
      while more && i < |script|
        invariant i <= |script| && (more <==> !left) && notices == old(notices)
        invariant more ==> Streaming(prefix, filter, acc, before, script[..i]) && Judged(script[..i], produced, retractable)
      {
        HeardSoFar(script, i);
        more, produced, retractable := HearOne(prefix, filter, acc, before, script[..i], script[i], produced, retractable);
        i := i + 1;
      }
    }

    lemma HeardSoFar(script: seq<Event>, i: nat)
      ensures script[..0] == [] && script[..|script|] == script
      ensures i < |script| ==> script[..i + 1] == script[..i] + [script[i]]
    {}

    /** The end of a stream: a continuation that breaks off gives up what was held back. */
    method HearEnd(prefix: Option<string>, filter: Filter, acc: Accumulator, ghost before: string, script: seq<Event>, ending: Ending)
        returns (more: bool)
      requires Streaming(prefix, filter, acc, before, script)
      modifies this`draft, this`notices, this`left, acc, filter
      ensures (more <==> !left) && notices == old(notices)
      ensures more ==> Streamed(prefix, acc, before, script, ending)
    {
      if ending.Broken? && prefix.Some? {
        more := GiveUpRest(prefix, filter, acc, before, script);
      } else {
        if prefix.Some? {
          ReleasedAdded(filter, script, false);
        }
        more := true;
      }
    }

    /** The message of a stream that is over. */
    method Collect(prefix: Option<string>, acc: Accumulator, ghost before: string, script: seq<Event>, ending: Ending) returns (parts: seq<Part>)
      requires Streamed(prefix, acc, before, script, ending)
      modifies acc
      ensures draft == before + MessageText(parts) && Says(prefix, script, ending, parts)
    {
      acc.Flush();
      parts := acc.parts;
    }

    /** `callModel`: whatever the model streams and however the stream ends, the message's text is what was given to the
        consumer, and it is what the stream says, a continuation's less what restates the prefix. An event of an invalid
        type ends the stream without releasing what is held back, and so does a stream that is just over. None when the
        consumer leaves. */
    method CallModel(prefix: Option<string>) returns (r: Option<Attempt>)
      requires !left
      modifies this`draft, this`notices, this`left, this`calls, this`log, this`cancelled
      ensures (r.None? <==> left) && notices == old(notices) && (old(cancelled) ==> cancelled)
      ensures calls == old(calls) + 1
      ensures r.None? ==> log == old(log)
      ensures r.Some? ==> draft == old(draft) + MessageText(r.value.parts) && log != [] && log == old(log) + [log[|log| - 1]]
      ensures r.Some? ==> var call := log[|log| - 1]; call.prefix == prefix && call.attempt == r.value && Faithful(call)
    {
      calls := calls + 1;
      Context();
      var script: seq<Event>, ending: Ending := *, *;
      var acc := new Accumulator();
      var filter := new Filter(if prefix.Some? then prefix.value else "");
      ghost var before := draft;
      StartsHeard(filter);
      var more, produced, retractable := Hear(prefix, filter, acc, before, script);
      if !more {
        return None;
      }
      more := HearEnd(prefix, filter, acc, before, script, ending);
      if !more {
        return None;
      }
      var parts := Collect(prefix, acc, before, script, ending);
      var attempt := Attempt(parts, produced, retractable, ErrorOf(script, ending));
      SaysFaithfully(prefix, script, ending, attempt);
      log := log + [Call(prefix, script, ending, attempt)];
      r := Some(attempt);
    }

    lemma StartsHeard(filter: Filter)
      requires filter.Valid() && filter.received == "" && !filter.ended
      ensures Heard(filter, [])
    {}

    // -------------------------------------------------------------- The recovery loop

    /** The failure of this call is charged to the replay allowance. */
    predicate Replays(call: Call) {
      attempts > 0 && replayAttempts > 0 && !call.attempt.retractable
    }

    /** The calls of one tier that were issued again. */
    function Reissues(log: seq<Call>, replay: bool): nat {
      if log == [] then 0
      else
        var last := log[|log| - 1];
        Reissues(log[..|log| - 1], replay) + if !Abandoned(last) && Replays(last) == replay then 1 else 0
    }

    lemma ReissuesSnoc(log: seq<Call>, call: Call, replay: bool)
      ensures Reissues(log + [call], replay) == Reissues(log, replay) + if !Abandoned(call) && Replays(call) == replay then 1 else 0
    {
      assert (log + [call])[..|log|] == log;
    }

    /** Every call was rightly followed by another: after a failure worth another call, or after a continuation that came
        to nothing; within the budgets, and with one way back to the start. */
    ghost predicate WentOn(log: seq<Call>) {
      && (forall call <- log :: Reissuable(call) || Abandoned(call))
      && (forall i: nat | i < |log| && Abandoned(log[i]) :: !FellBack(log[..i]))
      && Reissues(log, false) <= attempts && Reissues(log, true) <= replayAttempts
      && |log| == Reissues(log, false) + Reissues(log, true) + if FellBack(log) then 1 else 0
    }

    lemma GoesOn(front: seq<Call>, call: Call)
      requires WentOn(front) && (Reissuable(call) || Abandoned(call)) && (Abandoned(call) ==> !FellBack(front))
      requires !Abandoned(call) ==> Reissues(front, Replays(call)) < if Replays(call) then replayAttempts else attempts
      ensures WentOn(front + [call])
    {
      var log := front + [call];
      ReissuesSnoc(front, call, false);
      ReissuesSnoc(front, call, true);
      CarriedSnoc(front, continues, call);
      forall i: nat | i < |log| && Abandoned(log[i]) ensures !FellBack(log[..i]) {
        assert log[..i] == if i < |front| then front[..i] else front;
      }
    }

    /** What the consumer has read is the retained prefix and, besides, `stray` bytes that failed continuations gave it
        and did not retain. */
    ghost predicate Reads(prefix: string, stray: nat)
      reads this
    {
      |draft| == |prefix| + stray && (stray == 0 ==> draft == prefix)
    }

    /** What is to be continued is what has been retained, and the consumer has read it. */
    ghost predicate Holds(prefix: string, havePrefix: bool)
      reads this
    {
      && Continues(log, continues) && (prefix, havePrefix) == Carried(log, continues)
      && (havePrefix ==> Reads(prefix, Stray(log)))
    }

    /** Before a call: without text to continue the consumer has read nothing. */
    ghost predicate Tracks(prefix: string, havePrefix: bool)
      reads this
    {
      Holds(prefix, havePrefix) && (!havePrefix ==> draft == "")
    }

    /** After a call that ended with the consumer still listening. */
    ghost predicate Received(prefix: string, havePrefix: bool, past: seq<Call>, last: Call)
      reads this
    {
      && log == past + [last] && Continues(log, continues) && (prefix, havePrefix) == Carried(past, continues)
      && last.prefix == (if havePrefix then Some(prefix) else None)
      && if havePrefix then
           && |draft| == |prefix| + Stray(past) + |MessageText(last.attempt.parts)|
           && (Stray(past) == 0 ==> draft == prefix + MessageText(last.attempt.parts))
         else draft == MessageText(last.attempt.parts)
    }

    /** A call on the text retained so far. */
    method CallOn(prefix: string, havePrefix: bool) returns (attempt: Option<Attempt>, ghost last: Call)
      requires !left && Tracks(prefix, havePrefix)
      modifies this`draft, this`notices, this`left, this`calls, this`log, this`cancelled
      ensures calls == old(calls) + 1 && notices == old(notices) && (old(cancelled) ==> cancelled) && (attempt.None? <==> left)
      ensures attempt.None? ==> log == old(log)
      ensures attempt.Some? ==> Received(prefix, havePrefix, old(log), last) && last.attempt == attempt.value
    {
      ghost var earlier := log;
      attempt := CallModel(if havePrefix then Some(prefix) else None);
      if attempt.Some? {
        last := log[|log| - 1];
        ContinuesSnoc(earlier, continues, last);
      } else {
        last := *;
      }
    }

    /** The consumer has read the answer, and the text left over. */
    ghost predicate ReadAs(parts: seq<Part>, leftover: nat)
      reads this
    {
      |draft| == |MessageText(parts)| + leftover && (draft == MessageText(parts) <==> leftover == 0)
    }

    /** What the answer has of what the consumer has read. */
    lemma AnswerRead(prefix: string, havePrefix: bool, past: seq<Call>, last: Call)
      requires Received(prefix, havePrefix, past, last)
      ensures ReadAs(Answer(last), Leftover(past, last))
    {
      if havePrefix {
        MergedText(prefix, last.attempt.parts);
      }
    }

    /** The answer of a call that did not fail, unless it continues a text and adds nothing to it. */
    method Accept(prefix: string, havePrefix: bool, a: Attempt, ghost past: seq<Call>, ghost last: Call) returns (answer: Option<Outcome>)
      requires Received(prefix, havePrefix, past, last) && a == last.attempt
      ensures answer.Some? <==> Succeeded(last)
      ensures answer.Some? ==> answer.value == Answered(Answer(last)) && ReadAs(Answer(last), Leftover(past, last))
    {
      if a.error.Some? || (havePrefix && !HasCall(a.parts) && Retained(a.parts).None?) {
        return None;
      }
      AnswerRead(prefix, havePrefix, past, last);
      return Some(Answered(if havePrefix then Merged(prefix, a.parts) else a.parts));
    }

    /** What a turn that gives up leaves of an answer: what has been retained, with what the last call adds. */
    ghost function Fragment(past: seq<Call>, last: Call): string {
      Extended(Carried(past, continues).0, Retained(last.attempt.parts), continues && !FellBack(past))
    }

    /** What a failed call leaves to continue. */
    method Retain(prefix: string, havePrefix: bool, a: Attempt, accumulate: bool, ghost past: seq<Call>, ghost last: Call)
        returns (prefix': string, havePrefix': bool)
      requires Received(prefix, havePrefix, past, last) && a == last.attempt && accumulate == (continues && !FellBack(past))
      requires (havePrefix ==> accumulate) && (!havePrefix && accumulate ==> prefix == "")
      ensures prefix' == Fragment(past, last) && (!Abandoned(last) ==> Holds(prefix', havePrefix'))
      ensures (havePrefix' ==> accumulate) && (!havePrefix' && accumulate ==> prefix' == "")
    {
      var retained := Retained(a.parts);
      RetainedHolds(prefix, havePrefix, accumulate, past, last);
      prefix', havePrefix' := Extended(prefix, retained, accumulate), havePrefix || (accumulate && retained.Some?);
    }

    /** The bytes the consumer has read are those retained, and the stray ones. */
    lemma RetainedReads(prefix: string, havePrefix: bool, past: seq<Call>, last: Call)
      requires Received(prefix, havePrefix, past, last)
      ensures havePrefix ==> Reads(Extended(prefix, Retained(last.attempt.parts), true), Stray(log))
      ensures !havePrefix && Retained(last.attempt.parts).Some? ==> Reads(Retained(last.attempt.parts).value, Stray(log))
    {
      assert log[..|log| - 1] == past;
    }

    lemma RetainedHolds(prefix: string, havePrefix: bool, accumulate: bool, past: seq<Call>, last: Call)
      requires Received(prefix, havePrefix, past, last) && accumulate == (continues && !FellBack(past))
      requires (havePrefix ==> accumulate) && (!havePrefix && accumulate ==> prefix == "")
      ensures var retained := Retained(last.attempt.parts);
              !Abandoned(last) ==> Holds(Extended(prefix, retained, accumulate), havePrefix || (accumulate && retained.Some?))
    {
      CarriedSnoc(past, continues, last);
      RetainedReads(prefix, havePrefix, past, last);
      if !havePrefix && accumulate && Retained(last.attempt.parts).Some? {
        assert "" + Retained(last.attempt.parts).value == Retained(last.attempt.parts).value;
      }
    }

    /** A turn that gives up tells the consumer so: the fragment is incomplete, or what was shown is void. */
    ghost predicate Reported(fragment: string, produced: bool)
      reads this
    {
      if fragment != "" then notices != [] && notices[|notices| - 1] == Incomplete(fragment)
      else produced ==> notices != [] && notices[|notices| - 1] == Discarded
    }

    /** `reportAbandoned`. */
    method ReportAbandoned(prefix: string, produced: bool) returns (r: Outcome)
      requires !left
      modifies this`draft, this`notices, this`left
      ensures if r.GaveUp? then !left && Reported(prefix, produced) else r.ConsumerLeft? && left
    {
      var more := true;
      if prefix != "" {
        more := Emit(Incomplete(prefix));
      } else if produced {
        more := Emit(Discarded);
      }
      return if more then GaveUp else ConsumerLeft;
    }

    /** The wait before the next call, which a cancelled turn does not sit out. */
    method Wait() returns (stopped: Option<Outcome>)
      modifies this`cancelled
      ensures (old(cancelled) ==> cancelled && stopped.Some?) && (stopped.Some? ==> stopped.value.CutShort? && cancelled)
    {
      if cancelled {
        return Some(CutShort);
      }
      Context();
      var over: bool := *;
      return if cancelled && !over then Some(CutShort) else None;
    }

    /** The end of the loop body for a failure that is re-issued. */
    method Reissue(prefix: string, havePrefix: bool) returns (stopped: Option<Outcome>)
      requires !left && Holds(prefix, havePrefix)
      modifies this`draft, this`notices, this`left, this`cancelled
      ensures stopped.None? ==> !left && Tracks(prefix, havePrefix)
      ensures stopped.None? ==> notices == old(notices) + if havePrefix then [Retrying] else [Discarded, Retrying]
      ensures stopped.Some? ==> if left then stopped.value.ConsumerLeft? else stopped.value.CutShort? && cancelled
      ensures old(cancelled) ==> cancelled
    {
      var more := true;
      if !havePrefix {
        more := Emit(Discarded);
      }
      if more {
        more := Emit(Retrying);
      }
      if !more {
        return Some(ConsumerLeft);
      }
      stopped := Wait();
    }

    /** A continuation is given up: what was streamed is retracted, and the turn answers from the start. */
    method FallBack() returns (stopped: Option<Outcome>)
      requires !left
      modifies this`draft, this`notices, this`left, this`cancelled
      ensures stopped.None? ==> !left && draft == "" && notices == old(notices) + [Discarded]
      ensures stopped.Some? ==> if left then stopped.value.ConsumerLeft? else stopped.value.CutShort? && cancelled
      ensures old(cancelled) ==> cancelled
    {
      var more := Emit(Discarded);
      if !more {
        return Some(ConsumerLeft);
      }
      stopped := Wait();
    }

    /** The replay allowance is shared with other layers. */
    predicate Sharing() {
      attempts > 0 && replayAttempts > 0
    }

    ghost predicate Allowed(shared: RetryAllowance, past: seq<Call>)
      reads shared
    {
      && shared.Valid() && shared.limit == replayAttempts && Reissues(past, true) <= shared.used
      && (shared.started && !Sharing() ==> Reissues(past, false) > 0)
    }

    /** What the loop has counted and remembers of the calls that were followed by another. */
    ghost predicate Counted(prefix: string, havePrefix: bool, fellBack: bool, spent: nat, replayed: nat, past: seq<Call>)
      reads this
    {
      && WentOn(past) && spent == Reissues(past, false) && replayed == Reissues(past, true) && fellBack == FellBack(past)
      && (havePrefix ==> continues && !fellBack) && (!havePrefix && continues && !fellBack ==> prefix == "")
    }

    /** The budget of the tier that the last failure is charged to has been used up. */
    ghost predicate TierSpent(shared: RetryAllowance, past: seq<Call>, last: Call)
      reads shared
    {
      if Replays(last) then shared.used >= replayAttempts else Reissues(past, false) >= attempts
    }

    /** How a turn ends after its last call. It answers with that call if it has succeeded, and only then; it gives up on a
        failure that is not worth another call, for want of time or budget, or because it is cancelled; it is cut short
        only while it waits to go on. */
    ghost predicate Ended(r: Outcome, shared: RetryAllowance, past: seq<Call>, last: Call)
      reads this, shared
    {
      match r
      case ConsumerLeft => left
      case Answered(parts) => !left && Succeeded(last) && parts == Answer(last) && ReadAs(parts, Leftover(past, last))
      case GaveUp =>
        && !left && last.attempt.error.Some? && Reported(Fragment(past, last), last.attempt.produced)
        && (cancelled || shared.expired || !Reissuable(last) || TierSpent(shared, past, last))
        && (cancelled || !Abandoned(last))
      case CutShort => !left && cancelled && (Reissuable(last) || Abandoned(last))
    }

    /** The turn gives up, and says so. */
    method GiveUp(fragment: string, a: Attempt, shared: RetryAllowance, ghost past: seq<Call>, ghost last: Call) returns (r: Outcome)
      requires !left && a == last.attempt && a.error.Some? && fragment == Fragment(past, last)
      requires cancelled || shared.expired || !Reissuable(last) || TierSpent(shared, past, last)
      requires cancelled || !Abandoned(last)
      modifies this`draft, this`notices, this`left
      ensures Ended(r, shared, past, last)
    {
      r := ReportAbandoned(fragment, a.produced);
    }

    /** A replay is claimed if one is needed; the window has begun. */
    method Charge(replay: bool, shared: RetryAllowance) returns (allowed: bool)
      requires shared.Valid() && (replay ==> Sharing())
      modifies shared
      ensures shared.Valid() && old(shared.used) <= shared.used && shared.started
      ensures replay && allowed ==> old(shared.used) < shared.used
      ensures !allowed ==> replay && (shared.used >= shared.limit || shared.expired)
    {
      shared.Begin();
      if !replay {
        shared.Elapse();
        return true;
      }
      shared.Others();
      allowed := shared.Claim();
    }

    /** A failure that is worth another call, if its budget allows it. */
    method TryAgain(prefix: string, havePrefix: bool, a: Attempt, replay: bool, shared: RetryAllowance, ghost past: seq<Call>, ghost last: Call)
        returns (stopped: Option<Outcome>)
      requires !left && a == last.attempt && Reissuable(last) && !Abandoned(last) && replay == Replays(last)
      requires prefix == Fragment(past, last) && Holds(prefix, havePrefix) && Allowed(shared, past)
      modifies this`draft, this`notices, this`left, this`cancelled, shared
      ensures (old(cancelled) ==> cancelled) && shared.Valid() && shared.started && old(shared.used) <= shared.used
      ensures stopped.Some? ==> Ended(stopped.value, shared, past, last)
      ensures stopped.None? ==> !left && Tracks(prefix, havePrefix) && (replay ==> old(shared.used) < shared.used)
    {
      var allowed := Charge(replay, shared);
      if allowed {
        stopped := Reissue(prefix, havePrefix);
      } else {
        var gaveUp := GiveUp(prefix, a, shared, past, last);
        stopped := Some(gaveUp);
      }
    }

    /** Whether a failure is the end of the turn. */
    method Stops(a: Attempt, replay: bool, spent: nat, shared: RetryAllowance, ghost past: seq<Call>, ghost last: Call) returns (stop: bool)
      requires a == last.attempt && a.error.Some? && replay == Replays(last) && spent == Reissues(past, false)
      ensures stop <==> cancelled || shared.expired || !Reissuable(last) || TierSpent(shared, past, last)
    {
      var exhausted := if replay then shared.used >= replayAttempts else spent >= attempts;
      stop := !a.produced || exhausted || !a.error.value.retryable || cancelled || shared.expired;
    }

    /** What a failure comes to that is not abandoned: another call, or the end of the turn. */
    method GoOn(prefix: string, havePrefix: bool, fellBack: bool, a: Attempt, spent: nat, replayed: nat, shared: RetryAllowance,
                ghost past: seq<Call>, ghost last: Call)
        returns (stopped: Option<Outcome>, prefix': string, havePrefix': bool, replay: bool)
      requires !left && Received(prefix, havePrefix, past, last) && a == last.attempt && a.error.Some? && (cancelled || !Abandoned(last))
      requires Counted(prefix, havePrefix, fellBack, spent, replayed, past) && Allowed(shared, past)
      modifies this`draft, this`notices, this`left, this`cancelled, shared
      ensures (old(cancelled) ==> cancelled) && shared.Valid() && shared.limit == replayAttempts
      ensures stopped.Some? ==> Ended(stopped.value, shared, past, last)
      ensures stopped.None? ==> Resumed(prefix', havePrefix', fellBack, spent, replayed, replay, shared, last)
    {
      replay := attempts > 0 && replayAttempts > 0 && !a.retractable;
      var stop := Stops(a, replay, spent, shared, past, last);
      prefix', havePrefix' := Retain(prefix, havePrefix, a, continues && !fellBack, past, last);
      stopped := StopOrTry(stop, prefix', havePrefix', a, replay, shared, past, last);
    }

    method StopOrTry(stop: bool, prefix: string, havePrefix: bool, a: Attempt, replay: bool, shared: RetryAllowance,
                     ghost past: seq<Call>, ghost last: Call)
        returns (stopped: Option<Outcome>)
      requires !left && a == last.attempt && a.error.Some? && (cancelled || !Abandoned(last)) && replay == Replays(last)
      requires stop <==> cancelled || shared.expired || !Reissuable(last) || TierSpent(shared, past, last)
      requires prefix == Fragment(past, last) && (!Abandoned(last) ==> Holds(prefix, havePrefix)) && Allowed(shared, past)
      modifies this`draft, this`notices, this`left, this`cancelled, shared
      ensures (old(cancelled) ==> cancelled) && shared.Valid() && old(shared.used) <= shared.used
      ensures stopped.Some? ==> Ended(stopped.value, shared, past, last)
      ensures stopped.None? ==> !stop && !left && Tracks(prefix, havePrefix) && shared.started && (replay ==> old(shared.used) < shared.used)
    {
      if stop {
        var gaveUp := GiveUp(prefix, a, shared, past, last);
        stopped := Some(gaveUp);
      } else {
        stopped := TryAgain(prefix, havePrefix, a, replay, shared, past, last);
      }
    }

    /** A failure has been charged, and the turn goes on. */
    ghost predicate Resumed(prefix: string, havePrefix: bool, fellBack: bool, spent: nat, replayed: nat, replay: bool,
                            shared: RetryAllowance, last: Call)
      reads this, shared
    {
      && !left && Reissuable(last) && !Abandoned(last) && replay == Replays(last) && shared.started
      && (if replay then replayed < replayAttempts && replayed < shared.used else spent < attempts)
      && replayed <= shared.used && Tracks(prefix, havePrefix) && (havePrefix ==> continues && !fellBack)
      && (!havePrefix && continues && !fellBack ==> prefix == "")
    }

    /** Between two calls of the turn. */
    ghost predicate Turning(prefix: string, havePrefix: bool, fellBack: bool, spent: nat, replayed: nat, shared: RetryAllowance)
      reads this, shared
    {
      && !left && Tracks(prefix, havePrefix) && calls == |log| && Allowed(shared, log)
      && Counted(prefix, havePrefix, fellBack, spent, replayed, log)
    }

    lemma GoneOn(prefix: string, havePrefix: bool, fellBack: bool, spent: nat, replayed: nat, replay: bool,
                 shared: RetryAllowance, past: seq<Call>, last: Call)
      requires WentOn(past) && spent == Reissues(past, false) && replayed == Reissues(past, true) && fellBack == FellBack(past)
      requires log == past + [last] && calls == |log| && shared.Valid() && shared.limit == replayAttempts
      requires Resumed(prefix, havePrefix, fellBack, spent, replayed, replay, shared, last)
      ensures Turning(prefix, havePrefix, fellBack, if replay then spent else spent + 1, if replay then replayed + 1 else replayed, shared)
    {
      GoesOn(past, last);
      ReissuesSnoc(past, last, false);
      ReissuesSnoc(past, last, true);
      CarriedSnoc(past, continues, last);
    }

    lemma GoneBack(spent: nat, replayed: nat, shared: RetryAllowance, past: seq<Call>, last: Call)
      requires WentOn(past) && spent == Reissues(past, false) && replayed == Reissues(past, true) && !FellBack(past)
      requires !left && log == past + [last] && calls == |log| && Continues(log, continues) && Allowed(shared, past)
      requires Abandoned(last) && draft == ""
      ensures Turning("", false, true, spent, replayed, shared)
    {
      GoesOn(past, last);
      ReissuesSnoc(past, last, false);
      ReissuesSnoc(past, last, true);
      CarriedSnoc(past, continues, last);
    }

    /** After a call that does not answer. */
    ghost predicate Failing(prefix: string, havePrefix: bool, fellBack: bool, spent: nat, replayed: nat, shared: RetryAllowance,
                            past: seq<Call>, last: Call)
      reads this, shared
    {
      && !left && Received(prefix, havePrefix, past, last) && !Succeeded(last) && calls == |log|
      && Counted(prefix, havePrefix, fellBack, spent, replayed, past) && Allowed(shared, past)
    }

    /** How far the turn has got. */
    predicate Further(fellBack: bool, spent: nat, replayed: nat, fellBack': bool, spent': nat, replayed': nat) {
      if fellBack' && !fellBack then spent' == spent && replayed' == replayed
      else fellBack' == fellBack && spent' + replayed' == spent + replayed + 1 && spent' >= spent && replayed' >= replayed
    }

    /** The way back to the start. */
    method AnswerFromStart(spent: nat, replayed: nat, shared: RetryAllowance, ghost past: seq<Call>, ghost last: Call) returns (stopped: Option<Outcome>)
      requires WentOn(past) && spent == Reissues(past, false) && replayed == Reissues(past, true) && !FellBack(past)
      requires !left && log == past + [last] && calls == |log| && Continues(log, continues) && Allowed(shared, past) && Abandoned(last)
      modifies this`draft, this`notices, this`left, this`cancelled
      ensures stopped.Some? ==> Ended(stopped.value, shared, past, last)
      ensures stopped.None? ==> Turning("", false, true, spent, replayed, shared)
    {
      stopped := FallBack();
      if stopped.None? {
        GoneBack(spent, replayed, shared, past, last);
      }
    }

    /** What follows a call that does not answer. */
    method Recover(prefix: string, havePrefix: bool, fellBack: bool, a: Attempt, spent: nat, replayed: nat, shared: RetryAllowance,
                   ghost past: seq<Call>, ghost last: Call)
        returns (stopped: Option<Outcome>, prefix': string, havePrefix': bool, fellBack': bool, spent': nat, replayed': nat)
      requires Failing(prefix, havePrefix, fellBack, spent, replayed, shared, past, last) && a == last.attempt
      modifies this`draft, this`notices, this`left, this`cancelled, shared
      ensures shared.Valid() && shared.limit == replayAttempts
      ensures stopped.Some? ==> Ended(stopped.value, shared, past, last)
      ensures stopped.None? ==> Turning(prefix', havePrefix', fellBack', spent', replayed', shared)
      ensures stopped.None? ==> Further(fellBack, spent, replayed, fellBack', spent', replayed')
    {
      FailedSo(prefix, havePrefix, fellBack, spent, replayed, shared, past, last);
      if havePrefix && (a.error.None? || (!a.error.value.retryable && !cancelled)) {
        stopped := AnswerFromStart(spent, replayed, shared, past, last);
        return stopped, "", false, true, spent, replayed;
      }
      stopped, prefix', havePrefix', spent', replayed' := GoFurther(prefix, havePrefix, fellBack, a, spent, replayed, shared, past, last);
      fellBack' := fellBack;
    }

    /** What is known of a call that does not answer: it is abandoned exactly if it is a continuation that came to nothing
        or was refused, and then it is the first. */
    lemma FailedSo(prefix: string, havePrefix: bool, fellBack: bool, spent: nat, replayed: nat, shared: RetryAllowance, past: seq<Call>, last: Call)
      requires Failing(prefix, havePrefix, fellBack, spent, replayed, shared, past, last)
      ensures log == past + [last] && Continues(log, continues) && (fellBack <==> FellBack(past))
      ensures Abandoned(last) <==> havePrefix && (last.attempt.error.None? || !last.attempt.error.value.retryable)
      ensures last.attempt.error.None? ==> havePrefix
      ensures Abandoned(last) ==> !FellBack(past)
    {
      if FellBack(past) {
        AsksNothing(past, continues);
      }
    }

    /** Another call follows, in the tier of the last one. */
    method GoFurther(prefix: string, havePrefix: bool, fellBack: bool, a: Attempt, spent: nat, replayed: nat, shared: RetryAllowance,
                     ghost past: seq<Call>, ghost last: Call)
        returns (stopped: Option<Outcome>, prefix': string, havePrefix': bool, spent': nat, replayed': nat)
      requires Failing(prefix, havePrefix, fellBack, spent, replayed, shared, past, last) && a == last.attempt && a.error.Some?
      requires log == past + [last] && (cancelled || !Abandoned(last))
      modifies this`draft, this`notices, this`left, this`cancelled, shared
      ensures shared.Valid() && shared.limit == replayAttempts
      ensures stopped.Some? ==> Ended(stopped.value, shared, past, last)
      ensures stopped.None? ==> Turning(prefix', havePrefix', fellBack, spent', replayed', shared)
      ensures stopped.None? ==> Further(fellBack, spent, replayed, fellBack, spent', replayed')
    {
      var replay;
      stopped, prefix', havePrefix', replay := GoOn(prefix, havePrefix, fellBack, a, spent, replayed, shared, past, last);
      if stopped.None? {
        GoneOn(prefix', havePrefix', fellBack, spent, replayed, replay, shared, past, last);
      }
      spent', replayed' := if replay then spent else spent + 1, if replay then replayed + 1 else replayed;
    }

    /** The next call of the turn: the consumer leaves, it answers, or it has failed. */
    method NextCall(prefix: string, havePrefix: bool, fellBack: bool, spent: nat, replayed: nat, shared: RetryAllowance)
        returns (stopped: Option<Outcome>, a: Attempt, ghost last: Option<Call>)
      requires Turning(prefix, havePrefix, fellBack, spent, replayed, shared)
      modifies this`draft, this`notices, this`left, this`calls, this`log, this`cancelled, shared
      ensures calls == |old(log)| + 1 && log == old(log) + (if last.Some? then [last.value] else []) && Continues(log, continues)
      ensures shared.Valid() && shared.limit == replayAttempts
      ensures stopped.Some? ==> if last.Some? then Ended(stopped.value, shared, old(log), last.value) else stopped.value.ConsumerLeft? && left
      ensures stopped.None? ==> last.Some? && a == last.value.attempt
                                && Failing(prefix, havePrefix, fellBack, spent, replayed, shared, old(log), last.value)
    {
      var attempt;
      ghost var call: Call;
      attempt, call := CallOn(prefix, havePrefix);
      if attempt.None? {
        a := *;
        return Some(ConsumerLeft), a, None;
      }
      a, last := attempt.value, Some(call);
      Pass(shared);
      stopped := Accept(prefix, havePrefix, a, old(log), call);
    }

    /** One call of the turn, and what follows it. */
    method Round(prefix: string, havePrefix: bool, fellBack: bool, spent: nat, replayed: nat, shared: RetryAllowance)
        returns (stopped: Option<Outcome>, prefix': string, havePrefix': bool, fellBack': bool, spent': nat, replayed': nat, ghost last: Option<Call>)
      requires Turning(prefix, havePrefix, fellBack, spent, replayed, shared)
      modifies this`draft, this`notices, this`left, this`calls, this`log, this`cancelled, shared
      ensures calls == |old(log)| + 1 && log == old(log) + (if last.Some? then [last.value] else []) && Continues(log, continues)
      ensures shared.Valid() && shared.limit == replayAttempts
      ensures stopped.Some? ==> if last.Some? then Ended(stopped.value, shared, old(log), last.value) else stopped.value.ConsumerLeft? && left
      ensures stopped.None? ==> Turning(prefix', havePrefix', fellBack', spent', replayed', shared)
      ensures stopped.None? ==> Further(fellBack, spent, replayed, fellBack', spent', replayed')
    {
      var a;
      stopped, a, last := NextCall(prefix, havePrefix, fellBack, spent, replayed, shared);
      if stopped.Some? {
        prefix', havePrefix', fellBack', spent', replayed' := prefix, havePrefix, fellBack, spent, replayed;
      } else {
        stopped, prefix', havePrefix', fellBack', spent', replayed' :=
          Recover(prefix, havePrefix, fellBack, a, spent, replayed, shared, old(log), last.value);
      }
    }

    /** Time passes, and the world goes on. */
    method Pass(shared: RetryAllowance)
      requires shared.Valid()
      modifies this`cancelled, shared
      ensures shared.Valid() && (old(cancelled) ==> cancelled) && old(shared.used) <= shared.used
      ensures !Sharing() ==> shared.started == old(shared.started)
    {
      if Sharing() {
        shared.Others();
      } else {
        shared.Elapse();
      }
      Context();
    }

    /** `callTurn`. Each call but the last was rightly followed by another, each is asked to continue exactly what has been
        retained, and there are at most `attempts + replayAttempts + 2`. When the turn answers, the consumer's draft is the
        answer's text exactly if no failed continuation before has left text in the draft that it did not retain;
        otherwise the draft is longer by that text. */
    method CallTurn() returns (r: Outcome, shared: RetryAllowance, ghost past: seq<Call>, ghost last: Option<Call>)
      requires !left && draft == "" && notices == [] && calls == 0 && log == []
      modifies this`draft, this`notices, this`left, this`calls, this`log, this`cancelled
      ensures fresh(shared) && shared.Valid() && shared.limit == replayAttempts
      ensures Continues(log, continues) && WentOn(past) && log == past + (if last.Some? then [last.value] else [])
      ensures calls == |past| + 1 <= attempts + replayAttempts + 2
      ensures if last.Some? then Ended(r, shared, past, last.value) else r.ConsumerLeft? && left
    {
      shared := new RetryAllowance(replayAttempts);
      var prefix, havePrefix, fellBack, spent, replayed := "", false, false, 0, 0;
      var stopped: Option<Outcome> := None;
      past, last := [], None;
      while stopped.None?
        invariant fresh(shared) && shared.Valid() && shared.limit == replayAttempts
        invariant stopped.None? ==> Turning(prefix, havePrefix, fellBack, spent, replayed, shared)
        invariant stopped.Some? ==> Continues(log, continues) && WentOn(past) && log == past + (if last.Some? then [last.value] else [])
        invariant stopped.Some? ==> calls == |past| + 1
        invariant stopped.Some? ==> if last.Some? then Ended(stopped.value, shared, past, last.value) else stopped.value.ConsumerLeft? && left
        decreases stopped.None?, attempts - spent, replayAttempts - replayed, !fellBack
      {
        past := log;
        stopped, prefix, havePrefix, fellBack, spent, replayed, last := Round(prefix, havePrefix, fellBack, spent, replayed, shared);
      }
      r := stopped.value;
    }
  }
}
