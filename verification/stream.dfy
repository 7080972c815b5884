/** One model call of a turn: the stream, the filter that trims what a continuation restates, and the accumulator
    (agent/run.go, ai/stream.go). Text is a sequence of bytes. */
module Streams {
  import opened Options

  datatype Event = Text(text: string) | Reasoning(text: string) | CallStart(id: string) | OtherOutput | Control | End

  datatype Part = TextPart(text: string) | ReasoningPart(text: string) | CallPart(id: string)

  /** The text of a stream, and of a message. */
  function StreamText(events: seq<Event>): string {
    if events == [] then ""
    else StreamText(events[..|events| - 1]) + (if events[|events| - 1].Text? then events[|events| - 1].text else "")
  }

  function MessageText(parts: seq<Part>): string {
    if parts == [] then ""
    else MessageText(parts[..|parts| - 1]) + (if parts[|parts| - 1].TextPart? then parts[|parts| - 1].text else "")
  }

  predicate HasCall(parts: seq<Part>) {
    exists part <- parts :: part.CallPart?
  }

  predicate Calls(events: seq<Event>) {
    exists e <- events :: e.CallStart?
  }

  lemma CallsSnoc(events: seq<Event>, e: Event)
    ensures Calls(events + [e]) <==> Calls(events) || e.CallStart?
  {
    assert e in events + [e] && forall f <- events :: f in events + [e];
  }

  /** The length of the white space character a text begins with, in the UTF-8 encoding; zero if it begins with none. */
  function SpaceWidth(text: string): (width: nat)
    ensures width <= |text|
  {
    if text == "" then 0
    else if text[0] == ' ' || '\t' <= text[0] <= '\r' then 1
    else if |text| >= 2 && text[0] == '\U{C2}' && text[1] in {'\U{85}', '\U{A0}'} then 2
    else if |text| >= 3 && WideSpace(text[0], text[1], text[2]) then 3
    else 0
  }

  /** U+1680, U+2000 to U+200A, U+2028, U+2029, U+202F, U+205F and U+3000. */
  predicate WideSpace(a: char, b: char, c: char) {
    || (a == '\U{E1}' && b == '\U{9A}' && c == '\U{80}')
    || (a == '\U{E2}' && b == '\U{80}' && ('\U{80}' <= c <= '\U{8A}' || c in {'\U{A8}', '\U{A9}', '\U{AF}'}))
    || (a == '\U{E2}' && b == '\U{81}' && c == '\U{9F}')
    || (a == '\U{E3}' && b == '\U{80}' && c == '\U{80}')
  }

  /** Nothing is left of the text when `strings.TrimSpace` has trimmed it. */
  predicate Blank(text: string) {
    text == "" || (SpaceWidth(text) > 0 && Blank(text[SpaceWidth(text)..]))
  }

  lemma StreamTextSnoc(events: seq<Event>, e: Event)
    ensures StreamText(events + [e]) == StreamText(events) + (if e.Text? then e.text else "")
  {
    assert (events + [e])[..|events|] == events;
  }

  lemma StreamTextOf(e: Event)
    ensures StreamText([e]) == if e.Text? then e.text else ""
  {
    StreamTextSnoc([], e);
    assert [] + [e] == [e];
  }

  lemma PartAppended(parts: seq<Part>, p: Part)
    ensures MessageText(parts + [p]) == MessageText(parts) + (if p.TextPart? then p.text else "")
    ensures HasCall(parts + [p]) <==> HasCall(parts) || p.CallPart?
  {
    assert (parts + [p])[..|parts|] == parts;
    assert p in parts + [p] && forall q <- parts :: q in parts + [p];
  }

  // ---------------------------------------------------------------- What a stream says, and a message

  /** The content of streams and messages, piece by piece, however it is cut into deltas and parts. */
  datatype Atom = Said(c: char) | Thought(c: char) | Called(id: string)

  function Saying(text: string): seq<Atom> {
    seq(|text|, i requires 0 <= i < |text| => Said(text[i]))
  }

  function Thinking(text: string): seq<Atom> {
    seq(|text|, i requires 0 <= i < |text| => Thought(text[i]))
  }

  function PartAtoms(p: Part): seq<Atom> {
    match p
    case TextPart(text) => Saying(text)
    case ReasoningPart(text) => Thinking(text)
    case CallPart(id) => [Called(id)]
  }

  function Atoms(parts: seq<Part>): seq<Atom> {
    if parts == [] then [] else Atoms(parts[..|parts| - 1]) + PartAtoms(parts[|parts| - 1])
  }

  function EventAtoms(e: Event): seq<Atom> {
    match e
    case Text(text) => Saying(text)
    case Reasoning(text) => Thinking(text)
    case CallStart(id) => [Called(id)]
    case _ => []
  }

  function StreamAtoms(events: seq<Event>): seq<Atom> {
    if events == [] then [] else StreamAtoms(events[..|events| - 1]) + EventAtoms(events[|events| - 1])
  }

  /** All but the text. */
  function Others(atoms: seq<Atom>): seq<Atom> {
    if atoms == [] then [] else Others(atoms[..|atoms| - 1]) + (if atoms[|atoms| - 1].Said? then [] else [atoms[|atoms| - 1]])
  }

  lemma {:induction false} OthersConcat(a: seq<Atom>, b: seq<Atom>)
    ensures Others(a + b) == Others(a) + Others(b)
    decreases |b|
  {
    if b == [] {
      assert a + b == a;
    } else {
      assert (a + b)[..|a + b| - 1] == a + b[..|b| - 1];
      OthersConcat(a, b[..|b| - 1]);
    }
  }

  lemma {:induction false} OthersOfText(text: string)
    ensures Others(Saying(text)) == []
    decreases |text|
  {
    if text != "" {
      assert Saying(text)[..|text| - 1] == Saying(text[..|text| - 1]);
      OthersOfText(text[..|text| - 1]);
    }
  }

  lemma {:induction false} TextHasNoOthers(events: seq<Event>)
    requires forall e <- events :: e.Text?
    ensures Others(StreamAtoms(events)) == []
    decreases |events|
  {
    if events != [] {
      var front, last := events[..|events| - 1], events[|events| - 1];
      assert last in events && forall e <- front :: e in events;
      TextHasNoOthers(front);
      OthersConcat(StreamAtoms(front), EventAtoms(last));
      OthersOfText(last.text);
    }
  }

  lemma {:induction false} StreamAtomsConcat(a: seq<Event>, b: seq<Event>)
    ensures StreamAtoms(a + b) == StreamAtoms(a) + StreamAtoms(b)
    decreases |b|
  {
    if b == [] {
      assert a + b == a;
    } else {
      var front, last := b[..|b| - 1], b[|b| - 1];
      StreamAtomsConcat(a, front);
      assert b == front + [last] && a + b == (a + front) + [last];
      StreamAtomsSnoc(front, last);
      StreamAtomsSnoc(a + front, last);
      AtomsAssociate(StreamAtoms(a), StreamAtoms(front), EventAtoms(last));
    }
  }

  lemma AtomsSnoc(parts: seq<Part>, p: Part)
    ensures Atoms(parts + [p]) == Atoms(parts) + PartAtoms(p)
  {
    assert (parts + [p])[..|parts|] == parts;
  }

  lemma StreamAtomsSnoc(events: seq<Event>, e: Event)
    ensures StreamAtoms(events + [e]) == StreamAtoms(events) + EventAtoms(e)
  {
    assert (events + [e])[..|events|] == events;
  }

  lemma SayingMore(text: string, more: string)
    ensures Saying(text + more) == Saying(text) + Saying(more)
  {}

  lemma ThinkingMore(text: string, more: string)
    ensures Thinking(text + more) == Thinking(text) + Thinking(more)
  {}

  lemma AtomsAssociate(a: seq<Atom>, b: seq<Atom>, c: seq<Atom>)
    ensures a + b + c == a + (b + c) && a + [] == a
  {}

  lemma AssociatesText(a: string, b: string, c: string)
    ensures a + b + c == a + (b + c)
  {}

  /** What is still open. */
  function Pending(textBuf: string, reasoningBuf: string): seq<Atom> {
    if textBuf == "" then Thinking(reasoningBuf) else Saying(textBuf)
  }

  /** What has been collected, and what is still open, is what the stream has said. */
  ghost predicate Collected(parts: seq<Part>, pending: seq<Atom>, folded: seq<Event>) {
    Atoms(parts) + pending == StreamAtoms(folded)
  }

  lemma CollectedPart(parts: seq<Part>, p: Part, folded: seq<Event>)
    requires Collected(parts, PartAtoms(p), folded)
    ensures Collected(parts + [p], [], folded)
  {
    AtomsSnoc(parts, p);
  }

  lemma CollectedMore(parts: seq<Part>, pending: seq<Atom>, folded: seq<Event>, e: Event)
    requires Collected(parts, pending, folded)
    ensures Collected(parts, pending + EventAtoms(e), folded + [e])
  {
    StreamAtomsSnoc(folded, e);
    AtomsAssociate(Atoms(parts), pending, EventAtoms(e));
  }

  lemma CollectedText(parts: seq<Part>, buffer: string, folded: seq<Event>, text: string)
    requires Collected(parts, Pending(buffer, ""), folded)
    ensures Collected(parts, Pending(buffer + text, ""), folded + [Text(text)])
  {
    CollectedMore(parts, Pending(buffer, ""), folded, Text(text));
    SayingMore(buffer, text);
  }

  lemma CollectedReasoning(parts: seq<Part>, buffer: string, folded: seq<Event>, text: string)
    requires Collected(parts, Pending("", buffer), folded)
    ensures Collected(parts, Pending("", buffer + text), folded + [Reasoning(text)])
  {
    CollectedMore(parts, Pending("", buffer), folded, Reasoning(text));
    ThinkingMore(buffer, text);
  }

  lemma CollectedCall(parts: seq<Part>, folded: seq<Event>, id: string)
    requires Collected(parts, [], folded)
    ensures Collected(parts + [CallPart(id)], [], folded + [CallStart(id)])
  {
    CollectedMore(parts, [], folded, CallStart(id));
    CollectedPart(parts, CallPart(id), folded + [CallStart(id)]);
  }

  lemma CollectedQuiet(parts: seq<Part>, pending: seq<Atom>, folded: seq<Event>, e: Event)
    requires Collected(parts, pending, folded) && EventAtoms(e) == []
    ensures Collected(parts, pending, folded + [e])
  {
    CollectedMore(parts, pending, folded, e);
    assert pending + [] == pending;
  }

  // ---------------------------------------------------------------- The accumulator

  datatype Open = Nothing | OpenText | OpenReasoning

  /** `accumulator`: consecutive deltas of a kind become one part, in the order the parts appear. */
  class Accumulator {
    var parts: seq<Part>
    var open: Open
    var textBuf: string
    var reasoningBuf: string
    /** The events folded so far. */
    ghost var folded: seq<Event>

    ghost predicate Valid()
      reads this
    {
      && MessageText(parts) + textBuf == StreamText(folded)
      && (textBuf != "" ==> open.OpenText?) && (reasoningBuf != "" ==> open.OpenReasoning?)
      && Collected(parts, Pending(textBuf, reasoningBuf), folded)
      && (HasCall(parts) <==> Calls(folded))
    }

    constructor ()
      ensures Valid() && folded == []
    {
      parts, open, textBuf, reasoningBuf, folded := [], Nothing, "", "", [];
    }

    /** `flush`. */
    method Flush()
      requires Valid()
      modifies this
      ensures Valid() && folded == old(folded) && textBuf == "" && reasoningBuf == "" && open.Nothing?
      ensures Atoms(parts) == StreamAtoms(folded) && MessageText(parts) == StreamText(folded)
    {
      if open.OpenText? && textBuf != "" {
        PartAppended(parts, TextPart(textBuf));
        CollectedPart(parts, TextPart(textBuf), folded);
        parts, textBuf := parts + [TextPart(textBuf)], "";
      } else if open.OpenReasoning? && reasoningBuf != "" {
        PartAppended(parts, ReasoningPart(reasoningBuf));
        CollectedPart(parts, ReasoningPart(reasoningBuf), folded);
        parts, reasoningBuf := parts + [ReasoningPart(reasoningBuf)], "";
      }
      open := Nothing;
      AtomsAssociate(Atoms(parts), [], []);
      assert MessageText(parts) + textBuf == StreamText(folded);
    }

    method PutText(text: string)
      requires Valid() && open.OpenText?
      modifies this
      ensures Valid() && folded == old(folded) + [Text(text)]
    {
      StreamTextSnoc(folded, Text(text));
      CallsSnoc(folded, Text(text));
      CollectedText(parts, textBuf, folded, text);
      AssociatesText(MessageText(parts), textBuf, text);
      textBuf, folded := textBuf + text, folded + [Text(text)];
    }

    method AddText(text: string)
      requires Valid()
      modifies this
      ensures Valid() && folded == old(folded) + [Text(text)]
    {
      if !open.OpenText? {
        Flush();
        open := OpenText;
      }
      PutText(text);
    }

    method PutReasoning(text: string)
      requires Valid() && open.OpenReasoning?
      modifies this
      ensures Valid() && folded == old(folded) + [Reasoning(text)]
    {
      StreamTextSnoc(folded, Reasoning(text));
      CallsSnoc(folded, Reasoning(text));
      CollectedReasoning(parts, reasoningBuf, folded, text);
      reasoningBuf, folded := reasoningBuf + text, folded + [Reasoning(text)];
    }

    method AddReasoning(text: string)
      requires Valid()
      modifies this
      ensures Valid() && folded == old(folded) + [Reasoning(text)]
    {
      if !open.OpenReasoning? {
        Flush();
        open := OpenReasoning;
      }
      PutReasoning(text);
    }

    method AddCall(id: string)
      requires Valid()
      modifies this
      ensures Valid() && folded == old(folded) + [CallStart(id)]
    {
      Flush();
      StreamTextSnoc(folded, CallStart(id));
      CallsSnoc(folded, CallStart(id));
      PartAppended(parts, CallPart(id));
      CollectedCall(parts, folded, id);
      parts, folded := parts + [CallPart(id)], folded + [CallStart(id)];
    }

    /** `add`. */
    method Add(e: Event)
      requires Valid()
      modifies this
      ensures Valid() && folded == old(folded) + [e]
    {
      match e {
        case Text(text) => AddText(text);
        case Reasoning(text) => AddReasoning(text);
        case CallStart(id) => AddCall(id);
        case End =>
          Flush();
          Quiet(e);
        case _ => Quiet(e);
      }
    }

    /** An event that adds nothing to the message. */
    method Quiet(e: Event)
      requires Valid() && (e.OtherOutput? || e.Control? || e.End?)
      modifies this`folded
      ensures Valid() && folded == old(folded) + [e]
    {
      StreamTextSnoc(folded, e);
      CallsSnoc(folded, e);
      CollectedQuiet(parts, Pending(textBuf, reasoningBuf), folded, e);
      folded := folded + [e];
    }
  }

  // ---------------------------------------------------------------- The continuation filter

  const OVERLAP_BYTES := 256
  const MIN_OVERLAP_BYTES := 16

  predicate Overlaps(prefix: string, buffered: string, length: nat) {
    length <= |prefix| && length <= |buffered| && prefix[|prefix| - length..] == buffered[..length]
  }

  /** `longestOverlap`: the longest end of the prefix, within the window, that the text begins with; matches that are too
      short are coincidence. */
  method LongestOverlap(prefix: string, buffered: string, window: nat) returns (length: nat)
    requires window <= |prefix|
    ensures length == Overlap(prefix, buffered, window)
  {
    length := if window < |buffered| then window else |buffered|;
    while length >= MIN_OVERLAP_BYTES
      invariant length <= window && length <= |buffered|
      invariant Overlap(prefix, buffered, window) == OverlapBelow(prefix, buffered, length)
    {
      if prefix[|prefix| - length..] == buffered[..length] {
        return;
      }
      length := length - 1;
    }
    return 0;
  }

  function OverlapBelow(prefix: string, buffered: string, length: nat): (r: nat)
    requires length <= |prefix| && length <= |buffered|
    ensures r <= length
  {
    if length < MIN_OVERLAP_BYTES then 0
    else if Overlaps(prefix, buffered, length) then length
    else OverlapBelow(prefix, buffered, length - 1)
  }

  function Overlap(prefix: string, buffered: string, window: nat): (r: nat)
    requires window <= |prefix|
    ensures r <= |buffered|
  {
    OverlapBelow(prefix, buffered, if window < |buffered| then window else |buffered|)
  }

  /** What the longest overlap means: a match, and none longer within the window. */
  lemma {:induction false} OverlapIsLongest(prefix: string, buffered: string, length: nat)
    requires length <= |prefix| && length <= |buffered|
    ensures var r := OverlapBelow(prefix, buffered, length);
            && (r > 0 ==> r >= MIN_OVERLAP_BYTES && Overlaps(prefix, buffered, r))
            && forall l: nat | r < l <= length && l >= MIN_OVERLAP_BYTES :: !Overlaps(prefix, buffered, l)
    decreases length
  {
    if length >= MIN_OVERLAP_BYTES && !Overlaps(prefix, buffered, length) {
      OverlapIsLongest(prefix, buffered, length - 1);
    }
  }

  /** Only the first bytes of the text, as many as the window, decide the overlap. */
  lemma {:induction false} OverlapOfStart(prefix: string, left: string, right: string, length: nat)
    requires length <= |prefix| && length <= |left|
    ensures OverlapBelow(prefix, left + right, length) == OverlapBelow(prefix, left, length)
    decreases length
  {
    if length >= MIN_OVERLAP_BYTES {
      assert (left + right)[..length] == left[..length];
      OverlapOfStart(prefix, left, right, length - 1);
    }
  }

  function Window(prefix: string): nat {
    if |prefix| < OVERLAP_BYTES then |prefix| else OVERLAP_BYTES
  }

  /** What is left of a continuation's text when its restatement of the prefix is dropped. */
  function Trimmed(prefix: string, text: string): string {
    text[Overlap(prefix, text, Window(prefix))..]
  }

  /** Exactly what is dropped: the longest start of the text, of 16 bytes at least and 256 at most, that the prefix ends
      with. */
  lemma TrimmedExactly(prefix: string, text: string)
    ensures var r := |text| - |Trimmed(prefix, text)|;
            && r >= 0 && Trimmed(prefix, text) == text[r..] && (r == 0 || (16 <= r <= 256 && Overlaps(prefix, text, r)))
            && forall l: nat | r < l && 16 <= l <= 256 :: !Overlaps(prefix, text, l)
  {
    var window := Window(prefix);
    OverlapIsLongest(prefix, text, if window < |text| then window else |text|);
  }

  lemma OverlapStays(prefix: string, text: string, more: string, window: nat)
    requires window <= |prefix| && window <= |text|
    ensures Overlap(prefix, text + more, window) == Overlap(prefix, text, window)
  {
    OverlapOfStart(prefix, text, more, window);
  }

  lemma DroppedGrows(text: string, more: string, drop: nat)
    requires drop <= |text|
    ensures (text + more)[drop..] == text[drop..] + more
  {}

  lemma TrimmedGrows(prefix: string, text: string, more: string)
    requires |text| >= Window(prefix)
    ensures Trimmed(prefix, text + more) == Trimmed(prefix, text) + more
  {
    var window := Window(prefix);
    OverlapStays(prefix, text, more, window);
    DroppedGrows(text, more, Overlap(prefix, text, window));
  }

  /** What came in before the end has gone out less the restatement, and what came later has gone out as it is. */
  ghost predicate Released(prefix: string, received: string, before: nat, released: string) {
    before <= |received| && released == Trimmed(prefix, received[..before]) + received[before..]
  }

  lemma ReleasedMore(prefix: string, received: string, before: nat, released: string, text: string)
    requires Released(prefix, received, before, released)
    ensures Released(prefix, received + text, before, released + text)
  {
    DroppedGrows(received, text, before);
    assert (received + text)[..before] == received[..before];
  }

  /** Enough has been compared: it does not matter where the rest is thought to begin. */
  lemma ReleasedLater(prefix: string, received: string, before: nat, released: string)
    requires Released(prefix, received, before, released) && before >= Window(prefix)
    ensures Released(prefix, received, |received|, released)
  {
    TrimmedGrows(prefix, received[..before], received[before..]);
    assert received[..before] + received[before..] == received && received[..|received|] == received;
  }

  lemma ReleasedAll(prefix: string, received: string)
    ensures Released(prefix, received, |received|, Trimmed(prefix, received))
  {
    assert received[..|received|] == received && received[|received|..] == "";
  }

  /** Everything but text passes at once, after the text it gives up. */
  ghost predicate Passes(out: seq<Event>, e: Event) {
    if e.Text? then forall f <- out :: f.Text?
    else out != [] && out[|out| - 1] == e && forall f <- out[..|out| - 1] :: f.Text?
  }

  /** `continuationFilter`. */
  class Filter {
    const prefix: string
    var buffer: string
    var trimmed: bool
    /** The text that has come in, how much of it before the end of the message, and the text that has gone out. */
    ghost var received: string
    ghost var before: nat
    ghost var released: string
    ghost var ended: bool

    ghost predicate Valid()
      reads this
    {
      if ended then trimmed && Released(prefix, received, before, released)
      else if trimmed then Released(prefix, received, |received|, released) && |received| >= Window(prefix)
      else buffer == received && released == "" && (received == "" || |received| < Window(prefix))
    }

    constructor (p: string)
      ensures prefix == p && Valid() && received == "" && released == "" && !ended
    {
      prefix, buffer, trimmed := p, "", false;
      received, before, released, ended := "", 0, "", false;
    }

    /** `release`: what is buffered, less the overlap, once. */
    method Release() returns (out: seq<Event>)
      requires !trimmed && !ended && buffer == received
      modifies this
      ensures trimmed && received == old(received) && before == old(before)
      ensures Released(prefix, received, |received|, released) && released == StreamText(out)
      ensures (forall e <- out :: e.Text?) && ended == old(ended)
    {
      trimmed := true;
      var drop := LongestOverlap(prefix, buffer, Window(prefix));
      var rest := buffer[drop..];
      buffer, released := "", rest;
      ReleasedAll(prefix, received);
      if rest == "" {
        return [];
      }
      StreamTextOf(Text(rest));
      return [Text(rest)];
    }

    /** Text is held back until enough is there to compare. */
    method HoldBack(text: string) returns (out: seq<Event>)
      requires Valid()
      modifies this
      ensures Valid() && ended == old(ended) && before == old(before)
      ensures received == old(received) + text && released == old(released) + StreamText(out)
      ensures forall f <- out :: f.Text?
    {
      received := received + text;
      if trimmed {
        ghost var front := if ended then before else |old(received)|;
        ReleasedMore(prefix, old(received), front, released, text);
        released := released + text;
        if !ended {
          ReleasedLater(prefix, received, front, released);
        }
        StreamTextOf(Text(text));
        return [Text(text)];
      }
      buffer := buffer + text;
      if |buffer| < Window(prefix) {
        return [];
      }
      out := Release();
    }

    /** The end of the message, or of the stream: what was held back is given up, less what restates the prefix. */
    method Finish() returns (out: seq<Event>)
      requires Valid()
      modifies this
      ensures Valid() && ended && received == old(received) && released == old(released) + StreamText(out)
      ensures before == if old(ended) then old(before) else |received|
      ensures forall f <- out :: f.Text?
    {
      out := [];
      if !trimmed {
        out := Release();
      }
      if !ended {
        ended, before := true, |received|;
      }
    }

    /** `forward`: everything but text passes at once. */
    method Forward(e: Event) returns (out: seq<Event>)
      requires Valid()
      modifies this
      ensures Valid() && ended == (old(ended) || e.End?)
      ensures received == old(received) + (if e.Text? then e.text else "") && released == old(released) + StreamText(out)
      ensures before == if e.End? && !old(ended) then |received| else old(before)
      ensures Passes(out, e)
    {
      StreamTextOf(e);
      if e.Text? {
        out := HoldBack(e.text);
      } else if e.End? {
        out := Finish();
        StreamTextSnoc(out, e);
        out := out + [e];
      } else {
        out := [e];
      }
    }

    /** `flush`: a stream that breaks off still gives up what was held back. */
    method Flush() returns (out: seq<Event>)
      requires Valid()
      modifies this
      ensures Valid() && ended && received == old(received) && released == old(released) + StreamText(out)
      ensures before == if old(ended) then old(before) else |received|
      ensures forall f <- out :: f.Text?
    {
      out := Finish();
    }
  }

  lemma PassedOthers(before: seq<Event>, out: seq<Event>, seen: seq<Event>, e: Event)
    requires Passes(out, e) && Others(StreamAtoms(before)) == Others(StreamAtoms(seen))
    ensures Others(StreamAtoms(before + out)) == Others(StreamAtoms(seen + [e]))
  {
    StreamAtomsConcat(before, out);
    OthersConcat(StreamAtoms(before), StreamAtoms(out));
    StreamAtomsSnoc(seen, e);
    OthersConcat(StreamAtoms(seen), EventAtoms(e));
    OthersPassed(out, e);
  }

  lemma PassedCalls(before: seq<Event>, out: seq<Event>, e: Event)
    requires Passes(out, e)
    ensures Calls(before + out) <==> Calls(before) || e.CallStart?
  {
    if Calls(before + out) {
      var f :| f in before + out && f.CallStart?;
      if f !in before {
        assert f in out;
        OnlyPassed(out, e, f);
      }
    }
    if Calls(before) {
      var f :| f in before && f.CallStart?;
      assert f in before + out;
    }
    if e.CallStart? {
      assert out[|out| - 1] == e && (before + out)[|before| + |out| - 1] == e;
    }
  }

  lemma OnlyPassed(out: seq<Event>, e: Event, f: Event)
    requires Passes(out, e) && f in out && !f.Text?
    ensures f == e
  {
    if !e.Text? {
      assert out == out[..|out| - 1] + [e];
    }
  }

  lemma OthersPassed(out: seq<Event>, e: Event)
    requires Passes(out, e)
    ensures Others(StreamAtoms(out)) == Others(EventAtoms(e))
  {
    if e.Text? {
      TextHasNoOthers(out);
      OthersOfText(e.text);
    } else {
      var front := out[..|out| - 1];
      assert out == front + [e];
      TextHasNoOthers(front);
      StreamAtomsSnoc(front, e);
      OthersConcat(StreamAtoms(front), EventAtoms(e));
    }
  }

  /** The events before the first end of a message. */
  function BeforeEnd(events: seq<Event>): (r: seq<Event>)
    ensures r <= events
  {
    if events == [] || events[0].End? then [] else [events[0]] + BeforeEnd(events[1..])
  }

  predicate Ends(events: seq<Event>) {
    exists e <- events :: e.End?
  }

  /** What a continuation adds to its prefix: the text up to the end of the message less what of it restates the prefix,
      and whatever comes later. A stream that is cut short before its end, without anything being given up, loses what
      is held back: all of its text, if that is shorter than the window. */
  function Added(prefix: string, events: seq<Event>, cut: bool): string {
    var front := BeforeEnd(events);
    if cut && !Ends(events) && |StreamText(front)| < Window(prefix) then ""
    else Trimmed(prefix, StreamText(front)) + StreamText(events[|front|..])
  }

  lemma {:induction false} BeforeEndExactly(events: seq<Event>)
    ensures var front := BeforeEnd(events);
            && !Ends(front) && (Ends(events) <==> |front| < |events|) && (|front| < |events| ==> events[|front|].End?)
    decreases |events|
  {
    if events != [] && !events[0].End? {
      BeforeEndExactly(events[1..]);
      assert events == [events[0]] + events[1..];
      if Ends(events[1..]) {
        assert Ends(events);
      }
    }
  }

  /** One more event: nothing changes in front of an end that has come. */
  lemma {:induction false} BeforeEndSnoc(events: seq<Event>, e: Event)
    ensures BeforeEnd(events + [e]) == if Ends(events) || e.End? then BeforeEnd(events) else events + [e]
    ensures Ends(events + [e]) <==> Ends(events) || e.End?
    ensures !Ends(events) ==> BeforeEnd(events) == events
    decreases |events|
  {
    assert e in events + [e] && forall f <- events :: f in events + [e];
    if events != [] {
      assert events == [events[0]] + events[1..] && (events + [e])[1..] == events[1..] + [e];
      BeforeEndSnoc(events[1..], e);
    }
  }

  /** Nothing comes after the end of a message. */
  predicate EndsOnce(events: seq<Event>) {
    forall i | 0 <= i < |events| - 1 :: !events[i].End?
  }

  /** A stream that ends its message last, or breaks off, adds its text less what restates the prefix. */
  lemma AddedWhole(prefix: string, events: seq<Event>, cut: bool)
    requires EndsOnce(events) && (cut ==> Ends(events) || |StreamText(events)| >= Window(prefix))
    ensures Added(prefix, events, cut) == Trimmed(prefix, StreamText(events))
  {
    EndIsLast(events);
    var text := Trimmed(prefix, StreamText(events));
    assert text + "" == text;
  }

  lemma EndIsLast(events: seq<Event>)
    requires EndsOnce(events)
    ensures StreamText(BeforeEnd(events)) == StreamText(events) && StreamText(events[|BeforeEnd(events)|..]) == ""
  {
    BeforeEndExactly(events);
    var front := BeforeEnd(events);
    if Ends(events) {
      assert events == front + [events[|front|]] && events[|front|..] == [events[|front|]];
      StreamTextSnoc(front, events[|front|]);
      StreamTextOf(events[|front|]);
    } else {
      assert front == events && events[|front|..] == [];
    }
  }

  /** What a filter knows of the stream it has been given. */
  ghost predicate Heard(filter: Filter, events: seq<Event>)
    reads filter
  {
    && filter.Valid() && filter.received == StreamText(events)
    && filter.ended == Ends(events) && (filter.ended ==> filter.before == |StreamText(BeforeEnd(events))|)
  }

  lemma HeardMore(before: seq<Event>, e: Event)
    ensures StreamText(before + [e]) == StreamText(before) + (if e.Text? then e.text else "")
    ensures Ends(before + [e]) <==> Ends(before) || e.End?
    ensures Ends(before + [e]) ==>
              |StreamText(BeforeEnd(before + [e]))| == if Ends(before) then |StreamText(BeforeEnd(before))| else |StreamText(before)|
  {
    StreamTextSnoc(before, e);
    BeforeEndSnoc(before, e);
  }

  lemma WithoutEnd(events: seq<Event>)
    ensures !Ends(events) ==> BeforeEnd(events) == events
  {
    BeforeEndExactly(events);
  }

  /** What a filter has released by the end, flushed or not. */
  lemma ReleasedAdded(filter: Filter, events: seq<Event>, flushed: bool)
    requires filter.Valid() && filter.received == StreamText(events)
    requires filter.ended <==> Ends(events) || flushed
    requires filter.ended ==> filter.before == |StreamText(BeforeEnd(events))|
    ensures filter.released == Added(filter.prefix, events, !flushed)
  {
    SplitAtEnd(events);
    if !filter.ended {
      NotCut(filter, events);
    }
  }

  /** A filter that has not come to an end has given up everything, or nothing. */
  lemma NotCut(filter: Filter, events: seq<Event>)
    requires filter.Valid() && filter.received == StreamText(events) && !filter.ended && !Ends(events)
    ensures filter.released == Added(filter.prefix, events, true)
  {
    SplitAtEnd(events);
    BeforeEndExactly(events);
    assert BeforeEnd(events) == events && events[|events|..] == [];
    var text := StreamText(events);
    assert text[..|text|] == text && text[|text|..] == "";
    if !filter.trimmed && |text| >= Window(filter.prefix) {
      assert text == "";
    }
  }

  /** The text of a stream is that before the end of its message, and that after it. */
  lemma SplitAtEnd(events: seq<Event>)
    ensures var front, text := BeforeEnd(events), StreamText(BeforeEnd(events));
            && |text| <= |StreamText(events)| && StreamText(events)[..|text|] == text
            && StreamText(events)[|text|..] == StreamText(events[|front|..])
  {
    var front := BeforeEnd(events);
    assert events == front + events[|front|..];
    StreamTextConcat(front, events[|front|..]);
  }

  /** However a stream's text is cut into deltas: what a filter has released by the time the stream is over is what the
      stream adds. A stream that ends its message or breaks off gives up what is held back; one that is cut short does
      not. */
  method FilterStream(prefix: string, events: seq<Event>, cut: bool) returns (out: seq<Event>)
    ensures StreamText(out) == Added(prefix, events, cut)
    ensures EndsOnce(events) && !cut ==> StreamText(out) == Trimmed(prefix, StreamText(events))
  {
    var filter := new Filter(prefix);
    out := [];
    for i := 0 to |events|
      invariant fresh(filter) && Heard(filter, events[..i]) && filter.prefix == prefix && filter.released == StreamText(out)
    {
      HeardMore(events[..i], events[i]);
      assert events[..i + 1] == events[..i] + [events[i]];
      var forwarded := filter.Forward(events[i]);
      StreamTextConcat(out, forwarded);
      out := out + forwarded;
    }
    assert events[..|events|] == events;
    if !cut {
      WithoutEnd(events);
      var rest := filter.Flush();
      StreamTextConcat(out, rest);
      out := out + rest;
    }
    ReleasedAdded(filter, events, !cut);
    if EndsOnce(events) && !cut {
      AddedWhole(prefix, events, cut);
    }
  }

  lemma {:induction false} StreamTextConcat(a: seq<Event>, b: seq<Event>)
    ensures StreamText(a + b) == StreamText(a) + StreamText(b)
    decreases |b|
  {
    if b == [] {
      assert a + b == a;
    } else {
      var m := |b| - 1;
      StreamTextConcat(a, b[..m]);
      assert a + b == (a + b[..m]) + [b[m]] && b == b[..m] + [b[m]];
      StreamTextSnoc(a + b[..m], b[m]);
    }
  }
}
