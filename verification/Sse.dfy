/** Incremental Server-Sent Events decoding (sections 9.2.5 and 9.2.6 of the WHATWG
    HTML Living Standard, as the decoder implements them): a byte stream arrives in
    arbitrary chunks, and the events must be those of its lines. */
module Sse {
  import opened Bytes
  import Utf8

  const LF: byte := 10
  const CR: byte := 13
  const COLON: byte := 58
  const SPACE: byte := 32
  /** "event" and "data" */
  const EVENT: Text := [101, 118, 101, 110, 116]
  const DATA: Text := [100, 97, 116, 97]

  datatype SseEvent = SseEvent(event: Option<Text>, data: Text)

  datatype SseError = LineLimit | MalformedUtf8 | EventLimit

  datatype Limits = Limits(line: nat, event: nat)

  /** The event under construction. */
  datatype Fields = Fields(event: Option<Text>, data: Text)

  const EMPTY := Fields(None, [])

  /** What a piece of decoding did. */
  datatype Step = Step(fields: Fields, events: seq<SseEvent>, error: Option<SseError>)

  // ----- One line -----

  function IndexOf(b: seq<byte>, c: byte): (n: nat)
    ensures n <= |b| && c !in b[..n]
    ensures n < |b| <==> c in b
    ensures n < |b| ==> b[n] == c
  {
    if b == [] || b[0] == c then 0 else 1 + IndexOf(b[1..], c)
  }

  function Dispatch(f: Fields): Step {
    if f.event.None? && f.data == [] then Step(f, [], None)
    else Step(EMPTY, [SseEvent(f.event, f.data)], None)
  }

  function FieldName(line: Text): Text {
    line[..IndexOf(line, COLON)]
  }

  /** After the first colon, without one leading space. */
  function FieldValue(line: Text): Text {
    var n := IndexOf(line, COLON);
    if n == |line| then []
    else if n + 1 < |line| && line[n + 1] == SPACE then line[n + 2..]
    else line[n + 1..]
  }

  /** An empty first `data` line leaves no trace; later ones add a newline. */
  function AppendData(data: Text, value: Text): Text {
    if data == [] then value else data + [LF] + value
  }

  function ProcessLine(lim: Limits, f: Fields, line: Text): Step {
    if |line| > lim.line then Step(f, [], Some(LineLimit))
    else if !Utf8.Valid(line) then Step(f, [], Some(MalformedUtf8))
    else if line == [] then Dispatch(f)
    else if line[0] == COLON then Step(f, [], None)
    else if FieldName(line) == EVENT then Step(f.(event := Some(FieldValue(line))), [], None)
    else if FieldName(line) == DATA then
      var data := AppendData(f.data, FieldValue(line));
      if |data| > lim.event then Step(f, [], Some(EventLimit))
      else Step(f.(data := data), [], None)
    else Step(f, [], None)
  }

  function StripCr(line: Text): Text {
    if line != [] && line[|line| - 1] == CR then line[..|line| - 1] else line
  }

  /** What is done with one line, as a value: the decoding below works for any. */
  type Processor = (Fields, Text) -> Step

  function LineProcessor(lim: Limits): Processor {
    (f: Fields, line: Text) => ProcessLine(lim, f, line)
  }

  // ----- The reference: split into lines, fold -----

  /** Up to the first newline, and what follows it. */
  function FirstLine(b: seq<byte>): Text
    requires LF in b
  {
    b[..IndexOf(b, LF)]
  }

  function RestOf(b: seq<byte>): (r: seq<byte>)
    requires LF in b
    ensures |r| < |b|
  {
    b[IndexOf(b, LF) + 1..]
  }

  /** The newline-terminated lines, each without its newline but with its CR. */
  function Lines(b: seq<byte>): seq<Text>
    decreases |b|
  {
    if LF !in b then [] else [FirstLine(b)] + Lines(RestOf(b))
  }

  /** What follows the last newline. */
  function Tail(b: seq<byte>): (t: Text)
    ensures LF !in t
    decreases |b|
  {
    if LF !in b then b else Tail(RestOf(b))
  }

  function After(events: seq<SseEvent>, s: Step): Step {
    s.(events := events + s.events)
  }

  function FoldLines(g: Processor, f: Fields, lines: seq<Text>): Step
    decreases |lines|
  {
    if lines == [] then Step(f, [], None)
    else
      var s := g(f, StripCr(lines[0]));
      if s.error.Some? then s else After(s.events, FoldLines(g, s.fields, lines[1..]))
  }

  /** End of input: the tail counts as a line, CR and all, and the event is dispatched. */
  function Finish(g: Processor, f: Fields, pending: Text): Step {
    var s := if pending == [] then Step(f, [], None) else g(f, pending);
    if s.error.Some? then s else After(s.events, Dispatch(s.fields))
  }

  /** Folding the lines of b into an event under construction, then the end of input. */
  function FoldStream(g: Processor, f: Fields, b: seq<byte>): Step {
    FoldAll(g, f, Lines(b), Tail(b))
  }

  function FoldAll(g: Processor, f: Fields, lines: seq<Text>, tail: Text): Step {
    var s := FoldLines(g, f, lines);
    if s.error.Some? then s else After(s.events, Finish(g, s.fields, tail))
  }

  // ----- The decoder: drain what is complete, keep the rest -----

  datatype Drained = Drained(step: Step, rest: seq<byte>)

  function Drain(g: Processor, f: Fields, b: seq<byte>): Drained
    decreases |b|
  {
    if LF !in b then Drained(Step(f, [], None), b)
    else
      var s := g(f, StripCr(FirstLine(b)));
      if s.error.Some? then Drained(s, RestOf(b))
      else
        var d := Drain(g, s.fields, RestOf(b));
        Drained(After(s.events, d.step), d.rest)
  }

  /** Draining b when these events were emitted before. */
  function DrainAfter(events: seq<SseEvent>, g: Processor, f: Fields, b: seq<byte>): Drained {
    var d := Drain(g, f, b);
    Drained(After(events, d.step), d.rest)
  }

  /** One complete line: refused, or the rest is drained after it. */
  lemma DrainNext(events: seq<SseEvent>, g: Processor, f: Fields, b: seq<byte>)
    requires LF in b
    ensures var s := g(f, StripCr(FirstLine(b)));
            DrainAfter(events, g, f, b)
            == if s.error.Some? then Drained(After(events, s), RestOf(b))
               else DrainAfter(events + s.events, g, s.fields, RestOf(b))
  {
    var s := g(f, StripCr(FirstLine(b)));
    var more := Drain(g, s.fields, RestOf(b)).step.events;
    assert events + (s.events + more) == events + s.events + more;
  }

  lemma DrainAfterNothing(g: Processor, f: Fields, b: seq<byte>)
    ensures DrainAfter([], g, f, b) == Drain(g, f, b)
  {
    var d := Drain(g, f, b);
    assert [] + d.step.events == d.step.events;
  }

  /** `push_bytes`: drain, then refuse a carry longer than a line may be. */
  function Push(g: Processor, max: nat, f: Fields, pending: Text, chunk: seq<byte>): Drained {
    var d := Drain(g, f, pending + chunk);
    if d.step.error.None? && |d.rest| > max then d.(step := d.step.(error := Some(LineLimit))) else d
  }

  /** Pushing chunk after chunk, then finishing; the first error ends it. */
  function Feed(g: Processor, max: nat, f: Fields, pending: Text, chunks: seq<seq<byte>>): Step
    decreases |chunks|
  {
    if chunks == [] then Finish(g, f, pending)
    else
      var d := Push(g, max, f, pending, chunks[0]);
      if d.step.error.Some? then d.step
      else After(d.step.events, Feed(g, max, d.step.fields, d.rest, chunks[1..]))
  }

  function Flatten(chunks: seq<seq<byte>>): seq<byte> {
    if chunks == [] then [] else chunks[0] + Flatten(chunks[1..])
  }

  /** What a caller sees of a whole stream: the events emitted and the error, if any. */
  datatype Outcome = Outcome(events: seq<SseEvent>, error: Option<SseError>)

  function OutcomeOf(s: Step): Outcome {
    Outcome(s.events, s.error)
  }

  function Decode(lim: Limits, chunks: seq<seq<byte>>): Outcome {
    OutcomeOf(Feed(LineProcessor(lim), lim.line, EMPTY, [], chunks))
  }

  function Reference(lim: Limits, b: seq<byte>): Outcome {
    OutcomeOf(FoldStream(LineProcessor(lim), EMPTY, b))
  }

  // ----- The decoder as the object it is -----

  class SseDecoder {
    const limits: Limits
    var pending: Text
    var event: Option<Text>
    var data: Text

    function Current(): Fields
      reads this
    {
      Fields(event, data)
    }

    constructor (limits: Limits)
      ensures this.limits == limits && pending == [] && Current() == EMPTY
    {
      this.limits := limits;
      pending, event, data := [], None, [];
    }

    method DispatchEvent() returns (events: seq<SseEvent>)
      modifies `event, `data
      ensures Step(Current(), events, None) == Dispatch(old(Current()))
    {
      events := [];
      if event.None? && data == [] {
        return;
      }
      events := [SseEvent(event, data)];
      event, data := None, [];
    }

    method Process(line: Text) returns (events: seq<SseEvent>, error: Option<SseError>)
      modifies `event, `data
      ensures Step(Current(), events, error) == LineProcessor(limits)(old(Current()), line)
    {
      events, error := [], None;
      if |line| > limits.line {
        return [], Some(LineLimit);
      }
      if !Utf8.Valid(line) {
        return [], Some(MalformedUtf8);
      }
      if line == [] {
        events := DispatchEvent();
        return;
      }
      if line[0] == COLON {
        return;
      }
      var value := FieldValue(line);
      if FieldName(line) == EVENT {
        event := Some(value);
      } else if FieldName(line) == DATA {
        var extra := |value| + (if data == [] then 0 else 1);
        if |data| + extra > limits.event {
          return [], Some(EventLimit);
        }
        if data != [] {
          data := data + [LF];
        }
        data := data + value;
      }
    }

    /** Takes the first complete line off the carry; what is left to drain is the rest,
        after the events before and those of this line. */
    method NextLine(ghost before: seq<SseEvent>) returns (events: seq<SseEvent>, error: Option<SseError>)
      requires LF in pending
      modifies this
      ensures |pending| < |old(pending)|
      ensures DrainAfter(before, LineProcessor(limits), old(Current()), old(pending))
              == if error.Some? then Drained(Step(Current(), before + events, error), pending)
                 else DrainAfter(before + events, LineProcessor(limits), Current(), pending)
    {
      DrainNext(before, LineProcessor(limits), Current(), pending);
      var line := StripCr(FirstLine(pending));
      pending := RestOf(pending);
      events, error := Process(line);
    }

    method PushBytes(chunk: seq<byte>) returns (events: seq<SseEvent>, error: Option<SseError>)
      modifies this
      ensures Drained(Step(Current(), events, error), pending)
              == Push(LineProcessor(limits), limits.line, old(Current()), old(pending), chunk)
    {
      events, error := [], None;
      pending := pending + chunk;
      ghost var g, start, all := LineProcessor(limits), Current(), pending;
      DrainAfterNothing(g, start, all);
      while LF in pending
        invariant error.None?
        invariant Drain(g, start, all) == DrainAfter(events, g, Current(), pending)
        decreases |pending|
      {
        var emitted;
        emitted, error := NextLine(events);
        events := events + emitted;
        if error.Some? {
          return;
        }
      }
      if |pending| > limits.line {
        error := Some(LineLimit);
      }
    }

    method End() returns (events: seq<SseEvent>, error: Option<SseError>)
      modifies this
      ensures Step(Current(), events, error) == Finish(LineProcessor(limits), old(Current()), old(pending))
      ensures pending == []
    {
      events, error := [], None;
      if pending != [] {
        var line := pending;
        pending := [];
        events, error := Process(line);
        if error.Some? {
          return;
        }
      }
      var last := DispatchEvent();
      events := events + last;
    }
  }

  // ----- Draining is folding the lines -----

  lemma {:induction false} DrainIsFold(g: Processor, f: Fields, b: seq<byte>)
    ensures Drain(g, f, b).step == FoldLines(g, f, Lines(b))
    ensures Drain(g, f, b).step.error.None? ==> Drain(g, f, b).rest == Tail(b)
    decreases |b|
  {
    if LF !in b {
    } else {
      DrainIsFold(g, g(f, StripCr(FirstLine(b))).fields, RestOf(b));
      assert Lines(b)[0] == FirstLine(b) && Lines(b)[1..] == Lines(RestOf(b));
    }
  }

  lemma {:induction false} IndexOfConcat(a: seq<byte>, b: seq<byte>, c: byte)
    requires c in a
    ensures IndexOf(a + b, c) == IndexOf(a, c)
  {
    if a[0] == c {
    } else {
      IndexOfConcat(a[1..], b, c);
      assert (a + b)[1..] == a[1..] + b;
    }
  }

  lemma FirstLineConcat(a: seq<byte>, b: seq<byte>)
    requires LF in a
    ensures FirstLine(a + b) == FirstLine(a)
    ensures RestOf(a + b) == RestOf(a) + b
  {
    IndexOfConcat(a, b, LF);
  }

  /** Lines do not care where the stream was cut: only the open tail carries over. */
  lemma {:induction false} LinesConcat(a: seq<byte>, b: seq<byte>)
    ensures Lines(a + b) == Lines(a) + Lines(Tail(a) + b)
    ensures Tail(a + b) == Tail(Tail(a) + b)
    decreases |a|
  {
    if LF !in a {
      assert [] + Lines(a + b) == Lines(a + b);
    } else {
      var rest := RestOf(a);
      FirstLineConcat(a, b);
      LinesConcat(rest, b);
      Assoc([FirstLine(a)], Lines(rest), Lines(Tail(rest) + b));
    }
  }

  lemma {:induction false} FoldAppend(g: Processor, f: Fields, xs: seq<Text>, ys: seq<Text>)
    ensures var s := FoldLines(g, f, xs);
            FoldLines(g, f, xs + ys)
            == if s.error.Some? then s else After(s.events, FoldLines(g, s.fields, ys))
    decreases |xs|
  {
    if xs == [] {
      assert xs + ys == ys;
    } else {
      FoldAppend(g, g(f, StripCr(xs[0])).fields, xs[1..], ys);
      assert (xs + ys)[1..] == xs[1..] + ys;
    }
  }

  lemma AfterTwice(d: seq<SseEvent>, e: seq<SseEvent>, s: Step)
    ensures After(d, After(e, s)) == After(d + e, s)
  {
    assert d + (e + s.events) == d + e + s.events;
  }

  lemma FoldAllAppend(g: Processor, f: Fields, xs: seq<Text>, ys: seq<Text>, tail: Text)
    ensures var s := FoldLines(g, f, xs);
            FoldAll(g, f, xs + ys, tail)
            == if s.error.Some? then s else After(s.events, FoldAll(g, s.fields, ys, tail))
  {
    FoldAppend(g, f, xs, ys);
    var s := FoldLines(g, f, xs);
    if s.error.None? {
      var t := FoldLines(g, s.fields, ys);
      AfterTwice(s.events, t.events, Finish(g, t.fields, tail));
    }
  }

  lemma StreamAppend(g: Processor, f: Fields, a: seq<byte>, b: seq<byte>)
    ensures var s := FoldLines(g, f, Lines(a));
            FoldStream(g, f, a + b)
            == if s.error.Some? then s else After(s.events, FoldStream(g, s.fields, Tail(a) + b))
  {
    LinesConcat(a, b);
    FoldAllAppend(g, f, Lines(a), Lines(Tail(a) + b), Tail(a + b));
  }

  // ----- Chunking -----

  /** A line that fits only once its CR is gone: the one shape whose fate depends on
      where the stream is cut. */
  predicate EdgeLine(max: nat, line: Text) {
    |line| == max + 1 && line[max] == CR
  }

  predicate NoneIsEdge(max: nat, lines: seq<Text>) {
    forall i :: 0 <= i < |lines| ==> !EdgeLine(max, lines[i])
  }

  predicate NoEdgeLine(max: nat, b: seq<byte>) {
    NoneIsEdge(max, Lines(b))
  }

  /** The processor refuses lines over the limit. */
  ghost predicate Limited(g: Processor, max: nat) {
    forall f, line :: |line| > max ==> g(f, line) == Step(f, [], Some(LineLimit))
  }

  lemma LongFirstLine(carry: Text, b: seq<byte>)
    requires LF !in carry && LF in carry + b
    ensures |FirstLine(carry + b)| >= |carry|
  {
  }

  /** A carry that is already too long fails in the reference too, unless what it grows
      into is an edge line. */
  lemma LongCarryFails(g: Processor, max: nat, f: Fields, carry: Text, b: seq<byte>)
    requires Limited(g, max) && LF !in carry && |carry| > max
    requires LF in carry + b ==> !EdgeLine(max, FirstLine(carry + b))
    ensures FoldStream(g, f, carry + b) == Step(f, [], Some(LineLimit))
  {
    var all := carry + b;
    if LF in all {
      LongFirstLine(carry, b);
      assert Lines(all)[0] == FirstLine(all);
    }
  }

  /** The fold gets as far as line i, and that is an edge line. */
  predicate EdgeAt(g: Processor, max: nat, f: Fields, lines: seq<Text>, i: nat) {
    i < |lines| && EdgeLine(max, lines[i]) && FoldLines(g, f, lines[..i]).error.None?
  }

  /** The lines before line i, then the refusal of its carry. */
  function CutBefore(g: Processor, f: Fields, lines: seq<Text>, i: nat): Step
    requires i <= |lines|
  {
    FoldLines(g, f, lines[..i]).(error := Some(LineLimit))
  }

  lemma EdgeFurtherOn(g: Processor, max: nat, f: Fields, xs: seq<Text>, ys: seq<Text>, i: nat)
    requires FoldLines(g, f, xs).error.None?
    requires EdgeAt(g, max, FoldLines(g, f, xs).fields, ys, i)
    ensures EdgeAt(g, max, f, xs + ys, |xs| + i)
    ensures CutBefore(g, f, xs + ys, |xs| + i)
            == After(FoldLines(g, f, xs).events, CutBefore(g, FoldLines(g, f, xs).fields, ys, i))
  {
    assert (xs + ys)[..|xs| + i] == xs + ys[..i];
    FoldAppend(g, f, xs, ys[..i]);
  }

  /** The step is the fold of the lines, or stops before an edge line among them. */
  ghost predicate ExplainsLines(edge: Option<nat>, g: Processor, max: nat, f: Fields, lines: seq<Text>, tail: Text,
                                s: Step)
  {
    if edge.None? then s == FoldAll(g, f, lines, tail)
    else EdgeAt(g, max, f, lines, edge.value) && s == CutBefore(g, f, lines, edge.value)
  }

  ghost predicate Explains(edge: Option<nat>, g: Processor, max: nat, f: Fields, b: seq<byte>, s: Step) {
    ExplainsLines(edge, g, max, f, Lines(b), Tail(b), s)
  }

  lemma ExplainsAfter(edge: Option<nat>, g: Processor, max: nat, f: Fields,
                      xs: seq<Text>, ys: seq<Text>, tail: Text, t: Step) returns (further: Option<nat>)
    requires FoldLines(g, f, xs).error.None?
    requires ExplainsLines(edge, g, max, FoldLines(g, f, xs).fields, ys, tail, t)
    ensures ExplainsLines(further, g, max, f, xs + ys, tail, After(FoldLines(g, f, xs).events, t))
  {
    if edge.Some? {
      EdgeFurtherOn(g, max, f, xs, ys, edge.value);
      further := Some(|xs| + edge.value);
    } else {
      FoldAllAppend(g, f, xs, ys, tail);
      further := None;
    }
  }

  /** What explains the rest of the stream explains all of it, further on. */
  lemma ExplainsFurtherOn(edge: Option<nat>, g: Processor, max: nat, f: Fields, a: seq<byte>, rest: seq<byte>, t: Step)
    returns (further: Option<nat>)
    requires FoldLines(g, f, Lines(a)).error.None?
    requires Explains(edge, g, max, FoldLines(g, f, Lines(a)).fields, Tail(a) + rest, t)
    ensures Explains(further, g, max, f, a + rest, After(FoldLines(g, f, Lines(a)).events, t))
  {
    LinesConcat(a, rest);
    further := ExplainsAfter(edge, g, max, f, Lines(a), Lines(Tail(a) + rest), Tail(a + rest), t);
  }

  /** A carry that is refused. */
  lemma CarryRefused(g: Processor, max: nat, f: Fields, carry: Text, rest: seq<byte>) returns (edge: Option<nat>)
    requires Limited(g, max) && LF !in carry && |carry| > max
    ensures Explains(edge, g, max, f, carry + rest, Step(f, [], Some(LineLimit)))
  {
    var all := carry + rest;
    if LF in all && EdgeLine(max, FirstLine(all)) {
      assert Lines(all)[0] == FirstLine(all) && Lines(all)[..0] == [];
      edge := Some(0);
    } else {
      LongCarryFails(g, max, f, carry, rest);
      edge := None;
    }
  }

  lemma AfterNothing(s: Step, error: Option<SseError>)
    ensures After(s.events, Step(s.fields, [], error)) == s.(error := error)
  {
  }

  /** One push, the decoder having read as far as f and the carry. */
  lemma PushMeaning(g: Processor, max: nat, f: Fields, pending: Text, chunk: seq<byte>)
    ensures var d, a := Push(g, max, f, pending, chunk), pending + chunk;
            var s := FoldLines(g, f, Lines(a));
            if s.error.Some? then d.step == s
            else d.rest == Tail(a)
                 && d.step == if |Tail(a)| > max then s.(error := Some(LineLimit)) else s
  {
    DrainIsFold(g, f, pending + chunk);
  }

  /** Feeding chunks into a decoder is folding its carry and all the chunks at once, or
      stops before one of the edge lines of that fold. */
  lemma {:induction false} FeedIsFold(g: Processor, max: nat, f: Fields, pending: Text, chunks: seq<seq<byte>>)
    returns (edge: Option<nat>)
    requires Limited(g, max) && LF !in pending
    ensures Explains(edge, g, max, f, pending + Flatten(chunks), Feed(g, max, f, pending, chunks))
    decreases |chunks|
  {
    edge := None;
    if chunks == [] {
      assert pending + Flatten(chunks) == pending;
    } else {
      var a, rest := pending + chunks[0], Flatten(chunks[1..]);
      Assoc(pending, chunks[0], rest);
      PushMeaning(g, max, f, pending, chunks[0]);
      var s := FoldLines(g, f, Lines(a));
      if s.error.Some? {
        StreamAppend(g, f, a, rest);
      } else if |Tail(a)| > max {
        edge := CarryRefused(g, max, s.fields, Tail(a), rest);
        edge := ExplainsFurtherOn(edge, g, max, f, a, rest, Step(s.fields, [], Some(LineLimit)));
        AfterNothing(s, Some(LineLimit));
      } else {
        edge := FeedIsFold(g, max, s.fields, Tail(a), chunks[1..]);
        edge := ExplainsFurtherOn(edge, g, max, f, a, rest, Feed(g, max, s.fields, Tail(a), chunks[1..]));
      }
    }
  }

  /** The outcome of any chunking: that of the line-by-line fold, or the refusal of an
      edge line the fold gets to. */
  lemma ChunkingOutcome(lim: Limits, chunks: seq<seq<byte>>) returns (edge: Option<nat>)
    ensures Explains(edge, LineProcessor(lim), lim.line, EMPTY, Flatten(chunks),
                     Feed(LineProcessor(lim), lim.line, EMPTY, [], chunks))
  {
    edge := FeedIsFold(LineProcessor(lim), lim.line, EMPTY, [], chunks);
    assert [] + Flatten(chunks) == Flatten(chunks);
  }

  lemma NoEdge(edge: Option<nat>, g: Processor, max: nat, f: Fields, b: seq<byte>, s: Step)
    requires Explains(edge, g, max, f, b, s)
    requires s.error.None? || NoEdgeLine(max, b)
    ensures s == FoldStream(g, f, b)
  {
  }

  /** Any chunking that succeeds emits the events of the line-by-line fold. */
  lemma SuccessfulChunking(lim: Limits, chunks: seq<seq<byte>>)
    requires Decode(lim, chunks).error.None?
    ensures Decode(lim, chunks) == Reference(lim, Flatten(chunks))
  {
    var edge := ChunkingOutcome(lim, chunks);
    NoEdge(edge, LineProcessor(lim), lim.line, EMPTY, Flatten(chunks),
           Feed(LineProcessor(lim), lim.line, EMPTY, [], chunks));
  }

  /** Without edge lines, all chunkings agree on events and on the error. */
  lemma AnyChunking(lim: Limits, chunks: seq<seq<byte>>)
    requires NoEdgeLine(lim.line, Flatten(chunks))
    ensures Decode(lim, chunks) == Reference(lim, Flatten(chunks))
  {
    var edge := ChunkingOutcome(lim, chunks);
    NoEdge(edge, LineProcessor(lim), lim.line, EMPTY, Flatten(chunks),
           Feed(LineProcessor(lim), lim.line, EMPTY, [], chunks));
  }

  /** One terminated line in front of a stream. */
  lemma LineInFront(first: seq<byte>, rest: seq<byte>)
    requires LF in first && IndexOf(first, LF) == |first| - 1
    ensures Lines(first + rest) == [FirstLine(first)] + Lines(rest)
    ensures Tail(first + rest) == Tail(rest)
  {
    FirstLineConcat(first, rest);
    assert RestOf(first) + rest == rest;
  }

  lemma PrependTake<T>(x: T, xs: seq<T>, i: nat)
    requires i < |xs|
    ensures ([x] + xs)[..i + 1] == [x] + xs[..i] && ([x] + xs)[i + 1] == xs[i]
  {
  }

  lemma Assoc<T>(x: seq<T>, y: seq<T>, z: seq<T>)
    ensures x + (y + z) == x + y + z
  {
  }

  lemma CutStep(first: seq<byte>, rest: seq<byte>, a: seq<byte>, i: nat)
    requires LF in first && IndexOf(first, LF) == |first| - 1
    requires i < |Lines(rest)| && Lines(a) == Lines(rest)[..i] && Tail(a) == Lines(rest)[i]
    ensures |Lines(first + rest)| == |Lines(rest)| + 1
    ensures Lines(first + a) == Lines(first + rest)[..i + 1]
    ensures Tail(first + a) == Lines(first + rest)[i + 1]
  {
    LineInFront(first, rest);
    LineInFront(first, a);
    PrependTake(FirstLine(first), Lines(rest), i);
  }

  lemma SplitFirstLine(b: seq<byte>) returns (first: seq<byte>, rest: seq<byte>)
    requires LF in b
    ensures b == first + rest && |rest| < |b|
    ensures LF in first && IndexOf(first, LF) == |first| - 1
  {
    var n := IndexOf(b, LF);
    first, rest := b[..n + 1], b[n + 1..];
    IndexOfConcat(first, rest, LF);
  }

  lemma CutAtFirst(b: seq<byte>) returns (a: seq<byte>, c: seq<byte>)
    requires |Lines(b)| > 0
    ensures b == a + c && Lines(a) == [] && Tail(a) == Lines(b)[0]
  {
    var n := IndexOf(b, LF);
    a, c := b[..n], b[n..];
  }

  /** Cutting the stream just before the newline of line i. */
  lemma {:induction false} CutAtLine(b: seq<byte>, i: nat) returns (a: seq<byte>, c: seq<byte>)
    requires i < |Lines(b)|
    ensures b == a + c && Lines(a) == Lines(b)[..i] && Tail(a) == Lines(b)[i]
    decreases i
  {
    if i == 0 {
      a, c := CutAtFirst(b);
    } else {
      var first, rest := SplitFirstLine(b);
      assert i - 1 < |Lines(rest)| by {
        LineInFront(first, rest);
      }
      a, c := CutAtLine(rest, i - 1);
      CutStep(first, rest, a, i - 1);
      Assoc(first, a, c);
      a := first + a;
    }
  }

  /** Cut off a prefix whose open line is too long: the first push fails. */
  lemma LongCarryPush(g: Processor, max: nat, a: seq<byte>, b: seq<byte>)
    returns (chunks: seq<seq<byte>>)
    requires FoldLines(g, EMPTY, Lines(a)).error.None? && |Tail(a)| > max
    ensures Flatten(chunks) == a + b
    ensures Feed(g, max, EMPTY, [], chunks) == FoldLines(g, EMPTY, Lines(a)).(error := Some(LineLimit))
  {
    chunks := [a, b];
    assert [a, b][1..] == [b] && [b][1..] == [];
    assert Flatten([b]) == b + [];
    DrainIsFold(g, EMPTY, a);
    assert [] + a == a;
  }

  /** Every edge line the fold gets to is refused in some chunking. */
  lemma EdgeLineBreaks(g: Processor, max: nat, b: seq<byte>, i: nat) returns (chunks: seq<seq<byte>>)
    requires EdgeAt(g, max, EMPTY, Lines(b), i)
    ensures Flatten(chunks) == b
    ensures Feed(g, max, EMPTY, [], chunks) == CutBefore(g, EMPTY, Lines(b), i)
  {
    var a, c := CutAtLine(b, i);
    chunks := LongCarryPush(g, max, a, c);
  }

  ghost predicate ChunkingIndependent(lim: Limits, b: seq<byte>) {
    forall chunks :: Flatten(chunks) == b ==> Decode(lim, chunks) == Reference(lim, b)
  }

  /** Read line by line: a line or the tail is over-long, and the lines before it emit no
      event and are not refused. */
  predicate QuietUntilOverlong(g: Processor, max: nat, f: Fields, lines: seq<Text>, tail: Text)
    decreases |lines|
  {
    if lines == [] then |tail| > max
    else
      var line := StripCr(lines[0]);
      var s := g(f, line);
      |line| > max || (s.error.None? && s.events == [] && QuietUntilOverlong(g, max, s.fields, lines[1..], tail))
  }

  /** The processor reports the line limit for lines over the limit and for no others. */
  ghost predicate StrictlyLimited(g: Processor, max: nat) {
    Limited(g, max) && forall f, line :: g(f, line).error == Some(LineLimit) ==> |line| > max
  }

  predicate RefusedQuietly(s: Step) {
    s.error == Some(LineLimit) && s.events == []
  }

  lemma QuietFirst(g: Processor, max: nat, f: Fields, lines: seq<Text>, tail: Text)
    requires StrictlyLimited(g, max) && lines != []
    ensures var line := StripCr(lines[0]);
            var s := g(f, line);
            RefusedQuietly(FoldAll(g, f, lines, tail))
            <==> |line| > max
                 || (s.error.None? && s.events == [] && RefusedQuietly(FoldAll(g, s.fields, lines[1..], tail)))
  {
    FoldAllAppend(g, f, lines[..1], lines[1..], tail);
    assert lines[..1] + lines[1..] == lines;
    assert lines[..1][1..] == [];
    assert FoldLines(g, f, lines[..1]) == g(f, StripCr(lines[0])) by {
      FoldOne(g, f, lines[..1]);
    }
  }

  lemma FoldOne(g: Processor, f: Fields, lines: seq<Text>)
    requires |lines| == 1
    ensures var s := g(f, StripCr(lines[0]));
            FoldLines(g, f, lines) == s
  {
    var s := g(f, StripCr(lines[0]));
    assert lines[1..] == [] && s.events + [] == s.events;
  }

  lemma {:induction false} QuietMeaning(g: Processor, max: nat, f: Fields, lines: seq<Text>, tail: Text)
    requires StrictlyLimited(g, max)
    ensures QuietUntilOverlong(g, max, f, lines, tail) <==> RefusedQuietly(FoldAll(g, f, lines, tail))
    decreases |lines|
  {
    if lines == [] {
    } else {
      QuietFirst(g, max, f, lines, tail);
      QuietMeaning(g, max, g(f, StripCr(lines[0])).fields, lines[1..], tail);
    }
  }

  /** Every edge line the fold gets to is followed, before any event, by a line that is
      over-long whatever the chunking. */
  ghost predicate EdgesHarmless(g: Processor, max: nat, b: seq<byte>) {
    forall i :: EdgeAt(g, max, EMPTY, Lines(b), i) ==> HarmlessAt(g, max, Lines(b), Tail(b), i)
  }

  predicate HarmlessAt(g: Processor, max: nat, lines: seq<Text>, tail: Text, i: nat)
    requires i <= |lines|
  {
    QuietUntilOverlong(g, max, FoldLines(g, EMPTY, lines[..i]).fields, lines[i..], tail)
  }

  /** Then, and only then, refusing line i early looks the same. */
  lemma HarmlessMeaning(g: Processor, max: nat, lines: seq<Text>, tail: Text, i: nat)
    requires StrictlyLimited(g, max) && EdgeAt(g, max, EMPTY, lines, i)
    ensures HarmlessAt(g, max, lines, tail, i)
            <==> OutcomeOf(CutBefore(g, EMPTY, lines, i)) == OutcomeOf(FoldAll(g, EMPTY, lines, tail))
  {
    var s := FoldLines(g, EMPTY, lines[..i]);
    assert lines[..i] + lines[i..] == lines;
    FoldAllAppend(g, EMPTY, lines[..i], lines[i..], tail);
    QuietMeaning(g, max, s.fields, lines[i..], tail);
    var e := FoldAll(g, s.fields, lines[i..], tail).events;
    assert s.events == s.events + e <==> e == [] by {
      assert |s.events + e| == |s.events| + |e|;
    }
  }

  lemma HarmlessOutcome(edge: Option<nat>, g: Processor, max: nat, b: seq<byte>, s: Step)
    requires StrictlyLimited(g, max)
    requires EdgesHarmless(g, max, b) && Explains(edge, g, max, EMPTY, b, s)
    ensures OutcomeOf(s) == OutcomeOf(FoldStream(g, EMPTY, b))
  {
    if edge.Some? {
      HarmlessMeaning(g, max, Lines(b), Tail(b), edge.value);
    }
  }

  lemma LinesStrictlyLimited(lim: Limits)
    ensures StrictlyLimited(LineProcessor(lim), lim.line)
  {
  }

  /** All chunkings of a stream agree exactly when each edge line the fold gets to is
      followed by an over-long line before any event. */
  lemma ChunkingCriterion(lim: Limits, b: seq<byte>)
    ensures ChunkingIndependent(lim, b) <==> EdgesHarmless(LineProcessor(lim), lim.line, b)
  {
    var g := LineProcessor(lim);
    LinesStrictlyLimited(lim);
    if ChunkingIndependent(lim, b) {
      forall i | EdgeAt(g, lim.line, EMPTY, Lines(b), i) ensures HarmlessAt(g, lim.line, Lines(b), Tail(b), i) {
        var chunks := EdgeLineBreaks(g, lim.line, b, i);
        assert Decode(lim, chunks) == Reference(lim, b);
        HarmlessMeaning(g, lim.line, Lines(b), Tail(b), i);
      }
    }
    if EdgesHarmless(g, lim.line, b) {
      forall chunks | Flatten(chunks) == b ensures Decode(lim, chunks) == Reference(lim, b) {
        var edge := ChunkingOutcome(lim, chunks);
        HarmlessOutcome(edge, g, lim.line, b, Feed(g, lim.line, EMPTY, [], chunks));
      }
    }
  }

  lemma FoldPrefixSucceeds(g: Processor, f: Fields, lines: seq<Text>, i: nat)
    requires FoldLines(g, f, lines).error.None? && i <= |lines|
    ensures FoldLines(g, f, lines[..i]).error.None?
  {
    FoldAppend(g, f, lines[..i], lines[i..]);
    assert lines[..i] + lines[i..] == lines;
  }

  /** So a stream the fold accepts is decoded alike in every chunking exactly when no
      line with its CR is one byte over the limit. */
  lemma AcceptedChunkingCriterion(lim: Limits, b: seq<byte>)
    requires Reference(lim, b).error.None?
    ensures ChunkingIndependent(lim, b) <==> NoEdgeLine(lim.line, b)
  {
    var g, lines := LineProcessor(lim), Lines(b);
    LinesStrictlyLimited(lim);
    ChunkingCriterion(lim, b);
    if i :| 0 <= i < |lines| && EdgeLine(lim.line, lines[i]) {
      FoldPrefixSucceeds(g, EMPTY, lines, i);
      HarmlessMeaning(g, lim.line, lines, Tail(b), i);
      assert EdgeAt(g, lim.line, EMPTY, lines, i) && !HarmlessAt(g, lim.line, lines, Tail(b), i);
    }
  }

  /** A comment as long as a line may be, then CR and LF. */
  function LongestComment(max: nat): seq<byte> {
    Colons(max) + [CR, LF]
  }

  function Colons(n: nat): Text {
    if n == 0 then [] else [COLON] + Colons(n - 1)
  }

  lemma {:induction false} ColonsShape(n: nat)
    ensures |Colons(n)| == n && Utf8.Valid(Colons(n)) && LF !in Colons(n)
    ensures n > 0 ==> Colons(n)[0] == COLON
  {
    if n == 0 {
    } else {
      ColonsShape(n - 1);
      assert Colons(n)[1..] == Colons(n - 1);
    }
  }

  lemma CommentLines(max: nat)
    ensures Lines(LongestComment(max)) == [Colons(max) + [CR]] && Tail(LongestComment(max)) == []
  {
    var b := LongestComment(max);
    ColonsShape(max);
    assert b[max + 1] == LF;
    assert IndexOf(b, LF) == max + 1;
    assert FirstLine(b) == Colons(max) + [CR] && RestOf(b) == [];
  }

  lemma CommentIgnored(lim: Limits, line: Text)
    requires line == Colons(lim.line) + [CR]
    ensures EdgeLine(lim.line, line)
    ensures LineProcessor(lim)(EMPTY, StripCr(line)) == Step(EMPTY, [], None)
  {
    ColonsShape(lim.line);
    assert StripCr(line) == Colons(lim.line);
  }

  /** Whatever the limits, that stream is accepted whole and refused when cut before LF. */
  lemma EdgeLineExample(lim: Limits)
    ensures var b := LongestComment(lim.line);
            Reference(lim, b) == Outcome([], None) && !ChunkingIndependent(lim, b)
  {
    var b, g := LongestComment(lim.line), LineProcessor(lim);
    var line := Colons(lim.line) + [CR];
    CommentLines(lim.line);
    CommentIgnored(lim, line);
    FoldOne(g, EMPTY, [line]);
    assert EdgeLine(lim.line, Lines(b)[0]);
    AcceptedChunkingCriterion(lim, b);
  }

  // ----- Bounds -----

  ghost predicate KeepsData(g: Processor, max: nat) {
    forall f: Fields, line :: |f.data| <= max ==> |g(f, line).fields.data| <= max
  }

  lemma {:induction false} DrainBounds(g: Processor, max: nat, f: Fields, b: seq<byte>)
    requires KeepsData(g, max) && |f.data| <= max
    ensures var d := Drain(g, f, b);
            |d.step.fields.data| <= max && (d.step.error.None? ==> LF !in d.rest)
    decreases |b|
  {
    if LF !in b {
    } else {
      DrainBounds(g, max, g(f, StripCr(FirstLine(b))).fields, RestOf(b));
    }
  }

  /** After a successful push the carry has no newline and fits; the event data fits
      after every push, successful or not. */
  lemma PushBounds(lim: Limits, f: Fields, pending: Text, chunk: seq<byte>)
    requires |f.data| <= lim.event
    ensures var d := Push(LineProcessor(lim), lim.line, f, pending, chunk);
            && |d.step.fields.data| <= lim.event
            && (d.step.error.None? ==> LF !in d.rest && |d.rest| <= lim.line)
  {
    DrainBounds(LineProcessor(lim), lim.event, f, pending + chunk);
  }
}
