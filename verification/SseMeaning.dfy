/** What a Server-Sent Events stream means: its lines as fields, comments and blank lines,
    and the event each block of them stands for. The decoder emits exactly these. */
module SseMeaning {
  import opened Bytes
  import opened Sse
  import Utf8

  // ----- Sequences -----

  predicate All<T>(p: T -> bool, xs: seq<T>) {
    forall i :: 0 <= i < |xs| ==> p(xs[i])
  }

  lemma AllAppend<T>(p: T -> bool, xs: seq<T>, ys: seq<T>)
    ensures All(p, xs + ys) <==> All(p, xs) && All(p, ys)
  {
    if All(p, xs + ys) {
      forall i | 0 <= i < |xs| ensures p(xs[i]) {
        assert xs[i] == (xs + ys)[i];
      }
      forall i | 0 <= i < |ys| ensures p(ys[i]) {
        assert ys[i] == (xs + ys)[|xs| + i];
      }
    }
  }

  function FlatMap<T, U>(f: T -> seq<U>, xs: seq<T>): seq<U> {
    if xs == [] then [] else FlatMap(f, xs[..|xs| - 1]) + f(xs[|xs| - 1])
  }

  lemma {:induction false} FlatMapSingles<T, U>(f: T -> seq<U>, xs: seq<T>, us: seq<U>)
    requires |xs| == |us| && forall i :: 0 <= i < |xs| ==> f(xs[i]) == [us[i]]
    ensures FlatMap(f, xs) == us
    decreases |xs|
  {
    if xs == [] {
    } else {
      var n := |xs| - 1;
      FlatMapSingles(f, xs[..n], us[..n]);
      assert us == us[..n] + [us[n]];
    }
  }

  lemma {:induction false} FlatMapAll<T, U>(f: T -> seq<U>, xs: seq<T>, p: U -> bool)
    requires forall i :: 0 <= i < |xs| ==> All(p, f(xs[i]))
    ensures All(p, FlatMap(f, xs))
    decreases |xs|
  {
    if xs == [] {
    } else {
      var n := |xs| - 1;
      FlatMapAll(f, xs[..n], p);
      AllAppend(p, FlatMap(f, xs[..n]), f(xs[n]));
    }
  }

  // ----- Lines -----

  /** How a field is written: the bare name, with a colon, or with a colon and a space. */
  datatype Style = Bare | Tight | Spaced

  datatype Line =
    | Comment(text: Text)
    | Unknown(name: Text, rest: Option<Text>)
    | Name(value: Text, style: Style)
    | Data(value: Text, style: Style)

  function Value(value: Text, style: Style): Text {
    match style
    case Bare => []
    case Tight => [COLON] + value
    case Spaced => [COLON, SPACE] + value
  }

  function Written(line: Line): Text {
    match line
    case Comment(text) => [COLON] + text
    case Unknown(name, value) => name + (if value.None? then [] else [COLON] + value.value)
    case Name(value, style) => [101, 118, 101, 110, 116] + Value(value, style)
    case Data(value, style) => [100, 97, 116, 97] + Value(value, style)
  }

  /** Nothing is lost in writing a value this way. */
  predicate Suits(value: Text, style: Style) {
    match style
    case Bare => value == []
    case Tight => value == [] || value[0] != SPACE
    case Spaced => true
  }

  predicate Proper(line: Line) {
    match line
    case Comment(_) => true
    case Unknown(name, _) =>
      name != [] && COLON !in name && name != [101, 118, 101, 110, 116] && name != [100, 97, 116, 97]
    case Name(value, style) => Suits(value, style)
    case Data(value, style) => Suits(value, style)
  }

  /** A line that can stand in a stream under a line limit. */
  predicate Fits(max: nat, line: Line) {
    Proper(line) && LF !in Written(line) && Utf8.Valid(Written(line)) && |Written(line)| <= max
  }

  // ----- Blocks -----

  /** The event name given last. */
  function LastName(lines: seq<Line>): Option<Text> {
    if lines == [] then None
    else if lines[|lines| - 1].Name? then Some(lines[|lines| - 1].value)
    else LastName(lines[..|lines| - 1])
  }

  function DataValues(lines: seq<Line>): seq<Text> {
    if lines == [] then []
    else DataValues(lines[..|lines| - 1]) + (if lines[|lines| - 1].Data? then [lines[|lines| - 1].value] else [])
  }

  function DropEmpty(values: seq<Text>): seq<Text> {
    if values != [] && values[0] == [] then DropEmpty(values[1..]) else values
  }

  /** The data lines joined by newlines, without the empty ones in front. */
  function Joined(values: seq<Text>): Text {
    var rest := DropEmpty(values);
    if rest == [] then [] else Join(rest, LF)
  }

  function Body(lines: seq<Line>): Text {
    Joined(DataValues(lines))
  }

  /** The event a block of lines stands for: none without a name and data. */
  function Meaning(lines: seq<Line>): seq<SseEvent> {
    if LastName(lines).None? && Body(lines) == [] then [] else [SseEvent(LastName(lines), Body(lines))]
  }

  // ----- One line -----

  lemma ColonAt(name: Text, rest: Text)
    requires COLON !in name
    ensures IndexOf(name + [COLON] + rest, COLON) == |name|
  {
    var line := name + [COLON] + rest;
    assert line[|name|] == COLON;
  }

  lemma NoColonAt(name: Text)
    requires COLON !in name
    ensures IndexOf(name, COLON) == |name|
  {
  }

  /** A field with a colon, as the decoder cuts it. */
  lemma CutField(name: Text, value: Text)
    requires COLON !in name
    ensures FieldName(name + [COLON] + value) == name
    ensures FieldValue(name + [COLON] + value) == if value != [] && value[0] == SPACE then value[1..] else value
  {
    var line := name + [COLON] + value;
    ColonAt(name, value);
    assert line[..|name|] == name;
    assert line[|name| + 1..] == value;
    if value != [] {
      assert line[|name| + 1] == value[0] && line[|name| + 2..] == value[1..];
    }
  }

  lemma CutBare(name: Text)
    requires COLON !in name
    ensures FieldName(name + []) == name && FieldValue(name + []) == []
  {
    NoColonAt(name);
    assert name + [] == name && name[..|name|] == name;
  }

  lemma CutSpaced(name: Text, value: Text)
    requires COLON !in name
    ensures FieldName(name + ([COLON, SPACE] + value)) == name && FieldValue(name + ([COLON, SPACE] + value)) == value
  {
    SpacedParts(name, value);
    CutField(name, [SPACE] + value);
  }

  lemma SpacedParts(name: Text, value: Text)
    ensures name + ([COLON, SPACE] + value) == name + [COLON] + ([SPACE] + value)
    ensures ([SPACE] + value)[0] == SPACE && ([SPACE] + value)[1..] == value
  {
  }

  lemma CutTight(name: Text, value: Text)
    requires COLON !in name && Suits(value, Tight)
    ensures FieldName(name + ([COLON] + value)) == name && FieldValue(name + ([COLON] + value)) == value
  {
    CutField(name, value);
    assert name + ([COLON] + value) == name + [COLON] + value;
  }

  lemma CutStyled(name: Text, value: Text, style: Style)
    requires COLON !in name && Suits(value, style)
    ensures FieldName(name + Value(value, style)) == name && FieldValue(name + Value(value, style)) == value
  {
    match style
    case Bare => CutBare(name);
    case Tight => CutTight(name, value);
    case Spaced => CutSpaced(name, value);
  }

  /** What one proper line does to the event under construction. */
  function Took(f: Fields, line: Line): Fields {
    match line
    case Comment(_) => f
    case Unknown(_, _) => f
    case Name(value, _) => f.(event := Some(value))
    case Data(value, _) => f.(data := AppendData(f.data, value))
  }

  lemma WrittenHead(name: Text, rest: Text)
    requires name != [] && COLON !in name
    ensures name + rest != [] && (name + rest)[0] != COLON
  {
    assert (name + rest)[0] == name[0];
    assert name[0] in name;
  }

  lemma UnknownIgnored(name: Text, value: Option<Text>)
    requires name != [] && COLON !in name
    ensures FieldName(Written(Unknown(name, value))) == name
  {
    if value.Some? {
      CutField(name, value.value);
      assert name + ([COLON] + value.value) == name + [COLON] + value.value;
    } else {
      NoColonAt(name);
      assert name + [] == name && name[..|name|] == name;
    }
  }

  lemma LineTaken(lim: Limits, f: Fields, line: Line)
    requires Fits(lim.line, line) && (line.Data? ==> |AppendData(f.data, line.value)| <= lim.event)
    ensures ProcessLine(lim, f, Written(line)) == Step(Took(f, line), [], None)
  {
    match line
    case Comment(text) =>
    case Unknown(name, value) =>
      UnknownIgnored(name, value);
      WrittenHead(name, if value.None? then [] else [COLON] + value.value);
    case Name(value, style) =>
      CutStyled(EVENT, value, style);
      WrittenHead(EVENT, Value(value, style));
    case Data(value, style) =>
      CutStyled(DATA, value, style);
      WrittenHead(DATA, Value(value, style));
  }

  // ----- A block of lines -----

  lemma {:induction false} DropEmptyNext(values: seq<Text>, value: Text)
    ensures DropEmpty(values + [value])
            == if DropEmpty(values) != [] then DropEmpty(values) + [value] else if value == [] then [] else [value]
    ensures DropEmpty(values) != [] ==> DropEmpty(values)[0] != []
  {
    if values == [] {
      assert [value][1..] == [];
    } else if values[0] == [] {
      DropEmptyNext(values[1..], value);
      assert (values + [value])[1..] == values[1..] + [value];
    }
  }

  lemma {:induction false} JoinNext(parts: seq<Text>, part: Text)
    requires parts != []
    ensures Join(parts + [part], LF) == Join(parts, LF) + [LF] + part
  {
    if |parts| == 1 {
      assert (parts + [part])[1..] == [part];
    } else {
      JoinNext(parts[1..], part);
      assert (parts + [part])[1..] == parts[1..] + [part];
      Assoc(parts[0] + [LF], Join(parts[1..], LF), [LF] + part);
      Assoc(Join(parts[1..], LF), [LF], part);
      Assoc(parts[0] + [LF] + Join(parts[1..], LF), [LF], part);
    }
  }

  lemma JoinFirst(parts: seq<Text>)
    requires parts != [] && parts[0] != []
    ensures Join(parts, LF) != []
  {
  }

  /** One more data line. */
  lemma JoinedNext(values: seq<Text>, value: Text)
    ensures Joined(values + [value]) == AppendData(Joined(values), value)
  {
    DropEmptyNext(values, value);
    var rest := DropEmpty(values);
    if rest != [] {
      JoinNext(rest, value);
      JoinFirst(rest);
    }
  }

  function FieldsOf(lines: seq<Line>): Fields {
    Fields(LastName(lines), Body(lines))
  }

  lemma FieldsNext(lines: seq<Line>, line: Line)
    ensures FieldsOf(lines + [line]) == Took(FieldsOf(lines), line)
    ensures |Body(lines)| <= |Body(lines + [line])|
  {
    assert (lines + [line])[..|lines|] == lines;
    if line.Data? {
      JoinedNext(DataValues(lines), line.value);
    } else {
      assert DataValues(lines) + [] == DataValues(lines);
    }
  }

  /** A line with its ending: LF, or CR and LF. */
  datatype Mark = Mark(line: Line, crlf: bool)

  function Raw(text: Text, crlf: bool): Text {
    if crlf then text + [CR] else text
  }

  /** A text that ends in CR needs a CR of its own to keep it. */
  predicate EndsWell(text: Text, crlf: bool) {
    crlf || text == [] || text[|text| - 1] != CR
  }

  lemma StripRaw(text: Text, crlf: bool)
    requires EndsWell(text, crlf)
    ensures StripCr(Raw(text, crlf)) == text
  {
  }

  predicate MarkFits(max: nat, m: Mark) {
    Fits(max, m.line) && EndsWell(Written(m.line), m.crlf)
  }

  function Fitting(max: nat): Mark -> bool {
    m => MarkFits(max, m)
  }

  predicate AllFit(max: nat, marks: seq<Mark>) {
    All(Fitting(max), marks)
  }

  function LinesOf(marks: seq<Mark>): seq<Line> {
    seq(|marks|, i requires 0 <= i < |marks| => marks[i].line)
  }

  function Raws(marks: seq<Mark>): seq<Text> {
    seq(|marks|, i requires 0 <= i < |marks| => Raw(Written(marks[i].line), marks[i].crlf))
  }

  lemma MarksNext(marks: seq<Mark>, m: Mark)
    ensures LinesOf(marks + [m]) == LinesOf(marks) + [m.line]
    ensures Raws(marks + [m]) == Raws(marks) + [Raw(Written(m.line), m.crlf)]
  {
  }

  /** A processor that takes these lines into the event under construction. */
  ghost predicate Takes(g: Processor, ok: Mark -> bool, bound: nat) {
    forall f, m :: ok(m) && |Took(f, m.line).data| <= bound ==>
      g(f, StripCr(Raw(Written(m.line), m.crlf))) == Step(Took(f, m.line), [], None)
  }

  lemma LinesTaken(lim: Limits)
    ensures Takes(LineProcessor(lim), Fitting(lim.line), lim.event)
  {
    forall f, m | Fitting(lim.line)(m) && |Took(f, m.line).data| <= lim.event
      ensures LineProcessor(lim)(f, StripCr(Raw(Written(m.line), m.crlf))) == Step(Took(f, m.line), [], None)
    {
      StripRaw(Written(m.line), m.crlf);
      LineTaken(lim, f, m.line);
    }
  }

  /** One more line, the lines so far having been folded. */
  lemma FoldNext(g: Processor, ok: Mark -> bool, bound: nat, raws: seq<Text>, f: Fields, m: Mark)
    requires Takes(g, ok, bound) && FoldLines(g, EMPTY, raws) == Step(f, [], None)
    requires ok(m) && |Took(f, m.line).data| <= bound
    ensures FoldLines(g, EMPTY, raws + [Raw(Written(m.line), m.crlf)]) == Step(Took(f, m.line), [], None)
  {
    var raw := Raw(Written(m.line), m.crlf);
    FoldAppend(g, EMPTY, raws, [raw]);
    FoldOne(g, f, [raw]);
  }

  lemma FoldMarksNext(g: Processor, ok: Mark -> bool, bound: nat, marks: seq<Mark>, m: Mark)
    requires Takes(g, ok, bound) && ok(m) && |Body(LinesOf(marks + [m]))| <= bound
    requires FoldLines(g, EMPTY, Raws(marks)) == Step(FieldsOf(LinesOf(marks)), [], None)
    ensures FoldLines(g, EMPTY, Raws(marks + [m])) == Step(FieldsOf(LinesOf(marks + [m])), [], None)
  {
    MarksNext(marks, m);
    FieldsNext(LinesOf(marks), m.line);
    FoldNext(g, ok, bound, Raws(marks), FieldsOf(LinesOf(marks)), m);
  }

  lemma BodyGrows(marks: seq<Mark>, m: Mark)
    ensures |Body(LinesOf(marks))| <= |Body(LinesOf(marks + [m]))|
  {
    MarksNext(marks, m);
    FieldsNext(LinesOf(marks), m.line);
  }

  lemma {:induction false} FoldMarks(g: Processor, ok: Mark -> bool, bound: nat, marks: seq<Mark>)
    requires Takes(g, ok, bound) && All(ok, marks) && |Body(LinesOf(marks))| <= bound
    ensures FoldLines(g, EMPTY, Raws(marks)) == Step(FieldsOf(LinesOf(marks)), [], None)
    decreases |marks|
  {
    if marks == [] {
      NoMarks(g);
    } else {
      var front, m := marks[..|marks| - 1], marks[|marks| - 1];
      assert marks == front + [m];
      BodyGrows(front, m);
      FoldMarks(g, ok, bound, front);
      FoldMarksNext(g, ok, bound, front, m);
    }
  }

  lemma NoMarks(g: Processor)
    ensures FoldLines(g, EMPTY, Raws([])) == Step(FieldsOf(LinesOf([])), [], None)
  {
    assert LinesOf([]) == [] && Raws([]) == [];
    assert DataValues([]) == [];
  }

  // ----- Blocks, each closed by a blank line -----

  datatype Block = Block(marks: seq<Mark>, crlf: bool)

  predicate BlockFits(lim: Limits, b: Block) {
    AllFit(lim.line, b.marks) && |Body(LinesOf(b.marks))| <= lim.event
  }

  function BlockRaws(b: Block): seq<Text> {
    Raws(b.marks) + [Raw([], b.crlf)]
  }

  lemma DispatchMeaning(lines: seq<Line>)
    ensures Dispatch(FieldsOf(lines)) == Step(EMPTY, Meaning(lines), None)
  {
  }

  lemma BlankLine(lim: Limits, f: Fields)
    ensures ProcessLine(lim, f, []) == Dispatch(f)
  {
  }

  lemma FoldBlock(lim: Limits, b: Block)
    requires BlockFits(lim, b)
    ensures FoldLines(LineProcessor(lim), EMPTY, BlockRaws(b)) == Step(EMPTY, Meaning(LinesOf(b.marks)), None)
  {
    var f, blank := FieldsOf(LinesOf(b.marks)), Raw([], b.crlf);
    LinesTaken(lim);
    FoldMarks(LineProcessor(lim), Fitting(lim.line), lim.event, b.marks);
    FoldAppend(LineProcessor(lim), EMPTY, Raws(b.marks), [blank]);
    FoldOne(LineProcessor(lim), f, [blank]);
    StripRaw([], b.crlf);
    BlankLine(lim, f);
    DispatchMeaning(LinesOf(b.marks));
  }

  function AllRaws(blocks: seq<Block>): seq<Text> {
    FlatMap(BlockRaws, blocks)
  }

  function MeaningOf(b: Block): seq<SseEvent> {
    Meaning(LinesOf(b.marks))
  }

  /** The events of the blocks, in order. */
  function Meanings(blocks: seq<Block>): seq<SseEvent> {
    FlatMap(MeaningOf, blocks)
  }

  function FittingBlock(lim: Limits): Block -> bool {
    b => BlockFits(lim, b)
  }

  predicate BlocksFit(lim: Limits, blocks: seq<Block>) {
    All(FittingBlock(lim), blocks)
  }

  /** A processor that dispatches each of these blocks from an empty event. */
  ghost predicate Closes(g: Processor, ok: Block -> bool) {
    forall b :: ok(b) ==> FoldLines(g, EMPTY, BlockRaws(b)) == Step(EMPTY, MeaningOf(b), None)
  }

  lemma {:induction false} FoldEach(g: Processor, ok: Block -> bool, blocks: seq<Block>)
    requires Closes(g, ok) && All(ok, blocks)
    ensures FoldLines(g, EMPTY, AllRaws(blocks)) == Step(EMPTY, Meanings(blocks), None)
    decreases |blocks|
  {
    if blocks == [] {
    } else {
      var front, b := blocks[..|blocks| - 1], blocks[|blocks| - 1];
      assert ok(b);
      FoldEach(g, ok, front);
      FoldAppend(g, EMPTY, AllRaws(front), BlockRaws(b));
    }
  }

  lemma FoldBlocks(lim: Limits, blocks: seq<Block>)
    requires BlocksFit(lim, blocks)
    ensures FoldLines(LineProcessor(lim), EMPTY, AllRaws(blocks)) == Step(EMPTY, Meanings(blocks), None)
  {
    forall b | FittingBlock(lim)(b)
      ensures FoldLines(LineProcessor(lim), EMPTY, BlockRaws(b)) == Step(EMPTY, MeaningOf(b), None)
    {
      FoldBlock(lim, b);
    }
    FoldEach(LineProcessor(lim), FittingBlock(lim), blocks);
  }

  /** Blocks, then lines of a block not closed yet. */
  lemma FoldOpen(lim: Limits, blocks: seq<Block>, open: seq<Mark>)
    requires BlocksFit(lim, blocks) && AllFit(lim.line, open) && |Body(LinesOf(open))| <= lim.event
    ensures FoldLines(LineProcessor(lim), EMPTY, AllRaws(blocks) + Raws(open))
            == Step(FieldsOf(LinesOf(open)), Meanings(blocks), None)
  {
    FoldBlocks(lim, blocks);
    LinesTaken(lim);
    FoldMarks(LineProcessor(lim), Fitting(lim.line), lim.event, open);
    FoldAppend(LineProcessor(lim), EMPTY, AllRaws(blocks), Raws(open));
    assert Meanings(blocks) + [] == Meanings(blocks);
  }

  // ----- Whole streams -----

  function Terminated(raws: seq<Text>): seq<byte> {
    if raws == [] then [] else raws[0] + [LF] + Terminated(raws[1..])
  }

  predicate NoLf(raws: seq<Text>) {
    forall i :: 0 <= i < |raws| ==> LF !in raws[i]
  }

  lemma OneTerminated(raw: Text, rest: seq<byte>)
    requires LF !in raw
    ensures Lines(raw + [LF] + rest) == [raw] + Lines(rest) && Tail(raw + [LF] + rest) == Tail(rest)
  {
    var first := raw + [LF];
    assert first[|raw|] == LF;
    assert IndexOf(first, LF) == |raw|;
    LineInFront(first, rest);
    assert FirstLine(first) == raw;
  }

  /** Terminated lines are read back as they are. */
  lemma {:induction false} LinesTerminated(raws: seq<Text>, rest: seq<byte>)
    requires NoLf(raws)
    ensures Lines(Terminated(raws) + rest) == raws + Lines(rest) && Tail(Terminated(raws) + rest) == Tail(rest)
  {
    if raws == [] {
      assert Terminated(raws) + rest == rest;
    } else {
      LinesTerminated(raws[1..], rest);
      OneTerminated(raws[0], Terminated(raws[1..]) + rest);
      FirstTerminated(raws, rest, Lines(rest));
    }
  }

  lemma FirstTerminated(raws: seq<Text>, rest: seq<byte>, more: seq<Text>)
    requires raws != []
    ensures Terminated(raws) + rest == raws[0] + [LF] + (Terminated(raws[1..]) + rest)
    ensures [raws[0]] + (raws[1..] + more) == raws + more
  {
    Assoc(raws[0] + [LF], Terminated(raws[1..]), rest);
    Assoc([raws[0]], raws[1..], more);
    assert raws == [raws[0]] + raws[1..];
  }

  lemma RawHasNoLf(text: Text, crlf: bool)
    requires LF !in text
    ensures LF !in Raw(text, crlf)
  {
  }

  lemma MarksHaveNoLf(max: nat, marks: seq<Mark>)
    requires AllFit(max, marks)
    ensures NoLf(Raws(marks))
  {
    forall i | 0 <= i < |marks| ensures LF !in Raws(marks)[i] {
      assert Fitting(max)(marks[i]);
      RawHasNoLf(Written(marks[i].line), marks[i].crlf);
    }
  }

  lemma BlockHasNoLf(lim: Limits, b: Block)
    requires BlockFits(lim, b)
    ensures NoLf(BlockRaws(b))
  {
    MarksHaveNoLf(lim.line, b.marks);
  }

  lemma BlocksHaveNoLf(lim: Limits, blocks: seq<Block>)
    requires BlocksFit(lim, blocks)
    ensures NoLf(AllRaws(blocks))
  {
    var clean := (raw: Text) => LF !in raw;
    forall i | 0 <= i < |blocks| ensures All(clean, BlockRaws(blocks[i])) {
      assert FittingBlock(lim)(blocks[i]);
      BlockHasNoLf(lim, blocks[i]);
    }
    FlatMapAll(BlockRaws, blocks, clean);
  }

  function LastLine(last: Option<Line>): seq<Line> {
    if last.None? then [] else [last.value]
  }

  /** Blocks, then lines of a block that is not closed, then perhaps one more line that is
      not even terminated. */
  function Stream(blocks: seq<Block>, open: seq<Mark>, last: Option<Line>): seq<byte> {
    Terminated(AllRaws(blocks) + Raws(open)) + (if last.None? then [] else Written(last.value))
  }

  predicate StreamFits(lim: Limits, blocks: seq<Block>, open: seq<Mark>, last: Option<Line>) {
    && BlocksFit(lim, blocks) && AllFit(lim.line, open) && (last.Some? ==> Fits(lim.line, last.value))
    && |Body(LinesOf(open) + LastLine(last))| <= lim.event
  }

  lemma WrittenNotEmpty(line: Line)
    requires Proper(line)
    ensures Written(line) != []
  {
  }

  lemma FinishMeaning(lim: Limits, lines: seq<Line>, last: Option<Line>)
    requires (last.Some? ==> Fits(lim.line, last.value)) && |Body(lines + LastLine(last))| <= lim.event
    ensures OutcomeOf(Finish(LineProcessor(lim), FieldsOf(lines), if last.None? then [] else Written(last.value)))
            == Outcome(Meaning(lines + LastLine(last)), None)
  {
    if last.None? {
      assert lines + [] == lines;
      DispatchMeaning(lines);
      assert [] + Meaning(lines) == Meaning(lines);
    } else {
      FieldsNext(lines, last.value);
      WrittenNotEmpty(last.value);
      LineTaken(lim, FieldsOf(lines), last.value);
      DispatchMeaning(lines + [last.value]);
      assert [] + Meaning(lines + [last.value]) == Meaning(lines + [last.value]);
    }
  }

  lemma OpenBody(open: seq<Mark>, last: Option<Line>)
    ensures |Body(LinesOf(open))| <= |Body(LinesOf(open) + LastLine(last))|
  {
    if last.None? {
      assert LinesOf(open) + [] == LinesOf(open);
    } else {
      FieldsNext(LinesOf(open), last.value);
    }
  }

  lemma StreamLines(lim: Limits, blocks: seq<Block>, open: seq<Mark>, tail: seq<byte>)
    requires BlocksFit(lim, blocks) && AllFit(lim.line, open) && LF !in tail
    ensures Lines(Terminated(AllRaws(blocks) + Raws(open)) + tail) == AllRaws(blocks) + Raws(open)
    ensures Tail(Terminated(AllRaws(blocks) + Raws(open)) + tail) == tail
  {
    BlocksHaveNoLf(lim, blocks);
    MarksHaveNoLf(lim.line, open);
    LinesTerminated(AllRaws(blocks) + Raws(open), tail);
  }

  /** The decoder, line by line, emits exactly the events the blocks stand for, in order,
      and at the end of input the one of the block that was not closed. */
  lemma StreamMeaning(lim: Limits, blocks: seq<Block>, open: seq<Mark>, last: Option<Line>)
    requires StreamFits(lim, blocks, open, last)
    ensures Reference(lim, Stream(blocks, open, last))
            == Outcome(Meanings(blocks) + Meaning(LinesOf(open) + LastLine(last)), None)
  {
    StreamLines(lim, blocks, open, if last.None? then [] else Written(last.value));
    OpenBody(open, last);
    FoldOpen(lim, blocks, open);
    FinishMeaning(lim, LinesOf(open), last);
  }

  /** Why a line is refused after these lines of its block: too long, not UTF-8, or more
      data than an event may have. */
  ghost predicate Refused(lim: Limits, lines: seq<Line>, text: Text, error: SseError) {
    match error
    case LineLimit => |text| > lim.line
    case MalformedUtf8 => |text| <= lim.line && !Utf8.Valid(text)
    case EventLimit =>
      exists value, style :: && text == Written(Data(value, style)) && Fits(lim.line, Data(value, style))
                             && |Body(lines + [Data(value, style)])| > lim.event
  }

  lemma LineRefused(lim: Limits, lines: seq<Line>, text: Text, error: SseError)
    requires Refused(lim, lines, text, error)
    ensures ProcessLine(lim, FieldsOf(lines), text) == Step(FieldsOf(lines), [], Some(error))
  {
    if error == EventLimit {
      var value, style :| && text == Written(Data(value, style)) && Fits(lim.line, Data(value, style))
                          && |Body(lines + [Data(value, style)])| > lim.event;
      FieldsNext(lines, Data(value, style));
      CutStyled(DATA, value, style);
      WrittenHead(DATA, Value(value, style));
    }
  }

  lemma RefusedLines(lim: Limits, blocks: seq<Block>, open: seq<Mark>, text: Text, crlf: bool, rest: seq<byte>)
    requires BlocksFit(lim, blocks) && AllFit(lim.line, open) && LF !in text
    ensures var raws := AllRaws(blocks) + Raws(open) + [Raw(text, crlf)];
            Lines(Terminated(raws) + rest) == AllRaws(blocks) + Raws(open) + ([Raw(text, crlf)] + Lines(rest))
  {
    var raws := AllRaws(blocks) + Raws(open) + [Raw(text, crlf)];
    BlocksHaveNoLf(lim, blocks);
    MarksHaveNoLf(lim.line, open);
    RawHasNoLf(text, crlf);
    LinesTerminated(raws, rest);
    Assoc(AllRaws(blocks) + Raws(open), [Raw(text, crlf)], Lines(rest));
  }

  /** The first line that is refused ends the stream, after the events of the blocks that
      were closed before it, whatever follows. */
  lemma StreamRefused(lim: Limits, blocks: seq<Block>, open: seq<Mark>, text: Text, crlf: bool, rest: seq<byte>,
                      error: SseError)
    requires StreamFits(lim, blocks, open, None) && LF !in text && EndsWell(text, crlf)
    requires Refused(lim, LinesOf(open), text, error)
    ensures Reference(lim, Terminated(AllRaws(blocks) + Raws(open) + [Raw(text, crlf)]) + rest)
            == Outcome(Meanings(blocks), Some(error))
  {
    var g, front, more := LineProcessor(lim), AllRaws(blocks) + Raws(open), [Raw(text, crlf)] + Lines(rest);
    RefusedLines(lim, blocks, open, text, crlf, rest);
    OpenBody(open, None);
    FoldOpen(lim, blocks, open);
    StripRaw(text, crlf);
    LineRefused(lim, LinesOf(open), text, error);
    FoldAllAppend(g, EMPTY, front, more, Tail(Terminated(AllRaws(blocks) + Raws(open) + [Raw(text, crlf)]) + rest));
    assert Meanings(blocks) + [] == Meanings(blocks);
  }

  /** Every line that is not blank reads as one of the four kinds. */
  lemma EveryLine(text: Text) returns (line: Line)
    requires text != []
    ensures Proper(line) && Written(line) == text
  {
    var n := IndexOf(text, COLON);
    if n == 0 {
      line := Comment(text[1..]);
    } else {
      var name, rest := text[..n], text[n..];
      assert text == name + rest;
      if n == |text| {
        line := if name == EVENT then Name([], Bare) else if name == DATA then Data([], Bare) else Unknown(name, None);
      } else {
        var value := text[n + 1..];
        assert rest == [COLON] + value;
        var spaced := value != [] && value[0] == SPACE;
        assert spaced ==> rest == [COLON, SPACE] + value[1..];
        var kept, style := if spaced then value[1..] else value, if spaced then Spaced else Tight;
        line := if name == EVENT then Name(kept, style) else if name == DATA then Data(kept, style)
                else Unknown(name, Some(value));
      }
    }
  }

  // ----- Printing events -----

  /** An event a stream can carry: with a name or data, and no newline in front. */
  predicate Expressible(e: SseEvent) {
    (e.data == [] ==> e.event.Some?) && (e.data != [] ==> e.data[0] != LF)
  }

  /** The lines of the data. */
  function DataLines(e: SseEvent): seq<Text> {
    if e.data == [] then [] else Split(e.data, LF)
  }

  /** The block names the event last by its name and has one data line per line of its
      data; comments and unknown fields may stand anywhere, values be written in any way. */
  predicate Writes(b: Block, e: SseEvent) {
    LastName(LinesOf(b.marks)) == e.event && DataValues(LinesOf(b.marks)) == DataLines(e)
  }

  lemma SplitHead(t: Text)
    requires t != [] && t[0] != LF
    ensures Split(t, LF)[0] != []
  {
  }

  lemma WrittenMeans(b: Block, e: SseEvent)
    requires Writes(b, e) && Expressible(e)
    ensures Meaning(LinesOf(b.marks)) == [e] && Body(LinesOf(b.marks)) == e.data
  {
    if e.data != [] {
      SplitHead(e.data);
      JoinSplit(e.data, LF);
    }
  }

  predicate AllWrite(blocks: seq<Block>, events: seq<SseEvent>) {
    |blocks| == |events| && forall i :: 0 <= i < |events| ==> Writes(blocks[i], events[i]) && Expressible(events[i])
  }

  lemma BlocksMean(blocks: seq<Block>, events: seq<SseEvent>)
    requires AllWrite(blocks, events)
    ensures Meanings(blocks) == events
  {
    forall i | 0 <= i < |events| ensures MeaningOf(blocks[i]) == [events[i]] {
      WrittenMeans(blocks[i], events[i]);
    }
    FlatMapSingles(MeaningOf, blocks, events);
  }

  /** However a list of events is written, the decoder gives it back. */
  lemma EventsReadBack(lim: Limits, blocks: seq<Block>, events: seq<SseEvent>)
    requires AllWrite(blocks, events) && BlocksFit(lim, blocks)
    ensures Reference(lim, Stream(blocks, [], None)) == Outcome(events, None)
  {
    assert LinesOf([]) == [] && DataValues([]) == [];
    StreamMeaning(lim, blocks, [], None);
    BlocksMean(blocks, events);
    assert LinesOf([]) + LastLine(None) == [];
    assert events + [] == events;
  }

  function DataMarks(values: seq<Text>): seq<Mark> {
    if values == [] then [] else DataMarks(values[..|values| - 1]) + [Mark(Data(values[|values| - 1], Spaced), false)]
  }

  /** An `event` line if there is a name, a `data` line per line of the data, a blank line. */
  function PrintBlock(e: SseEvent): Block {
    Block((if e.event.Some? then [Mark(Name(e.event.value, Spaced), false)] else []) + DataMarks(DataLines(e)), false)
  }

  function PrintBlocks(events: seq<SseEvent>): seq<Block> {
    seq(|events|, i requires 0 <= i < |events| => PrintBlock(events[i]))
  }

  function Print(events: seq<SseEvent>): seq<byte> {
    Stream(PrintBlocks(events), [], None)
  }

  /** UTF-8 on one line, not ending in CR, and within the limit with the field name. */
  predicate PlainLine(text: Text, room: int) {
    Utf8.Valid(text) && LF !in text && (text == [] || text[|text| - 1] != CR) && |text| <= room
  }

  predicate Printable(lim: Limits, e: SseEvent) {
    && Expressible(e) && |e.data| <= lim.event && Utf8.Valid(e.data)
    && (e.event.Some? ==> PlainLine(e.event.value, lim.line - 7))
    && (forall line :: line in DataLines(e) ==> |line| <= lim.line - 6 && (line == [] || line[|line| - 1] != CR))
  }

  lemma AtFirstLf(t: Text) returns (a: Text, b: Text)
    requires LF in t
    ensures t == a + [LF] + b && t == a + ([LF] + b) && LF !in a && |b| < |t|
  {
    var n := IndexOf(t, LF);
    a, b := t[..n], t[n + 1..];
  }

  predicate AllValid(parts: seq<Text>) {
    forall i :: 0 <= i < |parts| ==> Utf8.Valid(parts[i]) && LF !in parts[i]
  }

  lemma AllValidNext(a: Text, parts: seq<Text>)
    requires Utf8.Valid(a) && LF !in a && AllValid(parts)
    ensures AllValid([a] + parts)
  {
  }

  /** The lines of a valid text are valid and have no newline. */
  lemma {:induction false} SplitValid(t: Text)
    requires Utf8.Valid(t)
    ensures AllValid(Split(t, LF))
    decreases |t|
  {
    if LF !in t {
      assert Split(t, LF) == [t];
    } else {
      var a, b := AtFirstLf(t);
      Utf8.CutAtAscii(a, LF, b);
      SplitValid(b);
      SplitFirst(a, b, LF);
      AllValidNext(a, Split(b, LF));
    }
  }

  lemma SpacedText(head: Text, value: Text)
    requires Utf8.Valid(value) && LF !in value && forall i :: 0 <= i < |head| ==> head[i] <= 0x7F && head[i] != LF
    ensures var text := head + ([COLON, SPACE] + value);
            && Utf8.Valid(text) && LF !in text && |text| == |head| + 2 + |value|
            && text[|text| - 1] == (if value == [] then SPACE else value[|value| - 1])
  {
    var front := head + [COLON, SPACE];
    Utf8.AsciiFront(front, value);
    assert head + ([COLON, SPACE] + value) == front + value;
  }

  lemma SpacedFits(max: nat, line: Line, head: Text)
    requires (line.Name? && head == EVENT) || (line.Data? && head == DATA)
    requires line.style == Spaced && PlainLine(line.value, max - |head| - 2)
    ensures MarkFits(max, Mark(line, false))
  {
    SpacedText(head, line.value);
  }

  function Plain(room: int): Text -> bool {
    text => PlainLine(text, room)
  }

  lemma DataMarkFits(max: nat, value: Text)
    requires Plain(max - 6)(value)
    ensures Fitting(max)(Mark(Data(value, Spaced), false))
  {
    SpacedFits(max, Data(value, Spaced), DATA);
  }

  ghost predicate Carries(ok: Mark -> bool, plain: Text -> bool) {
    forall value :: plain(value) ==> ok(Mark(Data(value, Spaced), false))
  }

  lemma {:induction false} DataMarksFit(ok: Mark -> bool, plain: Text -> bool, values: seq<Text>)
    requires Carries(ok, plain) && All(plain, values)
    ensures All(ok, DataMarks(values))
    ensures DataValues(LinesOf(DataMarks(values))) == values && LastName(LinesOf(DataMarks(values))).None?
    decreases |values|
  {
    if values == [] {
      assert LinesOf([]) == [];
    } else {
      var front, last := values[..|values| - 1], values[|values| - 1];
      var m := Mark(Data(last, Spaced), false);
      assert plain(last);
      DataMarksFit(ok, plain, front);
      AllAppend(ok, DataMarks(front), [m]);
      MarksNext(DataMarks(front), m);
      DataLast(LinesOf(DataMarks(front)), last);
      assert values == front + [last];
    }
  }

  lemma DataLast(lines: seq<Line>, value: Text)
    ensures DataValues(lines + [Data(value, Spaced)]) == DataValues(lines) + [value]
    ensures LastName(lines + [Data(value, Spaced)]) == LastName(lines)
  {
    assert (lines + [Data(value, Spaced)])[..|lines|] == lines;
  }

  lemma {:induction false} NameInFront(name: Text, lines: seq<Line>)
    requires LastName(lines).None?
    ensures LastName([Name(name, Spaced)] + lines) == Some(name)
    ensures DataValues([Name(name, Spaced)] + lines) == DataValues(lines)
    decreases |lines|
  {
    var all := [Name(name, Spaced)] + lines;
    if lines == [] {
      assert all[..0] == [];
    } else {
      NameInFront(name, lines[..|lines| - 1]);
      assert all[..|all| - 1] == [Name(name, Spaced)] + lines[..|lines| - 1];
    }
  }

  lemma DataLinesPlain(lim: Limits, e: SseEvent)
    requires Printable(lim, e)
    ensures All(Plain(lim.line - 6), DataLines(e))
  {
    if e.data != [] {
      SplitValid(e.data);
    }
    forall i | 0 <= i < |DataLines(e)| ensures PlainLine(DataLines(e)[i], lim.line - 6) {
      assert DataLines(e)[i] in DataLines(e);
    }
  }

  lemma NameMarkFits(max: nat, name: Text)
    requires PlainLine(name, max - 7)
    ensures Fitting(max)(Mark(Name(name, Spaced), false))
  {
    SpacedFits(max, Name(name, Spaced), EVENT);
  }

  lemma NamedMarks(ok: Mark -> bool, name: Text, data: seq<Mark>)
    requires ok(Mark(Name(name, Spaced), false)) && All(ok, data) && LastName(LinesOf(data)).None?
    ensures var marks := [Mark(Name(name, Spaced), false)] + data;
            && All(ok, marks) && LastName(LinesOf(marks)) == Some(name)
            && DataValues(LinesOf(marks)) == DataValues(LinesOf(data))
  {
    var m := Mark(Name(name, Spaced), false);
    AllAppend(ok, [m], data);
    NameInFront(name, LinesOf(data));
    assert LinesOf([m] + data) == [m.line] + LinesOf(data);
  }

  lemma PrintedMarks(ok: Mark -> bool, plain: Text -> bool, e: SseEvent)
    requires Carries(ok, plain) && All(plain, DataLines(e))
    requires e.event.Some? ==> ok(Mark(Name(e.event.value, Spaced), false))
    ensures Writes(PrintBlock(e), e) && All(ok, PrintBlock(e).marks)
  {
    DataMarksFit(ok, plain, DataLines(e));
    if e.event.Some? {
      NamedMarks(ok, e.event.value, DataMarks(DataLines(e)));
    } else {
      assert [] + DataMarks(DataLines(e)) == DataMarks(DataLines(e));
    }
  }

  lemma PrintedBlock(lim: Limits, e: SseEvent)
    requires Printable(lim, e)
    ensures Writes(PrintBlock(e), e) && AllFit(lim.line, PrintBlock(e).marks)
  {
    DataLinesPlain(lim, e);
    forall value | Plain(lim.line - 6)(value) ensures Fitting(lim.line)(Mark(Data(value, Spaced), false)) {
      DataMarkFits(lim.line, value);
    }
    if e.event.Some? {
      NameMarkFits(lim.line, e.event.value);
    }
    PrintedMarks(Fitting(lim.line), Plain(lim.line - 6), e);
  }

  /** Printing any list of printable events and decoding it gives the list back. */
  lemma PrintReadBack(lim: Limits, events: seq<SseEvent>)
    requires forall i :: 0 <= i < |events| ==> Printable(lim, events[i])
    ensures Reference(lim, Print(events)) == Outcome(events, None)
  {
    var blocks := PrintBlocks(events);
    forall i | 0 <= i < |events| ensures Writes(blocks[i], events[i]) && BlockFits(lim, blocks[i]) {
      PrintedBlock(lim, events[i]);
      WrittenMeans(blocks[i], events[i]);
    }
    EventsReadBack(lim, blocks, events);
  }

  // ----- In chunks -----

  /** The lines fit with their CR, so that no chunking matters. */
  predicate Roomy(max: nat, raws: seq<Text>) {
    forall i :: 0 <= i < |raws| ==> |raws[i]| <= max
  }

  /** And so does any chunking of it, if every line fits with its CR. */
  lemma ChunksMeaning(lim: Limits, blocks: seq<Block>, open: seq<Mark>, last: Option<Line>, chunks: seq<seq<byte>>)
    requires StreamFits(lim, blocks, open, last) && Roomy(lim.line, AllRaws(blocks) + Raws(open))
    requires Flatten(chunks) == Stream(blocks, open, last)
    ensures Decode(lim, chunks) == Outcome(Meanings(blocks) + Meaning(LinesOf(open) + LastLine(last)), None)
  {
    StreamLines(lim, blocks, open, if last.None? then [] else Written(last.value));
    AnyChunking(lim, chunks);
    StreamMeaning(lim, blocks, open, last);
  }
}
