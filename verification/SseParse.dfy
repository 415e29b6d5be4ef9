/** Incremental parsing of server-sent events: text arrives in arbitrary chunks and leaves as frames. */
module SseParse {
  import opened Prelude

  /** A parsed frame; a field is present only when the frame carried it. */
  datatype Frame = Frame(id: Option<string>, event: Option<string>, data: Option<string>)

  // ---------------------------------------------------------------------------------------------
  // Text

  predicate CrLfAt(s: string, i: nat) { i + 1 < |s| && s[i] == '\r' && s[i + 1] == '\n' }

  /** Every CRLF pair replaced by LF. */
  function Normalise(s: string): string {
    if |s| == 0 then ""
    else if CrLfAt(s, 0) then "\n" + Normalise(s[2..])
    else [s[0]] + Normalise(s[1..])
  }

  /** Where the first blank line (two LFs in a row) starts. */
  function FindBlank(s: string): (at: Option<nat>)
    ensures at.Some? ==> at.value + 2 <= |s|
  {
    if |s| < 2 then None
    else if s[0] == '\n' && s[1] == '\n' then Some(0)
    else match FindBlank(s[1..])
         case None => None
         case Some(i) => Some(i + 1)
  }

  predicate BlankAt(s: string, i: nat) { i + 1 < |s| && s[i] == '\n' && s[i + 1] == '\n' }

  lemma {:induction false} FindBlankIsFirst(s: string)
    ensures var at := FindBlank(s);
            && (at.None? <==> forall i: nat :: !BlankAt(s, i))
            && (at.Some? ==> BlankAt(s, at.value) && forall i: nat :: i < at.value ==> !BlankAt(s, i))
  {
    if |s| >= 2 {
      var tail := s[1..];
      FindBlankIsFirst(tail);
      assert forall i: nat :: i + 2 < |s| ==> (BlankAt(s, i + 1) <==> BlankAt(tail, i));
      if FindBlank(s).None? {
        forall i: nat
          ensures !BlankAt(s, i)
        {
          if i > 0 && i + 1 < |s| {
            assert !BlankAt(tail, i - 1);
          }
        }
      } else {
        assert BlankAt(s, FindBlank(s).value);
        forall i: nat | i < FindBlank(s).value
          ensures !BlankAt(s, i)
        {
          if i > 0 {
            assert !BlankAt(tail, i - 1);
          }
        }
      }
    }
  }

  /** The raw frames that blank lines complete, and the text left over. */
  function Split(s: string): (r: (seq<string>, string))
    decreases |s|
  {
    match FindBlank(s)
    case None => ([], s)
    case Some(i) =>
      var (raws, rest) := Split(s[i + 2..]);
      ([s[..i]] + raws, rest)
  }

  function Rejoin(raws: seq<string>, rest: string): string {
    if |raws| == 0 then rest else raws[0] + "\n\n" + Rejoin(raws[1..], rest)
  }

  lemma PrefixHasNoBlank(s: string)
    requires FindBlank(s).Some?
    ensures FindBlank(s[..FindBlank(s).value]).None?
    ensures s == s[..FindBlank(s).value] + "\n\n" + s[FindBlank(s).value + 2..]
  {
    var i := FindBlank(s).value;
    FindBlankIsFirst(s);
    FindBlankIsFirst(s[..i]);
    assert forall k: nat :: BlankAt(s[..i], k) ==> BlankAt(s, k) && k < i;
  }

  predicate BlankFree(raws: seq<string>) { forall i :: 0 <= i < |raws| ==> FindBlank(raws[i]).None? }

  /** Splitting loses nothing, and leaves no blank line behind or inside a raw frame. */
  lemma {:induction false} SplitIsExact(s: string)
    ensures var (raws, rest) := Split(s); Rejoin(raws, rest) == s && FindBlank(rest).None? && BlankFree(raws)
    decreases |s|
  {
    match FindBlank(s)
    case None =>
    case Some(i) =>
      PrefixHasNoBlank(s);
      SplitIsExact(s[i + 2..]);
      RejoinCons(s[..i], Split(s[i + 2..]).0, Split(s[i + 2..]).1);
  }

  lemma RejoinCons(raw: string, raws: seq<string>, rest: string)
    ensures Rejoin([raw] + raws, rest) == raw + "\n\n" + Rejoin(raws, rest)
    ensures FindBlank(raw).None? && BlankFree(raws) ==> BlankFree([raw] + raws)
  {
    assert ([raw] + raws)[1..] == raws;
  }

  /** Text that arrives later never changes what was already split off. */
  lemma {:induction false} SplitExtends(s: string, more: string)
    ensures var (raws, rest) := Split(s);
            Split(s + more) == (raws + Split(rest + more).0, Split(rest + more).1)
    decreases |s|
  {
    match FindBlank(s)
    case None =>
      assert [] + Split(s + more).0 == Split(s + more).0;
    case Some(i) =>
      FirstBlankStays(s, more);
      var tail := s[i + 2..];
      assert (s + more)[i + 2..] == tail + more && (s + more)[..i] == s[..i];
      SplitExtends(tail, more);
      Associate([s[..i]], Split(tail).0, Split(Split(tail).1 + more).0);
  }

  lemma Associate(a: seq<string>, b: seq<string>, c: seq<string>)
    ensures a + (b + c) == (a + b) + c
  {
  }

  lemma FirstBlankStays(s: string, more: string)
    requires FindBlank(s).Some?
    ensures FindBlank(s + more) == FindBlank(s)
  {
    FindBlankIsFirst(s);
    FindBlankIsFirst(s + more);
    assert forall k: nat :: k + 1 < |s| ==> (BlankAt(s, k) <==> BlankAt(s + more, k));
    assert BlankAt(s + more, FindBlank(s).value);
  }

  // ---------------------------------------------------------------------------------------------
  // Lines and fields

  predicate OneLine(s: string) { '\n' !in s }

  function Lines(s: string): (lines: seq<string>)
    ensures |lines| > 0
  {
    if |s| == 0 then [""]
    else
      var rest := Lines(s[1..]);
      if s[0] == '\n' then [""] + rest else [[s[0]] + rest[0]] + rest[1..]
  }

  function JoinLines(lines: seq<string>): string
    requires |lines| > 0
  {
    if |lines| == 1 then lines[0] else lines[0] + "\n" + JoinLines(lines[1..])
  }

  lemma {:induction false} JoinUndoesLines(s: string)
    ensures JoinLines(Lines(s)) == s
    ensures forall i :: 0 <= i < |Lines(s)| ==> OneLine(Lines(s)[i])
  {
    if |s| > 0 {
      JoinUndoesLines(s[1..]);
      var rest := Lines(s[1..]);
      if s[0] == '\n' {
        assert Lines(s)[1..] == rest;
      } else {
        assert Lines(s)[1..] == rest[1..];
      }
    }
  }

  lemma {:induction false} LinesUndoesJoin(lines: seq<string>)
    requires |lines| > 0 && forall i :: 0 <= i < |lines| ==> OneLine(lines[i])
    ensures Lines(JoinLines(lines)) == lines
  {
    if |lines| == 1 {
      LinesOfOne(lines[0]);
    } else {
      LinesUndoesJoin(lines[1..]);
      LinesPrepend(lines[0], JoinLines(lines[1..]));
      assert lines[0] + "\n" + JoinLines(lines[1..]) == lines[0] + ("\n" + JoinLines(lines[1..]));
    }
  }

  lemma {:induction false} LinesOfOne(s: string)
    requires OneLine(s)
    ensures Lines(s) == [s]
  {
    if |s| > 0 {
      LinesOfOne(s[1..]);
      assert s == [s[0]] + s[1..];
    }
  }

  lemma {:induction false} LinesPrepend(line: string, s: string)
    requires OneLine(line)
    ensures Lines(line + ("\n" + s)) == [line] + Lines(s)
  {
    var all := line + ("\n" + s);
    if |line| == 0 {
      assert all[1..] == s;
    } else {
      LinesPrepend(line[1..], s);
      assert line == [line[0]] + line[1..];
      assert all[1..] == line[1..] + ("\n" + s);
    }
  }

  /** The index of a character, or the length when it does not occur. */
  function IndexOf(s: string, c: char): (i: nat)
    ensures i <= |s| && (i < |s| ==> s[i] == c) && c !in s[..i]
  {
    if |s| == 0 || s[0] == c then 0
    else
      var i := IndexOf(s[1..], c) + 1;
      assert s[..i] == [s[0]] + s[1..][..i - 1];
      i
  }

  /** The field names the parser acts on. */
  datatype FieldName = Id | Event | Data | Unknown

  function NameOf(text: string): FieldName {
    if text == "id" then Id else if text == "event" then Event else if text == "data" then Data else Unknown
  }

  datatype Field = Field(name: FieldName, value: string)

  /** One leading space is not part of a value. */
  function Unspaced(value: string): string { if value != "" && value[0] == ' ' then value[1..] else value }

  /** The field a line carries; blank lines and comments carry none. */
  function FieldOf(line: string): Option<Field> {
    if line == "" || line[0] == ':' then None
    else
      var colon := IndexOf(line, ':');
      var value := if colon == |line| then "" else line[colon + 1..];
      Some(Field(NameOf(line[..colon]), Unspaced(value)))
  }

  function Fields(lines: seq<string>): seq<Option<Field>> {
    seq(|lines|, i requires 0 <= i < |lines| => FieldOf(lines[i]))
  }

  /** Every value given to a field, in order. */
  function Values(fields: seq<Option<Field>>, name: FieldName): seq<string> {
    if |fields| == 0 then []
    else
      var earlier := Values(fields[..|fields| - 1], name);
      match fields[|fields| - 1]
      case Some(f) => if f.name == name then earlier + [f.value] else earlier
      case None => earlier
  }

  function Last(values: seq<string>): Option<string> {
    if |values| == 0 then None else Some(values[|values| - 1])
  }

  /** What a frame's lines mean: the last id and event, and all data lines joined; nothing if there are none. */
  function InterpretLines(lines: seq<string>): Option<Frame> {
    var fields := Fields(lines);
    var data := Values(fields, Data);
    var frame := Frame(Last(Values(fields, Id)), Last(Values(fields, Event)),
                       if |data| == 0 then None else Some(JoinLines(data)));
    if frame == Frame(None, None, None) then None else Some(frame)
  }

  function Interpret(raw: string): Option<Frame> { InterpretLines(Lines(raw)) }

  /** The id, event and data lines a list of fields amounts to. */
  ghost predicate Collects(fields: seq<Option<Field>>, id: Option<string>, event: Option<string>, data: seq<string>) {
    id == Last(Values(fields, Id)) && event == Last(Values(fields, Event)) && data == Values(fields, Data)
  }

  lemma CollectsSnoc(
    fields: seq<Option<Field>>, f: Option<Field>, id: Option<string>, event: Option<string>, data: seq<string>)
    requires Collects(fields, id, event, data)
    ensures Collects(fields + [f],
                     if f.Some? && f.value.name == Id then Some(f.value.value) else id,
                     if f.Some? && f.value.name == Event then Some(f.value.value) else event,
                     if f.Some? && f.value.name == Data then data + [f.value.value] else data)
  {
    assert (fields + [f])[..|fields|] == fields;
  }

  method ParseFrame(raw: string) returns (frame: Option<Frame>)
    ensures frame == Interpret(raw)
  {
    var id, event: Option<string> := None, None;
    var dataLines: seq<string> := [];
    var lines := Lines(raw);
    ghost var fields := Fields(lines);
    for i := 0 to |lines|
      invariant Collects(fields[..i], id, event, dataLines)
    {
      CollectsSnoc(fields[..i], fields[i], id, event, dataLines);
      assert fields[..i + 1] == fields[..i] + [fields[i]];
      var field := FieldOf(lines[i]);
      if field.Some? {
        var name, value := field.value.name, field.value.value;
        if name == Id {
          id := Some(value);
        } else if name == Event {
          event := Some(value);
        } else if name == Data {
          dataLines := dataLines + [value];
        }
      }
    }
    assert fields[..|lines|] == fields;
    if id.None? && event.None? && |dataLines| == 0 { return None; }
    return Some(Frame(id, event, if |dataLines| > 0 then Some(JoinLines(dataLines)) else None));
  }

  function Present(frames: seq<Option<Frame>>): seq<Frame> {
    if |frames| == 0 then []
    else
      var earlier := Present(frames[..|frames| - 1]);
      match frames[|frames| - 1]
      case None => earlier
      case Some(f) => earlier + [f]
  }

  /** The frames a list of raw frames holds, in order. */
  function FramesOf(raws: seq<string>): seq<Frame> { Present(Map(Interpret, raws)) }

  lemma {:induction false} PresentAppend(a: seq<Option<Frame>>, b: seq<Option<Frame>>)
    ensures Present(a + b) == Present(a) + Present(b)
  {
    if |b| == 0 {
      assert a + b == a;
    } else {
      var n := |b| - 1;
      PresentAppend(a, b[..n]);
      assert (a + b)[..|a + b| - 1] == a + b[..n] && (a + b)[|a + b| - 1] == b[n];
    }
  }

  lemma FramesOfAppend(a: seq<string>, b: seq<string>)
    ensures FramesOf(a + b) == FramesOf(a) + FramesOf(b)
  {
    MapAppend(Interpret, a, b);
    PresentAppend(Map(Interpret, a), Map(Interpret, b));
  }

  lemma PresentOne(f: Option<Frame>)
    ensures Present([f]) == match f case None => [] case Some(frame) => [frame]
  {
    assert [f][..0] == [];
  }

  lemma FramesOfOne(raw: string, f: Option<Frame>)
    requires Interpret(raw) == f
    ensures FramesOf([raw]) == match f case None => [] case Some(frame) => [frame]
  {
    PresentOne(f);
    assert Map(Interpret, [raw]) == [f];
  }

  // ---------------------------------------------------------------------------------------------
  // The parser

  class SseFrameParser {
    var buffer: string
    /** Everything received so far, each chunk normalised on its own, and the raw frames split from it. */
    ghost var text: string
    ghost var raws: seq<string>

    ghost predicate Valid()
      reads this
    {
      Split(text) == (raws, buffer)
    }

    constructor ()
      ensures Valid() && text == "" && raws == [] && buffer == ""
    {
      buffer, text, raws := "", "", [];
    }

    /** Consume a chunk: return the frames it completes and keep the rest. */
    method Push(chunk: string) returns (frames: seq<Frame>)
      requires Valid()
      modifies this
      ensures Valid() && text == old(text) + Normalise(chunk)
      ensures old(raws) <= raws && frames == FramesOf(raws[|old(raws)|..])
      ensures (raws[|old(raws)|..], buffer) == Split(old(buffer) + Normalise(chunk))
      ensures FindBlank(buffer).None? && Rejoin(raws, buffer) == text
    {
      buffer := buffer + Normalise(chunk);
      ghost var whole, added := buffer, [];
      SplitStarts(whole);
      frames := [];
      var separator := FindBlank(buffer);
      while separator.Some?
        invariant separator == FindBlank(buffer)
        invariant SplitSoFar(whole, added, buffer)
        invariant frames == FramesOf(added)
        invariant raws == old(raws) && text == old(text)
        decreases |buffer|
      {
        var rawFrame := buffer[..separator.value];
        SplitAdvances(whole, added, buffer);
        buffer := buffer[separator.value + 2..];
        var frame := ParseFrame(rawFrame);
        if frame.Some? {
          frames := frames + [frame.value];
        }
        FramesOfSnoc(added, rawFrame, frame);
        added := added + [rawFrame];
        separator := FindBlank(buffer);
      }
      SplitEnds(whole, added, buffer);
      SplitExtends(text, Normalise(chunk));
      text, raws := text + Normalise(chunk), raws + added;
      SplitIsExact(text);
    }
  }

  /** Some raw frames are split off a text already, and the rest of it is still to be split. */
  ghost predicate SplitSoFar(text: string, done: seq<string>, rest: string) {
    Split(text) == (done + Split(rest).0, Split(rest).1)
  }

  lemma SplitStarts(text: string)
    ensures SplitSoFar(text, [], text)
  {
    assert [] + Split(text).0 == Split(text).0;
  }

  lemma SplitAdvances(text: string, done: seq<string>, rest: string)
    requires SplitSoFar(text, done, rest) && FindBlank(rest).Some?
    ensures var i := FindBlank(rest).value; SplitSoFar(text, done + [rest[..i]], rest[i + 2..])
  {
    var i := FindBlank(rest).value;
    Associate(done, [rest[..i]], Split(rest[i + 2..]).0);
  }

  lemma SplitEnds(text: string, done: seq<string>, rest: string)
    requires SplitSoFar(text, done, rest) && FindBlank(rest).None?
    ensures Split(text) == (done, rest)
  {
    assert done + [] == done;
  }

  lemma FramesOfSnoc(raws: seq<string>, raw: string, f: Option<Frame>)
    requires Interpret(raw) == f
    ensures FramesOf(raws + [raw]) == FramesOf(raws) + match f case None => [] case Some(frame) => [frame]
  {
    FramesOfAppend(raws, [raw]);
    FramesOfOne(raw, f);
  }

  /** All text of a chunk list, with and without normalising each chunk on its own. */
  function Concat(chunks: seq<string>): string {
    if |chunks| == 0 then "" else Concat(chunks[..|chunks| - 1]) + chunks[|chunks| - 1]
  }

  function NormalisedText(chunks: seq<string>): string {
    if |chunks| == 0 then "" else NormalisedText(chunks[..|chunks| - 1]) + Normalise(chunks[|chunks| - 1])
  }

  /** What a parser has returned and keeps after a text. */
  function Output(text: string): (seq<Frame>, string) { (FramesOf(Split(text).0), Split(text).1) }

  /** Push a whole chunk list through a new parser. */
  method Receive(chunks: seq<string>) returns (frames: seq<Frame>, buffer: string)
    ensures (frames, buffer) == Output(NormalisedText(chunks))
  {
    var parser := new SseFrameParser();
    frames := [];
    for i := 0 to |chunks|
      invariant parser.Valid() && fresh(parser)
      invariant parser.text == NormalisedText(chunks[..i])
      invariant frames == FramesOf(parser.raws)
    {
      assert chunks[..i + 1][..i] == chunks[..i];
      ghost var before := parser.raws;
      var more := parser.Push(chunks[i]);
      FramesOfAppend(before, parser.raws[|before|..]);
      assert parser.raws == before + parser.raws[|before|..];
      frames := frames + more;
    }
    assert chunks[..|chunks|] == chunks;
    buffer := parser.buffer;
  }

  // ---------------------------------------------------------------------------------------------
  // Chunk invariance

  /** The boundary after text `a` falls inside a CRLF pair. */
  predicate Cut(a: string, b: string) {
    |a| > 0 && |b| > 0 && a[|a| - 1] == '\r' && b[0] == '\n'
  }

  /** The normalised whole is the two normalised parts, less one character if the boundary cuts a pair. */
  predicate Joins(whole: string, a: string, b: string, cut: bool) {
    if cut then |whole| == |a| + |b| - 1 else whole == a + b
  }

  lemma JoinsGrow(head: string, whole: string, a: string, b: string, cut: bool)
    requires Joins(whole, a, b, cut)
    ensures Joins(head + whole, head + a, b, cut)
  {
    assert head + (a + b) == (head + a) + b;
  }

  lemma {:induction false} NormaliseConcat(a: string, b: string)
    ensures Joins(Normalise(a + b), Normalise(a), Normalise(b), Cut(a, b))
    decreases |a|
  {
    if |a| == 0 {
      assert a + b == b;
    } else if CrLfAt(a, 0) {
      PairJoins(a, b);
      NormaliseConcat(a[2..], b);
      JoinsGrow("\n", Normalise(a[2..] + b), Normalise(a[2..]), Normalise(b), Cut(a, b));
    } else if |a| == 1 && Cut(a, b) {
      CutJoins(a, b);
    } else {
      CharJoins(a, b);
      NormaliseConcat(a[1..], b);
      JoinsGrow([a[0]], Normalise(a[1..] + b), Normalise(a[1..]), Normalise(b), Cut(a, b));
    }
  }

  lemma PairJoins(a: string, b: string)
    requires CrLfAt(a, 0)
    ensures Normalise(a + b) == "\n" + Normalise(a[2..] + b) && Normalise(a) == "\n" + Normalise(a[2..])
    ensures Cut(a[2..], b) == Cut(a, b)
  {
    assert (a + b)[2..] == a[2..] + b;
  }

  lemma CharJoins(a: string, b: string)
    requires |a| > 0 && !CrLfAt(a, 0) && !(|a| == 1 && Cut(a, b))
    ensures Normalise(a + b) == [a[0]] + Normalise(a[1..] + b) && Normalise(a) == [a[0]] + Normalise(a[1..])
    ensures Cut(a[1..], b) == Cut(a, b)
  {
    assert !CrLfAt(a + b, 0);
    assert (a + b)[1..] == a[1..] + b;
  }

  lemma CutJoins(a: string, b: string)
    requires |a| == 1 && Cut(a, b)
    ensures Normalise(a + b) == Normalise(b) && |Normalise(a)| == 1
  {
    assert (a + b)[2..] == b[1..];
    assert !CrLfAt(b, 0) && Normalise(b) == [b[0]] + Normalise(b[1..]);
    assert Normalise(a[1..]) == "";
  }

  /** No chunk boundary falls inside a CRLF pair; empty chunks may come between the two characters. */
  predicate NoCut(chunks: seq<string>) {
    forall i :: 0 <= i < |chunks| ==> !Cut(Concat(chunks[..i]), chunks[i])
  }

  lemma NoCutSnoc(chunks: seq<string>)
    requires |chunks| > 0
    ensures var front, last := chunks[..|chunks| - 1], chunks[|chunks| - 1];
            NoCut(chunks) <==> NoCut(front) && !Cut(Concat(front), last)
  {
    var front := chunks[..|chunks| - 1];
    assert forall i :: 0 <= i < |front| ==> front[..i] == chunks[..i] && front[i] == chunks[i];
  }

  /** Normalising chunk by chunk only ever lengthens the text, and does so exactly when some pair is cut. */
  lemma {:induction false} NormalisedTextIff(chunks: seq<string>)
    ensures |NormalisedText(chunks)| >= |Normalise(Concat(chunks))|
    ensures |NormalisedText(chunks)| == |Normalise(Concat(chunks))| ==> NoCut(chunks)
    ensures NoCut(chunks) ==> NormalisedText(chunks) == Normalise(Concat(chunks))
  {
    if |chunks| > 0 {
      var n := |chunks| - 1;
      var front := chunks[..n];
      NormalisedTextIff(front);
      var text, last := Concat(front), chunks[n];
      NormaliseConcat(text, last);
      NoCutSnoc(chunks);
    }
  }

  lemma OneChunk(s: string)
    ensures NormalisedText([s]) == Normalise(s) && Concat([s]) == s
  {
    assert [s][..0] == [];
  }

  /** The raw frames and the buffer determine the text. */
  lemma SplitDetermines(a: string, b: string)
    requires Split(a) == Split(b)
    ensures a == b
  {
    SplitIsExact(a);
    SplitIsExact(b);
  }

  /** Chunk invariance of the raw text: pushing the chunks one by one splits off the same raw frames and keeps
      the same buffer as pushing their concatenation at once if and only if no boundary cuts a CRLF pair. What
      the parsed frames make of a cut is settled in SseCuts. */
  lemma ChunkInvariance(chunks: seq<string>)
    ensures NoCut(chunks) <==> Split(NormalisedText(chunks)) == Split(NormalisedText([Concat(chunks)]))
  {
    var apart, whole := NormalisedText(chunks), Normalise(Concat(chunks));
    NormalisedTextIff(chunks);
    OneChunk(Concat(chunks));
    if Split(apart) == Split(whole) {
      SplitDetermines(apart, whole);
    }
  }

  // ---------------------------------------------------------------------------------------------
  // Printing

  function TextOf(name: FieldName): string
    requires name != Unknown
  {
    match name case Id => "id" case Event => "event" case Data => "data"
  }

  function PrintField(name: FieldName, value: string): string
    requires name != Unknown
  {
    TextOf(name) + ": " + value
  }

  function FieldLines(name: FieldName, values: seq<string>): seq<string>
    requires name != Unknown
  {
    seq(|values|, i requires 0 <= i < |values| => PrintField(name, values[i]))
  }

  function ValuesOf(value: Option<string>): seq<string> {
    match value case None => [] case Some(v) => [v]
  }

  function DataValues(f: Frame): seq<string> {
    match f.data case None => [] case Some(d) => Lines(d)
  }

  function PrintLines(f: Frame): seq<string> {
    FieldLines(Id, ValuesOf(f.id)) + FieldLines(Event, ValuesOf(f.event)) + FieldLines(Data, DataValues(f))
  }

  /** A frame some text can carry: it has a field, and its id and event are single lines. */
  predicate Printable(f: Frame) {
    && f != Frame(None, None, None)
    && (f.id.Some? ==> OneLine(f.id.value))
    && (f.event.Some? ==> OneLine(f.event.value))
  }

  /** A frame without its closing blank line. */
  function Print(f: Frame): string
    requires Printable(f)
  {
    JoinLines(PrintLines(f))
  }

  predicate PlainText(text: string) { text != "" && ':' !in text && '\n' !in text }

  lemma NamesRoundTrip(name: FieldName)
    requires name != Unknown
    ensures NameOf(TextOf(name)) == name && PlainText(TextOf(name))
  {
  }

  lemma PrintedFieldParses(name: FieldName, value: string)
    requires name != Unknown
    ensures FieldOf(PrintField(name, value)) == Some(Field(name, value))
    ensures OneLine(value) ==> OneLine(PrintField(name, value))
  {
    NamesRoundTrip(name);
    ColonEndsName(TextOf(name), value);
  }

  lemma ColonEndsName(text: string, value: string)
    requires PlainText(text)
    ensures FieldOf(text + ": " + value) == Some(Field(NameOf(text), value))
    ensures OneLine(value) ==> OneLine(text + ": " + value)
  {
    var line := text + ": " + value;
    var colon := IndexOf(line, ':');
    assert line[|text|] == ':';
    assert forall i :: 0 <= i < |text| ==> line[i] == text[i];
    assert colon >= |text|;
    assert forall i :: 0 <= i < colon ==> line[i] == line[..colon][i] != ':';
    assert line[..colon] == text && line[colon + 1..] == " " + value && (" " + value)[1..] == value;
  }

  lemma {:induction false} ValuesAppend(a: seq<Option<Field>>, b: seq<Option<Field>>, name: FieldName)
    ensures Values(a + b, name) == Values(a, name) + Values(b, name)
  {
    if |b| == 0 {
      assert a + b == a;
    } else {
      var n := |b| - 1;
      ValuesAppend(a, b[..n], name);
      assert (a + b)[..|a + b| - 1] == a + b[..n] && (a + b)[|a + b| - 1] == b[n];
    }
  }

  function Only(name: FieldName, values: seq<string>, wanted: FieldName): seq<string> {
    if wanted == name then values else []
  }

  function Named(name: FieldName, values: seq<string>): seq<Option<Field>> {
    seq(|values|, i requires 0 <= i < |values| => Some(Field(name, values[i])))
  }

  lemma {:induction false} ValuesOfNamed(name: FieldName, values: seq<string>, wanted: FieldName)
    ensures Values(Named(name, values), wanted) == Only(name, values, wanted)
  {
    if |values| > 0 {
      var n := |values| - 1;
      ValuesOfNamed(name, values[..n], wanted);
      assert Named(name, values)[..n] == Named(name, values[..n]);
      assert values == values[..n] + [values[n]];
    }
  }

  lemma PrintedFields(name: FieldName, values: seq<string>)
    requires name != Unknown
    ensures Fields(FieldLines(name, values)) == Named(name, values)
  {
    forall i | 0 <= i < |values|
      ensures FieldOf(PrintField(name, values[i])) == Some(Field(name, values[i]))
    {
      PrintedFieldParses(name, values[i]);
    }
  }

  /** Three groups of field lines, read back one field at a time. */
  lemma ValuesOfGroups(
    a: FieldName, xs: seq<string>, b: FieldName, ys: seq<string>, c: FieldName, zs: seq<string>, wanted: FieldName)
    requires a != Unknown && b != Unknown && c != Unknown
    ensures Values(Fields(FieldLines(a, xs) + FieldLines(b, ys) + FieldLines(c, zs)), wanted)
         == Only(a, xs, wanted) + Only(b, ys, wanted) + Only(c, zs, wanted)
  {
    var ids, events, data := Named(a, xs), Named(b, ys), Named(c, zs);
    PrintedFields(a, xs);
    PrintedFields(b, ys);
    PrintedFields(c, zs);
    FieldsAppend(FieldLines(a, xs), FieldLines(b, ys), FieldLines(c, zs));
    ValuesAppend(ids + events, data, wanted);
    ValuesAppend(ids, events, wanted);
    ValuesOfNamed(a, xs, wanted);
    ValuesOfNamed(b, ys, wanted);
    ValuesOfNamed(c, zs, wanted);
  }

  lemma FieldsAppend(a: seq<string>, b: seq<string>, c: seq<string>)
    ensures Fields(a + b + c) == Fields(a) + Fields(b) + Fields(c)
  {
  }

  lemma PrintedValues(f: Frame, wanted: FieldName)
    ensures Values(Fields(PrintLines(f)), wanted)
         == Only(Id, ValuesOf(f.id), wanted) + Only(Event, ValuesOf(f.event), wanted)
            + Only(Data, DataValues(f), wanted)
  {
    ValuesOfGroups(Id, ValuesOf(f.id), Event, ValuesOf(f.event), Data, DataValues(f), wanted);
  }

  lemma {:induction false} FieldLinesAreLines(name: FieldName, values: seq<string>)
    requires name != Unknown && forall i :: 0 <= i < |values| ==> OneLine(values[i])
    ensures forall i :: 0 <= i < |values| ==> FieldLines(name, values)[i] != "" && OneLine(FieldLines(name, values)[i])
  {
    forall i | 0 <= i < |values|
      ensures PrintField(name, values[i]) != "" && OneLine(PrintField(name, values[i]))
    {
      PrintedFieldParses(name, values[i]);
    }
  }

  lemma PrintedLines(f: Frame)
    requires Printable(f)
    ensures |PrintLines(f)| > 0
    ensures forall i :: 0 <= i < |PrintLines(f)| ==> PrintLines(f)[i] != "" && OneLine(PrintLines(f)[i])
  {
    FieldLinesAreLines(Id, ValuesOf(f.id));
    FieldLinesAreLines(Event, ValuesOf(f.event));
    if f.data.Some? {
      JoinUndoesLines(f.data.value);
    }
    FieldLinesAreLines(Data, DataValues(f));
  }

  /** Parsing a printed frame returns it. */
  lemma ParsePrint(f: Frame)
    requires Printable(f)
    ensures Interpret(Print(f)) == Some(f)
  {
    PrintedLines(f);
    LinesUndoesJoin(PrintLines(f));
    PrintedFrameValues(f);
    InterpretValues(Print(f), ValuesOf(f.id), ValuesOf(f.event), DataValues(f));
    DataRejoins(f);
  }

  lemma PrintedFrameValues(f: Frame)
    ensures Values(Fields(PrintLines(f)), Id) == ValuesOf(f.id)
    ensures Values(Fields(PrintLines(f)), Event) == ValuesOf(f.event)
    ensures Values(Fields(PrintLines(f)), Data) == DataValues(f)
  {
    hide Values, Fields, PrintLines, DataValues, ValuesOf;
    PrintedValues(f, Id);
    PrintedValues(f, Event);
    PrintedValues(f, Data);
  }

  lemma DataRejoins(f: Frame)
    ensures f.data == if |DataValues(f)| == 0 then None else Some(JoinLines(DataValues(f)))
  {
    if f.data.Some? {
      JoinUndoesLines(f.data.value);
    }
  }

  lemma InterpretValues(raw: string, ids: seq<string>, events: seq<string>, data: seq<string>)
    requires var fields := Fields(Lines(raw));
             Values(fields, Id) == ids && Values(fields, Event) == events && Values(fields, Data) == data
    ensures var frame := Frame(Last(ids), Last(events), if |data| == 0 then None else Some(JoinLines(data)));
            Interpret(raw) == if frame == Frame(None, None, None) then None else Some(frame)
  {
  }

  predicate OneLineValue(f: Option<Field>) { f.Some? ==> OneLine(f.value.value) }

  lemma {:induction false} ValuesAreSingleLines(fields: seq<Option<Field>>, name: FieldName)
    requires forall i :: 0 <= i < |fields| ==> OneLineValue(fields[i])
    ensures forall k :: 0 <= k < |Values(fields, name)| ==> OneLine(Values(fields, name)[k])
  {
    if |fields| > 0 {
      ValuesAreSingleLines(fields[..|fields| - 1], name);
      assert OneLineValue(fields[|fields| - 1]);
    }
  }

  lemma ParsedFieldsAreSingleLines(raw: string)
    ensures forall i :: 0 <= i < |Lines(raw)| ==> OneLineValue(Fields(Lines(raw))[i])
  {
    JoinUndoesLines(raw);
  }

  /** The frames the parser can produce are exactly the printable ones. */
  lemma ProducedIffPrintable(f: Frame)
    ensures (exists raw :: Interpret(raw) == Some(f)) <==> Printable(f)
  {
    if Printable(f) {
      ParsePrint(f);
    }
    forall raw | Interpret(raw) == Some(f)
      ensures Printable(f)
    {
      ParsedFieldsAreSingleLines(raw);
      ValuesAreSingleLines(Fields(Lines(raw)), Id);
      ValuesAreSingleLines(Fields(Lines(raw)), Event);
    }
  }

  // ---------------------------------------------------------------------------------------------
  // Streams of printed frames

  lemma {:induction false} BlankAfterLine(line: string, s: string)
    requires OneLine(line)
    ensures FindBlank(line + s) == match FindBlank(s) case None => None case Some(i) => Some(|line| + i)
  {
    if |line| == 0 {
      assert line + s == s;
    } else {
      BlankAfterLine(line[1..], s);
      assert (line + s)[1..] == line[1..] + s;
      if |line + s| < 2 {
        assert |s| == 0;
      }
    }
  }

  /** The first blank line after non-empty lines is the one that closes them. */
  lemma {:induction false} BlankClosesFrame(lines: seq<string>, rest: string)
    requires |lines| > 0 && forall i :: 0 <= i < |lines| ==> lines[i] != "" && OneLine(lines[i])
    ensures FindBlank(JoinLines(lines) + ("\n\n" + rest)) == Some(|JoinLines(lines)|)
  {
    var close := "\n\n" + rest;
    if |lines| == 1 {
      BlankAfterLine(lines[0], close);
    } else {
      var tail := JoinLines(lines[1..]) + close;
      BlankClosesFrame(lines[1..], rest);
      assert tail[0] == lines[1][0] && tail[0] in lines[1];
      assert ("\n" + tail)[1..] == tail;
      assert FindBlank("\n" + tail) == Some(1 + |JoinLines(lines[1..])|);
      BlankAfterLine(lines[0], "\n" + tail);
      assert JoinLines(lines) + close == lines[0] + ("\n" + tail);
    }
  }

  function PrintAll(frames: seq<Frame>): string
    requires forall i :: 0 <= i < |frames| ==> Printable(frames[i])
  {
    if |frames| == 0 then "" else Print(frames[0]) + ("\n\n" + PrintAll(frames[1..]))
  }

  lemma SplitAtFirst(raw: string, more: string)
    requires FindBlank(raw + ("\n\n" + more)) == Some(|raw|)
    ensures Split(raw + ("\n\n" + more)) == ([raw] + Split(more).0, Split(more).1)
  {
    hide FindBlank;
    var all := raw + ("\n\n" + more);
    assert all[..|raw|] == raw && all[|raw| + 2..] == more;
  }

  lemma FramesOfCons(raw: string, f: Frame, raws: seq<string>)
    requires Interpret(raw) == Some(f)
    ensures FramesOf([raw] + raws) == [f] + FramesOf(raws)
  {
    FramesOfAppend([raw], raws);
    FramesOfOne(raw, Some(f));
  }

  lemma {:induction false} PrintedStreamSplits(frames: seq<Frame>)
    requires forall i :: 0 <= i < |frames| ==> Printable(frames[i])
    ensures FramesOf(Split(PrintAll(frames)).0) == frames && Split(PrintAll(frames)).1 == ""
  {
    if |frames| > 0 {
      var raw, more := Print(frames[0]), PrintAll(frames[1..]);
      PrintedLines(frames[0]);
      BlankClosesFrame(PrintLines(frames[0]), more);
      ParsePrint(frames[0]);
      PrintedStreamSplits(frames[1..]);
      SplitAtFirst(raw, more);
      FramesOfCons(raw, frames[0], Split(more).0);
      assert frames == [frames[0]] + frames[1..];
    }
  }

  lemma {:induction false} NoPairsNothingToDo(s: string)
    requires '\r' !in s
    ensures Normalise(s) == s
  {
    if |s| > 0 {
      NoPairsNothingToDo(s[1..]);
      assert s == [s[0]] + s[1..];
    }
  }

  lemma {:induction false} NoReturnsNothingToDo(chunks: seq<string>)
    requires '\r' !in Concat(chunks)
    ensures NormalisedText(chunks) == Concat(chunks)
  {
    if |chunks| > 0 {
      var n := |chunks| - 1;
      assert Concat(chunks) == Concat(chunks[..n]) + chunks[n];
      NoReturnsNothingToDo(chunks[..n]);
      NoPairsNothingToDo(chunks[n]);
    }
  }

  /** A stream of printed frames without carriage returns survives every chunking: the parser returns
      exactly the frames and keeps nothing. */
  lemma StreamSurvivesAnyChunking(frames: seq<Frame>, chunks: seq<string>)
    requires forall i :: 0 <= i < |frames| ==> Printable(frames[i])
    requires Concat(chunks) == PrintAll(frames) && '\r' !in PrintAll(frames)
    ensures FramesOf(Split(NormalisedText(chunks)).0) == frames && Split(NormalisedText(chunks)).1 == ""
  {
    NoReturnsNothingToDo(chunks);
    PrintedStreamSplits(frames);
  }

  /** The same text with CRLF line ends. */
  function WithCrLf(s: string): string {
    if |s| == 0 then ""
    else (if s[0] == '\n' then "\r\n" else [s[0]]) + WithCrLf(s[1..])
  }

  lemma {:induction false} NormaliseUndoesCrLf(s: string)
    requires '\r' !in s
    ensures Normalise(WithCrLf(s)) == s
  {
    if |s| > 0 {
      var wide, tail := WithCrLf(s), WithCrLf(s[1..]);
      NormaliseUndoesCrLf(s[1..]);
      if s[0] == '\n' {
        assert wide[2..] == tail;
      } else {
        assert wide[0] == s[0] && wide[1..] == tail;
      }
      assert s == [s[0]] + s[1..];
    }
  }

  /** With CRLF line ends it survives every chunking that cuts no pair. */
  lemma CrLfStreamSurvives(frames: seq<Frame>, chunks: seq<string>)
    requires forall i :: 0 <= i < |frames| ==> Printable(frames[i])
    requires '\r' !in PrintAll(frames) && Concat(chunks) == WithCrLf(PrintAll(frames)) && NoCut(chunks)
    ensures FramesOf(Split(NormalisedText(chunks)).0) == frames && Split(NormalisedText(chunks)).1 == ""
  {
    NormalisedTextIff(chunks);
    NormaliseUndoesCrLf(PrintAll(frames));
    PrintedStreamSplits(frames);
  }

  lemma ChunksSnoc(chunks: seq<string>, last: string)
    ensures NormalisedText(chunks + [last]) == NormalisedText(chunks) + Normalise(last)
    ensures Concat(chunks + [last]) == Concat(chunks) + last
  {
    assert (chunks + [last])[..|chunks|] == chunks;
  }

  lemma TwoChunks(a: string, b: string)
    ensures NormalisedText([a, b]) == Normalise(a) + Normalise(b) && Concat([a, b]) == a + b
  {
    ChunksSnoc([a], b);
    OneChunk(a);
    assert [a] + [b] == [a, b];
  }

  /** A cut pair does change frames: the carriage return stays in the value. */
  lemma CutChangesFrame(value: string)
    requires OneLine(value) && '\r' !in value
    ensures var chunks := [PrintField(Data, value) + "\r", "\n\r\n"];
            && Concat(chunks) == WithCrLf(PrintAll([Frame(None, None, Some(value))]))
            && FramesOf(Split(NormalisedText(chunks)).0) == [Frame(None, None, Some(value + "\r"))]
  {
    var line := PrintField(Data, value);
    TwoChunks(line + "\r", "\n\r\n");
    CutText(value);
    CutSource(value);
    PrintedStreamSplits([Frame(None, None, Some(value + "\r"))]);
  }

  lemma LoneReturn(r: string)
    requires |r| == 1
    ensures Normalise(r) == r
  {
    assert r[1..] == "" && r == [r[0]];
  }

  lemma CutText(value: string)
    requires OneLine(value) && '\r' !in value
    ensures Normalise(PrintField(Data, value) + "\r") + Normalise("\n\r\n")
         == PrintAll([Frame(None, None, Some(value + "\r"))])
  {
    hide PrintAll, Normalise;
    var line := PrintField(Data, value);
    OneDataLine(value + "\r");
    NoPairsNothingToDo(line);
    NormaliseConcat(line, "\r");
    LoneReturn("\r");
    TrailingPair();
    assert PrintField(Data, value + "\r") == line + "\r";
  }

  lemma TrailingPair()
    ensures Normalise("\n\r\n") == "\n\n"
  {
    assert "\n\r\n"[1..] == "\r\n" && "\r\n"[2..] == "";
  }

  lemma CutSource(value: string)
    requires OneLine(value)
    ensures PrintField(Data, value) + "\r" + "\n\r\n" == WithCrLf(PrintAll([Frame(None, None, Some(value))]))
  {
    hide PrintAll, PrintField;
    var line := PrintField(Data, value);
    OneDataLine(value);
    PrintedFieldParses(Data, value);
    CrLfAfterLine(line, "\n\n");
    assert "\n\n"[1..] == "\n" && "\n"[1..] == "";
  }

  lemma OneDataLine(value: string)
    requires OneLine(value)
    ensures PrintAll([Frame(None, None, Some(value))]) == PrintField(Data, value) + "\n\n"
  {
    LinesOfOne(value);
    var f := Frame(None, None, Some(value));
    assert PrintLines(f) == [PrintField(Data, value)];
    assert [f][1..] == [];
    assert "\n\n" + PrintAll([]) == "\n\n";
  }

  lemma CrLfCons(c: char, s: string)
    requires c != '\n'
    ensures WithCrLf([c] + s) == [c] + WithCrLf(s)
  {
    assert ([c] + s)[1..] == s;
  }

  lemma {:induction false} CrLfAfterLine(line: string, s: string)
    requires OneLine(line)
    ensures WithCrLf(line + s) == line + WithCrLf(s)
  {
    hide WithCrLf;
    if |line| == 0 {
      assert line + s == s;
    } else {
      var rest := line[1..];
      assert line == [line[0]] + rest && line + s == [line[0]] + (rest + s);
      CrLfAfterLine(rest, s);
      CrLfCons(line[0], rest + s);
      assert [line[0]] + (rest + WithCrLf(s)) == [line[0]] + rest + WithCrLf(s);
    }
  }
}
