/** What a chunk boundary inside a CRLF pair does to the frames, exactly. The carriage return of a cut pair
    stays behind as the last character of the line it should have ended. */
module SseCuts {
  import opened Prelude
  import opened SseParse

  /** If no pair is cut, chunking changes neither the frames nor the buffer. */
  lemma UncutChunksAgree(chunks: seq<string>)
    requires NoCut(chunks)
    ensures Output(NormalisedText(chunks)) == Output(NormalisedText([Concat(chunks)]))
  {
    ChunkInvariance(chunks);
  }

  // ---------------------------------------------------------------------------------------------
  // Lines

  function Tail(s: string): string { Lines(s)[|Lines(s)| - 1] }

  /** The lines of a text that a line feed ends. */
  function Ended(s: string): seq<string> { Lines(s)[..|Lines(s)| - 1] }

  /** Lines that end, one line glued together, and the lines after it. */
  function Glue(before: seq<string>, line: string, after: seq<string>): seq<string> { before + [line] + after }

  /** The lines of a text with one more character in front. */
  function Pushed(c: char, lines: seq<string>): seq<string>
    requires |lines| > 0
  {
    if c == '\n' then [""] + lines else [[c] + lines[0]] + lines[1..]
  }

  lemma LinesCons(c: char, s: string)
    ensures Lines([c] + s) == Pushed(c, Lines(s))
  {
    assert ([c] + s)[1..] == s;
  }

  lemma PushIntoFirst(c: char, before: seq<string>, line: string, after: seq<string>)
    requires c != '\n' && before != []
    ensures Pushed(c, Glue(before, line, after)) == Glue(Pushed(c, before), line, after)
    ensures Pushed(c, before + [line]) == Pushed(c, before) + [line]
  {
    var first := before[0];
    assert before == [first] + before[1..];
    assert Glue(before, line, after)[1..] == Glue(before[1..], line, after);
    assert (before + [line])[1..] == before[1..] + [line];
  }

  lemma PushIntoLine(c: char, line: string, more: string, after: seq<string>)
    requires c != '\n'
    ensures Pushed(c, Glue([], line + more, after)) == Glue([], [c] + line + more, after)
    ensures Pushed(c, [line]) == [[c] + line]
  {
    assert [c] + (line + more) == [c] + line + more;
    assert Glue([], line + more, after) == [line + more] + after;
  }

  lemma PushFeed(before: seq<string>, line: string, after: seq<string>)
    ensures [""] + Glue(before, line, after) == Glue([""] + before, line, after)
    ensures [""] + (before + [line]) == [""] + before + [line]
  {
  }

  lemma GluePushed(c: char, before: seq<string>, line: string, more: string, after: seq<string>)
    ensures var all := Pushed(c, before + [line]); var n := |all| - 1;
            Pushed(c, Glue(before, line + more, after)) == Glue(all[..n], all[n] + more, after)
  {
    if c == '\n' {
      PushFeed(before, line + more, after);
      PushFeed(before, line, after);
      LastOf([""] + before, line);
    } else if before == [] {
      PushIntoLine(c, line, more, after);
      assert before + [line] == [line];
    } else {
      PushIntoFirst(c, before, line + more, after);
      PushIntoFirst(c, before, line, after);
      LastOf(Pushed(c, before), line);
    }
  }

  lemma LastOf(before: seq<string>, line: string)
    ensures var all := before + [line]; all[..|all| - 1] == before && all[|all| - 1] == line
  {
  }

  lemma LinesParts(s: string)
    ensures Ended(s) + [Tail(s)] == Lines(s)
  {
  }

  lemma ConcatCons(c: char, a: string, b: string)
    requires Lines(a + b) == Glue(Ended(a), Tail(a) + Lines(b)[0], Lines(b)[1..])
    ensures Lines([c] + (a + b)) == Glue(Ended([c] + a), Tail([c] + a) + Lines(b)[0], Lines(b)[1..])
  {
    hide Lines, Pushed, Glue;
    LinesCons(c, a);
    LinesCons(c, a + b);
    LinesParts(a);
    GluePushed(c, Ended(a), Tail(a), Lines(b)[0], Lines(b)[1..]);
  }

  lemma ConcatNothing(b: string)
    ensures Lines(b) == Glue([], "" + Lines(b)[0], Lines(b)[1..])
  {
    hide Lines;
    assert "" + Lines(b)[0] == Lines(b)[0] && Lines(b) == [Lines(b)[0]] + Lines(b)[1..];
  }

  lemma {:induction false} LinesConcat(a: string, b: string)
    ensures Lines(a + b) == Glue(Ended(a), Tail(a) + Lines(b)[0], Lines(b)[1..])
  {
    if |a| == 0 {
      assert a + b == b && Ended(a) == [] && Tail(a) == "";
      ConcatNothing(b);
    } else {
      hide Lines, Glue;
      LinesConcat(a[1..], b);
      ConcatCons(a[0], a[1..], b);
      assert a == [a[0]] + a[1..] && a + b == [a[0]] + (a[1..] + b);
    }
  }

  lemma LinesSnoc(s: string, c: char)
    ensures c == '\n' ==> Ended(s + [c]) == Ended(s) + [Tail(s)] && Tail(s + [c]) == ""
    ensures c != '\n' ==> Ended(s + [c]) == Ended(s) && Tail(s + [c]) == Tail(s) + [c]
  {
    assert [c][1..] == "" && Lines("") == [""];
    LinesConcat(s, [c]);
    if c == '\n' {
      assert Lines([c])[0] == "" && Lines([c])[1..] == [""] && Tail(s) + "" == Tail(s);
      assert Lines(s + [c]) == Ended(s) + [Tail(s), ""];
    } else {
      assert Lines([c])[0] == [c] && Lines([c])[1..] == [];
      assert Lines(s + [c]) == Ended(s) + [Tail(s) + [c]];
    }
  }

  lemma {:induction false} JoinSnoc(lines: seq<string>, line: string)
    requires |lines| > 0
    ensures JoinLines(lines + [line]) == JoinLines(lines) + "\n" + line
  {
    if |lines| > 1 {
      assert (lines + [line])[1..] == lines[1..] + [line];
      JoinSnoc(lines[1..], line);
    } else {
      assert (lines + [line])[1..] == [line];
    }
  }

  /** Line j is a blank line that completes a raw frame: it is not the first line, and no blank line just
      before it has completed one already. */
  predicate Closes(lines: seq<string>, j: int)
    requires j < |lines|
    decreases j
  {
    0 < j && lines[j] == "" && !Closes(lines, j - 1)
  }

  lemma {:induction false} ClosesAgrees(a: seq<string>, b: seq<string>, j: int)
    requires j < |a| && j < |b| && forall i :: 0 <= i <= j ==> a[i] == b[i]
    ensures Closes(a, j) == Closes(b, j)
    decreases j
  {
    if 0 < j {
      ClosesAgrees(a, b, j - 1);
    }
  }

  /** How many lines follow the last completed raw frame. */
  function Unfinished(lines: seq<string>): (n: nat)
    ensures n <= |lines|
    ensures n == 0 <==> |lines| == 0 || Closes(lines, |lines| - 1)
  {
    if |lines| == 0 || Closes(lines, |lines| - 1) then 0 else Unfinished(lines[..|lines| - 1]) + 1
  }

  function Rest(lines: seq<string>): seq<string> { lines[|lines| - Unfinished(lines)..] }

  function Say(lines: seq<string>): seq<Frame> {
    match InterpretLines(lines) case None => [] case Some(f) => [f]
  }

  /** The frames ended by blank lines, and the lines since the last blank one. */
  function Told(lines: seq<string>): (seq<Frame>, seq<string>) {
    if |lines| == 0 then ([], [])
    else
      var (frames, since) := Told(lines[..|lines| - 1]);
      var line := lines[|lines| - 1];
      if line == "" then (frames + Say(since), []) else (frames, since + [line])
  }

  lemma ToldSnoc(lines: seq<string>, line: string)
    ensures var (frames, since) := Told(lines);
            Told(lines + [line]) == if line == "" then (frames + Say(since), []) else (frames, since + [line])
  {
    assert (lines + [line])[..|lines|] == lines;
  }

  lemma RestSnoc(lines: seq<string>, line: string)
    ensures Rest(lines + [line]) == if line == "" && |Rest(lines)| > 0 then [] else Rest(lines) + [line]
  {
    var more := lines + [line];
    assert more[..|lines|] == lines;
    if |lines| > 0 {
      ClosesAgrees(more, lines, |lines| - 1);
    }
  }

  lemma NoValuesAhead(fields: seq<Option<Field>>, name: FieldName)
    ensures Values([None] + fields, name) == Values(fields, name)
  {
    ValuesAppend([None], fields, name);
    var nothing: seq<Option<Field>> := [None];
    assert nothing[..0] == [];
  }

  lemma LeadingBlankSaysNothing(lines: seq<string>)
    ensures InterpretLines([""] + lines) == InterpretLines(lines)
  {
    assert Fields([""] + lines) == [None] + Fields(lines);
    NoValuesAhead(Fields(lines), Id);
    NoValuesAhead(Fields(lines), Event);
    NoValuesAhead(Fields(lines), Data);
  }

  lemma BlankSnoc(s: string, c: char)
    requires FindBlank(s).None?
    ensures FindBlank(s + [c]) == if c == '\n' && s != "" && s[|s| - 1] == '\n' then Some(|s| - 1) else None
  {
    FindBlankIsFirst(s);
    FindBlankIsFirst(s + [c]);
    assert forall i: nat :: i + 1 < |s| ==> (BlankAt(s + [c], i) <==> BlankAt(s, i));
    if s != "" {
      assert BlankAt(s + [c], |s| - 1) <==> c == '\n' && s[|s| - 1] == '\n';
    }
  }

  /** The last line is what follows the last line feed. */
  lemma TailEnds(lines: seq<string>, tail: string)
    requires OneLine(tail)
    ensures var s := JoinLines(lines + [tail]);
            s != "" && s[|s| - 1] == '\n' <==> tail == "" && |lines| > 0
    ensures tail == "" && |lines| > 0 ==> JoinLines(lines + [tail]) == JoinLines(lines) + "\n"
  {
    if |lines| > 0 {
      JoinSnoc(lines, tail);
    } else {
      assert lines + [tail] == [tail];
    }
  }

  lemma JoinExtends(lines: seq<string>, tail: string, more: string)
    ensures JoinLines(lines + [tail + more]) == JoinLines(lines + [tail]) + more
  {
    if |lines| > 0 {
      JoinSnoc(lines, tail);
      JoinSnoc(lines, tail + more);
    } else {
      assert lines + [tail] == [tail] && lines + [tail + more] == [tail + more];
    }
  }

  /** The parser's state after a text, line by line. */
  ghost predicate LineByLine(s: string) { Agrees(Output(s), Told(Ended(s)), Rest(Ended(s)), Tail(s)) }

  predicate Agrees(output: (seq<Frame>, string), told: (seq<Frame>, seq<string>), rest: seq<string>, tail: string) {
    && output == (told.0, JoinLines(rest + [tail]))
    && Since(rest, told.1)
  }

  /** A raw frame may begin with a blank line, which says nothing. */
  predicate Since(rest: seq<string>, since: seq<string>) { rest == since || rest == [""] + since }

  lemma SplitSnoc(s: string, c: char)
    ensures var (raws, rest) := Split(s);
            Split(s + [c]) == if c == '\n' && rest != "" && rest[|rest| - 1] == '\n'
                              then (raws + [rest[..|rest| - 1]], "") else (raws, rest + [c])
  {
    var (raws, rest) := Split(s);
    SplitExtends(s, [c]);
    SplitIsExact(s);
    BlankSnoc(rest, c);
    if FindBlank(rest + [c]).Some? {
      assert (rest + [c])[|rest| + 1..] == "" && (rest + [c])[..|rest| - 1] == rest[..|rest| - 1];
      assert Split("") == ([], "");
      assert FindBlank(rest + [c]) == Some(|rest| - 1) && [rest[..|rest| - 1]] + [] == [rest[..|rest| - 1]];
      assert Split(rest + [c]) == ([rest[..|rest| - 1]], "");
    } else {
      assert raws + [] == raws;
    }
  }

  lemma LinesAreOneLine(s: string)
    ensures OneLine(Tail(s)) && forall i :: 0 <= i < |Ended(s)| ==> OneLine(Ended(s)[i])
  {
    JoinUndoesLines(s);
  }

  lemma CharExtendsLine(s: string, c: char)
    requires LineByLine(s) && c != '\n'
    ensures LineByLine(s + [c])
  {
    LinesSnoc(s, c);
    SplitSnoc(s, c);
    JoinExtends(Rest(Ended(s)), Tail(s), [c]);
  }

  lemma BlankLineCloses(s: string)
    requires LineByLine(s) && Tail(s) == "" && |Rest(Ended(s))| > 0
    ensures Agrees(Output(s + "\n"), Told(Ended(s) + [""]), Rest(Ended(s) + [""]), "")
  {
    var cur, rest := Rest(Ended(s)), Split(s).1;
    LinesAreOneLine(s);
    TailEnds(cur, "");
    SplitSnoc(s, '\n');
    FrameEnds(Split(s).0, cur, Told(Ended(s)).1);
    assert rest == JoinLines(cur) + "\n" && rest[..|rest| - 1] == JoinLines(cur);
    ToldSnoc(Ended(s), "");
    RestSnoc(Ended(s), "");
  }

  lemma NothingToSay()
    ensures Say([]) == []
  {
  }

  lemma SinceGrows(rest: seq<string>, since: seq<string>, line: string)
    requires Since(rest, since)
    ensures Since(rest + [line], since + [line])
    ensures line == "" && rest == [] ==> since == [] && Since(rest + [line], [])
  {
    assert ([""] + since) + [line] == [""] + (since + [line]);
  }

  lemma SinceAfterLine(
    rest: seq<string>, told: (seq<Frame>, seq<string>), line: string, next: (seq<Frame>, seq<string>))
    requires Since(rest, told.1) && !(line == "" && rest != [])
    requires next == if line == "" then (told.0 + Say(told.1), []) else (told.0, told.1 + [line])
    ensures next.0 == told.0 && Since(rest + [line], next.1)
  {
    SinceGrows(rest, told.1, line);
    NothingToSay();
  }

  lemma KeptLine(lines: seq<string>, line: string)
    requires Since(Rest(lines), Told(lines).1) && !(line == "" && Rest(lines) != [])
    ensures Rest(lines + [line]) == Rest(lines) + [line] && Told(lines + [line]).0 == Told(lines).0
    ensures Since(Rest(lines + [line]), Told(lines + [line]).1)
  {
    ToldSnoc(lines, line);
    RestSnoc(lines, line);
    SinceAfterLine(Rest(lines), Told(lines), line, Told(lines + [line]));
  }

  lemma LineIsKept(s: string)
    requires LineByLine(s) && !(Tail(s) == "" && |Rest(Ended(s))| > 0)
    ensures Agrees(Output(s + "\n"), Told(Ended(s) + [Tail(s)]), Rest(Ended(s) + [Tail(s)]), "")
  {
    var rest, tail := Rest(Ended(s)), Tail(s);
    KeptLine(Ended(s), tail);
    LinesAreOneLine(s);
    TailEnds(rest, tail);
    SplitSnoc(s, '\n');
    JoinSnoc(rest + [tail], "");
    assert JoinLines(rest + [tail]) + "\n" + "" == JoinLines(rest + [tail]) + "\n";
  }

  lemma FeedEndsLine(s: string)
    requires LineByLine(s)
    ensures LineByLine(s + "\n")
  {
    LinesSnoc(s, '\n');
    if Tail(s) == "" && |Rest(Ended(s))| > 0 {
      BlankLineCloses(s);
    } else {
      LineIsKept(s);
    }
  }

  lemma FrameEnds(raws: seq<string>, cur: seq<string>, since: seq<string>)
    requires |cur| > 0 && forall i :: 0 <= i < |cur| ==> OneLine(cur[i])
    requires cur == since || cur == [""] + since
    ensures FramesOf(raws + [JoinLines(cur)]) == FramesOf(raws) + Say(since)
  {
    LinesUndoesJoin(cur);
    LeadingBlankSaysNothing(since);
    FramesOfSnoc(raws, JoinLines(cur), InterpretLines(since));
  }

  /** The parser, seen line by line: its frames are those that blank lines end, and its buffer is the lines
      since the last completed raw frame. */
  lemma {:induction false} OutputByLines(s: string)
    ensures LineByLine(s)
  {
    if |s| == 0 {
      assert Split(s) == ([], "");
    } else {
      var front, c := s[..|s| - 1], s[|s| - 1];
      assert s == front + [c];
      OutputByLines(front);
      if c == '\n' {
        FeedEndsLine(front);
      } else {
        CharExtendsLine(front, c);
      }
    }
  }

  // ---------------------------------------------------------------------------------------------
  // Where the carriage returns stay

  /** A line of the stream, and whether a chunk boundary cuts the pair that ends it. */
  datatype StreamLine = StreamLine(text: string, cut: bool)

  function ReadAs(line: StreamLine): string { if line.cut then line.text + "\r" else line.text }

  function Sent(lines: seq<StreamLine>): seq<string> {
    seq(|lines|, i requires 0 <= i < |lines| => lines[i].text)
  }

  function Read(lines: seq<StreamLine>): seq<string> {
    seq(|lines|, i requires 0 <= i < |lines| => ReadAs(lines[i]))
  }

  /** The numbers of the lines whose pair is cut. */
  function CutLines(chunks: seq<string>): set<nat> {
    if |chunks| == 0 then {}
    else
      var front := chunks[..|chunks| - 1];
      CutLines(front)
      + if Cut(Concat(front), chunks[|chunks| - 1]) then {|Ended(Normalise(Concat(front)))|} else {}
  }

  function Marked(lines: seq<string>, cuts: set<nat>): seq<StreamLine> {
    seq(|lines|, i requires 0 <= i < |lines| => StreamLine(lines[i], i in cuts))
  }

  function StreamLines(chunks: seq<string>): seq<StreamLine> {
    Marked(Ended(Normalise(Concat(chunks))), CutLines(chunks))
  }

  /** One text is the other with a carriage return at the end of each cut line. */
  predicate Carries(sent: string, read: string, cuts: set<nat>) {
    && Ended(read) == Read(Marked(Ended(sent), cuts)) && Tail(read) == Tail(sent)
    && forall k :: k in cuts ==> k < |Ended(sent)|
  }

  lemma GlueEnds(before: seq<string>, line: string, after: seq<string>)
    ensures var all := Glue(before, line, after); var n := |all| - 1;
            if after == [] then all[..n] == before && all[n] == line
            else all[..n] == before + [line] + after[..|after| - 1] && all[n] == after[|after| - 1]
  {
  }

  lemma NoFeedConcat(a: string, b: string)
    requires |Lines(b)| == 1
    ensures Ended(a + b) == Ended(a) && Tail(a + b) == Tail(a) + b
  {
    LinesConcat(a, b);
    JoinUndoesLines(b);
    GlueEnds(Ended(a), Tail(a) + b, []);
  }

  lemma FeedConcat(a: string, b: string)
    requires |Lines(b)| > 1
    ensures Ended(a + b) == Ended(a) + [Tail(a) + Lines(b)[0]] + Lines(b)[1..][..|Lines(b)| - 2]
    ensures Tail(a + b) == Tail(b)
  {
    LinesConcat(a, b);
    GlueEnds(Ended(a), Tail(a) + Lines(b)[0], Lines(b)[1..]);
  }

  lemma CarriesOn(sent: string, read: string, cuts: set<nat>, more: string)
    requires Carries(sent, read, cuts)
    ensures Carries(sent + more, read + more, cuts)
  {
    if |Lines(more)| == 1 {
      NoFeedConcat(sent, more);
      NoFeedConcat(read, more);
    } else {
      FeedConcat(sent, more);
      FeedConcat(read, more);
    }
  }

  lemma CarriesCut(text: string, read: string, cuts: set<nat>)
    requires Carries(text + "\r", read, cuts)
    ensures Carries(text + "\n", read + "\n", cuts + {|Ended(text)|})
  {
    LinesSnoc(text, '\r');
    LinesSnoc(text, '\n');
    LinesSnoc(read, '\n');
  }

  lemma FeedFirst(b: string)
    requires |b| > 0 && b[0] == '\n'
    ensures Normalise(b) == "\n" + Normalise(b[1..]) && Normalise(['\r'] + b) == "\n" + Normalise(b[1..])
  {
    var s := ['\r'] + b;
    assert CrLfAt(s, 0) && s[2..] == b[1..] && !CrLfAt(b, 0);
  }

  lemma CutPair(a: string, b: string)
    requires Cut(a, b)
    ensures var head := Normalise(a[..|a| - 1]);
            && Normalise(a) == head + "\r" && Normalise(b) == "\n" + Normalise(b[1..])
            && Normalise(a + b) == head + "\n" + Normalise(b[1..])
  {
    var front, r := a[..|a| - 1], [a[|a| - 1]];
    assert a == front + r && a + b == front + (r + b);
    NormaliseConcat(front, r);
    NormaliseConcat(front, r + b);
    LoneReturn(r);
    FeedFirst(b);
    Regroup(Normalise(front), "\n", Normalise(b[1..]));
  }

  lemma Regroup(a: string, b: string, c: string)
    ensures a + (b + c) == a + b + c
  {
  }

  /** What is read is what was sent, with a carriage return on each cut line. */
  lemma {:induction false} CutsStay(chunks: seq<string>)
    ensures Carries(Normalise(Concat(chunks)), NormalisedText(chunks), CutLines(chunks))
  {
    if |chunks| > 0 {
      var front, last := chunks[..|chunks| - 1], chunks[|chunks| - 1];
      var text, read := Concat(front), NormalisedText(front);
      CutsStay(front);
      NormaliseConcat(text, last);
      if Cut(text, last) {
        var head, more := Normalise(text[..|text| - 1]), Normalise(last[1..]);
        CutPair(text, last);
        CarriesCut(head, read, CutLines(front));
        LinesSnoc(head, '\r');
        CarriesOn(head + "\n", read + "\n", CutLines(chunks), more);
        Regroup(read, "\n", more);
      } else {
        CarriesOn(Normalise(text), read, CutLines(chunks), Normalise(last));
      }
    }
  }

  lemma StreamIsRead(chunks: seq<string>)
    ensures Ended(Normalise(Concat(chunks))) == Sent(StreamLines(chunks))
    ensures Ended(NormalisedText(chunks)) == Read(StreamLines(chunks))
    ensures Tail(NormalisedText(chunks)) == Tail(Normalise(Concat(chunks)))
    ensures forall i :: 0 <= i < |StreamLines(chunks)| ==> OneLine(StreamLines(chunks)[i].text)
  {
    CutsStay(chunks);
    LinesAreOneLine(Normalise(Concat(chunks)));
  }

  // ---------------------------------------------------------------------------------------------
  // What a cut does to one line

  predicate Names(line: string, name: FieldName) {
    FieldOf(line).Some? && FieldOf(line).value.name == name
  }

  /** Without a colon the whole line is the field's name, so a carriage return makes it unknown. */
  predicate Erasable(line: string) { ':' !in line }

  lemma IndexOfFirst(s: string, c: char, i: nat)
    requires i <= |s| && (i < |s| ==> s[i] == c) && c !in s[..i]
    ensures IndexOf(s, c) == i
  {
    var j := IndexOf(s, c);
    assert forall k :: 0 <= k < i ==> s[..i][k] == s[k];
    assert forall k :: 0 <= k < j ==> s[..j][k] == s[k];
  }

  /** A cut line with a colon keeps its name and lengthens its value; one without loses its name. */
  lemma CutLine(line: string, name: FieldName)
    requires name != Unknown
    ensures Names(line + "\r", name) <==> Names(line, name) && !Erasable(line)
    ensures Names(line + "\r", name) ==> FieldOf(line + "\r").value.value == FieldOf(line).value.value + "\r"
    ensures Names(line, name) && Erasable(line) ==> FieldOf(line).value.value == ""
  {
    hide IndexOf;
    var read := line + "\r";
    var colon := IndexOf(line, ':');
    if Erasable(line) {
      assert colon == |line|;
      IndexOfFirst(read, ':', |read|);
      assert read[..|read|] == read && read[|read| - 1] == '\r';
      assert line[..colon] == line;
    } else {
      assert colon < |line|;
      assert read[..colon] == line[..colon];
      IndexOfFirst(read, ':', colon);
      assert read[colon + 1..] == line[colon + 1..] + "\r";
      CutValue(line[colon + 1..]);
    }
  }

  lemma CutValue(value: string)
    ensures Unspaced(value + "\r") == Unspaced(value) + "\r"
  {
  }

  // ---------------------------------------------------------------------------------------------
  // What cuts do to one frame

  function SentValues(lines: seq<StreamLine>, name: FieldName): seq<string> { Values(Fields(Sent(lines)), name) }

  function ReadValues(lines: seq<StreamLine>, name: FieldName): seq<string> { Values(Fields(Read(lines)), name) }

  function Grown(values: seq<string>, line: string, name: FieldName): seq<string> {
    if Names(line, name) then values + [FieldOf(line).value.value] else values
  }

  lemma ValuesSnoc(lines: seq<StreamLine>, line: StreamLine, name: FieldName)
    ensures SentValues(lines + [line], name) == Grown(SentValues(lines, name), line.text, name)
    ensures ReadValues(lines + [line], name) == Grown(ReadValues(lines, name), ReadAs(line), name)
  {
    assert Sent(lines + [line]) == Sent(lines) + [line.text] && Read(lines + [line]) == Read(lines) + [ReadAs(line)];
    FieldSnoc(Sent(lines), line.text, name);
    FieldSnoc(Read(lines), ReadAs(line), name);
  }

  lemma FieldSnoc(lines: seq<string>, line: string, name: FieldName)
    ensures Values(Fields(lines + [line]), name) == Grown(Values(Fields(lines), name), line, name)
  {
    var fields := Fields(lines + [line]);
    assert fields[..|lines|] == Fields(lines) && fields[|lines|] == FieldOf(line);
  }

  predicate NoneCut(lines: seq<StreamLine>, name: FieldName) {
    forall i :: 0 <= i < |lines| && Names(lines[i].text, name) ==> !lines[i].cut
  }

  lemma {:induction false} FewerValues(lines: seq<StreamLine>, name: FieldName)
    requires name != Unknown
    ensures |ReadValues(lines, name)| <= |SentValues(lines, name)|
  {
    if |lines| > 0 {
      var front, last := lines[..|lines| - 1], lines[|lines| - 1];
      assert lines == front + [last];
      FewerValues(front, name);
      ValuesSnoc(front, last, name);
      CutLine(last.text, name);
      assert Names(ReadAs(last), name) ==> Names(last.text, name);
    }
  }

  /** All values of a field survive exactly when none of its lines is cut. */
  lemma {:induction false} AllValuesIff(lines: seq<StreamLine>, name: FieldName)
    requires name != Unknown
    ensures ReadValues(lines, name) == SentValues(lines, name) <==> NoneCut(lines, name)
  {
    if |lines| > 0 {
      var front, last := lines[..|lines| - 1], lines[|lines| - 1];
      assert lines == front + [last];
      AllValuesIff(front, name);
      FewerValues(front, name);
      ValuesSnoc(front, last, name);
      CutLine(last.text, name);
      assert NoneCut(lines, name) <==> NoneCut(front, name) && (Names(last.text, name) ==> !last.cut);
      if Names(last.text, name) {
        AppendsAgree(ReadValues(front, name), SentValues(front, name), FieldOf(last.text).value.value);
      }
    }
  }

  lemma AppendsAgree(a: seq<string>, b: seq<string>, x: string)
    ensures a + [x] == b + [x] <==> a == b
    ensures a + [x + "\r"] != b + [x]
    ensures |a| <= |b| ==> a != b + [x]
  {
    assert (a + [x])[..|a|] == a && (b + [x])[..|b|] == b;
    assert (a + [x + "\r"])[|a|] == x + "\r" && (b + [x])[|b|] == x;
  }

  /** Line z is the last one of its field that is still read as such, and it is read as sent: it is not cut,
      and any after it are erased and would only have repeated its empty value. */
  predicate Shows(lines: seq<StreamLine>, name: FieldName, z: int) {
    && 0 <= z < |lines| && Names(lines[z].text, name) && !lines[z].cut
    && forall j :: z < j < |lines| && Names(lines[j].text, name) ==>
         lines[j].cut && Erasable(lines[j].text) && FieldOf(lines[z].text).value.value == ""
  }

  /** The last value of a field survives exactly when a later line overwrites every cut one. */
  ghost predicate Overwritten(lines: seq<StreamLine>, name: FieldName) {
    SpeaksOf(Sent(lines), name) ==> exists z :: Shows(lines, name, z)
  }

  lemma ShowsSnoc(front: seq<StreamLine>, last: StreamLine, name: FieldName, z: int)
    ensures var lines := front + [last];
            Shows(lines, name, z) <==>
              if !Names(last.text, name) then Shows(front, name, z)
              else if !last.cut then z == |front|
              else Shows(front, name, z) && Erasable(last.text) && FieldOf(front[z].text).value.value == ""
  {
    hide Names, Erasable, FieldOf;
    var lines := front + [last];
    assert lines[|front|] == last && forall j :: 0 <= j < |front| ==> lines[j] == front[j];
  }

  ghost predicate ShowsEmpty(lines: seq<StreamLine>, name: FieldName) {
    exists z :: Shows(lines, name, z) && FieldOf(lines[z].text).value.value == ""
  }

  lemma ShowsEmptySnoc(front: seq<StreamLine>, last: StreamLine, name: FieldName)
    ensures ShowsEmpty(front + [last], name) <==>
              if !Names(last.text, name) then ShowsEmpty(front, name)
              else if !last.cut then FieldOf(last.text).value.value == ""
              else Erasable(last.text) && ShowsEmpty(front, name)
  {
    var lines := front + [last];
    forall z
      ensures Shows(lines, name, z) && FieldOf(lines[z].text).value.value == "" <==>
                if !Names(last.text, name) then Shows(front, name, z) && FieldOf(front[z].text).value.value == ""
                else if !last.cut then z == |front| && FieldOf(last.text).value.value == ""
                else Shows(front, name, z) && Erasable(last.text) && FieldOf(front[z].text).value.value == ""
    {
      ShowsSnoc(front, last, name, z);
    }
    if Names(last.text, name) && !last.cut {
      ShowsSnoc(front, last, name, |front|);
    }
  }

  lemma LastSnoc(values: seq<string>, line: string, name: FieldName)
    ensures Last(Grown(values, line, name)) == if Names(line, name) then Some(FieldOf(line).value.value) else Last(values)
  {
  }

  lemma {:induction false} LastIsEmptyIff(lines: seq<StreamLine>, name: FieldName)
    requires name != Unknown
    ensures Last(ReadValues(lines, name)) == Some("") <==> ShowsEmpty(lines, name)
  {
    if |lines| > 0 {
      var front, last := lines[..|lines| - 1], lines[|lines| - 1];
      assert lines == front + [last];
      LastIsEmptyIff(front, name);
      ValuesSnoc(front, last, name);
      CutLine(last.text, name);
      LastSnoc(ReadValues(front, name), ReadAs(last), name);
      ShowsEmptySnoc(front, last, name);
    }
  }

  lemma OverwrittenSnoc(front: seq<StreamLine>, last: StreamLine, name: FieldName)
    ensures Overwritten(front + [last], name) <==>
              if !Names(last.text, name) then Overwritten(front, name)
              else if !last.cut then true
              else Erasable(last.text) && ShowsEmpty(front, name)
  {
    var lines := front + [last];
    SentSnoc(front, last);
    assert SpeaksOf(Sent(lines), name) <==> SpeaksOf(Sent(front), name) || Names(last.text, name) by {
      var sent := Sent(lines);
      assert sent[|front|] == last.text && forall j :: 0 <= j < |front| ==> sent[j] == Sent(front)[j];
    }
    forall z
      ensures Shows(lines, name, z) <==>
                if !Names(last.text, name) then Shows(front, name, z)
                else if !last.cut then z == |front|
                else Shows(front, name, z) && Erasable(last.text) && FieldOf(front[z].text).value.value == ""
    {
      ShowsSnoc(front, last, name, z);
    }
    assert Names(last.text, name) && !last.cut ==> Shows(lines, name, |front|);
  }

  /** The last value of a field survives exactly when every cut one is overwritten. */
  lemma {:induction false} LastValueIff(lines: seq<StreamLine>, name: FieldName)
    requires name != Unknown
    ensures Last(ReadValues(lines, name)) == Last(SentValues(lines, name)) <==> Overwritten(lines, name)
  {
    if |lines| > 0 {
      var front, last := lines[..|lines| - 1], lines[|lines| - 1];
      assert lines == front + [last];
      LastValueIff(front, name);
      LastIsEmptyIff(front, name);
      ValuesSnoc(front, last, name);
      CutLine(last.text, name);
      LastSnoc(ReadValues(front, name), ReadAs(last), name);
      LastSnoc(SentValues(front, name), last.text, name);
      OverwrittenSnoc(front, last, name);
    }
  }

  // ---------------------------------------------------------------------------------------------
  // Which lines say something

  predicate Known(line: string) { FieldOf(line).Some? && FieldOf(line).value.name != Unknown }

  predicate Speaks(lines: seq<string>) { exists i :: 0 <= i < |lines| && Known(lines[i]) }

  lemma SpeaksSnoc(lines: seq<string>, line: string)
    ensures Speaks(lines + [line]) <==> Speaks(lines) || Known(line)
  {
    var more := lines + [line];
    assert more[|lines|] == line && forall i :: 0 <= i < |lines| ==> more[i] == lines[i];
  }

  predicate SpeaksOf(lines: seq<string>, name: FieldName) { exists i :: 0 <= i < |lines| && Names(lines[i], name) }

  lemma {:induction false} ValuesIffSpeaks(lines: seq<string>, name: FieldName)
    ensures Values(Fields(lines), name) == [] <==> !SpeaksOf(lines, name)
  {
    if |lines| > 0 {
      var front, last := lines[..|lines| - 1], lines[|lines| - 1];
      assert lines == front + [last] && forall i :: 0 <= i < |front| ==> front[i] == lines[i];
      ValuesIffSpeaks(front, name);
      FieldSnoc(front, last, name);
    }
  }

  lemma SayIffSpeaks(lines: seq<string>)
    ensures Say(lines) == [] <==> !Speaks(lines)
    ensures |Say(lines)| <= 1
  {
    ValuesIffSpeaks(lines, Id);
    ValuesIffSpeaks(lines, Event);
    ValuesIffSpeaks(lines, Data);
    assert forall i :: 0 <= i < |lines| ==>
      (Known(lines[i]) <==> Names(lines[i], Id) || Names(lines[i], Event) || Names(lines[i], Data));
  }

  /** Nothing said is lost: it is in a frame, or in the lines since the last blank one. */
  lemma {:induction false} ToldWhatIsSaid(lines: seq<string>)
    ensures Speaks(lines) <==> Told(lines).0 != [] || Speaks(Told(lines).1)
  {
    if |lines| > 0 {
      var front, last := lines[..|lines| - 1], lines[|lines| - 1];
      assert lines == front + [last];
      ToldWhatIsSaid(front);
      ToldSnoc(front, last);
      SpeaksSnoc(front, last);
      SpeaksSnoc(Told(front).1, last);
      SayIffSpeaks(Told(front).1);
    }
  }

  lemma {:induction false} ToldAfterBlank(before: seq<string>, after: seq<string>)
    ensures Told(before + [""] + after).0 == Told(before + [""]).0 + Told(after).0
    ensures Told(before + [""] + after).1 == Told(after).1
  {
    if |after| == 0 {
      assert before + [""] + after == before + [""];
      ToldSnoc(before, "");
    } else {
      var front, last := after[..|after| - 1], after[|after| - 1];
      assert after == front + [last] && before + [""] + after == (before + [""] + front) + [last];
      ToldAfterBlank(before, front);
      ToldSnoc(before + [""] + front, last);
      ToldSnoc(front, last);
    }
  }

  // ---------------------------------------------------------------------------------------------
  // Stretches between the blank lines that are read as blank

  /** A blank line whose pair is cut: it ends a frame for the sender and is skipped by the reader. */
  predicate Bridge(line: StreamLine) { line.text == "" && line.cut }

  predicate BridgesOnly(lines: seq<StreamLine>) {
    forall i :: 0 <= i < |lines| && lines[i].text == "" ==> lines[i].cut
  }

  predicate SpeaksBefore(lines: seq<StreamLine>, k: int) { 0 <= k <= |lines| && Speaks(Sent(lines[..k])) }

  predicate SpeaksAfter(lines: seq<StreamLine>, k: int) { 0 <= k < |lines| && Speaks(Sent(lines[k + 1..])) }

  /** A cut blank line stands between two frames. */
  ghost predicate Merges(lines: seq<StreamLine>) {
    exists k :: 0 <= k < |lines| && Bridge(lines[k]) && SpeaksBefore(lines, k) && SpeaksAfter(lines, k)
  }

  /** A cut blank line ends a frame. */
  ghost predicate Bridged(lines: seq<StreamLine>) {
    exists k :: 0 <= k < |lines| && Bridge(lines[k]) && SpeaksBefore(lines, k)
  }

  lemma PartsSnoc(front: seq<StreamLine>, last: StreamLine, k: int)
    requires 0 <= k < |front|
    ensures SpeaksBefore(front + [last], k) <==> SpeaksBefore(front, k)
    ensures SpeaksAfter(front + [last], k) <==> SpeaksAfter(front, k) || Known(last.text)
  {
    assert (front + [last])[..k] == front[..k] && (front + [last])[k + 1..] == front[k + 1..] + [last];
    assert Sent(front[k + 1..] + [last]) == Sent(front[k + 1..]) + [last.text];
    SpeaksSnoc(Sent(front[k + 1..]), last.text);
  }

  lemma BridgedSnoc(front: seq<StreamLine>, last: StreamLine)
    ensures Bridged(front + [last]) <==> Bridged(front) || (Bridge(last) && Speaks(Sent(front)))
    ensures Merges(front + [last]) <==> Merges(front) || (Bridged(front) && Known(last.text))
  {
    var lines := front + [last];
    assert lines[..|front|] == front && lines[|front|] == last && lines[|lines|..] == [];
    forall k | 0 <= k < |front|
      ensures lines[k] == front[k]
      ensures SpeaksBefore(lines, k) <==> SpeaksBefore(front, k)
      ensures SpeaksAfter(lines, k) <==> SpeaksAfter(front, k) || Known(last.text)
    {
      PartsSnoc(front, last, k);
    }
    assert SpeaksBefore(lines, |front|) <==> Speaks(Sent(front));
    assert !SpeaksAfter(lines, |front|);
  }

  /** The sender's frames in a stretch no blank line of which is read as blank. */
  function SentFrames(lines: seq<StreamLine>): seq<Frame> { Told(Sent(lines) + [""]).0 }

  ghost predicate SameValues(a: seq<string>, b: seq<string>) {
    forall name | name != Unknown :: Values(Fields(a), name) == Values(Fields(b), name)
  }

  /** Whether everything said so far is still open, or all of it has gone out as one frame. */
  ghost predicate OneVoice(lines: seq<StreamLine>) {
    var (frames, since) := Told(Sent(lines));
    if !Bridged(lines) then frames == [] && SameValues(since, Sent(lines))
    else frames == Say(Sent(lines)) && !Speaks(since)
  }

  lemma SentSnoc(front: seq<StreamLine>, last: StreamLine)
    ensures Sent(front + [last]) == Sent(front) + [last.text] && Read(front + [last]) == Read(front) + [ReadAs(last)]
  {
  }

  /** A line that says nothing changes nothing a frame means. */
  lemma SaySnoc(lines: seq<string>, line: string)
    requires !Known(line)
    ensures Say(lines + [line]) == Say(lines)
  {
    FieldSnoc(lines, line, Id);
    FieldSnoc(lines, line, Event);
    FieldSnoc(lines, line, Data);
  }

  lemma SameValuesSay(a: seq<string>, b: seq<string>)
    requires SameValues(a, b)
    ensures Say(a) == Say(b)
  {
  }

  lemma {:induction false} UnmergedIsOneVoice(lines: seq<StreamLine>)
    requires BridgesOnly(lines) && !Merges(lines)
    ensures OneVoice(lines)
  {
    if |lines| > 0 {
      var front, last := lines[..|lines| - 1], lines[|lines| - 1];
      assert lines == front + [last];
      BridgedSnoc(front, last);
      UnmergedIsOneVoice(front);
      SentSnoc(front, last);
      ToldSnoc(Sent(front), last.text);
      var since := Told(Sent(front)).1;
      if last.text == "" {
        SaySnoc(Sent(front), "");
        SayIffSpeaks(since);
        SayIffSpeaks(Sent(front));
        if !Bridged(front) {
          SameValuesSay(since, Sent(front));
          OneVoiceAtBridge(front, last);
        }
      } else {
        OneVoiceGoesOn(front, last);
      }
    }
  }

  lemma OneVoiceAtBridge(front: seq<StreamLine>, last: StreamLine)
    requires OneVoice(front) && !Bridged(front) && Bridge(last)
    ensures OneVoice(front + [last])
  {
    BridgedSnoc(front, last);
    SentSnoc(front, last);
    ToldSnoc(Sent(front), "");
    SameValuesSay(Told(Sent(front)).1, Sent(front));
    SaySnoc(Sent(front), "");
    SayIffSpeaks(Sent(front));
    if !Speaks(Sent(front)) {
      SilentLines(Sent(front));
    }
  }

  lemma SilentLines(lines: seq<string>)
    requires !Speaks(lines)
    ensures SameValues([], lines + [""])
  {
    forall name | name != Unknown
      ensures Values(Fields([]), name) == Values(Fields(lines + [""]), name)
    {
      ValuesIffSpeaks(lines, name);
      FieldSnoc(lines, "", name);
    }
  }

  lemma OneVoiceGoesOn(front: seq<StreamLine>, last: StreamLine)
    requires OneVoice(front) && last.text != "" && !(Bridged(front) && Known(last.text))
    ensures OneVoice(front + [last])
  {
    BridgedSnoc(front, last);
    SentSnoc(front, last);
    ToldSnoc(Sent(front), last.text);
    var since := Told(Sent(front)).1;
    if Bridged(front) {
      SaySnoc(Sent(front), last.text);
      SpeaksSnoc(since, last.text);
    } else {
      forall name | name != Unknown
        ensures Values(Fields(since + [last.text]), name) == Values(Fields(Sent(front) + [last.text]), name)
      {
        FieldSnoc(since, last.text, name);
        FieldSnoc(Sent(front), last.text, name);
      }
    }
  }

  /** Without a merge the sender has at most one frame there, the one all the lines make together. */
  lemma UnmergedFrames(lines: seq<StreamLine>)
    requires BridgesOnly(lines) && !Merges(lines)
    ensures SentFrames(lines) == Say(Sent(lines))
  {
    UnmergedIsOneVoice(lines);
    ToldSnoc(Sent(lines), "");
    var since := Told(Sent(lines)).1;
    SayIffSpeaks(since);
    if !Bridged(lines) {
      SameValuesSay(since, Sent(lines));
    }
  }

  lemma SpokenIsTold(lines: seq<string>)
    ensures Speaks(lines) <==> Told(lines + [""]).0 != []
  {
    ToldSnoc(lines, "");
    ToldWhatIsSaid(lines);
    SayIffSpeaks(Told(lines).1);
  }

  lemma SentAround(lines: seq<StreamLine>, k: nat)
    requires k < |lines| && Bridge(lines[k])
    ensures Sent(lines) + [""] == Sent(lines[..k]) + [""] + (Sent(lines[k + 1..]) + [""])
  {
    var before, after := lines[..k], lines[k + 1..];
    assert lines == before + [lines[k]] + after;
    assert Sent(before + [lines[k]]) == Sent(before) + [""];
    assert Sent(before + [lines[k]] + after) == Sent(before + [lines[k]]) + Sent(after);
  }

  /** With a merge the sender has at least two. */
  lemma MergedFrames(lines: seq<StreamLine>)
    requires Merges(lines)
    ensures |SentFrames(lines)| >= 2
  {
    var k :| 0 <= k < |lines| && Bridge(lines[k]) && SpeaksBefore(lines, k) && SpeaksAfter(lines, k);
    var before, after := Sent(lines[..k]), Sent(lines[k + 1..]);
    SentAround(lines, k);
    SpokenIsTold(before);
    SpokenIsTold(after);
    ToldAfterBlank(before, after + [""]);
  }

  /** Cuts leave the frames of a stretch alone exactly when no cut blank line stands between two frames, no
      data line is cut, and a later line overwrites every cut id and event line. */
  ghost predicate Harmless(lines: seq<StreamLine>) {
    !Merges(lines) && NoneCut(lines, Data) && Overwritten(lines, Id) && Overwritten(lines, Event)
  }

  lemma SameFrameIff(lines: seq<StreamLine>)
    requires forall i :: 0 <= i < |lines| ==> OneLine(lines[i].text)
    ensures Say(Read(lines)) == Say(Sent(lines))
       <==> NoneCut(lines, Data) && Overwritten(lines, Id) && Overwritten(lines, Event)
  {
    LastValueIff(lines, Id);
    LastValueIff(lines, Event);
    AllValuesIff(lines, Data);
    SameDataIff(lines);
  }

  function DataOf(values: seq<string>): Option<string> { if |values| == 0 then None else Some(JoinLines(values)) }

  lemma SameDataIff(lines: seq<StreamLine>)
    requires forall i :: 0 <= i < |lines| ==> OneLine(lines[i].text)
    ensures DataOf(ReadValues(lines, Data)) == DataOf(SentValues(lines, Data))
       <==> ReadValues(lines, Data) == SentValues(lines, Data)
  {
    DataLinesAreOneLine(Sent(lines));
    DataLinesAreOneLine(Read(lines));
    if |ReadValues(lines, Data)| > 0 && |SentValues(lines, Data)| > 0 {
      LinesUndoesJoin(ReadValues(lines, Data));
      LinesUndoesJoin(SentValues(lines, Data));
    }
  }

  lemma DataLinesAreOneLine(lines: seq<string>)
    requires forall i :: 0 <= i < |lines| ==> OneLine(lines[i])
    ensures forall k :: 0 <= k < |Values(Fields(lines), Data)| ==> OneLine(Values(Fields(lines), Data)[k])
  {
    forall i | 0 <= i < |lines|
      ensures OneLineValue(Fields(lines)[i])
    {
    }
    ValuesAreSingleLines(Fields(lines), Data);
  }

  lemma StretchIff(lines: seq<StreamLine>)
    requires BridgesOnly(lines) && forall i :: 0 <= i < |lines| ==> OneLine(lines[i].text)
    ensures Say(Read(lines)) == SentFrames(lines) <==> Harmless(lines)
    ensures |Say(Read(lines))| <= |SentFrames(lines)|
  {
    SayIffSpeaks(Read(lines));
    if Merges(lines) {
      MergedFrames(lines);
    } else {
      UnmergedFrames(lines);
      SameFrameIff(lines);
    }
    ReadSpeaksOnlyIfSent(lines);
    SpokenIsTold(Sent(lines));
  }

  lemma ReadSpeaksOnlyIfSent(lines: seq<StreamLine>)
    ensures Speaks(Read(lines)) ==> Speaks(Sent(lines))
  {
    forall i | 0 <= i < |lines| && Known(Read(lines)[i])
      ensures Known(Sent(lines)[i])
    {
      CutLine(lines[i].text, FieldOf(Read(lines)[i]).value.name);
    }
  }

  // ---------------------------------------------------------------------------------------------
  // The whole stream

  /** The lines between blank lines that are read as blank, and the lines after the last of those. */
  function Stretches(lines: seq<StreamLine>): (seq<seq<StreamLine>>, seq<StreamLine>) {
    if |lines| == 0 then ([], [])
    else
      var (done, open) := Stretches(lines[..|lines| - 1]);
      var last := lines[|lines| - 1];
      if last.text == "" && !last.cut then (done + [open], []) else (done, open + [last])
  }

  function AllRead(stretches: seq<seq<StreamLine>>): seq<Frame> {
    if |stretches| == 0 then [] else AllRead(stretches[..|stretches| - 1]) + Say(Read(stretches[|stretches| - 1]))
  }

  function AllSent(stretches: seq<seq<StreamLine>>): seq<Frame> {
    if |stretches| == 0 then [] else AllSent(stretches[..|stretches| - 1]) + SentFrames(stretches[|stretches| - 1])
  }

  lemma AllSnoc(stretches: seq<seq<StreamLine>>, last: seq<StreamLine>)
    ensures AllRead(stretches + [last]) == AllRead(stretches) + Say(Read(last))
    ensures AllSent(stretches + [last]) == AllSent(stretches) + SentFrames(last)
  {
    assert (stretches + [last])[..|stretches|] == stretches;
  }

  lemma StretchesSnoc(lines: seq<StreamLine>, last: StreamLine)
    ensures var (done, open) := Stretches(lines);
            Stretches(lines + [last])
            == if last.text == "" && !last.cut then (done + [open], []) else (done, open + [last])
  {
    assert (lines + [last])[..|lines|] == lines;
  }

  lemma {:induction false} ReadByStretches(lines: seq<StreamLine>)
    ensures Told(Read(lines)) == (AllRead(Stretches(lines).0), Read(Stretches(lines).1))
  {
    if |lines| == 0 {
      assert Told([]) == ([], []);
    } else {
      var front, last := lines[..|lines| - 1], lines[|lines| - 1];
      assert lines == front + [last];
      ReadByStretches(front);
      SentSnoc(front, last);
      SentSnoc(Stretches(front).1, last);
      ToldSnoc(Read(front), ReadAs(last));
      AllSnoc(Stretches(front).0, Stretches(front).1);
      StretchesSnoc(front, last);
      assert Read([]) == [];
    }
  }

  lemma {:induction false} SentByStretches(lines: seq<StreamLine>)
    ensures var (done, open) := Stretches(lines);
            Told(Sent(lines)) == (AllSent(done) + Told(Sent(open)).0, Told(Sent(open)).1)
  {
    if |lines| == 0 {
      assert Sent(lines) == [] && Sent(Stretches(lines).1) == [];
      assert AllSent(Stretches(lines).0) + [] == [];
    } else {
      var front, last := lines[..|lines| - 1], lines[|lines| - 1];
      assert lines == front + [last];
      SentByStretches(front);
      SentSnoc(front, last);
      ToldSnoc(Sent(front), last.text);
      if last.text == "" && !last.cut {
        var (done, open) := Stretches(front);
        StretchesSnoc(front, last);
        StretchEnds(done, open);
        NothingAdded(AllSent(done + [open]));
      } else {
        var (done, open) := Stretches(front);
        StretchesSnoc(front, last);
        StretchGoesOn(done, open, last);
        NothingAdded(AllSent(done) + Told(Sent(open)).0);
      }
    }
  }

  lemma StretchEnds(done: seq<seq<StreamLine>>, open: seq<StreamLine>)
    ensures AllSent(done) + Told(Sent(open)).0 + Say(Told(Sent(open)).1) == AllSent(done + [open]) + []
  {
    AllSnoc(done, open);
    ToldSnoc(Sent(open), "");
    Associates(AllSent(done), Told(Sent(open)).0, Say(Told(Sent(open)).1));
  }

  lemma NothingAdded(frames: seq<Frame>)
    ensures frames + [] == frames
  {
  }

  lemma StretchGoesOn(done: seq<seq<StreamLine>>, open: seq<StreamLine>, last: StreamLine)
    ensures AllSent(done) + Told(Sent(open + [last])).0
         == AllSent(done) + Told(Sent(open)).0 + if last.text == "" then Say(Told(Sent(open)).1) else []
    ensures Told(Sent(open + [last])).1 == if last.text == "" then [] else Told(Sent(open)).1 + [last.text]
  {
    SentSnoc(open, last);
    ToldSnoc(Sent(open), last.text);
    Associates(AllSent(done), Told(Sent(open)).0, Say(Told(Sent(open)).1));
  }

  lemma Associates(a: seq<Frame>, b: seq<Frame>, c: seq<Frame>)
    ensures a + (b + c) == a + b + c
  {
  }

  predicate Stretch(lines: seq<StreamLine>) {
    BridgesOnly(lines) && forall i :: 0 <= i < |lines| ==> OneLine(lines[i].text)
  }

  lemma StretchSnoc(lines: seq<StreamLine>, last: StreamLine)
    requires Stretch(lines) && OneLine(last.text) && (last.text == "" ==> last.cut)
    ensures Stretch(lines + [last])
  {
  }

  lemma {:induction false} StretchesAreStretches(lines: seq<StreamLine>)
    requires forall i :: 0 <= i < |lines| ==> OneLine(lines[i].text)
    ensures Stretch(Stretches(lines).1)
    ensures forall i :: 0 <= i < |Stretches(lines).0| ==> Stretch(Stretches(lines).0[i])
  {
    if |lines| > 0 {
      var front, last := lines[..|lines| - 1], lines[|lines| - 1];
      StretchesAreStretches(front);
      if last.text != "" || last.cut {
        StretchSnoc(Stretches(front).1, last);
      }
    }
  }

  /** The lines after the last blank one that is read as blank are among those left unfinished. */
  lemma {:induction false} OpenIsUnfinished(lines: seq<StreamLine>)
    ensures |Stretches(lines).1| <= Unfinished(Read(lines))
    ensures var open := Stretches(lines).1; |open| <= |lines| && open == lines[|lines| - |open|..]
  {
    hide Read, Closes;
    if |lines| > 0 {
      var front, last := lines[..|lines| - 1], lines[|lines| - 1];
      assert lines == front + [last];
      OpenIsUnfinished(front);
      SentSnoc(front, last);
      RestSnoc(Read(front), ReadAs(last));
      SuffixSnoc(front, last, |Stretches(front).1|);
    }
  }

  lemma SuffixSnoc(front: seq<StreamLine>, last: StreamLine, n: nat)
    requires n <= |front|
    ensures (front + [last])[|front| - n..] == front[|front| - n..] + [last] && (front + [last])[|front| + 1..] == []
  {
  }

  lemma PartsAgree(a: seq<Frame>, b: seq<Frame>, c: seq<Frame>, d: seq<Frame>)
    requires |a| <= |c| && |b| <= |d|
    ensures a + b == c + d <==> a == c && b == d
  {
    if a + b == c + d {
      assert a == (a + b)[..|a|] && c == (c + d)[..|c|] && b == (a + b)[|a|..] && d == (c + d)[|c|..];
    }
  }

  lemma {:induction false} SameFramesIff(stretches: seq<seq<StreamLine>>)
    requires forall i :: 0 <= i < |stretches| ==> Stretch(stretches[i])
    ensures AllRead(stretches) == AllSent(stretches) <==> forall i :: 0 <= i < |stretches| ==> Harmless(stretches[i])
    ensures |AllRead(stretches)| <= |AllSent(stretches)|
  {
    hide Harmless, SentFrames, Say;
    if |stretches| > 0 {
      var front, last := stretches[..|stretches| - 1], stretches[|stretches| - 1];
      assert stretches == front + [last];
      SameFramesIff(front);
      StretchIff(last);
      PartsAgree(AllRead(front), Say(Read(last)), AllSent(front), SentFrames(last));
    }
  }

  /** How many lines with text end a stream, and how many blank ones. */
  function TrailingText(lines: seq<StreamLine>): (n: nat)
    ensures n <= |lines| && forall i :: |lines| - n <= i < |lines| ==> lines[i].text != ""
    ensures n < |lines| ==> lines[|lines| - n - 1].text == ""
  {
    if |lines| == 0 || lines[|lines| - 1].text == "" then 0 else TrailingText(lines[..|lines| - 1]) + 1
  }

  function TrailingBlanks(lines: seq<StreamLine>): (n: nat)
    ensures n <= |lines| && forall i :: |lines| - n <= i < |lines| ==> lines[i].text == ""
    ensures n < |lines| ==> lines[|lines| - n - 1].text != ""
  {
    if |lines| == 0 || lines[|lines| - 1].text != "" then 0 else TrailingBlanks(lines[..|lines| - 1]) + 1
  }

  predicate LastCut(lines: seq<StreamLine>, k: int) {
    0 <= k < |lines| && lines[k].cut && forall j :: k < j < |lines| ==> !lines[j].cut
  }

  /** Of a run of blank lines from lo on every second one completes no raw frame: the second, fourth, ... if
      text stands before the run, the first, third, ... if it starts the stream. */
  predicate Skips(lo: nat, j: int) { (j - lo) % 2 == if lo == 0 then 0 else 1 }

  /** A cut blank line is read as text. So cuts in the run of blank lines that ends these lines leave its last
      line to do what it was sent to do exactly when that line is not cut and the last cut one was to complete
      no frame anyway. */
  ghost predicate SameClose(lines: seq<StreamLine>) {
    var lo := |lines| - TrailingBlanks(lines);
    forall k :: lo <= k && LastCut(lines, k) ==> k < |lines| - 1 && Skips(lo, k)
  }

  /** The unfinished rest is the same: no cut in the text that ends the stream, and none in the blank lines
      before it that changes which of them completes a frame. */
  ghost predicate SameRest(lines: seq<StreamLine>) {
    var before := |lines| - TrailingText(lines);
    (forall i :: before <= i < |lines| ==> !lines[i].cut) && SameClose(lines[..before])
  }

  lemma SkipsInTurn(lo: nat, j: int)
    ensures Skips(lo, lo) <==> lo == 0
    ensures Skips(lo, j) <==> !Skips(lo, j - 1)
  {
  }

  lemma {:induction false} ClosesInRun(lines: seq<string>, lo: nat, j: int)
    requires lo <= j < |lines| && forall i :: lo <= i <= j ==> lines[i] == ""
    requires lo == 0 || lines[lo - 1] != ""
    ensures Closes(lines, j) <==> !Skips(lo, j)
    decreases j
  {
    hide Skips;
    SkipsInTurn(lo, j);
    if lo < j {
      ClosesInRun(lines, lo, j - 1);
    }
  }

  lemma {:induction false} UnfinishedText(lines: seq<string>, n: nat)
    requires n <= |lines| && forall i :: |lines| - n <= i < |lines| ==> lines[i] != ""
    ensures Unfinished(lines) == n + Unfinished(lines[..|lines| - n])
  {
    if n == 0 {
      assert lines[..|lines|] == lines;
    } else {
      var front := lines[..|lines| - 1];
      UnfinishedText(front, n - 1);
      assert front[..|front| - (n - 1)] == lines[..|lines| - n];
    }
  }

  lemma UnfinishedAtBlank(lines: seq<string>)
    requires |lines| > 0 && lines[|lines| - 1] == ""
    ensures Unfinished(lines) == if Closes(lines, |lines| - 1) then 0 else 1
  {
    if |lines| > 1 {
      ClosesAgrees(lines, lines[..|lines| - 1], |lines| - 2);
    }
  }

  lemma {:induction false} LastCutExists(lines: seq<StreamLine>, i: int) returns (k: int)
    requires 0 <= i < |lines| && lines[i].cut
    ensures i <= k && LastCut(lines, k)
    decreases |lines| - i
  {
    k := i;
    if j :| i < j < |lines| && lines[j].cut {
      k := LastCutExists(lines, j);
    }
  }

  lemma SameCloseAt(lines: seq<StreamLine>, k: int)
    requires LastCut(lines, k) && |lines| - TrailingBlanks(lines) <= k < |lines| - 1
    ensures SameClose(lines) <==> Skips(|lines| - TrailingBlanks(lines), k)
  {
    hide TrailingBlanks, Skips;
    assert forall j :: LastCut(lines, j) ==> j == k;
  }

  lemma SameCloseUncut(lines: seq<StreamLine>)
    requires forall i :: |lines| - TrailingBlanks(lines) <= i < |lines| ==> !lines[i].cut
    ensures SameClose(lines)
  {
  }

  /** A run counted anew after k skips the same line z as the run from lo exactly if the latter skips k. */
  lemma CountsAgree(lo: nat, k: nat, z: nat)
    requires lo <= k < z
    ensures (Skips(k + 1, z) <==> Skips(lo, z)) <==> Skips(lo, k)
  {
  }

  lemma SentRunCloses(lines: seq<StreamLine>, lo: nat)
    requires lo < |lines| && forall i :: lo <= i < |lines| ==> lines[i].text == ""
    requires lo > 0 ==> lines[lo - 1].text != ""
    ensures Closes(Sent(lines), |lines| - 1) <==> !Skips(lo, |lines| - 1)
  {
    hide Closes, Skips;
    ClosesInRun(Sent(lines), lo, |lines| - 1);
  }

  lemma ReadRunCloses(lines: seq<StreamLine>, lo: nat)
    requires lo < |lines| && forall i :: lo <= i < |lines| ==> lines[i].text == "" && !lines[i].cut
    requires lo > 0 ==> lines[lo - 1].text != "" || lines[lo - 1].cut
    ensures Closes(Read(lines), |lines| - 1) <==> !Skips(lo, |lines| - 1)
  {
    hide Closes, Skips;
    assert forall i :: lo <= i < |lines| ==> Read(lines)[i] == lines[i].text;
    ClosesInRun(Read(lines), lo, |lines| - 1);
  }

  /** The last blank line completes a frame for the reader exactly when it does for the sender. */
  lemma SameCloseIff(lines: seq<StreamLine>)
    requires |lines| > 0 && lines[|lines| - 1].text == "" && !lines[|lines| - 1].cut
    ensures SameClose(lines) <==> (Closes(Sent(lines), |lines| - 1) <==> Closes(Read(lines), |lines| - 1))
  {
    hide SameClose, Closes, TrailingBlanks, Skips;
    var z, lo := |lines| - 1, |lines| - TrailingBlanks(lines);
    SentRunCloses(lines, lo);
    if i :| lo <= i < |lines| && lines[i].cut {
      var k := LastCutExists(lines, i);
      ReadRunCloses(lines, k + 1);
      SameCloseAt(lines, k);
      CountsAgree(lo, k, z);
    } else {
      ReadRunCloses(lines, lo);
      SameCloseUncut(lines);
    }
  }

  lemma RestFromSuffix(lines: seq<StreamLine>)
    ensures Rest(Read(lines)) == Rest(Sent(lines))
       <==> Unfinished(Read(lines)) == Unfinished(Sent(lines))
            && forall i :: |lines| - Unfinished(Sent(lines)) <= i < |lines| ==> !lines[i].cut
  {
    if Unfinished(Read(lines)) == Unfinished(Sent(lines)) {
      SuffixesAgree(lines, |lines| - Unfinished(Sent(lines)));
    }
  }

  lemma SuffixesAgree(lines: seq<StreamLine>, lo: nat)
    requires lo <= |lines|
    ensures Read(lines)[lo..] == Sent(lines)[lo..] <==> forall i :: lo <= i < |lines| ==> !lines[i].cut
  {
    var read, sent := Read(lines)[lo..], Sent(lines)[lo..];
    assert forall i :: lo <= i < |lines| ==> read[i - lo] == ReadAs(lines[i]) && sent[i - lo] == lines[i].text;
    if forall i :: lo <= i < |lines| ==> !lines[i].cut {
      assert forall j :: 0 <= j < |read| ==> read[j] == ReadAs(lines[j + lo]) && sent[j] == lines[j + lo].text;
    } else {
      var i :| lo <= i < |lines| && lines[i].cut;
      assert |read[i - lo]| == |sent[i - lo]| + 1;
    }
  }

  /** What is unfinished, for the sender and for the reader. */
  lemma UnfinishedParts(lines: seq<StreamLine>)
    ensures var text := TrailingText(lines); var before := lines[..|lines| - text];
            && Unfinished(Sent(lines)) == text + Unfinished(Sent(before))
            && Unfinished(Read(lines)) == text + Unfinished(Read(before))
  {
    hide Unfinished, Closes;
    var text := TrailingText(lines);
    var before := lines[..|lines| - text];
    UnfinishedText(Sent(lines), text);
    UnfinishedText(Read(lines), text);
    assert Sent(lines)[..|before|] == Sent(before) && Read(lines)[..|before|] == Read(before);
  }

  /** The lines up to a blank one: unfinished is the same number of them, and that blank line if it is one. */
  lemma SameBeforeIff(before: seq<StreamLine>)
    requires |before| > 0 && before[|before| - 1].text == ""
    ensures SameClose(before)
       <==> Unfinished(Read(before)) == Unfinished(Sent(before)) && (before[|before| - 1].cut ==> Unfinished(Sent(before)) == 0)
    ensures Unfinished(Sent(before)) <= 1
  {
    hide Closes, TrailingBlanks, SameClose;
    UnfinishedAtBlank(Sent(before));
    if before[|before| - 1].cut {
      LastCutSpoils(before);
      assert Unfinished(Read(before)) > 0;
    } else {
      UnfinishedAtBlank(Read(before));
      SameCloseIff(before);
    }
  }

  lemma LastCutSpoils(lines: seq<StreamLine>)
    requires |lines| > 0 && lines[|lines| - 1].text == "" && lines[|lines| - 1].cut
    ensures !SameClose(lines) && Unfinished(Read(lines)) > 0
  {
    assert LastCut(lines, |lines| - 1) && TrailingBlanks(lines) > 0;
  }

  lemma SameRestIff(lines: seq<StreamLine>)
    ensures Rest(Read(lines)) == Rest(Sent(lines)) <==> SameRest(lines)
  {
    hide SameClose, Unfinished, Closes;
    var m := |lines| - TrailingText(lines);
    RestFromSuffix(lines);
    UnfinishedParts(lines);
    if m > 0 {
      SameBeforeIff(lines[..m]);
    } else {
      SameCloseUncut([]);
    }
  }

  lemma UncutOpenStretch(open: seq<StreamLine>)
    requires Stretch(open) && forall i :: 0 <= i < |open| ==> !open[i].cut
    ensures Told(Sent(open)).0 == []
  {
    NoBlanksNoFrames(Sent(open));
  }

  lemma {:induction false} NoBlanksNoFrames(lines: seq<string>)
    requires forall i :: 0 <= i < |lines| ==> lines[i] != ""
    ensures Told(lines).0 == []
  {
    if |lines| > 0 {
      NoBlanksNoFrames(lines[..|lines| - 1]);
    }
  }

  lemma BuffersAgree(a: seq<string>, b: seq<string>, tail: string)
    requires OneLine(tail) && (forall i :: 0 <= i < |a| ==> OneLine(a[i])) && forall i :: 0 <= i < |b| ==> OneLine(b[i])
    ensures JoinLines(a + [tail]) == JoinLines(b + [tail]) <==> a == b
  {
    LinesUndoesJoin(a + [tail]);
    LinesUndoesJoin(b + [tail]);
    assert a == (a + [tail])[..|a|] && b == (b + [tail])[..|b|];
  }

  /** In every stretch up to a blank line that is read as blank the cuts are harmless. */
  ghost predicate AllHarmless(lines: seq<StreamLine>) {
    forall i :: 0 <= i < |Stretches(lines).0| ==> Harmless(Stretches(lines).0[i])
  }

  lemma FramesAgreeIff(lines: seq<StreamLine>)
    requires Rest(Read(lines)) == Rest(Sent(lines)) && forall i :: 0 <= i < |lines| ==> OneLine(lines[i].text)
    ensures Told(Read(lines)).0 == Told(Sent(lines)).0 <==> AllHarmless(lines)
  {
    RestFromSuffix(lines);
    ReadByStretches(lines);
    SentByStretches(lines);
    StretchesAreStretches(lines);
    OpenIsUnfinished(lines);
    SameFramesIff(Stretches(lines).0);
    UncutOpenStretch(Stretches(lines).1);
    assert AllSent(Stretches(lines).0) + [] == AllSent(Stretches(lines).0);
  }

  /** Chunk invariance of what Push returns and keeps, exactly, for every chunk list: pushing the chunks one by
      one gives the frames and the buffer of one push if and only if the text that ends the stream and the blank
      lines before it hold no cut that changes the unfinished rest, and in every stretch of lines up to a blank
      line that is read as blank the cuts are harmless: each falls on a line the frame ignores, on an id or event
      line that a later one overwrites, or on a blank line with no frame on one of its sides. */
  lemma SameOutputIff(chunks: seq<string>)
    ensures Output(NormalisedText(chunks)) == Output(NormalisedText([Concat(chunks)]))
       <==> SameRest(StreamLines(chunks)) && AllHarmless(StreamLines(chunks))
  {
    var lines, read, sent := StreamLines(chunks), NormalisedText(chunks), Normalise(Concat(chunks));
    OneChunk(Concat(chunks));
    StreamIsRead(chunks);
    OutputByLines(read);
    OutputByLines(sent);
    LinesAreOneLine(read);
    LinesAreOneLine(sent);
    BuffersAgree(Rest(Read(lines)), Rest(Sent(lines)), Tail(sent));
    SameRestIff(lines);
    if SameRest(lines) {
      FramesAgreeIff(lines);
    }
  }

  lemma CommentFrame(comment: string)
    requires OneLine(comment) && comment != "" && comment[0] == ':'
    ensures Output(comment + "\n\n") == ([], "")
  {
    BlankAfterLine(comment, "\n\n");
    assert "\n\n" + "" == "\n\n";
    SplitAtFirst(comment, "");
    assert Split("") == ([], "") && [comment] + [] == [comment];
    LinesOfOne(comment);
    SaySnoc([], comment);
    NothingToSay();
    assert [] + [comment] == [comment];
    FramesOfOne(comment, None);
  }

  /** A harmless cut: the carriage return ends up in a comment, whatever the comment says. */
  lemma CutCommentIsHarmless(text: string)
    requires OneLine(text) && '\r' !in text
    ensures var chunks := [":" + text + "\r", "\n\n"];
            !NoCut(chunks) && Output(NormalisedText(chunks)) == Output(NormalisedText([Concat(chunks)])) == ([], "")
  {
    hide Split, FramesOf, Normalise;
    var line := ":" + text;
    var first, second := line + "\r", "\n\n";
    var chunks := [first, second];
    TwoChunks(first, second);
    OneChunk(first + second);
    OneChunk(first);
    assert chunks[..1] == [first] && Cut(Concat(chunks[..1]), chunks[1]);
    CutPair(first, second);
    assert first[..|first| - 1] == line && second[1..] == "\n";
    NoPairsNothingToDo(line);
    NoPairsNothingToDo(second);
    NoPairsNothingToDo("\n");
    CommentFrame(line);
    CommentFrame(first);
    Regroup(line, "\n", "\n");
  }
}
