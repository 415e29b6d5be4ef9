/** What a raw frame means, told from its lines: which field a line carries, whose line wins, and how data lines
    make up the data. */
module FrameLaws {
  import opened Prelude
  import opened SseParse

  /** A line carries a named value: the bare name carries an empty one, a colon starts it, and one space after the
      colon is not part of it. */
  predicate Carries(line: string, name: string, value: string) {
    || (line == name && value == "")
    || line == name + ": " + value
    || (line == name + ":" + value && !(|value| > 0 && value[0] == ' '))
  }

  lemma ColonAt(name: string, rest: string)
    requires ':' !in name
    ensures IndexOf(name + ":" + rest, ':') == |name|
  {
    var line := name + ":" + rest;
    assert forall k :: 0 <= k < |name| ==> line[k] == name[k];
    FirstColon(line, |name|);
  }

  lemma {:induction false} FirstColon(line: string, n: nat)
    requires n < |line| && line[n] == ':' && forall k :: 0 <= k < n ==> line[k] != ':'
    ensures IndexOf(line, ':') == n
  {
    if n > 0 {
      FirstColon(line[1..], n - 1);
    }
  }

  lemma NoColon(line: string)
    requires ':' !in line
    ensures IndexOf(line, ':') == |line|
  {
  }

  /** What a line with a colon is read as. */
  lemma ReadsAfterColon(name: string, after: string)
    requires name != "" && ':' !in name
    ensures var line := name + ":" + after;
            FieldOf(line) == Some(Field(NameOf(name), Unspaced(after))) && line[..IndexOf(line, ':')] == name
  {
    var line := name + ":" + after;
    ColonAt(name, after);
    assert line[..|name|] == name && line[|name| + 1..] == after;
    assert line[0] == name[0];
  }

  lemma ReadsBare(name: string)
    requires name != "" && ':' !in name
    ensures FieldOf(name) == Some(Field(NameOf(name), "")) && name[..IndexOf(name, ':')] == name
  {
    NoColon(name);
  }

  /** A line with a field is its name, or its name, a colon and what comes after it. */
  lemma LineOfField(line: string) returns (name: string, after: string)
    requires FieldOf(line).Some?
    ensures name == line[..IndexOf(line, ':')] && name != "" && ':' !in name
    ensures FieldOf(line).value.name == NameOf(name)
    ensures || (line == name && FieldOf(line).value.value == "")
            || (line == name + ":" + after && FieldOf(line).value.value == Unspaced(after))
  {
    var colon := IndexOf(line, ':');
    name, after := line[..colon], if colon < |line| then line[colon + 1..] else "";
    if colon < |line| {
      assert line == name + ":" + after;
    }
  }

  lemma CarriesUnspaced(name: string, after: string)
    ensures Carries(name + ":" + after, name, Unspaced(after))
  {
    if after != "" && after[0] == ' ' {
      assert name + ":" + after == name + ": " + Unspaced(after);
    }
  }

  /** A line carries a value for a name exactly as it is read. */
  lemma ReadsAs(line: string, name: string, value: string)
    requires name != "" && ':' !in name
    ensures Carries(line, name, value)
       <==> FieldOf(line) == Some(Field(NameOf(name), value)) && line[..IndexOf(line, ':')] == name
  {
    hide FieldOf, IndexOf, NameOf;
    if Carries(line, name, value) {
      ReadsBare(name);
      ReadsAfterColon(name, " " + value);
      ReadsAfterColon(name, value);
      assert name + ": " + value == name + ":" + (" " + value);
    }
    if FieldOf(line).Some? {
      var text, after := LineOfField(line);
      CarriesUnspaced(text, after);
    }
  }

  predicate Known(name: string) { name == "id" || name == "event" || name == "data" }

  /** A known field's name is all there is to it. */
  lemma KnownIff(line: string, name: string, value: string)
    requires Known(name)
    ensures Carries(line, name, value) <==> FieldOf(line) == Some(Field(NameOf(name), value))
  {
    hide Carries;
    ReadsAs(line, name, value);
    if FieldOf(line) == Some(Field(NameOf(name), value)) {
      NamesDiffer(line[..IndexOf(line, ':')], name);
    }
  }

  lemma NamesDiffer(a: string, b: string)
    requires Known(b) && NameOf(a) == NameOf(b)
    ensures a == b
  {
  }

  /** The i-th line carries a value for the name. */
  predicate CarriedAt(lines: seq<string>, name: string, i: int, value: string) {
    0 <= i < |lines| && Carries(lines[i], name, value)
  }

  /** The last line that carries a value for the name carries this one. */
  ghost predicate LastCarried(lines: seq<string>, name: string, value: string) {
    exists i :: CarriedAt(lines, name, i, value) && forall j, w :: i < j ==> !CarriedAt(lines, name, j, w)
  }

  /** The places of all lines that carry a value for the name, in order, and those values. */
  ghost predicate AllCarried(lines: seq<string>, name: string, places: seq<int>, values: seq<string>) {
    && |places| == |values|
    && (forall k :: 0 <= k < |places| ==> CarriedAt(lines, name, places[k], values[k]))
    && (forall k, l :: 0 <= k < l < |places| ==> places[k] < places[l])
    && (forall i, v :: CarriedAt(lines, name, i, v) ==> i in places)
  }

  lemma CarriedOn(front: seq<string>, line: string, name: string, places: seq<int>, values: seq<string>)
    requires Known(name) && AllCarried(front, name, places, values)
    ensures var f := FieldOf(line);
            if f.Some? && f.value.name == NameOf(name)
            then AllCarried(front + [line], name, places + [|front|], values + [f.value.value])
            else AllCarried(front + [line], name, places, values)
  {
    hide Carries;
    var lines, f := front + [line], FieldOf(line);
    forall v
      ensures Carries(line, name, v) <==> f == Some(Field(NameOf(name), v))
    {
      KnownIff(line, name, v);
    }
    assert forall i, v :: i < |front| ==> (CarriedAt(lines, name, i, v) <==> CarriedAt(front, name, i, v));
  }

  lemma {:induction false} ValuesAreCarried(lines: seq<string>, name: string) returns (places: seq<int>)
    requires Known(name)
    ensures AllCarried(lines, name, places, Values(Fields(lines), NameOf(name)))
  {
    places := [];
    if |lines| > 0 {
      hide AllCarried, FieldOf;
      var front, line := lines[..|lines| - 1], lines[|lines| - 1];
      assert front + [line] == lines;
      assert Fields(lines)[..|lines| - 1] == Fields(front);
      places := ValuesAreCarried(front, name);
      CarriedOn(front, line, name, places, Values(Fields(front), NameOf(name)));
      if FieldOf(line).Some? && FieldOf(line).value.name == NameOf(name) {
        places := places + [|front|];
      }
    }
  }

  lemma LastIsLastCarried(lines: seq<string>, name: string, places: seq<int>, values: seq<string>)
    requires Known(name) && AllCarried(lines, name, places, values)
    ensures Last(values).None? <==> forall i, v :: !CarriedAt(lines, name, i, v)
    ensures Last(values).Some? ==> LastCarried(lines, name, Last(values).value)
  {
    hide Carries;
    if |places| > 0 {
      var k := |places| - 1;
      assert CarriedAt(lines, name, places[k], values[k]);
      forall j, w | places[k] < j
        ensures !CarriedAt(lines, name, j, w)
      {
        if CarriedAt(lines, name, j, w) {
          var l :| 0 <= l < |places| && places[l] == j;
        }
      }
    }
  }

  /** What a list of lines says for the id, the event and the data. */
  ghost predicate Meant(lines: seq<string>, f: Frame, places: seq<int>, values: seq<string>) {
    && (f.id.None? <==> forall i, v :: !CarriedAt(lines, "id", i, v))
    && (f.id.Some? ==> LastCarried(lines, "id", f.id.value))
    && (f.event.None? <==> forall i, v :: !CarriedAt(lines, "event", i, v))
    && (f.event.Some? ==> LastCarried(lines, "event", f.event.value))
    && AllCarried(lines, "data", places, values)
    && f.data == if |values| == 0 then None else Some(JoinLines(values))
  }

  /** A raw frame means what its lines carry: the last id, the last event, and every data line in order, joined by
      line breaks; it is dropped exactly when no line carries any of them. */
  lemma FrameIsMeant(raw: string) returns (f: Frame, places: seq<int>, values: seq<string>)
    ensures Meant(Lines(raw), f, places, values)
    ensures Interpret(raw) == if f == Frame(None, None, None) then None else Some(f)
  {
    hide AllCarried, CarriedAt, LastCarried, FieldOf;
    var lines := Lines(raw);
    var ids := ValuesAreCarried(lines, "id");
    var events := ValuesAreCarried(lines, "event");
    places := ValuesAreCarried(lines, "data");
    values := Values(Fields(lines), Data);
    LastIsLastCarried(lines, "id", ids, Values(Fields(lines), Id));
    LastIsLastCarried(lines, "event", events, Values(Fields(lines), Event));
    f := Frame(Last(Values(Fields(lines), Id)), Last(Values(Fields(lines), Event)),
               if |values| == 0 then None else Some(JoinLines(values)));
  }
}
