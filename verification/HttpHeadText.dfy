/** A request head as it is written, and what parseHead makes of it. */
module HttpHeadText {
  import opened Bytes
  import opened HttpHead

  /** A header line: a name in any spelling, a colon, and a value with any blanks around it. */
  datatype FieldText = FieldText(name: seq<Byte>, left: seq<Byte>, value: seq<Byte>, right: seq<Byte>) {
    function Line(): seq<Byte> {
      name + [58] + (left + value + right)
    }

    predicate WellFormed() {
      && name != [] && Tight(name) && 58 !in name && Tight(value)
      && AllSpace(left) && AllSpace(right)
      && LF !in name && LF !in left && LF !in value && LF !in right
    }

    function Meaning(): FieldLine {
      (Lower(name), value)
    }
  }

  function Meanings(fields: seq<FieldText>): (r: seq<FieldLine>)
    ensures |r| == |fields|
  {
    if fields == [] then [] else [fields[0].Meaning()] + Meanings(fields[1..])
  }

  predicate AllWellFormed(fields: seq<FieldText>) {
    forall i :: 0 <= i < |fields| ==> fields[i].WellFormed()
  }

  /** The request line: verb, target, and a version that is not looked at. */
  datatype RequestLine = RequestLine(verb: seq<Byte>, target: seq<Byte>, version: seq<Byte>) {
    function Line(): seq<Byte> {
      verb + ([32] + (target + ([32] + version)))
    }

    predicate WellFormed() {
      && verb != [] && Tight(verb) && 32 !in verb && 32 !in target
      && version != [] && Tight(version)
      && LF !in verb && LF !in target && LF !in version
    }
  }

  /** `line` and the lines of `fields`, with CRLF in between. */
  function Text(line: seq<Byte>, fields: seq<FieldText>): seq<Byte>
    decreases |fields|
  {
    if fields == [] then line else line + [CR] + ([LF] + Text(fields[0].Line(), fields[1..]))
  }

  // --- one line ---------------------------------------------------------------------------------

  lemma NameTrimmed(name: seq<Byte>)
    requires Tight(name)
    ensures Trim(name) == name
  {
    TrimAround([], name, []);
    assert [] + name + [] == name;
  }

  /** What is left of a line once it is trimmed. */
  lemma LineTrimmed(f: FieldText, end: seq<Byte>)
    requires f.WellFormed() && AllSpace(end)
    ensures Trim(f.Line() + end) == f.name + ([58] + if f.value == [] then [] else f.left + f.value)
  {
    var core := f.name + ([58] + if f.value == [] then [] else f.left + f.value);
    assert core[0] == f.name[0];
    if f.value == [] {
      assert f.Line() + end == [] + core + (f.left + f.right + end);
      TrimAround([], core, f.left + f.right + end);
    } else {
      assert core[|core| - 1] == f.value[|f.value| - 1];
      assert f.Line() + end == [] + core + (f.right + end);
      TrimAround([], core, f.right + end);
    }
  }

  lemma FieldRead(f: FieldText, end: seq<Byte>)
    requires f.WellFormed() && AllSpace(end)
    ensures FieldOf(f.Line() + end) == Some(f.Meaning())
  {
    var rest := if f.value == [] then [] else f.left + f.value;
    var text := f.name + ([58] + rest);
    LineTrimmed(f, end);
    IndexOfAfter(f.name, [58], rest);
    assert text[..|f.name|] == f.name && text[|f.name| + 1..] == rest;
    NameTrimmed(f.name);
    ValueTrimmed(f, rest);
  }

  lemma ValueTrimmed(f: FieldText, rest: seq<Byte>)
    requires f.WellFormed() && rest == if f.value == [] then [] else f.left + f.value
    ensures Trim(rest) == f.value
  {
    if f.value != [] {
      TrimAround(f.left, f.value, []);
      assert f.left + f.value + [] == f.left + f.value;
    }
  }

  // --- all of them ------------------------------------------------------------------------------

  /** The lines are found where they were put, but for the carriage returns. */
  lemma TextSplits(line: seq<Byte>, fields: seq<FieldText>)
    requires LF !in line && AllWellFormed(fields)
    ensures Split(Text(line, fields), LF)
            == if fields == [] then [line] else [line + [CR]] + Split(Text(fields[0].Line(), fields[1..]), LF)
  {
    if fields == [] {
      SplitWhole(line, LF);
    } else {
      SplitFirst(line + [CR], LF, Text(fields[0].Line(), fields[1..]));
    }
  }

  lemma {:induction false} FieldsRead(fields: seq<FieldText>)
    requires AllWellFormed(fields) && fields != []
    ensures FieldLines(Split(Text(fields[0].Line(), fields[1..]), LF)) == Meanings(fields)
    decreases |fields|
  {
    var f, rest := fields[0], fields[1..];
    assert f.WellFormed();
    TextSplits(f.Line(), rest);
    var lines := Split(Text(f.Line(), rest), LF);
    if rest == [] {
      FieldRead(f, []);
      assert f.Line() + [] == f.Line();
      assert lines[1..] == [];
    } else {
      FieldRead(f, [CR]);
      FieldsRead(rest);
      assert lines[1..] == Split(Text(rest[0].Line(), rest[1..]), LF);
    }
  }

  lemma RequestTight(r: RequestLine)
    requires r.WellFormed()
    ensures r.Line() != [] && Tight(r.Line()) && LF !in r.Line()
  {
    assert r.Line()[0] == r.verb[0];
    assert r.Line()[|r.Line()| - 1] == r.version[|r.version| - 1];
  }

  lemma RequestRead(r: RequestLine, end: seq<Byte>)
    requires r.WellFormed() && AllSpace(end)
    ensures var parts := Split(Trim(r.Line() + end), 32);
            |parts| >= 2 && parts[0] == r.verb && parts[1] == r.target
  {
    RequestTight(r);
    TrimAround([], r.Line(), end);
    assert [] + r.Line() + end == r.Line() + end;
    SplitFirst(r.verb, 32, r.target + ([32] + r.version));
    SplitFirst(r.target, 32, r.version);
  }

  lemma HeadLines(r: RequestLine, fields: seq<FieldText>)
    requires r.WellFormed() && AllWellFormed(fields)
    ensures var lines := Split(Text(r.Line(), fields), LF);
            && FieldLines(lines[1..]) == Meanings(fields)
            && lines[0] == r.Line() + if fields == [] then [] else [CR]
  {
    RequestTight(r);
    TextSplits(r.Line(), fields);
    var lines := Split(Text(r.Line(), fields), LF);
    if fields == [] {
      assert lines[1..] == [] && r.Line() + [] == r.Line();
    } else {
      FieldsRead(fields);
      assert lines[1..] == Split(Text(fields[0].Line(), fields[1..]), LF);
    }
  }

  /** The table that was meant: every name with its one value, and nothing else. */
  ghost predicate Reads(fields: seq<FieldText>, table: Fields) {
    Tabulates(Meanings(fields), map[], table)
  }

  /** A head is read as it was meant, verb, target and fields, whatever the spelling of the names and
      the blanks around the values; and it is refused exactly when it gives one name two values. */
  lemma HeadRoundTrip(r: RequestLine, fields: seq<FieldText>)
    requires r.WellFormed() && AllWellFormed(fields)
    ensures var head := ParseHead(Text(r.Line(), fields));
            && (head.Some? <==> Consistent(Meanings(fields), map[]))
            && (head.Some? ==> head.value == HeadOf(r.verb, r.target, head.value.fields) && Reads(fields, head.value.fields))
  {
    HeadLines(r, fields);
    RequestRead(r, if fields == [] then [] else [CR]);
    CollectMeaning(Meanings(fields), map[]);
  }
}
