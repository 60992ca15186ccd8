/** The request line and the header fields: what parseHead makes of the bytes before the blank
    line. URL decoding of the target is left to the caller. */
module HttpHead {
  import opened Bytes

  type Fields = map<seq<Byte>, seq<Byte>>

  /** A parsed head, and the three things about it that steer the reading of the body: whether it
      is a preflight, how long a body it announces, and whether the peer waits to be told to go on. */
  datatype Head = Head(verb: seq<Byte>, target: seq<Byte>, fields: Fields, preflight: bool, length: int, waits: bool)

  function Field(fields: Fields, name: seq<Byte>): (value: seq<Byte>) {
    if name in fields then fields[name] else []
  }

  predicate IsChunked(fields: Fields) {
    IndexOf(Lower(Field(fields, Ascii("transfer-encoding"))), Ascii("chunked")) >= 0
  }

  /** The body length a head announces: -1 for a chunked body, and 0 for a Content-Length that
      is missing, unreadable, out of range or negative. */
  function BodyLength(fields: Fields): (n: int)
    ensures -1 <= n <= MAX_INT64
    ensures n == -1 <==> IsChunked(fields)
  {
    if IsChunked(fields) then -1
    else
      match ParseInt64(Field(fields, Ascii("content-length")), 10)
      case Some(v) => if v > 0 then v else 0
      case None => 0
  }

  function HeadOf(verb: seq<Byte>, target: seq<Byte>, fields: Fields): (head: Head)
    ensures -1 <= head.length <= MAX_INT64
  {
    Head(verb, target, fields, UpperAscii(verb) == Ascii("OPTIONS"), BodyLength(fields),
         Lower(Field(fields, Ascii("expect"))) == Ascii("100-continue"))
  }

  type FieldLine = (seq<Byte>, seq<Byte>)

  /** The name and value on one header line; None for a line with no name before a colon. */
  function FieldOf(line: seq<Byte>): (f: Option<FieldLine>) {
    var text := Trim(line);
    var colon := IndexOf(text, [58]);
    if colon <= 0 then None
    else Some((Lower(Trim(text[..colon])), Trim(text[colon + 1..])))
  }

  function FieldLines(lines: seq<seq<Byte>>): (fields: seq<FieldLine>) {
    if lines == [] then []
    else
      match FieldOf(lines[0])
      case None => FieldLines(lines[1..])
      case Some(f) => [f] + FieldLines(lines[1..])
  }

  /** The table after reading `fields` into `known`, None once a name is given two values. */
  function Collect(fields: seq<FieldLine>, known: Fields): (r: Option<Fields>) {
    if fields == [] then Some(known)
    else
      var (name, value) := fields[0];
      if name in known && known[name] != value then None
      else Collect(fields[1..], known[name := value])
  }

  /** What one more line does to the table. */
  lemma CollectLine(lines: seq<seq<Byte>>, known: Fields)
    requires lines != []
    ensures Collect(FieldLines(lines), known)
            == match FieldOf(lines[0])
               case None => Collect(FieldLines(lines[1..]), known)
               case Some((name, value)) =>
                 if name in known && known[name] != value then None
                 else Collect(FieldLines(lines[1..]), known[name := value])
  {
    match FieldOf(lines[0])
    case None =>
    case Some(f) =>
      var fields := [f] + FieldLines(lines[1..]);
      assert fields[1..] == FieldLines(lines[1..]);
  }

  function ParseHead(bytes: seq<Byte>): (r: Option<Head>)
    ensures r.Some? ==> -1 <= r.value.length <= MAX_INT64
  {
    var lines := Split(bytes, LF);
    var request := Split(Trim(lines[0]), 32);
    if |request| < 2 then None
    else
      match Collect(FieldLines(lines[1..]), map[])
      case None => None
      case Some(fields) => Some(HeadOf(request[0], request[1], fields))
  }

  /** No name has two values, among `fields` and what is already known. */
  ghost predicate Consistent(fields: seq<FieldLine>, known: Fields) {
    && (forall f, g :: f in fields && g in fields && f.0 == g.0 ==> f.1 == g.1)
    && (forall f :: f in fields && f.0 in known ==> known[f.0] == f.1)
  }

  /** `m` holds everything in `known` and `fields`, and nothing else. */
  ghost predicate Tabulates(fields: seq<FieldLine>, known: Fields, m: Fields) {
    && (forall n :: n in known ==> n in m && m[n] == known[n])
    && (forall f :: f in fields ==> f.0 in m && m[f.0] == f.1)
    && (forall n :: n in m && n !in known ==> (n, m[n]) in fields)
  }

  /** A head is refused exactly when two of its lines give one name two values, wherever they
      stand; otherwise the table holds what the lines say and nothing else. */
  lemma {:induction false} CollectMeaning(fields: seq<FieldLine>, known: Fields)
    ensures Collect(fields, known).Some? <==> Consistent(fields, known)
    ensures Collect(fields, known).Some? ==> Tabulates(fields, known, Collect(fields, known).value)
    decreases |fields|
  {
    if fields != [] {
      var (name, value) := fields[0];
      assert fields == [fields[0]] + fields[1..];
      if name !in known || known[name] == value {
        var extended := known[name := value];
        CollectMeaning(fields[1..], extended);
        ConsistentTail(fields, known);
        if Collect(fields, known).Some? {
          TabulatesTail(fields, known, Collect(fields, known).value);
        }
      }
    }
  }

  lemma ConsistentTail(fields: seq<FieldLine>, known: Fields)
    requires fields != []
    requires fields[0].0 in known ==> known[fields[0].0] == fields[0].1
    ensures Consistent(fields, known) <==> Consistent(fields[1..], known[fields[0].0 := fields[0].1])
  {
    var first := fields[0];
    var extended := known[first.0 := first.1];
    assert fields == [first] + fields[1..];
    if Consistent(fields[1..], extended) {
      forall f | f in fields && f.0 == first.0
        ensures f.1 == first.1
      {
        assert f == first || f in fields[1..];
      }
    }
  }

  lemma TabulatesTail(fields: seq<FieldLine>, known: Fields, m: Fields)
    requires fields != []
    requires fields[0].0 in known ==> known[fields[0].0] == fields[0].1
    requires Tabulates(fields[1..], known[fields[0].0 := fields[0].1], m)
    ensures Tabulates(fields, known, m)
  {
    var first := fields[0];
    var extended := known[first.0 := first.1];
    assert fields == [first] + fields[1..];
    assert first.0 in extended && m[first.0] == first.1;
    forall n | n in m && n !in known
      ensures (n, m[n]) in fields
    {
      if n == first.0 {
        assert (n, m[n]) == first;
      } else {
        assert (n, m[n]) in fields[1..];
      }
    }
  }
}
