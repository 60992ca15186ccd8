/** The chunked coding of section 7.1 of RFC 9112, written out, and the reader that undoes it. */
module Chunked {
  import opened Bytes
  import opened HttpHead
  import opened HttpReader
  import opened HttpSplit

  /** A chunk-size line: the number as the sender chose to write it, optional blanks, and an
      optional extension. */
  datatype SizeText = SizeText(digits: seq<Byte>, blanks: seq<Byte>, extension: seq<Byte>) {
    function Line(): seq<Byte> {
      digits + blanks + extension
    }

    predicate Denotes(n: nat) {
      && IsNumeral(digits, 16) && NumeralValue(digits, 16) == n <= MAX_INT64
      && (forall i :: 0 <= i < |blanks| ==> blanks[i] == 32 || blanks[i] == 9)
      && (extension != [] ==> extension[0] == 59)
      && CR !in extension
      && |Line()| + 1 <= MAX_HEAD
    }
  }

  datatype Chunk = Chunk(size: SizeText, data: seq<Byte>) {
    predicate WellFormed() {
      data != [] && size.Denotes(|data|)
    }
  }

  predicate WellFormedChunks(chunks: seq<Chunk>) {
    forall i :: 0 <= i < |chunks| ==> chunks[i].WellFormed()
  }

  function BodyOf(chunks: seq<Chunk>): seq<Byte> {
    if chunks == [] then [] else chunks[0].data + BodyOf(chunks[1..])
  }

  predicate WellFormedTrailers(trailers: seq<seq<Byte>>) {
    forall i :: 0 <= i < |trailers| ==> trailers[i] != [] && CR !in trailers[i]
  }

  function EncodeTrailers(trailers: seq<seq<Byte>>, tail: seq<Byte>): seq<Byte> {
    if trailers == [] then CRLF + tail else trailers[0] + (CRLF + EncodeTrailers(trailers[1..], tail))
  }

  function TrailerBytes(trailers: seq<seq<Byte>>): nat {
    if trailers == [] then 2 else |trailers[0]| + 2 + TrailerBytes(trailers[1..])
  }

  /** The chunks, the last chunk, the trailer section and the blank line, with `tail` after it. */
  function Encode(chunks: seq<Chunk>, last: SizeText, trailers: seq<seq<Byte>>, tail: seq<Byte>): seq<Byte> {
    if chunks == [] then last.Line() + (CRLF + EncodeTrailers(trailers, tail))
    else chunks[0].size.Line() + (CRLF + (chunks[0].data + (CRLF + Encode(chunks[1..], last, trailers, tail))))
  }

  // --- reading one size line ----------------------------------------------------------

  lemma NoSemicolon(t: SizeText, n: nat)
    requires t.Denotes(n)
    ensures 59 !in t.digits + t.blanks && CR !in t.Line()
  {
    forall i | 0 <= i < |t.digits|
      ensures t.digits[i] != 59 && t.digits[i] != CR
    {
      assert 0 <= DigitValue(t.digits[i]) < 16;
    }
  }

  lemma CutAtSemicolon(t: SizeText, n: nat)
    requires t.Denotes(n)
    ensures var cut := IndexOf(t.Line(), [59]);
            (if cut >= 0 then t.Line()[..cut] else t.Line()) == t.digits + t.blanks
  {
    var number := t.digits + t.blanks;
    NoSemicolon(t, n);
    if t.extension == [] {
      assert t.Line() == number;
      NotFound(number, 59);
    } else {
      assert t.Line() == number + ([59] + t.extension[1..]);
      IndexOfAfter(number, [59], t.extension[1..]);
      assert t.Line()[..|number|] == number;
    }
  }

  lemma TrimmedNumber(t: SizeText, n: nat)
    requires t.Denotes(n)
    ensures Trim(t.digits + t.blanks) == t.digits
  {
    var number := t.digits + t.blanks;
    assert 0 <= DigitValue(t.digits[0]) < 16 && 0 <= DigitValue(t.digits[|t.digits| - 1]) < 16;
    assert number[0] == t.digits[0];
    assert TrimLeft(number) == number;
    TrimRightBlanks(t.digits, t.blanks);
  }

  /** Leading zeros, either case, blanks and extensions all read as the number that was meant. */
  lemma SizeTextRead(t: SizeText, n: nat)
    requires t.Denotes(n)
    ensures ChunkLineSize(t.Line()) == Some(n)
  {
    CutAtSemicolon(t, n);
    TrimmedNumber(t, n);
    ParseNumeral(t.digits, 16);
  }

  function Sixteens(k: nat): nat {
    if k == 0 then 1 else 16 * Sixteens(k - 1)
  }

  lemma {:induction false} NumeralShort(n: nat, k: nat)
    requires k > 0 && n < Sixteens(k)
    ensures |Numeral(n, 16)| <= k
  {
    if n >= 16 {
      assert Sixteens(0) == 1 && Sixteens(1) == 16;
      NumeralShort(n / 16, k - 1);
    }
  }

  /** Every length has such a line: its lower-case hexadecimal numeral. */
  lemma SizeTextExists(n: nat)
    requires n <= MAX_INT64
    ensures SizeText(Numeral(n, 16), [], []).Denotes(n)
  {
    NumeralRoundTrip(n, 16);
    assert Sixteens(4) == 0x1_0000 && Sixteens(8) == 0x1_0000_0000 && Sixteens(12) == 0x1_0000_0000_0000;
    assert Sixteens(16) == 0x1_0000_0000_0000_0000;
    NumeralShort(n, 16);
  }

  lemma LineFound(line: seq<Byte>, tail: seq<Byte>)
    requires CR !in line
    ensures var s := line + (CRLF + tail);
            IndexOf(s, CRLF) == |line| && s[..|line|] == line && s[|line| + 2..] == tail
  {
    IndexOfAfter(line, CRLF, tail);
  }

  // --- the whole body -----------------------------------------------------------------

  lemma FinishedRun(o: Owner, head: Head, body: seq<Byte>, log: seq<Event>)
    ensures var d := FinishBody(o, head, body, log); Stuck(d) && Valid(d) && Run(o, d) == d && !Live(d)
  {
  }

  /** One turn prolongs a run. */
  lemma TurnThenRun(o: Owner, c: Conn, d: Conn, e: Conn)
    requires Valid(c) && !Stuck(c) && CutProof(c) && Step(o, c) == d
    requires Valid(d) && Run(o, d) == e && Robust(o, d)
    ensures Run(o, c) == e && Robust(o, c)
  {
  }

  lemma TrailerTurn(o: Owner, m: Mode, log: seq<Event>, line: seq<Byte>, tail: seq<Byte>)
    requires m.Body? && m.framing.Trailer? && m.buffer == line + (CRLF + tail) && CR !in line
    requires m.framing.trailerBytes + |line| + 2 <= MAX_HEAD
    ensures var c := Conn(m, log);
            && !Stuck(c)
            && Step(o, c) == if line == [] then FinishBody(o, m.head, m.body, log)
                             else Conn(m.(framing := Trailer(m.framing.trailerBytes + |line| + 2), buffer := tail), log)
  {
    LineFound(line, tail);
  }

  lemma {:induction false} RunTrailers(o: Owner, m: Mode, log: seq<Event>, trailers: seq<seq<Byte>>, tail: seq<Byte>)
    requires m.Body? && m.framing.Trailer? && m.buffer == EncodeTrailers(trailers, tail)
    requires WellFormedTrailers(trailers) && m.framing.trailerBytes + TrailerBytes(trailers) <= MAX_HEAD
    ensures Run(o, Conn(m, log)) == FinishBody(o, m.head, m.body, log) && Robust(o, Conn(m, log))
    decreases |trailers|
  {
    var e := FinishBody(o, m.head, m.body, log);
    if trailers == [] {
      assert m.buffer == [] + (CRLF + tail);
      TrailerTurn(o, m, log, [], tail);
      FinishedRun(o, m.head, m.body, log);
      TurnThenRun(o, Conn(m, log), e, e);
    } else {
      var line, rest := trailers[0], EncodeTrailers(trailers[1..], tail);
      TrailerTurn(o, m, log, line, rest);
      var n := m.(framing := Trailer(m.framing.trailerBytes + |line| + 2), buffer := rest);
      RunTrailers(o, n, log, trailers[1..], tail);
      TurnThenRun(o, Conn(m, log), Conn(n, log), e);
    }
  }

  lemma SizeLineTurn(o: Owner, m: Mode, log: seq<Event>, t: SizeText, n: nat, tail: seq<Byte>)
    requires t.Denotes(n)
    requires m.Body? && m.framing == SizeLine && m.buffer == t.Line() + (CRLF + tail)
    ensures var c := Conn(m, log);
            && !Stuck(c) && CutProof(c)
            && Step(o, c) == Conn(m.(framing := if n == 0 then Trailer(0) else Data(n), buffer := tail), log)
  {
    NoSemicolon(t, n);
    LineFound(t.Line(), tail);
    SizeTextRead(t, n);
  }

  lemma DataTurns(o: Owner, m: Mode, log: seq<Event>, data: seq<Byte>, tail: seq<Byte>)
    requires m.Body? && data != [] && m.framing == Data(|data|) && m.buffer == data + (CRLF + tail)
    requires Refusal(m.sink, |m.body|, |data|) == 0
    ensures var c := Conn(m, log);
            var d := Conn(m.(body := m.body + data, framing := DataEnd, buffer := CRLF + tail), log);
            var e := Conn(m.(body := m.body + data, framing := SizeLine, buffer := tail), log);
            !Stuck(c) && CutProof(c) && Step(o, c) == d && !Stuck(d) && Step(o, d) == e
  {
    assert m.buffer[..|data|] == data && m.buffer[|data|..] == CRLF + tail;
    assert (CRLF + tail)[2..] == tail;
  }

  lemma {:induction false} RunChunks(o: Owner, m: Mode, log: seq<Event>, chunks: seq<Chunk>, last: SizeText,
                                     trailers: seq<seq<Byte>>, tail: seq<Byte>)
    requires m.Body? && m.framing == SizeLine && m.buffer == Encode(chunks, last, trailers, tail)
    requires WellFormedChunks(chunks) && last.Denotes(0)
    requires WellFormedTrailers(trailers) && TrailerBytes(trailers) <= MAX_HEAD
    requires Refusal(m.sink, |m.body|, |BodyOf(chunks)|) == 0
    ensures Run(o, Conn(m, log)) == FinishBody(o, m.head, m.body + BodyOf(chunks), log) && Robust(o, Conn(m, log))
    decreases |chunks|
  {
    var e := FinishBody(o, m.head, m.body + BodyOf(chunks), log);
    if chunks == [] {
      var rest := EncodeTrailers(trailers, tail);
      var n := m.(framing := Trailer(0), buffer := rest);
      SizeLineTurn(o, m, log, last, 0, rest);
      RunTrailers(o, n, log, trailers, tail);
      assert m.body + [] == m.body;
      TurnThenRun(o, Conn(m, log), Conn(n, log), e);
    } else {
      var data, rest := chunks[0].data, Encode(chunks[1..], last, trailers, tail);
      var q := m.(body := m.body + data, buffer := rest);
      assert m.body + BodyOf(chunks) == m.body + data + BodyOf(chunks[1..]);
      RunChunks(o, q, log, chunks[1..], last, trailers, tail);
      assert chunks[0].WellFormed();
      ChunkTurns(o, m, log, chunks[0], rest, e);
    }
  }

  lemma ChunkTurns(o: Owner, m: Mode, log: seq<Event>, chunk: Chunk, rest: seq<Byte>, e: Conn)
    requires m.Body? && m.framing == SizeLine && chunk.WellFormed()
    requires m.buffer == chunk.size.Line() + (CRLF + (chunk.data + (CRLF + rest)))
    requires Refusal(m.sink, |m.body|, |chunk.data|) == 0
    requires var q := Conn(m.(body := m.body + chunk.data, buffer := rest), log); Run(o, q) == e && Robust(o, q)
    ensures Run(o, Conn(m, log)) == e && Robust(o, Conn(m, log))
  {
    var data := chunk.data;
    var n := m.(framing := Data(|data|), buffer := data + (CRLF + rest));
    var p := n.(body := m.body + data, framing := DataEnd, buffer := CRLF + rest);
    var q := m.(body := m.body + data, buffer := rest);
    SizeLineTurn(o, m, log, chunk.size, |data|, n.buffer);
    DataTurns(o, n, log, data, rest);
    TurnThenRun(o, Conn(p, log), Conn(q, log), e);
    TurnThenRun(o, Conn(n, log), Conn(p, log), e);
    TurnThenRun(o, Conn(m, log), Conn(n, log), e);
  }

  /** Decoding undoes encoding: for every body, every partition of it into chunks, every spelling
      of the sizes, any extensions and trailers, whatever follows, and however the bytes are cut
      into reads, the owner is handed exactly the body. */
  lemma ChunkedRoundTrip(o: Owner, head: Head, sink: Option<Sink>, chunks: seq<Chunk>, last: SizeText,
                         trailers: seq<seq<Byte>>, tail: seq<Byte>, log: seq<Event>, pieces: seq<seq<Byte>>)
    requires WellFormedChunks(chunks) && last.Denotes(0)
    requires WellFormedTrailers(trailers) && TrailerBytes(trailers) <= MAX_HEAD
    requires Refusal(sink, 0, |BodyOf(chunks)|) == 0
    requires Flatten(pieces) == Encode(chunks, last, trailers, tail)
    ensures FeedAll(o, Conn(Body(head, sink, [], SizeLine, []), log), pieces) == FinishBody(o, head, BodyOf(chunks), log)
  {
    var c := Conn(Body(head, sink, [], SizeLine, []), log);
    var stream := Flatten(pieces);
    assert [] + stream == stream && [] + BodyOf(chunks) == BodyOf(chunks);
    RunChunks(o, c.mode.(buffer := stream), log, chunks, last, trailers, tail);
    SplitInvariance(o, c, pieces);
  }

  // --- a whole message ------------------------------------------------------------------

  /** The log of a request that was taken: its head, its body, and the owner's answer to it. */
  function Served(o: Owner, head: Head, body: seq<Byte>): Conn {
    FinishBody(o, head, body, [HeadersReady(head)] + if head.waits then [Continue] else [])
  }

  /** The sink an owner's action opens for a body of `length` bytes (-1 for unknown). */
  predicate Takes(action: HeadAction, length: int, total: nat) {
    match action
    case Refuse(_) => false
    case Keep => Refusal(None, 0, total) == 0
    case Stream(sink) => !(sink.ceiling >= 0 && length > sink.ceiling) && Refusal(Some(sink), 0, total) == 0
  }

  function SinkOf(action: HeadAction): Option<Sink> {
    if action.Stream? then Some(action.sink) else None
  }

  lemma HeadFound(bytes: seq<Byte>, rest: seq<Byte>)
    requires IndexOf(bytes + BLANK_LINE, BLANK_LINE) == |bytes|
    ensures var stream := bytes + BLANK_LINE + rest;
            && IndexOf(stream, BLANK_LINE) == |bytes|
            && stream[..|bytes|] == bytes && stream[|bytes| + 4..] == rest
  {
    IndexOfExtend(bytes + BLANK_LINE, rest, BLANK_LINE);
    Slices(bytes, BLANK_LINE, rest);
  }

  lemma HeadTurn(o: Owner, stream: seq<Byte>, end: nat, head: Head, total: nat)
    requires IndexOf(stream, BLANK_LINE) == end && end + 3 <= MAX_HEAD
    requires ParseHead(stream[..end]) == Some(head) && !head.preflight
    requires Takes(o.onHead(head), head.length, total)
    ensures var c := Ext(FRESH, stream);
            && !Stuck(c) && CutProof(c)
            && Step(o, c) == StartBody(head, SinkOf(o.onHead(head)), stream[end + 4..], [HeadersReady(head)])
  {
    assert [] + stream == stream;
    HeadTaken(o, head, stream[end + 4..], total);
  }

  lemma HeadTaken(o: Owner, head: Head, rest: seq<Byte>, total: nat)
    requires !head.preflight && Takes(o.onHead(head), head.length, total)
    ensures HeadParsed(o, head, rest, []) == StartBody(head, SinkOf(o.onHead(head)), rest, [HeadersReady(head)])
  {
    assert [] + [HeadersReady(head)] == [HeadersReady(head)];
  }

  /** What one read of the whole stream gives, every cutting of it gives. */
  lemma EveryCut(o: Owner, stream: seq<Byte>, d: Conn, e: Conn, pieces: seq<seq<Byte>>)
    requires Flatten(pieces) == stream
    requires !Stuck(Ext(FRESH, stream)) && CutProof(Ext(FRESH, stream)) && Step(o, Ext(FRESH, stream)) == d
    requires Valid(d) && Run(o, d) == e && Robust(o, d)
    ensures FeedAll(o, FRESH, pieces) == e
  {
    TurnThenRun(o, Ext(FRESH, stream), d, e);
    SplitInvariance(o, FRESH, pieces);
  }

  lemma CountedTurns(o: Owner, m: Mode, log: seq<Event>, body: seq<Byte>, tail: seq<Byte>)
    requires m.Body? && m.framing == Counted(|body|) && m.body == [] && m.buffer == body + tail
    requires Refusal(m.sink, 0, |body|) == 0
    ensures Run(o, Conn(m, log)) == FinishBody(o, m.head, body, log) && Robust(o, Conn(m, log))
  {
    var e := FinishBody(o, m.head, body, log);
    var n := m.(body := body, buffer := tail);
    FinishedRun(o, m.head, body, log);
    TurnThenRun(o, Conn(n, log), e, e);
    if body == [] {
      assert body + tail == tail;
    } else {
      assert (body + tail)[..|body|] == body && (body + tail)[|body|..] == tail && [] + body == body;
      TurnThenRun(o, Conn(m, log), Conn(n, log), e);
    }
  }

  /** The request line and the fields of a request that the owner takes, in one reading buffer. */
  ghost predicate Heads(o: Owner, bytes: seq<Byte>, head: Head, total: nat) {
    && ParseHead(bytes) == Some(head) && !head.preflight
    && IndexOf(bytes + BLANK_LINE, BLANK_LINE) == |bytes| && |bytes| + 3 <= MAX_HEAD
    && Takes(o.onHead(head), head.length, total)
  }

  lemma ChunkedStart(o: Owner, head: Head, sink: Option<Sink>, chunks: seq<Chunk>, last: SizeText,
                     trailers: seq<seq<Byte>>, tail: seq<Byte>)
    requires head.length < 0 && Refusal(sink, 0, |BodyOf(chunks)|) == 0
    requires WellFormedChunks(chunks) && last.Denotes(0)
    requires WellFormedTrailers(trailers) && TrailerBytes(trailers) <= MAX_HEAD
    ensures var d := StartBody(head, sink, Encode(chunks, last, trailers, tail), [HeadersReady(head)]);
            Valid(d) && Run(o, d) == Served(o, head, BodyOf(chunks)) && Robust(o, d)
  {
    var rest, body := Encode(chunks, last, trailers, tail), BodyOf(chunks);
    var m := Body(head, sink, [], SizeLine, rest);
    var log := [HeadersReady(head)] + if head.waits then [Continue] else [];
    assert [] + body == body;
    RunChunks(o, m, log, chunks, last, trailers, tail);
    assert [HeadersReady(head)] + [] == [HeadersReady(head)];
    assert StartBody(head, sink, rest, [HeadersReady(head)]) == Conn(m, log);
  }

  /** A whole request with a chunked body, from the first byte, under any cutting into reads. */
  lemma ChunkedMessage(o: Owner, bytes: seq<Byte>, head: Head, chunks: seq<Chunk>, last: SizeText,
                       trailers: seq<seq<Byte>>, tail: seq<Byte>, pieces: seq<seq<Byte>>)
    requires Heads(o, bytes, head, |BodyOf(chunks)|) && head.length < 0
    requires WellFormedChunks(chunks) && last.Denotes(0)
    requires WellFormedTrailers(trailers) && TrailerBytes(trailers) <= MAX_HEAD
    requires Flatten(pieces) == bytes + BLANK_LINE + Encode(chunks, last, trailers, tail)
    ensures FeedAll(o, FRESH, pieces) == Served(o, head, BodyOf(chunks))
  {
    ChunkedStart(o, head, SinkOf(o.onHead(head)), chunks, last, trailers, tail);
    FromTheHead(o, bytes, head, |BodyOf(chunks)|, Encode(chunks, last, trailers, tail), Served(o, head, BodyOf(chunks)), pieces);
  }

  /** What the body does after the head, the whole message does under every cutting. */
  lemma FromTheHead(o: Owner, bytes: seq<Byte>, head: Head, total: nat, rest: seq<Byte>, e: Conn, pieces: seq<seq<Byte>>)
    requires Heads(o, bytes, head, total)
    requires Flatten(pieces) == bytes + BLANK_LINE + rest
    requires var d := StartBody(head, SinkOf(o.onHead(head)), rest, [HeadersReady(head)]);
             Valid(d) && Run(o, d) == e && Robust(o, d)
    ensures FeedAll(o, FRESH, pieces) == e
  {
    var stream := Flatten(pieces);
    HeadFound(bytes, rest);
    HeadTurn(o, stream, |bytes|, head, total);
    EveryCut(o, stream, StartBody(head, SinkOf(o.onHead(head)), rest, [HeadersReady(head)]), e, pieces);
  }

  lemma CountedStart(o: Owner, head: Head, sink: Option<Sink>, body: seq<Byte>, tail: seq<Byte>)
    requires head.length == |body| && Refusal(sink, 0, |body|) == 0
    ensures var d := StartBody(head, sink, body + tail, [HeadersReady(head)]);
            Valid(d) && Run(o, d) == Served(o, head, body) && Robust(o, d)
  {
    var m := Body(head, sink, [], Counted(|body|), body + tail);
    var log := [HeadersReady(head)] + if head.waits then [Continue] else [];
    CountedTurns(o, m, log, body, tail);
    assert [HeadersReady(head)] + [] == [HeadersReady(head)];
    assert StartBody(head, sink, body + tail, [HeadersReady(head)]) == Conn(m, log);
  }

  /** The same for a body of the announced length. */
  lemma CountedMessage(o: Owner, bytes: seq<Byte>, head: Head, body: seq<Byte>, tail: seq<Byte>, pieces: seq<seq<Byte>>)
    requires Heads(o, bytes, head, |body|) && head.length == |body|
    requires Flatten(pieces) == bytes + BLANK_LINE + (body + tail)
    ensures FeedAll(o, FRESH, pieces) == Served(o, head, body)
  {
    CountedStart(o, head, SinkOf(o.onHead(head)), body, tail);
    FromTheHead(o, bytes, head, |body|, body + tail, Served(o, head, body), pieces);
  }
}
