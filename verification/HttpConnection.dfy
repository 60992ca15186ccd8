/** The connection object: the fields the C++ class keeps and the loops it runs over them, proved
    to compute what HttpReader says. */
module HttpConnection {
  import opened Bytes
  import opened HttpHead
  import opened HttpReader

  datatype State = ReadingHeaders | ReadingBody | Responded
  datatype ChunkState = ChunkSize | ChunkData | ChunkCrlf | ChunkTrailer | ChunkDone

  class HttpConnection {
    const owner: Owner

    var state: State
    var buffer: seq<Byte>
    var head: Option<Head>
    var body: seq<Byte>
    var sink: Option<Sink>
    var written: seq<Byte>        // what has reached the sink
    var contentLength: int        // -1 while a chunked body is still arriving
    var bodyReceived: nat
    var chunked: bool
    var chunkState: ChunkState
    var chunkRemaining: nat
    var trailerBytes: nat
    var bodyComplete: bool
    var closedEmitted: bool
    var log: seq<Event>           // signals emitted and responses written

    function Taken(): seq<Byte>
      reads this
    {
      if sink.Some? then written else body
    }

    ghost predicate Valid()
      reads this
    {
      && (closedEmitted ==> state == Responded)
      && (state == ReadingHeaders ==> !bodyComplete && sink == None && bodyReceived == 0 && body == [] && written == []
                                      && chunkState == ChunkSize && trailerBytes == 0)
      && (state == ReadingBody ==> head.Some?)
      && (state == ReadingBody && !bodyComplete ==>
            && bodyReceived == |Taken()|
            && (chunked <==> contentLength == -1)
            && contentLength >= -1
            && chunkState != ChunkDone
            && (chunkState == ChunkData ==> chunkRemaining > 0)
            && (chunkState != ChunkTrailer ==> trailerBytes == 0))
    }

    function Framing(): Framing
      reads this
      requires !chunked ==> contentLength >= 0
    {
      if !chunked then Counted(contentLength)
      else
        match chunkState
        case ChunkSize => SizeLine
        case ChunkData => Data(chunkRemaining)
        case ChunkCrlf => DataEnd
        case _ => Trailer(trailerBytes)
    }

    /** What an owner and a peer can tell about the connection. */
    ghost function Snapshot(): (c: Conn)
      reads this
      requires Valid()
    {
      if closedEmitted then Conn(Gone, log)
      else if state == Responded then Conn(Answered, log)
      else if bodyComplete then Conn(Parked, log)
      else if state == ReadingHeaders then Conn(Heading(buffer), log)
      else Conn(Body(head.value, sink, Taken(), Framing(), buffer), log)
    }

    constructor (o: Owner)
      ensures Valid() && owner == o && Snapshot() == FRESH
    {
      owner := o;
      state, buffer, head, body, sink, written := ReadingHeaders, [], None, [], None, [];
      contentLength, bodyReceived, chunked := 0, 0, false;
      chunkState, chunkRemaining, trailerBytes := ChunkSize, 0, 0;
      bodyComplete, closedEmitted, log := false, false, [];
    }

    /** The answer to the request; only the first one counts. */
    method Respond(status: int)
      requires Valid()
      modifies this
      ensures Valid() && Snapshot() == HttpReader.Respond(old(Snapshot()), status)
      ensures state == Responded && closedEmitted == old(closedEmitted)
    {
      if state == Responded {
        return;
      }
      state := Responded;
      log := log + [Response(status)];
    }

    method OnIdleTimeout()
      requires Valid()
      modifies this
      ensures Valid() && Snapshot() == React(owner, old(Snapshot()), IdleTimeout)
    {
      if state == Responded {
        return;
      }
      Respond(408);
    }

    method OnHeaderDeadline()
      requires Valid()
      modifies this
      ensures Valid() && Snapshot() == React(owner, old(Snapshot()), HeaderDeadline)
    {
      if state == ReadingHeaders {
        Respond(408);
      }
    }

    method OnDisconnected()
      requires Valid()
      modifies this
      ensures Valid() && Snapshot() == React(owner, old(Snapshot()), Disconnected)
    {
      if closedEmitted {
        return;
      }
      closedEmitted := true;
      state := Responded;
      log := log + [Closed];
    }

    /** The table of header fields, line by line; None once a name is given two values. */
    static method ParseFields(lines: seq<seq<Byte>>) returns (fields: Option<Fields>)
      ensures fields == Collect(FieldLines(lines), map[])
    {
      var table: Fields := map[];
      for i := 0 to |lines|
        invariant Collect(FieldLines(lines[i..]), table) == Collect(FieldLines(lines), map[])
      {
        CollectLine(lines[i..], table);
        assert lines[i..][0] == lines[i] && lines[i..][1..] == lines[i + 1..];
        var field := FieldOf(lines[i]);
        if field.Some? {
          var (name, value) := field.value;
          if name in table && table[name] != value {
            return None;
          }
          table := table[name := value];
        }
      }
      assert lines[|lines|..] == [];
      return Some(table);
    }

    static method ParseRequest(bytes: seq<Byte>) returns (parsed: Option<Head>)
      ensures parsed == ParseHead(bytes)
    {
      var lines := Split(bytes, LF);
      var request := Split(Trim(lines[0]), 32);
      if |request| < 2 {
        return None;
      }
      var fields := ParseFields(lines[1..]);
      if fields.None? {
        return None;
      }
      return Some(HeadOf(request[0], request[1], fields.value));
    }

    /** Takes a block of the body where it belongs, or answers the request and says so. */
    method Deliver(data: seq<Byte>) returns (ok: bool)
      requires state == ReadingBody && bodyReceived == |Taken()|
      modifies this`state, this`log, this`written, this`body, this`bodyReceived
      ensures ok <==> Refusal(sink, |old(Taken())|, |data|) == 0
      ensures ok ==> state == ReadingBody && bodyReceived == |Taken()| && Taken() == old(Taken()) + data && log == old(log)
      ensures !ok ==> state == Responded && log == old(log) + [Response(Refusal(sink, |old(Taken())|, |data|))]
    {
      if sink.Some? {
        if sink.value.ceiling >= 0 && bodyReceived + |data| > sink.value.ceiling {
          Fail(413);
          return false;
        }
        if |written| + |data| > sink.value.room {
          // A short write: part of the block may have reached the device.
          Fail(500);
          return false;
        }
        written := written + data;
      } else {
        if |body| + |data| > MAX_BUFFERED_BODY {
          Fail(413);
          return false;
        }
        body := body + data;
      }
      bodyReceived := bodyReceived + |data|;
      return true;
    }

    method Fail(status: int)
      requires state != Responded
      modifies this`state, this`log
      ensures state == Responded && log == old(log) + [Response(status)]
    {
      state := Responded;
      log := log + [Response(status)];
    }

    method FinishBody()
      requires Valid() && state == ReadingBody && !bodyComplete
      modifies this
      ensures Valid()
      ensures Snapshot() == HttpReader.FinishBody(owner, old(head).value, old(Taken()), old(log))
    {
      bodyComplete := true;
      buffer := [];
      log := log + [RequestReady(Taken())];
      match owner.onRequest(head.value, Taken())
      case Park =>
      case Answer(status) => Respond(status);
    }

    /** From here the body goes to `s`. An announced length past the ceiling is refused at once. */
    method StreamBodyTo(s: Sink)
      requires Valid() && state == ReadingBody && !bodyComplete && bodyReceived == 0 && sink == None
      modifies this`state, this`log, this`sink, this`written
      ensures Valid() && sink == Some(s) && written == []
      ensures if s.ceiling >= 0 && contentLength > s.ceiling
              then state == Responded && log == old(log) + [Response(413)]
              else state == ReadingBody && log == old(log)
    {
      sink, written := Some(s), [];
      if s.ceiling >= 0 && contentLength > s.ceiling {
        Fail(413);
      }
    }

    /** The owner's turn, between the head and the body. */
    method EmitHeadersReady()
      requires Valid() && state == ReadingBody && !bodyComplete && bodyReceived == 0 && sink == None
      modifies this`state, this`log, this`sink, this`written
      ensures Valid()
      ensures match owner.onHead(head.value)
              case Refuse(status) => state == Responded && log == old(log) + [HeadersReady(head.value), Response(status)]
              case Keep => state == ReadingBody && sink == None && log == old(log) + [HeadersReady(head.value)]
              case Stream(s) =>
                if s.ceiling >= 0 && contentLength > s.ceiling
                then state == Responded && log == old(log) + [HeadersReady(head.value), Response(413)]
                else state == ReadingBody && sink == Some(s) && written == [] && log == old(log) + [HeadersReady(head.value)]
    {
      log := log + [HeadersReady(head.value)];
      match owner.onHead(head.value)
      case Refuse(status) => Fail(status);
      case Keep =>
      case Stream(s) => StreamBodyTo(s);
    }

    /** One block of a body of known length. */
    method ReadBlock() returns (ok: bool)
      requires Valid() && state == ReadingBody && !bodyComplete && !chunked
      requires bodyReceived < contentLength && buffer != []
      modifies this`buffer, this`state, this`log, this`written, this`body, this`bodyReceived
      ensures Valid() && HttpReader.Valid(old(Snapshot())) && !HttpReader.Stuck(old(Snapshot()))
      ensures Snapshot() == Step(owner, old(Snapshot()))
      ensures |buffer| < |old(buffer)| && (if ok then state == ReadingBody else state == Responded)
    {
      var take := Min(contentLength - bodyReceived, |buffer|);
      var data := buffer[..take];
      buffer := buffer[take..];
      ok := Deliver(data);
    }

    method ConsumeCounted()
      requires Valid() && state == ReadingBody && !bodyComplete && !chunked
      modifies this
      ensures Valid() && Snapshot() == Run(owner, old(Snapshot()))
    {
      ghost var start := Snapshot();
      while bodyReceived < contentLength && buffer != []
        invariant Valid() && state == ReadingBody && !bodyComplete && !chunked
        invariant Run(owner, Snapshot()) == Run(owner, start)
        decreases |buffer|
      {
        var ok := ReadBlock();
        if !ok {
          return;
        }
      }
      if bodyReceived >= contentLength {
        ghost var before := Snapshot();
        FinishBody();
        assert Snapshot() == Step(owner, before);
      }
    }

    /** One pass over the chunk switch: the turn HttpReader describes, or nothing when the bytes
        for it are not in yet. `again` tells whether the loop goes on. */
    ghost predicate InChunks()
      reads this
    {
      Valid() && state == ReadingBody && !bodyComplete && chunked
    }

    twostate predicate Turned(again: bool)
      requires old(Valid()) && Valid()
      reads this
    {
      var before, after := old(Snapshot()), Snapshot();
      && HttpReader.Valid(before)
      && if HttpReader.Stuck(before) then after == before && !again
         else after == Step(owner, before) && (if again then InChunks() else !Live(after))
    }

    method ReadSizeLine() returns (again: bool)
      requires InChunks() && chunkState == ChunkSize
      modifies this
      ensures Valid() && Turned(again)
    {
      var eol := IndexOf(buffer, CRLF);
      if eol < 0 {
        if |buffer| > MAX_HEAD {
          Fail(400);
        }
        return false;
      }
      var sizeLine := buffer[..eol];
      buffer := buffer[eol + 2..];
      again := StartChunk(ChunkLineSize(sizeLine));
    }

    method StartChunk(size: Option<int>) returns (ok: bool)
      requires InChunks() && chunkState == ChunkSize
      modifies this`state, this`log, this`chunkRemaining, this`chunkState
      ensures Valid() && old(Snapshot()).mode.Body?
      ensures Snapshot() == SizeRead(old(Snapshot()).mode, old(log), size, buffer)
      ensures if ok then InChunks() else state == Responded
    {
      if size.None? || size.value < 0 {
        Fail(400);
        return false;
      }
      chunkRemaining := size.value;
      chunkState := if chunkRemaining == 0 then ChunkTrailer else ChunkData;
      return true;
    }

    method ReadChunkData() returns (again: bool)
      requires InChunks() && chunkState == ChunkData
      modifies this
      ensures Valid() && Turned(again)
    {
      if buffer == [] {
        return false;
      }
      var take := Min(chunkRemaining, |buffer|);
      var data := buffer[..take];
      buffer := buffer[take..];
      chunkRemaining := chunkRemaining - take;
      var ok := Deliver(data);
      if !ok {
        return false;
      }
      if chunkRemaining == 0 {
        chunkState := ChunkCrlf;
      }
      return true;
    }

    method ReadTrailerLine() returns (again: bool)
      requires InChunks() && chunkState == ChunkTrailer
      modifies this
      ensures Valid() && Turned(again)
    {
      var eol := IndexOf(buffer, CRLF);
      if eol < 0 {
        return false;
      }
      trailerBytes := trailerBytes + eol + 2;
      if trailerBytes > MAX_HEAD {
        Fail(431);
        return false;
      }
      buffer := buffer[eol + 2..];
      if eol == 0 {
        FinishBody();
        chunkState := ChunkDone;
        contentLength := bodyReceived;
        return false;
      }
      return true;
    }

    method SkipChunkEnd() returns (again: bool)
      requires InChunks() && chunkState == ChunkCrlf
      modifies this
      ensures Valid() && Turned(again)
    {
      if |buffer| < 2 {
        return false;
      }
      buffer := buffer[2..];
      chunkState := ChunkSize;
      return true;
    }

    method ConsumeChunkedBody()
      requires InChunks()
      modifies this
      ensures Valid() && Snapshot() == Run(owner, old(Snapshot()))
    {
      ghost var start := Snapshot();
      while true
        invariant InChunks() && Run(owner, Snapshot()) == Run(owner, start)
        decreases Waiting(Snapshot())
      {
        label Turn:
        ghost var before := Snapshot();
        var again: bool;
        match chunkState {
          case ChunkSize => again := ReadSizeLine();
          case ChunkData => again := ReadChunkData();
          case ChunkCrlf => again := SkipChunkEnd();
          case ChunkTrailer => again := ReadTrailerLine();
        }
        assert Turned@Turn(again);
        if !again {
          return;
        }
        StepProgress(owner, before);
      }
    }

    method ConsumeBody()
      requires Valid() && state != ReadingHeaders
      modifies this
      ensures Valid() && Snapshot() == Run(owner, old(Snapshot()))
    {
      if state != ReadingBody || bodyComplete {
        return;
      }
      if chunked {
        ConsumeChunkedBody();
      } else {
        ConsumeCounted();
      }
    }

    /** The head, once its blank line is in. Afterwards the body is being read, or the request has
        been answered. */
    method ReadHead(end: nat)
      requires Valid() && state == ReadingHeaders && end == IndexOf(buffer, BLANK_LINE)
      modifies this
      ensures Valid() && state != ReadingHeaders && !bodyComplete
      ensures Snapshot() == HeadStep(owner, old(buffer), old(log))
    {
      var bytes := buffer[..end];
      buffer := buffer[end + 4..];
      var parsed := ParseRequest(bytes);
      if parsed.None? {
        Fail(400);
        return;
      }
      HeadIn(parsed.value);
    }

    method HeadIn(parsed: Head)
      requires Valid() && state == ReadingHeaders && parsed.length >= -1
      modifies this
      ensures Valid() && state != ReadingHeaders && !bodyComplete
      ensures Snapshot() == HeadParsed(owner, parsed, old(buffer), old(log))
    {
      head := Some(parsed);
      chunked := head.value.length < 0;
      contentLength := head.value.length;
      state := ReadingBody;
      if head.value.preflight {
        Fail(204);
        return;
      }
      EmitHeadersReady();
      if state != ReadingBody {
        return;
      }
      if head.value.waits {
        log := log + [Continue];
      }
    }

    /** Looks for the end of the head in what has arrived so far. */
    method AwaitHead() returns (found: bool)
      requires Valid() && state == ReadingHeaders
      modifies this
      ensures Valid() && Run(owner, Snapshot()) == Run(owner, old(Snapshot()))
      ensures if found then state != ReadingHeaders else HttpReader.Stuck(Snapshot())
    {
      ghost var start := Snapshot();
      var end := IndexOf(buffer, BLANK_LINE);
      if end < 0 {
        if |buffer| > MAX_HEAD {
          Fail(431);
          assert Snapshot() == Step(owner, start);
        }
        return false;
      }
      ReadHead(end);
      assert Snapshot() == Step(owner, start);
      return true;
    }

    method OnReadyRead(data: seq<Byte>)
      requires Valid()
      modifies this
      ensures Valid() && Snapshot() == Feed(owner, old(Snapshot()), data)
    {
      if state == Responded || bodyComplete {
        return;
      }
      buffer := buffer + data;
      assert Snapshot() == Ext(old(Snapshot()), data);
      if state == ReadingHeaders {
        var found := AwaitHead();
        if !found {
          return;
        }
      }
      ConsumeBody();
    }
  }
}
