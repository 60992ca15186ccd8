/** What one connection does with the bytes it is given, as a function from state to state.
    HttpConnection.dfy is the object that computes it with the loops of the C++ class. */
module HttpReader {
  import opened Bytes
  import opened HttpHead

  const MAX_HEAD := 32 * 1024
  const MAX_BUFFERED_BODY := 16 * 1024 * 1024

  /** Where a streamed body goes: at most `ceiling` bytes are allowed (-1 for no ceiling), and the
      device behind it has space for `room` bytes, after which a write comes up short. */
  datatype Sink = Sink(ceiling: int, room: nat)

  /** What the owner of the connection does when the head is in, and when the body is. */
  datatype HeadAction = Keep | Stream(sink: Sink) | Refuse(status: int)
  datatype RequestAction = Park | Answer(status: int)
  datatype Owner = Owner(onHead: Head -> HeadAction, onRequest: (Head, seq<Byte>) -> RequestAction)

  /** The signals the connection emits and the bytes it writes, in order. */
  datatype Event =
    | HeadersReady(head: Head)
    | Continue
    | RequestReady(body: seq<Byte>)
    | Response(status: int)
    | Closed

  /** How the end of the body is found, and how far into a chunked body the reader is. */
  datatype Framing =
    | Counted(length: nat)
    | SizeLine
    | Data(remaining: nat)
    | DataEnd
    | Trailer(trailerBytes: nat)

  /** Bytes are only kept while reading. A connection whose request was delivered and not yet
      answered is parked; whatever arrives for it, or after an answer, is dropped. */
  datatype Mode =
    | Heading(buffer: seq<Byte>)
    | Body(head: Head, sink: Option<Sink>, body: seq<Byte>, framing: Framing, buffer: seq<Byte>)
    | Parked
    | Answered
    | Gone            // the socket is closed

  datatype Conn = Conn(mode: Mode, log: seq<Event>)

  const FRESH := Conn(Heading([]), [])

  predicate Live(c: Conn) {
    c.mode.Heading? || c.mode.Body?
  }

  function Respond(c: Conn, status: int): Conn {
    if c.mode.Answered? || c.mode.Gone? then c else Conn(Answered, c.log + [Response(status)])
  }

  /** The connection with `more` bytes waiting to be read. */
  function Ext(c: Conn, more: seq<Byte>): Conn {
    match c.mode
    case Heading(buffer) => c.(mode := Heading(buffer + more))
    case Body(_, _, _, _, buffer) => c.(mode := c.mode.(buffer := buffer + more))
    case _ => c
  }

  // --- body -------------------------------------------------------------------------

  /** The status that `more` bytes are refused with when `held` are in already, 0 when they are
      taken: past the ceiling, no space behind the sink, or too much to keep in memory. */
  function Refusal(sink: Option<Sink>, held: nat, more: nat): int {
    match sink
    case Some(s) =>
      if s.ceiling >= 0 && held + more > s.ceiling then 413
      else if held + more > s.room then 500
      else 0
    case None => if held + more > MAX_BUFFERED_BODY then 413 else 0
  }

  function Min(a: nat, b: nat): nat {
    if a <= b then a else b
  }

  /** Moves the first `n` waiting bytes into the body and goes on with `next`. */
  function Deliver(m: Mode, log: seq<Event>, n: nat, next: Framing): Conn
    requires m.Body? && 0 < n <= |m.buffer|
  {
    var status := Refusal(m.sink, |m.body|, n);
    if status != 0 then Conn(Answered, log + [Response(status)])
    else Conn(m.(body := m.body + m.buffer[..n], buffer := m.buffer[n..], framing := next), log)
  }

  /** The request is handed over, once, with its whole body. */
  function FinishBody(o: Owner, head: Head, body: seq<Byte>, log: seq<Event>): Conn {
    var done := Conn(Parked, log + [RequestReady(body)]);
    match o.onRequest(head, body)
    case Park => done
    case Answer(status) => Respond(done, status)
  }

  // --- one turn of the reading loops ---------------------------------------------------

  ghost predicate Valid(c: Conn) {
    c.mode.Body? && c.mode.framing.Data? ==> c.mode.framing.remaining > 0
  }

  /** No turn can be taken until more bytes arrive, or ever again. */
  predicate Stuck(c: Conn) {
    match c.mode
    case Heading(buffer) => IndexOf(buffer, BLANK_LINE) < 0 && |buffer| <= MAX_HEAD
    case Body(_, _, body, framing, buffer) =>
      (match framing
       case Counted(length) => |body| < length && buffer == []
       case SizeLine => IndexOf(buffer, CRLF) < 0 && |buffer| <= MAX_HEAD
       case Data(_) => buffer == []
       case DataEnd => |buffer| < 2
       case Trailer(_) => IndexOf(buffer, CRLF) < 0)
    case _ => true
  }

  function HeadStep(o: Owner, buffer: seq<Byte>, log: seq<Event>): Conn {
    var end := IndexOf(buffer, BLANK_LINE);
    if end < 0 then Conn(Answered, log + [Response(431)])
    else
      match ParseHead(buffer[..end])
      case None => Conn(Answered, log + [Response(400)])
      case Some(head) => HeadParsed(o, head, buffer[end + 4..], log)
  }

  /** A preflight is answered at once; otherwise the owner decides what becomes of the body. */
  function HeadParsed(o: Owner, head: Head, rest: seq<Byte>, log: seq<Event>): Conn {
    if head.preflight then Conn(Answered, log + [Response(204)])
    else
      var seen := log + [HeadersReady(head)];
      match o.onHead(head)
      case Refuse(status) => Conn(Answered, seen + [Response(status)])
      case Keep => StartBody(head, None, rest, seen)
      case Stream(sink) =>
        if sink.ceiling >= 0 && head.length > sink.ceiling then Conn(Answered, seen + [Response(413)])
        else StartBody(head, Some(sink), rest, seen)
  }

  function StartBody(head: Head, sink: Option<Sink>, rest: seq<Byte>, log: seq<Event>): Conn {
    var length := head.length;
    Conn(Body(head, sink, [], if length < 0 then SizeLine else Counted(length), rest),
         if head.waits then log + [Continue] else log)
  }

  /** The number on a chunk-size line, whatever follows a semicolon. */
  function ChunkLineSize(line: seq<Byte>): (n: Option<int>) {
    var cut := IndexOf(line, [59]);
    ParseInt64(Trim(if cut >= 0 then line[..cut] else line), 16)
  }

  /** Goes on after a size line that read as `size`; 0 announces the trailer section. */
  function SizeRead(m: Mode, log: seq<Event>, size: Option<int>, rest: seq<Byte>): Conn
    requires m.Body?
  {
    if size.None? || size.value < 0 then Conn(Answered, log + [Response(400)])
    else Conn(m.(framing := if size.value == 0 then Trailer(0) else Data(size.value), buffer := rest), log)
  }

  function SizeLineStep(m: Mode, log: seq<Event>): Conn
    requires m.Body?
  {
    var eol := IndexOf(m.buffer, CRLF);
    if eol < 0 then Conn(Answered, log + [Response(400)])
    else SizeRead(m, log, ChunkLineSize(m.buffer[..eol]), m.buffer[eol + 2..])
  }

  function TrailerStep(o: Owner, m: Mode, log: seq<Event>): Conn
    requires m.Body? && m.framing.Trailer? && IndexOf(m.buffer, CRLF) >= 0
  {
    var eol := IndexOf(m.buffer, CRLF);
    var bytes := m.framing.trailerBytes + eol + 2;
    if bytes > MAX_HEAD then Conn(Answered, log + [Response(431)])
    else if eol == 0 then FinishBody(o, m.head, m.body, log)
    else Conn(m.(framing := Trailer(bytes), buffer := m.buffer[eol + 2..]), log)
  }

  function BodyStep(o: Owner, m: Mode, log: seq<Event>): Conn
    requires m.Body? && Valid(Conn(m, log)) && !Stuck(Conn(m, log))
  {
    match m.framing
    case Counted(length) =>
      if |m.body| < length then Deliver(m, log, Min(length - |m.body|, |m.buffer|), m.framing)
      else FinishBody(o, m.head, m.body, log)
    case SizeLine => SizeLineStep(m, log)
    case Data(remaining) =>
      var n := Min(remaining, |m.buffer|);
      Deliver(m, log, n, if n == remaining then DataEnd else Data(remaining - n))
    case DataEnd => Conn(m.(framing := SizeLine, buffer := m.buffer[2..]), log)
    case Trailer(_) => TrailerStep(o, m, log)
  }

  function Step(o: Owner, c: Conn): (d: Conn)
    requires Valid(c) && !Stuck(c)
  {
    if c.mode.Heading? then HeadStep(o, c.mode.buffer, c.log) else BodyStep(o, c.mode, c.log)
  }

  function Waiting(c: Conn): nat {
    match c.mode
    case Heading(buffer) => |buffer| + 1
    case Body(_, _, _, _, buffer) => |buffer| + 1
    case _ => 0
  }

  /** Every turn uses up bytes or is the last one, whatever the peer sends. */
  lemma StepProgress(o: Owner, c: Conn)
    requires Valid(c) && !Stuck(c)
    ensures Valid(Step(o, c)) && Waiting(Step(o, c)) < Waiting(c)
  {
    if c.mode.Body? {
      BodyProgress(o, c.mode, c.log);
    } else {
      HeadProgress(o, c.mode.buffer, c.log);
    }
  }

  lemma HeadProgress(o: Owner, buffer: seq<Byte>, log: seq<Event>)
    ensures Valid(HeadStep(o, buffer, log)) && Waiting(HeadStep(o, buffer, log)) <= |buffer|
  {
    var end := IndexOf(buffer, BLANK_LINE);
    if end >= 0 {
      match ParseHead(buffer[..end])
      case None =>
      case Some(head) => ParsedProgress(o, head, buffer[end + 4..], log);
    }
  }

  lemma ParsedProgress(o: Owner, head: Head, rest: seq<Byte>, log: seq<Event>)
    ensures Valid(HeadParsed(o, head, rest, log)) && Waiting(HeadParsed(o, head, rest, log)) <= |rest| + 1
  {
  }

  lemma BodyProgress(o: Owner, m: Mode, log: seq<Event>)
    requires m.Body? && Valid(Conn(m, log)) && !Stuck(Conn(m, log))
    ensures Valid(BodyStep(o, m, log)) && Waiting(BodyStep(o, m, log)) < Waiting(Conn(m, log))
  {
  }

  /** Turns of the loops until one of them has to wait. */
  function Run(o: Owner, c: Conn): (d: Conn)
    requires Valid(c)
    ensures Valid(d) && Stuck(d)
    decreases Waiting(c)
  {
    if Stuck(c) then c else StepProgress(o, c); Run(o, Step(o, c))
  }

  /** One readyRead. */
  function Feed(o: Owner, c: Conn, data: seq<Byte>): (d: Conn)
    requires Valid(c)
    ensures Valid(d)
  {
    Run(o, Ext(c, data))
  }

  function FeedAll(o: Owner, c: Conn, pieces: seq<seq<Byte>>): (d: Conn)
    requires Valid(c)
    ensures Valid(d)
    decreases |pieces|
  {
    if pieces == [] then c else FeedAll(o, Feed(o, c, pieces[0]), pieces[1..])
  }

  /** Everything that can happen to a connection. A reply comes from its owner at any time. */
  datatype Input =
    | Bytes(data: seq<Byte>)
    | IdleTimeout
    | HeaderDeadline
    | Reply(status: int)
    | Disconnected

  function React(o: Owner, c: Conn, input: Input): (d: Conn)
    requires Valid(c)
    ensures Valid(d)
  {
    match input
    case Bytes(data) => Feed(o, c, data)
    case IdleTimeout => Respond(c, 408)
    case HeaderDeadline => if c.mode.Heading? then Respond(c, 408) else c
    case Reply(status) => Respond(c, status)
    case Disconnected => if c.mode.Gone? then c else Conn(Gone, c.log + [Closed])
  }

  function ReactAll(o: Owner, c: Conn, inputs: seq<Input>): (d: Conn)
    requires Valid(c)
    ensures Valid(d)
    decreases |inputs|
  {
    if inputs == [] then c else ReactAll(o, React(o, c, inputs[0]), inputs[1..])
  }

  function Flatten<T>(parts: seq<seq<T>>): (s: seq<T>) {
    if parts == [] then [] else parts[0] + Flatten(parts[1..])
  }
}
