/** Over the whole life of a connection every signal and the final response come at most once, and
    in the one order that makes sense. */
module HttpOrder {
  import opened Bytes
  import opened HttpHead
  import opened HttpReader

  function Order(e: Event): nat {
    match e
    case HeadersReady(_) => 1
    case Continue => 2
    case RequestReady(_) => 3
    case Response(_) => 4
    case Closed => 5
  }

  /** Strictly later kinds only, so no kind twice; and no body without its head before it. */
  ghost predicate Ordered(log: seq<Event>) {
    && (forall i, j :: 0 <= i < j < |log| ==> Order(log[i]) < Order(log[j]))
    && ((exists i :: 0 <= i < |log| && log[i].RequestReady?) ==> log[0].HeadersReady?)
  }

  function LastOrder(log: seq<Event>): nat {
    if log == [] then 0 else Order(log[|log| - 1])
  }

  ghost predicate InStep(c: Conn) {
    && Ordered(c.log)
    && match c.mode
       case Heading(_) => c.log == []
       case Body(_, _, _, _, _) => c.log != [] && c.log[0].HeadersReady? && LastOrder(c.log) <= 2
       case Parked => LastOrder(c.log) == 3
       case Answered => LastOrder(c.log) == 4
       case Gone => LastOrder(c.log) == 5
  }

  lemma Append(log: seq<Event>, e: Event)
    requires Ordered(log) && LastOrder(log) < Order(e)
    requires e.RequestReady? ==> log != [] && log[0].HeadersReady?
    ensures Ordered(log + [e]) && LastOrder(log + [e]) == Order(e)
    ensures log != [] ==> (log + [e])[0] == log[0]
  {
    var after := log + [e];
    forall i, j | 0 <= i < j < |after|
      ensures Order(after[i]) < Order(after[j])
    {
      if j == |log| && i < |log| - 1 {
        assert Order(log[i]) < Order(log[|log| - 1]);
      }
    }
    if i :| 0 <= i < |after| && after[i].RequestReady? {
      assert i < |log| ==> log[i].RequestReady?;
    }
  }

  lemma FinishInStep(o: Owner, head: Head, body: seq<Byte>, log: seq<Event>)
    requires Ordered(log) && log != [] && log[0].HeadersReady? && LastOrder(log) <= 2
    ensures InStep(FinishBody(o, head, body, log))
  {
    Append(log, RequestReady(body));
    match o.onRequest(head, body)
    case Park =>
    case Answer(status) => Append(log + [RequestReady(body)], Response(status));
  }

  lemma ParsedInStep(o: Owner, head: Head, rest: seq<Byte>)
    ensures InStep(HeadParsed(o, head, rest, []))
  {
    var seen := [] + [HeadersReady(head)];
    Append([], Response(204));
    Append([], HeadersReady(head));
    Append(seen, Response(413));
    Append(seen, Continue);
    match o.onHead(head)
    case Refuse(status) => Append(seen, Response(status));
    case _ =>
  }

  lemma HeadingInStep(o: Owner, c: Conn)
    requires Valid(c) && !Stuck(c) && InStep(c) && c.mode.Heading?
    ensures InStep(Step(o, c))
  {
    Append(c.log, Response(400));
    Append(c.log, Response(431));
    var buffer := c.mode.buffer;
    var end := IndexOf(buffer, BLANK_LINE);
    if end >= 0 && ParseHead(buffer[..end]).Some? {
      ParsedInStep(o, ParseHead(buffer[..end]).value, buffer[end + 4..]);
    }
  }

  /** The log of a connection that is reading a body. */
  ghost predicate Reading(log: seq<Event>) {
    Ordered(log) && log != [] && log[0].HeadersReady? && LastOrder(log) <= 2
  }

  lemma DeliverInStep(m: Mode, log: seq<Event>, n: nat, next: Framing)
    requires m.Body? && 0 < n <= |m.buffer| && Reading(log)
    ensures InStep(Deliver(m, log, n, next))
  {
    Append(log, Response(Refusal(m.sink, |m.body|, n)));
  }

  lemma LineInStep(o: Owner, m: Mode, log: seq<Event>)
    requires m.Body? && Reading(log)
    ensures InStep(SizeLineStep(m, log))
    ensures m.framing.Trailer? && IndexOf(m.buffer, CRLF) >= 0 ==> InStep(TrailerStep(o, m, log))
  {
    Append(log, Response(400));
    Append(log, Response(431));
    FinishInStep(o, m.head, m.body, log);
  }

  lemma BodyInStep(o: Owner, c: Conn)
    requires Valid(c) && !Stuck(c) && InStep(c) && c.mode.Body?
    ensures InStep(Step(o, c))
  {
    var m := c.mode;
    match m.framing
    case Counted(length) =>
      if |m.body| < length {
        DeliverInStep(m, c.log, Min(length - |m.body|, |m.buffer|), m.framing);
      } else {
        FinishInStep(o, m.head, m.body, c.log);
      }
    case Data(remaining) =>
      var n := Min(remaining, |m.buffer|);
      DeliverInStep(m, c.log, n, if n == remaining then DataEnd else Data(remaining - n));
    case DataEnd =>
    case _ => LineInStep(o, m, c.log);
  }

  lemma StepInStep(o: Owner, c: Conn)
    requires Valid(c) && !Stuck(c) && InStep(c)
    ensures InStep(Step(o, c))
  {
    if c.mode.Heading? {
      HeadingInStep(o, c);
    } else {
      BodyInStep(o, c);
    }
  }

  lemma {:induction false} RunInStep(o: Owner, c: Conn)
    requires Valid(c) && InStep(c)
    ensures InStep(Run(o, c))
    decreases Waiting(c)
  {
    if !Stuck(c) {
      StepProgress(o, c);
      StepInStep(o, c);
      RunInStep(o, Step(o, c));
    }
  }

  lemma ReactInStep(o: Owner, c: Conn, input: Input)
    requires Valid(c) && InStep(c)
    ensures InStep(React(o, c, input))
  {
    match input
    case Bytes(data) => RunInStep(o, Ext(c, data));
    case IdleTimeout => if c.mode != Answered && c.mode != Gone { Append(c.log, Response(408)); }
    case HeaderDeadline => if c.mode.Heading? { Append(c.log, Response(408)); }
    case Reply(status) => if c.mode != Answered && c.mode != Gone { Append(c.log, Response(status)); }
    case Disconnected => if c.mode != Gone { Append(c.log, Closed); }
  }

  /** Whatever a peer sends, whatever timers fire and however often its owner replies. */
  lemma {:induction false} AtMostOnce(o: Owner, c: Conn, inputs: seq<Input>)
    requires Valid(c) && InStep(c)
    ensures InStep(ReactAll(o, c, inputs))
    decreases |inputs|
  {
    if inputs != [] {
      ReactInStep(o, c, inputs[0]);
      AtMostOnce(o, React(o, c, inputs[0]), inputs[1..]);
    }
  }
}
