/** A body of an announced length is handed on in order, from any fragments, and only a whole one is
    handed over. */
module HttpDelivery {
  import opened Bytes
  import opened HttpHead
  import opened HttpReader
  import opened HttpSplit

  /** A request on the wire: its head, and a body as long as the head says. */
  datatype Message = Message(bytes: seq<Byte>, head: Head, body: seq<Byte>)

  ghost predicate WellFormed(m: Message) {
    && ParseHead(m.bytes) == Some(m.head) && m.head.length == |m.body|
    && IndexOf(m.bytes + BLANK_LINE, BLANK_LINE) == |m.bytes|
  }

  function Stream(m: Message): seq<Byte> {
    m.bytes + BLANK_LINE + m.body
  }

  /** Every head that was announced is this one, and every request that was handed over has this body. */
  ghost predicate OnlyThis(log: seq<Event>, m: Message) {
    forall i :: 0 <= i < |log| ==> Fits(log[i], m)
  }

  predicate Fits(e: Event, m: Message) {
    (e.HeadersReady? ==> e.head == m.head) && (e.RequestReady? ==> e.body == m.body)
  }

  /** The reader after `read` bytes of the message, wherever it stands. */
  ghost predicate Follows(m: Message, c: Conn, read: seq<Byte>) {
    && OnlyThis(c.log, m)
    && match c.mode
       case Heading(buffer) => buffer == read
       case Body(_, _, body, framing, buffer) =>
         && framing == Counted(|m.body|) && |body| <= |m.body|
         && |m.bytes| + 4 <= |read| && body + buffer == read[|m.bytes| + 4..]
       case _ => true
  }

  lemma FollowsMore(m: Message, c: Conn, read: seq<Byte>, data: seq<Byte>)
    requires Follows(m, c, read)
    ensures Follows(m, Ext(c, data), read + data)
  {
    match c.mode
    case Body(_, _, body, _, buffer) =>
      assert body + (buffer + data) == (body + buffer) + data;
      assert (read + data)[|m.bytes| + 4..] == read[|m.bytes| + 4..] + data;
    case _ =>
  }

  lemma StreamParts(m: Message)
    requires WellFormed(m)
    ensures IndexOf(Stream(m), BLANK_LINE) == |m.bytes|
    ensures m.bytes <= Stream(m) && Stream(m)[|m.bytes| + 4..] == m.body
  {
    IndexOfExtend(m.bytes + BLANK_LINE, m.body, BLANK_LINE);
    Slices(m.bytes, BLANK_LINE, m.body);
  }

  lemma PrefixOf(s: seq<Byte>, t: seq<Byte>, n: nat)
    requires s <= t && n <= |s|
    ensures s[..n] == t[..n] && s[n..] <= t[n..]
  {
  }

  lemma FoundInPrefix(read: seq<Byte>, stream: seq<Byte>)
    requires read <= stream && IndexOf(read, BLANK_LINE) >= 0
    ensures IndexOf(read, BLANK_LINE) == IndexOf(stream, BLANK_LINE)
  {
    IndexOfExtend(read, stream[|read|..], BLANK_LINE);
    assert read + stream[|read|..] == stream;
  }

  /** The blank line is found where it is, as soon as it is there. */
  lemma HeadWhere(m: Message, read: seq<Byte>)
    requires WellFormed(m) && read <= Stream(m) && IndexOf(read, BLANK_LINE) >= 0
    ensures IndexOf(read, BLANK_LINE) == |m.bytes| && |m.bytes| + 4 <= |read| && read[..|m.bytes|] == m.bytes
  {
    StreamParts(m);
    FoundInPrefix(read, Stream(m));
    PrefixOf(read, Stream(m), |m.bytes|);
  }

  lemma OnlyMore(log: seq<Event>, e: Event, m: Message)
    requires OnlyThis(log, m) && Fits(e, m)
    ensures OnlyThis(log + [e], m)
  {
  }

  lemma StartFollows(m: Message, sink: Option<Sink>, log: seq<Event>, read: seq<Byte>, rest: seq<Byte>)
    requires WellFormed(m) && OnlyThis(log, m) && |m.bytes| + 4 <= |read| && rest == read[|m.bytes| + 4..]
    ensures Follows(m, StartBody(m.head, sink, rest, log), read)
  {
    OnlyMore(log, Continue, m);
    assert [] + rest == rest;
  }

  lemma ParsedFollows(o: Owner, m: Message, log: seq<Event>, read: seq<Byte>, rest: seq<Byte>)
    requires WellFormed(m) && OnlyThis(log, m) && |m.bytes| + 4 <= |read| && rest == read[|m.bytes| + 4..]
    ensures Follows(m, HeadParsed(o, m.head, rest, log), read)
  {
    var seen := log + [HeadersReady(m.head)];
    OnlyMore(log, Response(204), m);
    OnlyMore(log, HeadersReady(m.head), m);
    OnlyMore(seen, Response(413), m);
    match o.onHead(m.head)
    case Refuse(status) => OnlyMore(seen, Response(status), m);
    case Keep => StartFollows(m, None, seen, read, rest);
    case Stream(sink) => StartFollows(m, Some(sink), seen, read, rest);
  }

  lemma RefusedFollows(m: Message, log: seq<Event>, status: int, read: seq<Byte>)
    requires OnlyThis(log, m)
    ensures Follows(m, Conn(Answered, log + [Response(status)]), read)
  {
    OnlyMore(log, Response(status), m);
  }

  lemma HeadFollows(o: Owner, m: Message, buffer: seq<Byte>, log: seq<Event>)
    requires WellFormed(m) && buffer <= Stream(m) && OnlyThis(log, m)
    ensures Follows(m, HeadStep(o, buffer, log), buffer)
  {
    if IndexOf(buffer, BLANK_LINE) >= 0 {
      HeadWhere(m, buffer);
      ParsedFollows(o, m, log, buffer, buffer[|m.bytes| + 4..]);
    } else {
      RefusedFollows(m, log, 431, buffer);
    }
  }

  lemma FinishFollows(o: Owner, m: Message, head: Head, log: seq<Event>)
    requires OnlyThis(log, m)
    ensures OnlyThis(FinishBody(o, head, m.body, log).log, m) && !Live(FinishBody(o, head, m.body, log))
  {
  }

  lemma DeliverFollows(m: Message, b: Mode, log: seq<Event>, read: seq<Byte>, n: nat)
    requires b.Body? && Follows(m, Conn(b, log), read) && 0 < n <= |b.buffer| && |b.body| + n <= |m.body|
    ensures Follows(m, Deliver(b, log, n, b.framing), read)
  {
    OnlyMore(log, Response(Refusal(b.sink, |b.body|, n)), m);
    assert b.buffer[..n] + b.buffer[n..] == b.buffer;
    assert b.body + b.buffer[..n] + b.buffer[n..] == b.body + (b.buffer[..n] + b.buffer[n..]);
  }

  /** The body that is in when the reader stops counting is the whole of it. */
  lemma AllIn(m: Message, body: seq<Byte>, buffer: seq<Byte>, read: seq<Byte>)
    requires WellFormed(m) && read <= Stream(m) && |body| == |m.body|
    requires |m.bytes| + 4 <= |read| && body + buffer == read[|m.bytes| + 4..]
    ensures body == m.body
  {
    StreamParts(m);
    PrefixOf(read, Stream(m), |m.bytes| + 4);
    assert body == (body + buffer)[..|body|];
  }

  lemma BodyFollows(o: Owner, m: Message, b: Mode, log: seq<Event>, read: seq<Byte>)
    requires WellFormed(m) && read <= Stream(m) && b.Body? && Follows(m, Conn(b, log), read) && !Stuck(Conn(b, log))
    ensures Follows(m, BodyStep(o, b, log), read)
  {
    if |b.body| < |m.body| {
      DeliverFollows(m, b, log, read, Min(|m.body| - |b.body|, |b.buffer|));
    } else {
      AllIn(m, b.body, b.buffer, read);
      FinishFollows(o, m, b.head, log);
    }
  }

  lemma {:induction false} RunFollows(o: Owner, m: Message, c: Conn, read: seq<Byte>)
    requires WellFormed(m) && Valid(c) && read <= Stream(m) && Follows(m, c, read)
    ensures Follows(m, Run(o, c), read)
    decreases Waiting(c)
  {
    if !Stuck(c) {
      StepProgress(o, c);
      if c.mode.Heading? { HeadFollows(o, m, c.mode.buffer, c.log); } else { BodyFollows(o, m, c.mode, c.log, read); }
      RunFollows(o, m, Step(o, c), read);
    }
  }

  lemma FeedFollows(o: Owner, m: Message, c: Conn, read: seq<Byte>, data: seq<Byte>)
    requires WellFormed(m) && Valid(c) && read + data <= Stream(m) && Follows(m, c, read)
    ensures Follows(m, Feed(o, c, data), read + data)
  {
    FollowsMore(m, c, read, data);
    RunFollows(o, m, Ext(c, data), read + data);
  }

  lemma Joined(x: seq<Byte>, y: seq<Byte>, z: seq<Byte>, whole: seq<Byte>)
    requires x + (y + z) <= whole
    ensures x + y <= whole && x + y + z == x + (y + z)
  {
    assert x + y + z == x + (y + z);
  }

  lemma {:induction false} FeedAllFollows(o: Owner, m: Message, c: Conn, read: seq<Byte>, pieces: seq<seq<Byte>>)
    requires WellFormed(m) && Valid(c) && read + Flatten(pieces) <= Stream(m) && Follows(m, c, read)
    ensures Follows(m, FeedAll(o, c, pieces), read + Flatten(pieces))
    decreases |pieces|
  {
    if pieces == [] {
      assert read + [] == read;
    } else {
      Joined(read, pieces[0], Flatten(pieces[1..]), Stream(m));
      FeedFollows(o, m, c, read, pieces[0]);
      FeedAllFollows(o, m, Feed(o, c, pieces[0]), read + pieces[0], pieces[1..]);
    }
  }

  /** What the reader has handed on is the beginning of the body, and as much of it as has been read. */
  lemma HandedIsPrefix(m: Message, c: Conn, read: seq<Byte>)
    requires WellFormed(m) && read <= Stream(m) && c.mode.Body? && Follows(m, c, read)
    ensures c.mode.body <= m.body
  {
    StreamParts(m);
    PrefixOf(read, Stream(m), |m.bytes| + 4);
    assert c.mode.body <= c.mode.body + c.mode.buffer;
  }

  /** Whatever the owner wants of the body and wherever it goes, after any fragments of the message the
      reader has handed on a beginning of the body, and it has handed over a request only with all of it. */
  lemma BodyInOrder(o: Owner, m: Message, pieces: seq<seq<Byte>>)
    requires WellFormed(m) && Flatten(pieces) <= Stream(m)
    ensures var c := FeedAll(o, FRESH, pieces);
            && (c.mode.Body? ==> c.mode.body <= m.body && c.mode.framing == Counted(|m.body|))
            && OnlyThis(c.log, m)
  {
    assert [] + Flatten(pieces) == Flatten(pieces);
    FeedAllFollows(o, m, FRESH, [], pieces);
    var c := FeedAll(o, FRESH, pieces);
    if c.mode.Body? { HandedIsPrefix(m, c, Flatten(pieces)); }
  }

  // --- it is only ever added to ---------------------------------------------------------------------

  /** Nothing that was handed on is taken back. */
  ghost predicate AddsTo(c: Conn, d: Conn) {
    c.mode.Body? && d.mode.Body? ==> c.mode.body <= d.mode.body
  }

  lemma StepAdds(o: Owner, c: Conn)
    requires Valid(c) && !Stuck(c) && c.mode.Body?
    ensures AddsTo(c, Step(o, c)) && !Step(o, c).mode.Heading?
  {
  }

  lemma {:induction false} RunAdds(o: Owner, c: Conn)
    requires Valid(c) && c.mode.Body?
    ensures AddsTo(c, Run(o, c))
    decreases Waiting(c)
  {
    if !Stuck(c) {
      StepProgress(o, c);
      StepAdds(o, c);
      if Step(o, c).mode.Body? { RunAdds(o, Step(o, c)); }
    }
  }

  lemma FeedAdds(o: Owner, c: Conn, data: seq<Byte>)
    requires Valid(c) && c.mode.Body?
    ensures AddsTo(c, Feed(o, c, data))
  {
    RunAdds(o, Ext(c, data));
  }

  lemma {:induction false} FlattenMore(pieces: seq<seq<Byte>>, piece: seq<Byte>)
    ensures Flatten(pieces + [piece]) == Flatten(pieces) + piece
  {
    if pieces == [] {
      assert [piece][1..] == [];
      assert [] + [piece] == [piece] && piece + [] == piece;
    } else {
      assert (pieces + [piece])[1..] == pieces[1..] + [piece];
      FlattenMore(pieces[1..], piece);
    }
  }

  lemma {:induction false} FeedMore(o: Owner, c: Conn, pieces: seq<seq<Byte>>, piece: seq<Byte>)
    requires Valid(c)
    ensures FeedAll(o, c, pieces + [piece]) == Feed(o, FeedAll(o, c, pieces), piece)
    decreases |pieces|
  {
    if pieces == [] {
      assert [] + [piece] == [piece] && [piece][1..] == [];
      assert FeedAll(o, Feed(o, c, piece), []) == Feed(o, c, piece);
    } else {
      assert (pieces + [piece])[1..] == pieces[1..] + [piece];
      FeedMore(o, Feed(o, c, pieces[0]), pieces[1..], piece);
    }
  }

  lemma BetweenPrefixes(x: seq<Byte>, y: seq<Byte>, whole: seq<Byte>)
    requires x <= y <= whole
    ensures y[|x|..] == whole[|x|..|y|]
  {
  }

  /** So what one more read hands on is the next part of the body. */
  lemma NextBlock(o: Owner, m: Message, pieces: seq<seq<Byte>>, piece: seq<Byte>)
    requires WellFormed(m) && Flatten(pieces) + piece <= Stream(m)
    ensures var c, d := FeedAll(o, FRESH, pieces), FeedAll(o, FRESH, pieces + [piece]);
            && (c.mode.Body? ==> c.mode.body <= m.body)
            && (c.mode.Body? && d.mode.Body? ==>
                  c.mode.body <= d.mode.body <= m.body
                  && d.mode.body[|c.mode.body|..] == m.body[|c.mode.body|..|d.mode.body|])
            && OnlyThis(d.log, m)
  {
    var c, d := FeedAll(o, FRESH, pieces), FeedAll(o, FRESH, pieces + [piece]);
    FlattenMore(pieces, piece);
    FeedMore(o, FRESH, pieces, piece);
    BodyInOrder(o, m, pieces);
    BodyInOrder(o, m, pieces + [piece]);
    if c.mode.Body? && d.mode.Body? {
      FeedAdds(o, c, piece);
      BetweenPrefixes(c.mode.body, d.mode.body, m.body);
    }
  }
}
