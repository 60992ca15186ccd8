/** The reader cannot tell how the network cut the stream into reads. */
module HttpSplit {
  import opened Bytes
  import opened HttpHead
  import opened HttpReader

  /** No block can come up short, for want of room, at a length the ceiling would still allow. */
  predicate Roomy(sink: Option<Sink>, held: nat) {
    sink.Some? && sink.value.ceiling >= 0 ==> sink.value.ceiling <= sink.value.room || sink.value.ceiling <= held
  }

  /** The next turn would not have gone differently on less of the stream: a terminator that is
      there comes early enough that no prefix without it is already over the limit, and a block that
      is too long for the ceiling is too long for the device no sooner. */
  predicate CutProof(c: Conn) {
    match c.mode
    case Heading(buffer) => IndexOf(buffer, BLANK_LINE) + 3 <= MAX_HEAD
    case Body(_, sink, body, framing, buffer) =>
      (match framing
       case SizeLine => IndexOf(buffer, CRLF) + 1 <= MAX_HEAD
       case Counted(length) =>
         Roomy(sink, |body|) || |body| >= length || Refusal(sink, |body|, Min(length - |body|, |buffer|)) != 413
       case Data(remaining) => Roomy(sink, |body|) || Refusal(sink, |body|, Min(remaining, |buffer|)) != 413
       case _ => true)
    case _ => true
  }

  /** A chunk-size line of more than 32 KiB in a body that is bound to a 400 in any case, because it or
      a size line further on is malformed. Cut short of its end it is refused with a 400 too, only earlier. */
  predicate RefusedAnyway(o: Owner, c: Conn)
    requires Valid(c)
  {
    c.mode.Body? && c.mode.framing.SizeLine? && Run(o, c) == Conn(Answered, c.log + [Response(400)])
  }

  /** Every turn on the way is of one kind or the other. */
  predicate Robust(o: Owner, c: Conn)
    requires Valid(c)
    decreases Waiting(c)
  {
    Stuck(c) || ((CutProof(c) || RefusedAnyway(o, c)) && (StepProgress(o, c); Robust(o, Step(o, c))))
  }

  /** The next turn takes everything in the buffer as body and would have taken more. */
  predicate TakesAll(c: Conn) {
    && c.mode.Body? && c.mode.buffer != []
    && match c.mode.framing
       case Counted(length) => |c.mode.buffer| < length - |c.mode.body|
       case Data(remaining) => |c.mode.buffer| < remaining
       case _ => false
  }

  // --- one turn ---------------------------------------------------------------------

  lemma HeadParsedExtend(o: Owner, head: Head, rest: seq<Byte>, log: seq<Event>, more: seq<Byte>)
    ensures HeadParsed(o, head, rest + more, log) == Ext(HeadParsed(o, head, rest, log), more)
  {
  }

  lemma HeadStepExtend(o: Owner, c: Conn, more: seq<Byte>)
    requires c.mode.Heading? && !Stuck(c) && CutProof(Ext(c, more))
    ensures !Stuck(Ext(c, more)) && Step(o, Ext(c, more)) == Ext(Step(o, c), more)
  {
    var buffer := c.mode.buffer;
    IndexOfExtend(buffer, more, BLANK_LINE);
    var end := IndexOf(buffer, BLANK_LINE);
    if end >= 0 {
      SlicesExtend(buffer, more, end);
      SlicesExtend(buffer, more, end + 4);
      match ParseHead(buffer[..end])
      case None =>
      case Some(head) => HeadParsedExtend(o, head, buffer[end + 4..], c.log, more);
    }
  }

  lemma SizeLineExtend(o: Owner, c: Conn, more: seq<Byte>)
    requires c.mode.Body? && c.mode.framing.SizeLine? && !Stuck(c)
    requires CutProof(Ext(c, more)) || IndexOf(c.mode.buffer, CRLF) >= 0
    ensures !Stuck(Ext(c, more)) && Step(o, Ext(c, more)) == Ext(Step(o, c), more)
  {
    var buffer := c.mode.buffer;
    IndexOfExtend(buffer, more, CRLF);
    var eol := IndexOf(buffer, CRLF);
    if eol >= 0 {
      SlicesExtend(buffer, more, eol);
      SlicesExtend(buffer, more, eol + 2);
    }
  }

  lemma TrailerExtend(o: Owner, c: Conn, more: seq<Byte>)
    requires c.mode.Body? && c.mode.framing.Trailer? && !Stuck(c)
    ensures !Stuck(Ext(c, more)) && Step(o, Ext(c, more)) == Ext(Step(o, c), more)
  {
    var buffer := c.mode.buffer;
    IndexOfExtend(buffer, more, CRLF);
    var eol := IndexOf(buffer, CRLF);
    SlicesExtend(buffer, more, eol + 2);
  }

  lemma DataExtend(o: Owner, c: Conn, more: seq<Byte>)
    requires c.mode.Body? && (c.mode.framing.Data? || c.mode.framing.Counted?)
    requires Valid(c) && !Stuck(c) && !TakesAll(c)
    ensures !Stuck(Ext(c, more)) && Step(o, Ext(c, more)) == Ext(Step(o, c), more)
  {
    var buffer := c.mode.buffer;
    var n := if c.mode.framing.Data? then c.mode.framing.remaining else c.mode.framing.length - |c.mode.body|;
    if n > 0 {
      SlicesExtend(buffer, more, n);
    }
  }

  lemma DataEndExtend(o: Owner, c: Conn, more: seq<Byte>)
    requires c.mode.Body? && c.mode.framing.DataEnd? && !Stuck(c)
    ensures !Stuck(Ext(c, more)) && Step(o, Ext(c, more)) == Ext(Step(o, c), more)
  {
    assert (c.mode.buffer + more)[2..] == c.mode.buffer[2..] + more;
  }

  lemma MoreUnsticks(c: Conn, more: seq<Byte>)
    requires !Stuck(c)
    ensures !Stuck(Ext(c, more))
  {
    match c.mode
    case Heading(buffer) => IndexOfExtend(buffer, more, BLANK_LINE);
    case Body(_, _, _, _, buffer) => IndexOfExtend(buffer, more, CRLF);
    case _ =>
  }

  /** A turn that did not run the buffer dry does the same with more bytes behind it. */
  lemma StepExtend(o: Owner, c: Conn, more: seq<Byte>)
    requires Valid(c) && !Stuck(c) && !TakesAll(c)
    requires CutProof(Ext(c, more)) || (c.mode.Body? && c.mode.framing.SizeLine? && IndexOf(c.mode.buffer, CRLF) >= 0)
    ensures !Stuck(Ext(c, more)) && Step(o, Ext(c, more)) == Ext(Step(o, c), more)
  {
    match c.mode
    case Heading(_) => HeadStepExtend(o, c, more);
    case Body(_, _, _, framing, _) =>
      match framing {
        case Counted(_) => DataExtend(o, c, more);
        case Data(_) => DataExtend(o, c, more);
        case SizeLine => SizeLineExtend(o, c, more);
        case DataEnd => DataEndExtend(o, c, more);
        case Trailer(_) => TrailerExtend(o, c, more);
      }
  }

  /** A block that is refused in two pieces is refused with the same status in one, and one that
      is taken in one piece is taken in two. */
  lemma RefusalTwice(sink: Option<Sink>, held: nat, x: nat, y: nat)
    requires x > 0
    requires Roomy(sink, held) || Refusal(sink, held, x + y) != 413
    ensures Refusal(sink, held, x) != 0 ==> Refusal(sink, held, x + y) == Refusal(sink, held, x)
    ensures Refusal(sink, held, x) == 0 ==> Refusal(sink, held, x + y) == Refusal(sink, held + x, y)
  {
  }

  /** Moving a block on in two parts comes to the same as in one. */
  lemma DeliverTwice(m: Mode, log: seq<Event>, more: seq<Byte>, k: nat, next: Framing, last: Framing)
    requires m.Body? && m.buffer != [] && 0 < k <= |more|
    requires Roomy(m.sink, |m.body|) || Refusal(m.sink, |m.body|, |m.buffer| + k) != 413
    ensures var whole := Deliver(m.(buffer := m.buffer + more), log, |m.buffer| + k, last);
            var first := Deliver(m, log, |m.buffer|, next);
            if Live(first) then first.log == log && first.mode.Body? && first.mode.buffer == []
                                && first.mode.sink == m.sink && first.mode.body == m.body + m.buffer && first.mode.framing == next
                                && whole == Deliver(first.mode.(buffer := more), log, k, last)
            else whole == first
  {
    var buffer := m.buffer;
    assert (buffer + more)[..|buffer| + k] == buffer + more[..k];
    assert (buffer + more)[|buffer| + k..] == more[k..];
    assert buffer[..|buffer|] == buffer && buffer[|buffer|..] == [];
    assert m.body + (buffer + more[..k]) == m.body + buffer + more[..k];
    RefusalTwice(m.sink, |m.body|, |buffer|, k);
  }

  /** The read after `c` has run dry goes on, in `d`, where one longer turn of `whole` would be. */
  ghost predicate GoesOn(o: Owner, whole: Conn, d: Conn, more: seq<Byte>) {
    if Live(d) then Valid(Ext(d, more)) && !Stuck(Ext(d, more)) && CutProof(Ext(d, more)) && whole == Step(o, Ext(d, more))
    else whole == d
  }

  lemma DataTwice(o: Owner, c: Conn, more: seq<Byte>)
    requires c.mode.Body? && c.mode.framing.Data? && TakesAll(c) && CutProof(Ext(c, more)) && more != []
    ensures Stuck(Step(o, c)) && GoesOn(o, Step(o, Ext(c, more)), Step(o, c), more)
  {
    var m := c.mode;
    assert [] + more == more;
    var left := m.framing.remaining - |m.buffer|;
    var k := Min(left, |more|);
    var last := if k == left then DataEnd else Data(left - k);
    assert Step(o, Ext(c, more)) == Deliver(m.(buffer := m.buffer + more), c.log, |m.buffer| + k, last);
    assert Step(o, c) == Deliver(m, c.log, |m.buffer|, Data(left));
    DeliverTwice(m, c.log, more, k, Data(left), last);
    RefusalTwice(m.sink, |m.body|, |m.buffer|, k);
  }

  lemma CountedTwice(o: Owner, c: Conn, more: seq<Byte>)
    requires c.mode.Body? && c.mode.framing.Counted? && TakesAll(c) && CutProof(Ext(c, more)) && more != []
    ensures Stuck(Step(o, c)) && GoesOn(o, Step(o, Ext(c, more)), Step(o, c), more)
  {
    var m := c.mode;
    assert [] + more == more;
    var k := Min(m.framing.length - |m.body| - |m.buffer|, |more|);
    DeliverTwice(m, c.log, more, k, m.framing, m.framing);
    RefusalTwice(m.sink, |m.body|, |m.buffer|, k);
  }

  /** A turn that did run it dry goes on, on the next read, where one longer turn would be. */
  lemma StepTwice(o: Owner, c: Conn, more: seq<Byte>)
    requires Valid(c) && TakesAll(c) && CutProof(Ext(c, more)) && more != []
    ensures !Stuck(c) && !Stuck(Ext(c, more)) && Stuck(Step(o, c)) && Valid(Step(o, c))
    ensures GoesOn(o, Step(o, Ext(c, more)), Step(o, c), more)
  {
    if c.mode.framing.Data? {
      DataTwice(o, c, more);
    } else {
      CountedTwice(o, c, more);
    }
  }

  // --- whole runs -------------------------------------------------------------------

  /** Reading what is there and then what comes later is reading everything at once. */
  lemma {:induction false} RunExtend(o: Owner, c: Conn, more: seq<Byte>)
    requires Valid(c) && Robust(o, Ext(c, more))
    ensures Feed(o, Run(o, c), more) == Feed(o, c, more)
    ensures Robust(o, Ext(Run(o, c), more))
    decreases Waiting(c)
  {
    if !Stuck(c) {
      StepProgress(o, c);
      MoreUnsticks(c, more);
      if c.mode.Body? && c.mode.framing.SizeLine? && IndexOf(c.mode.buffer, CRLF) < 0 && !CutProof(Ext(c, more)) {
        LateLine(o, c, more);
      } else if !TakesAll(c) {
        LineThere(o, c, more);
        StepExtend(o, c, more);
        RunExtend(o, Step(o, c), more);
      } else if more == [] {
        assert Ext(c, more) == c;
      } else {
        StepTwice(o, c, more);
      }
    }
  }

  lemma LineThere(o: Owner, c: Conn, more: seq<Byte>)
    requires Valid(c) && !Stuck(c) && Robust(o, Ext(c, more)) && !Stuck(Ext(c, more))
    requires !(c.mode.Body? && c.mode.framing.SizeLine? && IndexOf(c.mode.buffer, CRLF) < 0 && !CutProof(Ext(c, more)))
    ensures CutProof(Ext(c, more)) || (c.mode.Body? && c.mode.framing.SizeLine? && IndexOf(c.mode.buffer, CRLF) >= 0)
  {
  }

  /** A size line that is over the limit before its end has come is refused, as the whole is. */
  lemma LateLine(o: Owner, c: Conn, more: seq<Byte>)
    requires Valid(c) && c.mode.Body? && c.mode.framing.SizeLine? && !Stuck(c) && IndexOf(c.mode.buffer, CRLF) < 0
    requires !CutProof(Ext(c, more)) && Robust(o, Ext(c, more)) && !Stuck(Ext(c, more))
    ensures Feed(o, Run(o, c), more) == Feed(o, c, more)
    ensures Robust(o, Ext(Run(o, c), more))
  {
    var refused := Conn(Answered, c.log + [Response(400)]);
    assert Step(o, c) == refused;
    assert Run(o, refused) == refused && Ext(refused, more) == refused;
  }

  /** However a stream is cut into reads, the connection ends in the same mode having emitted the
      same head, the same body and the same answer as when it comes in one piece. */
  lemma {:induction false} SplitInvariance(o: Owner, c: Conn, pieces: seq<seq<Byte>>)
    requires Valid(c) && Stuck(c) && Robust(o, Ext(c, Flatten(pieces)))
    ensures FeedAll(o, c, pieces) == Feed(o, c, Flatten(pieces))
    decreases |pieces|
  {
    if pieces == [] {
      ExtNothing(c);
    } else {
      var first, rest := pieces[0], Flatten(pieces[1..]);
      ExtTwice(c, first, rest);
      RunExtend(o, Ext(c, first), rest);
      SplitInvariance(o, Feed(o, c, first), pieces[1..]);
    }
  }

  lemma ExtNothing(c: Conn)
    ensures Ext(c, []) == c
  {
    match c.mode
    case Heading(buffer) => assert buffer + [] == buffer;
    case Body(_, _, _, _, buffer) => assert buffer + [] == buffer;
    case _ =>
  }

  lemma ExtTwice(c: Conn, x: seq<Byte>, y: seq<Byte>)
    ensures Ext(Ext(c, x), y) == Ext(c, x + y)
  {
    match c.mode
    case Heading(buffer) => assert buffer + x + y == buffer + (x + y);
    case Body(_, _, _, _, buffer) => assert buffer + x + y == buffer + (x + y);
    case _ =>
  }

  lemma RefusedStaysRefused(o: Owner, log: seq<Event>, pieces: seq<seq<Byte>>)
    ensures FeedAll(o, Conn(Answered, log), pieces) == Conn(Answered, log)
    decreases |pieces|
  {
    if pieces != [] {
      RefusedStaysRefused(o, log, pieces[1..]);
    }
  }

  lemma UnterminatedHead(o: Owner, c: Conn)
    requires c.mode.Heading? && IndexOf(c.mode.buffer, BLANK_LINE) < 0 && |c.mode.buffer| > MAX_HEAD
    ensures Run(o, c) == Conn(Answered, c.log + [Response(431)])
  {
    var refused := Conn(Answered, c.log + [Response(431)]);
    assert Step(o, c) == refused;
    assert Run(o, refused) == refused;
  }

  /** The condition on the device cannot be dropped: with less room than the ceiling allows, the same
      oversized block is answered 413 in one read and 500 in two. */
  lemma ShortWriteDependsOnTheCut(o: Owner, head: Head, sink: Sink, x: seq<Byte>, y: seq<Byte>)
    requires !Roomy(Some(sink), 0)
    requires |x| == sink.room + 1 && |x| + |y| == sink.ceiling + 1 && y != []
    ensures var c := Conn(Body(head, Some(sink), [], Data(sink.ceiling + 1), []), []);
            && Feed(o, c, x + y).log == [Response(413)]
            && FeedAll(o, c, [x, y]).log == [Response(500)]
  {
    var c := Conn(Body(head, Some(sink), [], Data(sink.ceiling + 1), []), []);
    assert [] + (x + y) == x + y && [] + x == x;
    var one, two := Conn(Answered, [Response(413)]), Conn(Answered, [Response(500)]);
    assert Step(o, Ext(c, x + y)) == one;
    assert Run(o, one) == one;
    assert Step(o, Ext(c, x)) == two;
    assert Run(o, two) == two;
    assert FeedAll(o, two, [y]) == two;
    assert [x, y][1..] == [y];
  }
}
