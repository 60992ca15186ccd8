/** Exactly when the way the stream was cut into reads can be told from the outcome. */
module HttpCuts {
  import opened Bytes
  import opened HttpHead
  import opened HttpReader
  import opened HttpSplit
  import opened Chunked

  // --- the log only grows ---------------------------------------------------------------

  lemma HeadGrows(o: Owner, c: Conn)
    requires c.mode.Heading?
    ensures c.log <= HeadStep(o, c.mode.buffer, c.log).log
  {
    var end := IndexOf(c.mode.buffer, BLANK_LINE);
    if end >= 0 {
      match ParseHead(c.mode.buffer[..end])
      case None =>
      case Some(head) => ParsedGrows(o, head, c.mode.buffer[end + 4..], c.log);
    }
  }

  lemma ParsedGrows(o: Owner, head: Head, rest: seq<Byte>, log: seq<Event>)
    ensures log <= HeadParsed(o, head, rest, log).log
  {
  }

  lemma BodyGrows(o: Owner, m: Mode, log: seq<Event>)
    requires m.Body? && Valid(Conn(m, log)) && !Stuck(Conn(m, log))
    ensures log <= BodyStep(o, m, log).log
  {
  }

  lemma {:induction false} RunGrows(o: Owner, c: Conn)
    requires Valid(c)
    ensures c.log <= Run(o, c).log
    decreases Waiting(c)
  {
    if !Stuck(c) {
      StepProgress(o, c);
      if c.mode.Heading? { HeadGrows(o, c); } else { BodyGrows(o, c.mode, c.log); }
      RunGrows(o, Step(o, c));
    }
  }

  // --- a cut that shows ------------------------------------------------------------------

  function Waits(c: Conn): (buffer: seq<Byte>) {
    match c.mode
    case Heading(buffer) => buffer
    case Body(_, _, _, _, buffer) => buffer
    case _ => []
  }

  function WithBuffer(c: Conn, buffer: seq<Byte>): (d: Conn)
    requires Live(c)
    ensures Live(d) && Waits(d) == buffer
  {
    match c.mode
    case Heading(_) => c.(mode := Heading(buffer))
    case Body(_, _, _, _, _) => c.(mode := c.mode.(buffer := buffer))
    case _ => c
  }

  /** `early` gets somewhere else when `late` comes after it than when it comes with it. */
  ghost predicate Shows(o: Owner, early: Conn, late: seq<Byte>) {
    Valid(early) && Live(early) && late != [] && Feed(o, Run(o, early), late) != Run(o, Ext(early, late))
  }

  /** The last bytes of what is waiting, taken off. */
  lemma Split(c: Conn, n: nat) returns (early: Conn, late: seq<Byte>)
    requires Valid(c) && Live(c) && n <= |Waits(c)|
    ensures late == Waits(c)[n..] && early == WithBuffer(c, Waits(c)[..n]) && Valid(early) && Ext(early, late) == c
  {
    late := Waits(c)[n..];
    early := WithBuffer(c, Waits(c)[..n]);
    assert Waits(c)[..n] + late == Waits(c);
  }

  lemma Refuses(o: Owner, c: Conn, d: Conn, late: seq<Byte>)
    requires Valid(c) && !Stuck(c) && Step(o, c) == d && !Live(d)
    ensures Run(o, c) == d && Feed(o, d, late) == d
  {
    assert Stuck(d) && Run(o, d) == d && Ext(d, late) == d;
  }

  // --- turns whose outcome depends on the cut ----------------------------------------------

  lemma NoneEarlier(s: seq<Byte>, pat: seq<Byte>, n: nat)
    requires IndexOf(s, pat) >= 0 && n <= |s| && n < IndexOf(s, pat) + |pat|
    ensures IndexOf(s[..n], pat) < 0
  {
    IndexOfExtend(s[..n], s[n..], pat);
    assert s[..n] + s[n..] == s;
  }

  lemma FoundEarlier(s: seq<Byte>, pat: seq<Byte>, n: nat)
    requires IndexOf(s, pat) >= 0 && IndexOf(s, pat) + |pat| <= n <= |s|
    ensures IndexOf(s[..n], pat) == IndexOf(s, pat)
  {
    var i := IndexOf(s, pat);
    IndexOfFirst(s, pat);
    IndexOfFirst(s[..n], pat);
    IndexOfExtend(s[..n], s[n..], pat);
    assert s[..n] + s[n..] == s;
    assert s[..n][i..] == s[i..n];
    assert At(s[..n], pat, i);
  }

  lemma HeadSaysOther(o: Owner, c: Conn)
    requires c.mode.Heading? && IndexOf(c.mode.buffer, BLANK_LINE) >= 0
    ensures ExtendsOther(c.log, HeadStep(o, c.mode.buffer, c.log).log)
  {
    var end := IndexOf(c.mode.buffer, BLANK_LINE);
    match ParseHead(c.mode.buffer[..end])
    case None =>
    case Some(head) => ParsedSaysOther(o, head, c.mode.buffer[end + 4..], c.log);
  }

  /** What was added to the log begins with something else than a 431. */
  ghost predicate ExtendsOther(log: seq<Event>, longer: seq<Event>) {
    |longer| > |log| && longer[|log|] != Response(431)
  }

  lemma ParsedSaysOther(o: Owner, head: Head, rest: seq<Byte>, log: seq<Event>)
    ensures ExtendsOther(log, HeadParsed(o, head, rest, log).log)
  {
  }

  lemma HeadShows(o: Owner, c: Conn) returns (early: Conn, late: seq<Byte>)
    requires Valid(c) && c.mode.Heading? && !Stuck(c) && !CutProof(c)
    ensures Ext(early, late) == c && Shows(o, early, late)
  {
    var end := IndexOf(c.mode.buffer, BLANK_LINE);
    early, late := Split(c, end + 3);
    NoneEarlier(c.mode.buffer, BLANK_LINE, end + 3);
    Refuses(o, early, Conn(Answered, c.log + [Response(431)]), late);
    HeadRunSaysOther(o, c);
  }

  lemma LineShows(o: Owner, c: Conn) returns (early: Conn, late: seq<Byte>)
    requires Valid(c) && c.mode.Body? && c.mode.framing.SizeLine? && !Stuck(c) && !CutProof(c) && !RefusedAnyway(o, c)
    ensures Ext(early, late) == c && Shows(o, early, late)
  {
    var eol := IndexOf(c.mode.buffer, CRLF);
    early, late := Split(c, eol + 1);
    NoneEarlier(c.mode.buffer, CRLF, eol + 1);
    Refuses(o, early, Conn(Answered, c.log + [Response(400)]), late);
  }

  /** A block too long for the ceiling, of which less would have been too long for the device. */
  lemma BlockShows(o: Owner, c: Conn) returns (early: Conn, late: seq<Byte>)
    requires Valid(c) && c.mode.Body? && (c.mode.framing.Data? || c.mode.framing.Counted?) && !Stuck(c) && !CutProof(c)
    ensures Ext(early, late) == c && Shows(o, early, late)
  {
    var m := c.mode;
    var room := m.sink.value.room;
    var k := if |m.body| > room then 1 else room + 1 - |m.body|;
    early, late := Split(c, k);
    BlockRefused(o, early, k, 500);
    Refuses(o, early, Conn(Answered, c.log + [Response(500)]), late);
    BlockRefused(o, c, TurnLength(m), 413);
    Refuses(o, c, Conn(Answered, c.log + [Response(413)]), []);
    assert (c.log + [Response(500)])[|c.log|] != (c.log + [Response(413)])[|c.log|];
  }

  /** How many bytes the next turn takes from the buffer. */
  function TurnLength(m: Mode): nat
    requires m.Body?
  {
    match m.framing
    case Data(remaining) => Min(remaining, |m.buffer|)
    case Counted(length) => if |m.body| < length then Min(length - |m.body|, |m.buffer|) else 0
    case _ => 2
  }

  lemma BlockRefused(o: Owner, c: Conn, n: nat, status: int)
    requires Valid(c) && c.mode.Body? && (c.mode.framing.Data? || c.mode.framing.Counted?) && !Stuck(c)
    requires n == TurnLength(c.mode) > 0 && Refusal(c.mode.sink, |c.mode.body|, n) == status != 0
    ensures Step(o, c) == Conn(Answered, c.log + [Response(status)])
  {
  }

  /** The first turn that is not proof against cutting is one of the three. */
  lemma TurnShows(o: Owner, c: Conn) returns (early: Conn, late: seq<Byte>)
    requires Valid(c) && !Stuck(c) && !CutProof(c) && !RefusedAnyway(o, c)
    ensures Ext(early, late) == c && Shows(o, early, late)
  {
    match c.mode
    case Heading(_) => early, late := HeadShows(o, c);
    case Body(_, _, _, framing, _) =>
      if framing.SizeLine? {
        early, late := LineShows(o, c);
      } else {
        early, late := BlockShows(o, c);
      }
  }

  // --- turns that do not, before one that does ----------------------------------------------

  lemma SameWithout(c: Conn, d: Conn, late: seq<Byte>)
    requires Live(c) && Live(d) && Ext(c, late) == Ext(d, late)
    ensures c == d
  {
    assert Waits(Ext(c, late)) == Waits(c) + late && Waits(Ext(d, late)) == Waits(d) + late;
    assert (Waits(c) + late)[..|Waits(c)|] == Waits(c);
    assert (Waits(d) + late)[..|Waits(d)|] == Waits(d);
  }

  /** How many bytes the next turn takes from the buffer, if it does not end the message. */
  function Taken(c: Conn): nat
    requires Live(c) && !Stuck(c)
  {
    match c.mode
    case Heading(buffer) => IndexOf(buffer, BLANK_LINE) + 4
    case Body(_, _, _, framing, buffer) =>
      if framing.SizeLine? || framing.Trailer? then IndexOf(buffer, CRLF) + 2 else TurnLength(c.mode)
  }

  /** `d` waits with what `c` waits with, but for the first `n` bytes. */
  ghost predicate After(c: Conn, n: nat, d: Conn) {
    n <= |Waits(c)| && Waits(d) == Waits(c)[n..]
  }

  lemma HeadTakes(o: Owner, buffer: seq<Byte>, log: seq<Event>)
    requires !Stuck(Conn(Heading(buffer), log)) && Live(HeadStep(o, buffer, log))
    ensures IndexOf(buffer, BLANK_LINE) >= 0
    ensures After(Conn(Heading(buffer), log), IndexOf(buffer, BLANK_LINE) + 4, HeadStep(o, buffer, log))
  {
    var end := IndexOf(buffer, BLANK_LINE);
    match ParseHead(buffer[..end])
    case None =>
    case Some(head) => ParsedWaits(o, head, buffer[end + 4..], log);
  }

  lemma ParsedWaits(o: Owner, head: Head, rest: seq<Byte>, log: seq<Event>)
    ensures Live(HeadParsed(o, head, rest, log)) ==> Waits(HeadParsed(o, head, rest, log)) == rest
  {
  }

  lemma LineTakes(m: Mode, log: seq<Event>)
    requires m.Body? && Live(SizeLineStep(m, log))
    ensures IndexOf(m.buffer, CRLF) >= 0 && After(Conn(m, log), IndexOf(m.buffer, CRLF) + 2, SizeLineStep(m, log))
  {
  }

  lemma TrailerTakes(o: Owner, m: Mode, log: seq<Event>)
    requires m.Body? && m.framing.Trailer? && IndexOf(m.buffer, CRLF) >= 0 && Live(TrailerStep(o, m, log))
    ensures After(Conn(m, log), IndexOf(m.buffer, CRLF) + 2, TrailerStep(o, m, log))
  {
  }

  lemma BlockTakes(o: Owner, m: Mode, log: seq<Event>)
    requires m.Body? && !m.framing.SizeLine? && !m.framing.Trailer?
    requires Valid(Conn(m, log)) && !Stuck(Conn(m, log)) && Live(BodyStep(o, m, log))
    ensures After(Conn(m, log), TurnLength(m), BodyStep(o, m, log))
    ensures TurnLength(m) > 0
  {
  }

  /** A turn that goes on leaves the rest of the buffer as it is. */
  lemma TurnTakes(o: Owner, c: Conn)
    requires Valid(c) && !Stuck(c) && Live(Step(o, c))
    ensures After(c, Taken(c), Step(o, c))
    ensures c.mode.Heading? ==> IndexOf(c.mode.buffer, BLANK_LINE) >= 0
    ensures c.mode.Body? && (c.mode.framing.SizeLine? || c.mode.framing.Trailer?) ==> IndexOf(c.mode.buffer, CRLF) >= 0
  {
    match c.mode
    case Heading(buffer) => HeadTakes(o, buffer, c.log);
    case Body(_, _, _, framing, _) =>
      match framing {
        case SizeLine => LineTakes(c.mode, c.log);
        case Trailer(_) => TrailerTakes(o, c.mode, c.log);
        case _ => BlockTakes(o, c.mode, c.log);
      }
  }

  lemma BlockWithout(m: Mode, log: seq<Event>, n: nat)
    requires m.Body? && !m.framing.SizeLine? && !m.framing.Trailer?
    requires Valid(Conn(m, log)) && !Stuck(Conn(m, log)) && TurnLength(m) <= n < |m.buffer| && TurnLength(m) > 0
    ensures var less := Conn(m.(buffer := m.buffer[..n]), log);
            Valid(less) && !Stuck(less) && !TakesAll(less)
  {
  }

  /** A turn that leaves some bytes in the buffer does not wait for them. */
  lemma TurnWithout(o: Owner, c: Conn, early: Conn, late: seq<Byte>)
    requires Valid(c) && !Stuck(c) && Live(Step(o, c)) && 0 < |late| <= |Waits(Step(o, c))|
    requires Live(early) && Ext(early, late) == c
    ensures Valid(early) && !Stuck(early) && !TakesAll(early)
    ensures c.mode.Body? && c.mode.framing.SizeLine? ==> IndexOf(early.mode.buffer, CRLF) >= 0
  {
    TurnTakes(o, c);
    var buffer, n := Waits(c), |Waits(early)|;
    assert Waits(early) == buffer[..n];
    match c.mode
    case Heading(_) => FoundEarlier(buffer, BLANK_LINE, n);
    case Body(_, _, _, framing, _) =>
      assert early == Conn(c.mode.(buffer := buffer[..n]), c.log);
      if framing.SizeLine? || framing.Trailer? {
        FoundEarlier(buffer, CRLF, n);
      } else {
        BlockTakes(o, c.mode, c.log);
        BlockWithout(c.mode, c.log, n);
      }
  }

  lemma RunStep(o: Owner, c: Conn, d: Conn)
    requires Valid(c) && !Stuck(c) && Step(o, c) == d && Valid(d)
    ensures Run(o, c) == Run(o, d)
  {
  }

  /** What shows after a turn shows before it. */
  lemma ShowsBefore(o: Owner, c: Conn, early: Conn, after: Conn, late: seq<Byte>)
    requires Valid(c) && Valid(early) && Live(early) && Ext(early, late) == c
    requires Shows(o, after, late) && Run(o, early) == Run(o, after) && Run(o, c) == Run(o, Ext(after, late))
    ensures Shows(o, early, late)
  {
  }

  lemma StepEarlier(o: Owner, c: Conn, after: Conn, late: seq<Byte>) returns (early: Conn)
    requires Valid(c) && !Stuck(c) && (CutProof(c) || RefusedAnyway(o, c)) && Valid(Step(o, c)) && Live(Step(o, c))
    requires Shows(o, after, late) && Ext(after, late) == Step(o, c)
    ensures Ext(early, late) == c && Shows(o, early, late)
  {
    TurnTakes(o, c);
    assert Waits(Step(o, c)) == Waits(after) + late;
    var rest: seq<Byte>;
    early, rest := Split(c, |Waits(c)| - |late|);
    assert rest == late;
    TurnWithout(o, c, early, late);
    StepExtend(o, early, late);
    StepProgress(o, early);
    StepLive(o, c, early, late);
    SameWithout(Step(o, early), after, late);
    RunStep(o, early, after);
    RunStep(o, c, Ext(after, late));
    ShowsBefore(o, c, early, after, late);
  }

  lemma StepLive(o: Owner, c: Conn, early: Conn, late: seq<Byte>)
    requires Valid(c) && !Stuck(c) && Valid(early) && !Stuck(early)
    requires Live(Step(o, c)) && Step(o, c) == Ext(Step(o, early), late)
    ensures Live(Step(o, early))
  {
  }

  lemma {:induction false} SomethingShows(o: Owner, c: Conn) returns (early: Conn, late: seq<Byte>)
    requires Valid(c) && !Robust(o, c)
    ensures Ext(early, late) == c && Shows(o, early, late)
    decreases Waiting(c)
  {
    if CutProof(c) || RefusedAnyway(o, c) {
      StepProgress(o, c);
      var after: Conn;
      after, late := SomethingShows(o, Step(o, c));
      early := StepEarlier(o, c, after, late);
    } else {
      early, late := TurnShows(o, c);
    }
  }

  // --- both directions ----------------------------------------------------------------------

  /** Fewer bytes do not get a connection going that more bytes do not. */
  lemma StuckEarlier(c: Conn, early: Conn, between: seq<Byte>)
    requires Stuck(c) && Live(early) && Ext(early, between) == c
    ensures Stuck(early)
  {
    if !Stuck(early) { MoreUnsticks(early, between); }
  }

  /** A cut inside what was there before the stream does not show. */
  lemma CutBefore(o: Owner, c: Conn, stream: seq<Byte>, early: Conn, late: seq<Byte>)
    requires Valid(c) && Stuck(c) && Live(c) && Valid(early) && Live(early)
    requires Ext(early, late) == Ext(c, stream) && |late| > |stream|
    ensures Feed(o, Run(o, early), late) == Run(o, Ext(early, late))
  {
    var all, n := Waits(c) + stream, |Waits(early)|;
    assert Waits(Ext(early, late)) == Waits(early) + late == all;
    assert all[..|Waits(c)|] == Waits(c) && all[..n] == Waits(early);
    assert Waits(early) + Waits(c)[n..] == Waits(c);
    StuckEarlier(c, early, Waits(c)[n..]);
  }

  lemma CutInStream(o: Owner, c: Conn, stream: seq<Byte>, early: Conn, late: seq<Byte>) returns (first: seq<Byte>)
    requires Valid(c) && Stuck(c) && Live(c) && Shows(o, early, late) && Ext(early, late) == Ext(c, stream)
    ensures first + late == stream && early == Ext(c, first)
  {
    if |late| > |stream| { CutBefore(o, c, stream, early, late); }
    assert Waits(Ext(c, stream)) == Waits(c) + stream && Waits(Ext(early, late)) == Waits(early) + late;
    first := CutAt(Waits(c), stream, Waits(early), late);
  }

  lemma CutAt(x: seq<Byte>, y: seq<Byte>, z: seq<Byte>, w: seq<Byte>) returns (between: seq<Byte>)
    requires x + y == z + w && |w| <= |y|
    ensures between + w == y && z == x + between
  {
    var all := x + y;
    between := y[..|y| - |w|];
    assert all[|all| - |w|..] == w && y[|y| - |w|..] == w;
    assert z == all[..|all| - |w|] == x + between;
  }

  /** Every way of cutting the stream ends alike. */
  ghost predicate CutDoesNotShow(o: Owner, c: Conn, stream: seq<Byte>)
    requires Valid(c)
  {
    forall pieces: seq<seq<Byte>> :: Flatten(pieces) == stream ==> FeedAll(o, c, pieces) == Feed(o, c, stream)
  }

  lemma TwoPieces(o: Owner, c: Conn, x: seq<Byte>, y: seq<Byte>)
    requires Valid(c)
    ensures Flatten([x, y]) == x + y && FeedAll(o, c, [x, y]) == Feed(o, Feed(o, c, x), y)
  {
    assert [x, y][1..] == [y] && [y][1..] == [];
    assert Flatten([y]) == y + [] == y;
    assert FeedAll(o, Feed(o, c, x), [y]) == Feed(o, Feed(o, c, x), y);
  }

  lemma CutsShow(o: Owner, c: Conn, stream: seq<Byte>)
    requires Valid(c) && Stuck(c) && !Robust(o, Ext(c, stream))
    ensures !CutDoesNotShow(o, c, stream)
  {
    var early, late := SomethingShows(o, Ext(c, stream));
    var first := CutInStream(o, c, stream, early, late);
    TwoPieces(o, c, first, late);
  }

  /** The outcome is the same under every cutting exactly when every turn of the one long read is
      proof against it. That is a condition on the bytes: heads and size lines that end within 32 KiB,
      and blocks that a ceiling stops no later than the device would; a longer size line only if it
      or a later one is malformed, so that the body is refused with 400 wherever it is cut. */
  lemma CutShowsExactly(o: Owner, c: Conn, stream: seq<Byte>)
    requires Valid(c) && Stuck(c)
    ensures CutDoesNotShow(o, c, stream) <==> Robust(o, Ext(c, stream))
  {
    if Robust(o, Ext(c, stream)) {
      forall pieces: seq<seq<Byte>> | Flatten(pieces) == stream
        ensures FeedAll(o, c, pieces) == Feed(o, c, stream)
      {
        SplitInvariance(o, c, pieces);
      }
    } else {
      CutsShow(o, c, stream);
    }
  }

  // --- the inputs ---------------------------------------------------------------------------

  /** When a head ends past the limit, a first read that stops just short of its blank line is
      refused with 431 and the request is never seen, while one read of everything parses it. */
  lemma LongHeadDependsOnTheCut(o: Owner, stream: seq<Byte>)
    requires IndexOf(stream, BLANK_LINE) + 3 > MAX_HEAD
    ensures var end := IndexOf(stream, BLANK_LINE);
            var cut := FeedAll(o, FRESH, [stream[..end + 3], stream[end + 3..]]);
            && cut == Conn(Answered, [Response(431)])
            && cut != Feed(o, FRESH, stream)
  {
    var end := IndexOf(stream, BLANK_LINE);
    var first, last := stream[..end + 3], stream[end + 3..];
    var c, early := Conn(Heading(stream), []), Conn(Heading(first), []);
    assert [] + stream == stream && [] + first == first && first + last == stream;
    NoneEarlier(stream, BLANK_LINE, end + 3);
    UnterminatedHead(o, early);
    assert [] + [Response(431)] == [Response(431)];
    RefusedStaysRefused(o, [Response(431)], [last]);
    TwoPieces(o, FRESH, first, last);
    HeadRunSaysOther(o, c);
  }

  lemma HeadRunSaysOther(o: Owner, c: Conn)
    requires c.mode.Heading? && IndexOf(c.mode.buffer, BLANK_LINE) >= 0
    ensures ExtendsOther(c.log, Run(o, c).log)
  {
    HeadSaysOther(o, c);
    StepProgress(o, c);
    RunGrows(o, Step(o, c));
  }

  /** A last-chunk line with an extension that makes it longer than the limit: read in one piece
      it ends the message, and cut just before its CRLF it is refused with 400. */
  lemma LongSizeLineDependsOnTheCut(o: Owner, head: Head, sink: Option<Sink>, body: seq<Byte>, log: seq<Event>, extension: seq<Byte>)
    requires |extension| + 2 > MAX_HEAD && CR !in extension
    ensures var c := Conn(Body(head, sink, body, SizeLine, []), log);
            var line := [48, 59] + extension;
            && FeedAll(o, c, [line, CRLF + CRLF]) == Conn(Answered, log + [Response(400)])
            && Feed(o, c, line + (CRLF + CRLF)) == FinishBody(o, head, body, log)
  {
    var line := [48, 59] + extension;
    var m := Body(head, sink, body, SizeLine, []);
    LongLine(extension);
    TwoPieces(o, Conn(m, log), line, CRLF + CRLF);
    LongLineCut(o, m, log, line, CRLF + CRLF);
    LongLineWhole(o, m, log, line);
  }

  lemma LongLineCut(o: Owner, m: Mode, log: seq<Event>, line: seq<Byte>, late: seq<Byte>)
    requires m.Body? && m.framing.SizeLine? && m.buffer == [] && |line| > MAX_HEAD && IndexOf(line, CRLF) < 0
    ensures Feed(o, Feed(o, Conn(m, log), line), late) == Conn(Answered, log + [Response(400)])
  {
    assert [] + line == line;
    Refuses(o, Ext(Conn(m, log), line), Conn(Answered, log + [Response(400)]), late);
  }

  lemma LongLineTurn(o: Owner, m: Mode, log: seq<Event>, line: seq<Byte>, tail: seq<Byte>)
    requires m.Body? && m.framing.SizeLine? && m.buffer == line + (CRLF + tail) && CR !in line && ChunkLineSize(line) == Some(0)
    ensures !Stuck(Conn(m, log)) && Step(o, Conn(m, log)) == Conn(m.(framing := Trailer(0), buffer := tail), log)
  {
    LineFound(line, tail);
  }

  lemma LongLineWhole(o: Owner, m: Mode, log: seq<Event>, line: seq<Byte>)
    requires m.Body? && m.framing.SizeLine? && m.buffer == [] && CR !in line && ChunkLineSize(line) == Some(0)
    ensures Feed(o, Conn(m, log), line + (CRLF + CRLF)) == FinishBody(o, m.head, m.body, log)
  {
    var stream := line + (CRLF + CRLF);
    var n := m.(framing := Trailer(0), buffer := CRLF);
    assert [] + stream == stream && CRLF == CRLF + [];
    LongLineTurn(o, m.(buffer := stream), log, line, CRLF);
    RunTrailers(o, n, log, [], []);
    RunStep(o, Conn(m.(buffer := stream), log), Conn(n, log));
  }

  lemma LongLine(extension: seq<Byte>)
    requires CR !in extension
    ensures var line := [48, 59] + extension; ChunkLineSize(line) == Some(0) && CR !in line && IndexOf(line, CRLF) < 0
  {
    var line := [48, 59] + extension;
    assert line == [48] + ([59] + extension);
    IndexOfAfter([48], [59], extension);
    assert line[..1] == [48] && Trim([48]) == [48];
    assert NumeralValue([48], 16) == 0;
    ParseNumeral([48], 16);
    IndexOfFirst(line, CRLF);
    assert CR in CRLF;
  }
}
