/** How much the reader keeps waiting, and what it passes over. */
module HttpLimits {
  import opened Bytes
  import opened HttpHead
  import opened HttpReader
  import opened HttpSplit
  import opened HttpCuts

  predicate InTrailer(c: Conn) {
    c.mode.Body? && c.mode.framing.Trailer?
  }

  lemma ReactSticks(o: Owner, c: Conn, input: Input)
    requires Valid(c) && Stuck(c)
    ensures Stuck(React(o, c, input))
  {
  }

  lemma {:induction false} RunSticks(o: Owner, c: Conn, inputs: seq<Input>)
    requires Valid(c) && Stuck(c)
    ensures Stuck(ReactAll(o, c, inputs))
    decreases |inputs|
  {
    if inputs != [] {
      ReactSticks(o, c, inputs[0]);
      RunSticks(o, React(o, c, inputs[0]), inputs[1..]);
    }
  }

  lemma StuckIsShort(c: Conn)
    requires Stuck(c) && !InTrailer(c)
    ensures |Waits(c)| <= MAX_HEAD
  {
  }

  /** Whatever comes, in whatever pieces and at whatever time, no more than 32 KiB are left waiting
      between two reads, except in the middle of a trailer line. */
  lemma KeepsLittle(o: Owner, inputs: seq<Input>)
    ensures var c := ReactAll(o, FRESH, inputs); !InTrailer(c) ==> |Waits(c)| <= MAX_HEAD
  {
    assert Stuck(FRESH);
    RunSticks(o, FRESH, inputs);
    if !InTrailer(ReactAll(o, FRESH, inputs)) { StuckIsShort(ReactAll(o, FRESH, inputs)); }
  }

  lemma EndsLater(s: seq<Byte>, t: seq<Byte>, i: nat)
    requires At(s + t, CRLF, i) && i + 2 > |s|
    ensures LF in t
  {
    assert (s + t)[i..][1] == LF;
    assert t[i + 1 - |s|] == LF;
  }

  lemma NoEnd(s: seq<Byte>, t: seq<Byte>)
    requires IndexOf(s, CRLF) < 0 && LF !in t
    ensures IndexOf(s + t, CRLF) < 0
  {
    IndexOfExtend(s, t, CRLF);
    IndexOfFirst(s + t, CRLF);
    if IndexOf(s + t, CRLF) >= 0 { EndsLater(s, t, IndexOf(s + t, CRLF)); }
  }

  /** A trailer line that does not end is kept, however long it gets. */
  lemma TrailerKept(o: Owner, c: Conn, data: seq<Byte>)
    requires Stuck(c) && InTrailer(c) && LF !in data
    ensures Feed(o, c, data) == Ext(c, data)
  {
    NoEnd(c.mode.buffer, data);
  }

  /** What was read is kept, all of it, and nothing else happens. */
  ghost predicate Keeps(o: Owner, c: Conn, data: seq<Byte>)
    requires Valid(c)
  {
    Feed(o, c, data) == Ext(c, data)
  }

  /** The connection would keep any number of bytes waiting. */
  ghost predicate KeepsAnything(o: Owner, c: Conn)
    requires Valid(c)
  {
    forall n: nat :: KeepsSome(o, c, n)
  }

  ghost predicate KeepsSome(o: Owner, c: Conn, n: nat)
    requires Valid(c)
  {
    exists data: seq<Byte> :: |data| == n && Keeps(o, c, data)
  }

  lemma KeepsBounded(o: Owner, c: Conn)
    requires Valid(c) && Live(c) && KeepsSome(o, c, MAX_HEAD + 1)
    ensures InTrailer(c)
  {
    var data: seq<Byte> :| |data| == MAX_HEAD + 1 && Keeps(o, c, data);
    if !InTrailer(Ext(c, data)) { StuckIsShort(Ext(c, data)); }
  }

  /** The buffer is bounded exactly outside the trailer section. */
  lemma UnboundedExactly(o: Owner, c: Conn)
    requires Valid(c) && Stuck(c) && Live(c)
    ensures KeepsAnything(o, c) <==> InTrailer(c)
  {
    if InTrailer(c) {
      forall n: nat
        ensures KeepsSome(o, c, n)
      {
        var data: seq<Byte> := seq(n, i => 120);
        TrailerKept(o, c, data);
        assert Keeps(o, c, data);
      }
    } else if KeepsSome(o, c, MAX_HEAD + 1) {
      KeepsBounded(o, c);
    }
  }

  /** The two bytes that should end a chunk are not looked at. */
  lemma ChunkEndUnread(o: Owner, m: Mode, log: seq<Event>, two: seq<Byte>, rest: seq<Byte>)
    requires m.Body? && m.framing.DataEnd? && |two| == 2
    ensures Run(o, Conn(m.(buffer := two + rest), log)) == Run(o, Conn(m.(buffer := CRLF + rest), log))
  {
    ChunkEndTurn(o, m, log, two, rest);
    ChunkEndTurn(o, m, log, CRLF, rest);
  }

  lemma ChunkEndTurn(o: Owner, m: Mode, log: seq<Event>, two: seq<Byte>, rest: seq<Byte>)
    requires m.Body? && m.framing.DataEnd? && |two| == 2
    ensures Run(o, Conn(m.(buffer := two + rest), log)) == Run(o, Conn(m.(framing := SizeLine, buffer := rest), log))
  {
    assert (two + rest)[2..] == rest;
    RunStep(o, Conn(m.(buffer := two + rest), log), Conn(m.(framing := SizeLine, buffer := rest), log));
  }
}
