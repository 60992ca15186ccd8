/** Both ends with bytes in between: each connection of the sender's has a reader, which gets the request
    in fragments of any size, and what the reader makes of them is all the receiving side hears. */
module EndToEndBytes {
  import opened Transfers
  import opened EndToEnd
  import opened EndToEndTables
  import opened EndToEndRun
  import opened EndToEndSafety
  import opened EndToEndDelivery
  import S = Send
  import R = Receive
  import RI = ReceiveInvariant
  import RC = ReceiveConns
  import HH = HttpHead
  import H = HttpReader
  import HC = HttpCuts
  import D = HttpDelivery
  import Bytes

  /** How the sender writes an upload, how the receiving side understands its head, and what the owner of
      a connection does about it. */
  datatype Net = Net(write: S.Request -> D.Message, ask: HH.Head -> R.UploadRequest, owner: ConnId -> H.Owner)

  /** An upload is written as a message of the announced length whose body is the file, and its head is
      understood as it was meant. */
  ghost predicate Faithful(g: Setting, x: Net) {
    forall q: S.Request {:trigger x.write(q)} :: q.Upload? ==>
      && D.WellFormed(x.write(q)) && x.write(q).body == g.source(q.path)
      && x.ask(x.write(q).head) == R.UploadRequest(q.session, q.id, q.token, q.size)
  }

  /** A reader, and the bytes it has been given so far. */
  datatype Reader = Reader(conn: H.Conn, read: seq<Byte>)

  datatype Wired = Wired(world: World, readers: Readers)

  type Readers = map<ConnId, Reader>

  function ReaderOf(readers: Readers, c: ConnId): Reader {
    if c in readers then readers[c] else Reader(H.FRESH, [])
  }

  /** What is decided outside: whether the part file opens, how much of a block is written, whether the
      rename goes through, and which sockets go down during each of the three events. */
  datatype Choice = Choice(opens: bool, taken: nat, renames: bool, head: set<ConnId>, block: set<ConnId>, end: set<ConnId>)

  datatype WireEvent =
    | Other(e: Event)
    | Reads(c: ConnId, piece: seq<Byte>, choice: Choice)

  // --- what a read comes to -----------------------------------------------------------------------

  function Added(before: H.Conn, after: H.Conn): seq<H.Event> {
    if |before.log| <= |after.log| then after.log[|before.log|..] else []
  }

  function Announced(log: seq<H.Event>): Bytes.Option<HH.Head> {
    if log == [] then Bytes.None else if log[0].HeadersReady? then Bytes.Some(log[0].head) else Announced(log[1..])
  }

  function HandedOver(log: seq<H.Event>): Bytes.Option<seq<Byte>> {
    if log == [] then Bytes.None else if log[0].RequestReady? then Bytes.Some(log[0].body) else HandedOver(log[1..])
  }

  function BodyOf(r: H.Conn): seq<Byte> {
    if r.mode.Body? then r.mode.body else []
  }

  /** All of the body that has been handed on after a read. */
  function Handed(before: H.Conn, after: H.Conn): seq<Byte> {
    match HandedOver(Added(before, after))
    case Some(body) => body
    case None => if after.mode.Body? then after.mode.body else BodyOf(before)
  }

  function Fresh(before: H.Conn, after: H.Conn): seq<Byte> {
    var n := |BodyOf(before)|;
    if n <= |Handed(before, after)| then Handed(before, after)[n..] else []
  }

  /** The receiving side takes an event when it can, and whatever it is. */
  function Press(g: Setting, w: World, e: R.Event, drops: set<ConnId>): World {
    if R.Enabled(w.receiver, e) then ToReceiver(g, w, e, drops) else w
  }

  function HeadRead(g: Setting, x: Net, w: World, c: ConnId, before: H.Conn, after: H.Conn, k: Choice): World {
    match Announced(Added(before, after))
    case Some(head) => if before.mode.Heading? then Press(g, w, R.UploadHeaders(c, x.ask(head), k.opens), k.head) else w
    case None => w
  }

  function BlockRead(g: Setting, w: World, c: ConnId, data: seq<Byte>, k: Choice): World {
    if data == [] then w else Press(g, w, R.Block(c, data, H.Min(k.taken, |data|)), k.block)
  }

  function EndRead(g: Setting, w: World, c: ConnId, over: bool, k: Choice): World {
    if over then Press(g, w, R.BodyEnd(c, k.renames), k.end) else w
  }

  function AfterRead(g: Setting, x: Net, w: World, c: ConnId, before: H.Conn, after: H.Conn, k: Choice): World {
    var w1 := HeadRead(g, x, w, c, before, after, k);
    var w2 := BlockRead(g, w1, c, Fresh(before, after), k);
    EndRead(g, w2, c, HandedOver(Added(before, after)).Some?, k)
  }

  /** Heads, blocks and ends of uploads of the sender's come out of readers and from nowhere else. */
  predicate OutOfBytes(w: World, e: Event) {
    e.AtReceiver? && (e.step.UploadHeaders? || e.step.Block? || e.step.BodyEnd?) && Carries(w, e.step.c)
  }

  ghost predicate CanWire(g: Setting, x: Net, b: Wired, e: WireEvent) {
    match e
    case Other(event) => Can(g, b.world, event) && !OutOfBytes(b.world, event)
    case Reads(c, piece, _) =>
      Carries(b.world, c) && ReaderOf(b.readers, c).read + piece <= D.Stream(x.write(Parcel(b.world, c))) && H.Valid(ReaderOf(b.readers, c).conn)
  }

  function WireAfter(g: Setting, x: Net, b: Wired, e: WireEvent): Wired
    requires CanWire(g, x, b, e)
  {
    match e
    case Other(event) => b.(world := EndToEnd.After(g, b.world, event))
    case Reads(c, piece, k) =>
      var r := ReaderOf(b.readers, c);
      var after := H.Feed(x.owner(c), r.conn, piece);
      Wired(AfterRead(g, x, b.world, c, r.conn, after, k), b.readers[c := Reader(after, r.read + piece)])
  }

  // --- what holds ------------------------------------------------------------------------------------

  /** The service has counted what the reader has handed on, unless it is no longer interested. */
  predicate InStep(s: R.Service, c: ConnId, r: H.Conn) {
    c in s.conns
    && (R.Expects(s, c) ==>
          && (r.mode.Heading? ==> s.conns[c].received == 0)
          && (r.mode.Body? && s.conns[c].headSeen ==> s.conns[c].received == |r.mode.body|))
  }

  ghost predicate Synced(x: Net, w: World, c: ConnId, r: Reader)
    requires Carries(w, c)
  {
    var m := x.write(Parcel(w, c));
    && H.Valid(r.conn) && r.read <= D.Stream(m) && D.Follows(m, r.conn, r.read)
    && InStep(w.receiver, c, r.conn)
  }

  ghost predicate Settled(g: Setting, w: World) {
    Inv(g, w) && RC.SinksKnown(w.receiver)
  }

  ghost predicate ReadersOk(x: Net, w: World, readers: Readers) {
    && (forall c :: c in readers ==> Carries(w, c))
    && (forall c :: Carries(w, c) ==> Synced(x, w, c, ReaderOf(readers, c)))
  }

  ghost predicate WiredOk(g: Setting, x: Net, b: Wired) {
    Settled(g, b.world) && ReadersOk(x, b.world, b.readers)
  }

  // --- one event out of a reader -----------------------------------------------------------------------

  /** An event that is genuine whenever it can happen is one that may happen. */
  lemma PressIsTake(g: Setting, w: World, e: R.Event, drops: set<ConnId>)
    requires R.Enabled(w.receiver, e) ==> Genuine(g, w, e)
    ensures Press(g, w, e, drops) == EndToEndSafety.Take(g, w, AtReceiver(e, drops))
  {
  }

  /** The same requests are on the same connections, and all connections but `c` are as they were. */
  ghost predicate OnlyOne(w: World, v: World, c: ConnId) {
    v.mail == w.mail && v.wire == w.wire && RC.AllLater(w.receiver.conns, v.receiver.conns, {c})
  }

  lemma PressKeeps(g: Setting, w: World, e: R.Event, drops: set<ConnId>, c: ConnId)
    requires Settled(g, w) && (R.Enabled(w.receiver, e) ==> Genuine(g, w, e)) && RC.Actor(e) == {c} && !e.Connected?
    ensures Settled(g, Press(g, w, e, drops)) && OnlyOne(w, Press(g, w, e, drops), c)
  {
    if R.Enabled(w.receiver, e) {
      TakeKeeps(g, w, AtReceiver(e, drops));
      RC.NextSinks(g.env, w.receiver, e, drops);
      RC.NextLater(g.env, w.receiver, e, drops);
    }
  }

  /** `events` may happen, lead from `w` to `v`, and are about `c` alone. */
  ghost predicate Through(g: Setting, w: World, v: World, events: seq<Event>, c: ConnId) {
    Settled(g, v) && OnlyOne(w, v, c) && RunAll(g, w, events) == v
  }

  lemma StayThrough(g: Setting, w: World, c: ConnId)
    requires Settled(g, w)
    ensures Through(g, w, w, [], c)
  {
  }

  lemma OneEvent(g: Setting, w: World, e: Event)
    ensures RunAll(g, w, [e]) == EndToEndSafety.Take(g, w, e)
  {
    assert [e][1..] == [];
    assert RunAll(g, EndToEndSafety.Take(g, w, e), []) == EndToEndSafety.Take(g, w, e);
  }

  lemma PressThrough(g: Setting, w: World, e: R.Event, drops: set<ConnId>, c: ConnId)
    requires Settled(g, w) && (R.Enabled(w.receiver, e) ==> Genuine(g, w, e)) && RC.Actor(e) == {c} && !e.Connected?
    ensures Through(g, w, Press(g, w, e, drops), [AtReceiver(e, drops)], c)
  {
    PressKeeps(g, w, e, drops, c);
    PressIsTake(g, w, e, drops);
    OneEvent(g, w, AtReceiver(e, drops));
  }

  lemma {:induction false} RunJoin(g: Setting, w: World, a: seq<Event>, b: seq<Event>)
    ensures RunAll(g, w, a + b) == RunAll(g, RunAll(g, w, a), b)
    decreases |a|
  {
    if a == [] {
      assert a + b == b;
    } else {
      assert (a + b)[1..] == a[1..] + b;
      RunJoin(g, EndToEndSafety.Take(g, w, a[0]), a[1..], b);
    }
  }

  lemma ThroughTwice(g: Setting, u: World, v: World, w: World, a: seq<Event>, b: seq<Event>, c: ConnId)
    requires Through(g, u, v, a, c) && Through(g, v, w, b, c)
    ensures Through(g, u, w, a + b, c)
  {
    RC.LaterBoth(u.receiver.conns, v.receiver.conns, w.receiver.conns, {c});
    RunJoin(g, u, a, b);
  }

  // --- what the reader hands on --------------------------------------------------------------------------

  lemma {:induction false} AnnouncedIs(m: D.Message, log: seq<H.Event>)
    requires D.OnlyThis(log, m)
    ensures Announced(log).Some? ==> Announced(log).value == m.head
  {
    if log != [] {
      assert D.Fits(log[0], m);
      TailOnly(m, log);
      AnnouncedIs(m, log[1..]);
    }
  }

  lemma {:induction false} HandedOverIs(m: D.Message, log: seq<H.Event>)
    requires D.OnlyThis(log, m)
    ensures HandedOver(log).Some? ==> HandedOver(log).value == m.body
  {
    if log != [] {
      assert D.Fits(log[0], m);
      TailOnly(m, log);
      HandedOverIs(m, log[1..]);
    }
  }

  lemma TailOnly(m: D.Message, log: seq<H.Event>)
    requires D.OnlyThis(log, m) && log != []
    ensures D.OnlyThis(log[1..], m)
  {
    forall i | 0 <= i < |log| - 1
      ensures D.Fits(log[1..][i], m)
    {
      assert D.Fits(log[i + 1], m);
    }
  }

  lemma AddedOnly(m: D.Message, before: H.Conn, after: H.Conn)
    requires D.OnlyThis(after.log, m)
    ensures D.OnlyThis(Added(before, after), m)
  {
    var n := |before.log|;
    if n <= |after.log| {
      forall i | 0 <= i < |after.log| - n
        ensures D.Fits(after.log[n..][i], m)
      {
        assert D.Fits(after.log[n + i], m);
      }
    }
  }

  /** A reader that is still looking for the head has done nothing but wait. */
  lemma {:induction false} StillHeading(o: H.Owner, r: H.Conn)
    requires H.Valid(r) && H.Run(o, r).mode.Heading?
    ensures H.Run(o, r) == r
    decreases H.Waiting(r)
  {
    if !H.Stuck(r) {
      H.StepProgress(o, r);
      NoMoreHeading(o, r);
      StillHeading(o, H.Step(o, r));
    }
  }

  lemma NoMoreHeading(o: H.Owner, r: H.Conn)
    requires H.Valid(r) && !H.Stuck(r)
    ensures !H.Step(o, r).mode.Heading?
  {
    if r.mode.Heading? { HeadGoes(o, r.mode.buffer, r.log); }
  }

  lemma HeadGoes(o: H.Owner, buffer: seq<Byte>, log: seq<H.Event>)
    ensures !H.HeadStep(o, buffer, log).mode.Heading?
  {
  }

  /** A reader that does not read any more does not change. */
  lemma NotLive(o: H.Owner, r: H.Conn, piece: seq<Byte>)
    requires H.Valid(r) && !H.Live(r)
    ensures H.Feed(o, r, piece) == r
  {
  }

  /** What one read hands on is the next part of the body. */
  lemma FreshIsNext(o: H.Owner, m: D.Message, r: Reader, piece: seq<Byte>, after: H.Conn)
    requires D.WellFormed(m) && H.Valid(r.conn) && D.Follows(m, r.conn, r.read) && r.read + piece <= D.Stream(m)
    requires after == H.Feed(o, r.conn, piece)
    ensures D.Follows(m, after, r.read + piece)
    ensures BodyOf(r.conn) <= Handed(r.conn, after) <= m.body
    ensures HandedOver(Added(r.conn, after)).Some? ==> Handed(r.conn, after) == m.body
  {
    D.FeedFollows(o, m, r.conn, r.read, piece);
    AddedOnly(m, r.conn, after);
    HandedOverIs(m, Added(r.conn, after));
    if r.conn.mode.Body? {
      D.HandedIsPrefix(m, r.conn, r.read);
      D.FeedAdds(o, r.conn, piece);
    }
    if after.mode.Body? { D.HandedIsPrefix(m, after, r.read + piece); }
  }

  // --- a read ---------------------------------------------------------------------------------------------

  /** Before its next block the service has counted `n` bytes, if it would take one. */
  predicate Awaits(s: R.Service, c: ConnId, n: nat) {
    c in s.conns && (R.Expects(s, c) && s.conns[c].sink.Some? ==> s.conns[c].received == n)
  }

  lemma HeadThrough(g: Setting, x: Net, w: World, c: ConnId, head: HH.Head, k: Choice)
    requires Faithful(g, x) && Settled(g, w) && Carries(w, c) && head == x.write(Parcel(w, c)).head
    ensures var e := R.UploadHeaders(c, x.ask(head), k.opens);
            Through(g, w, Press(g, w, e, k.head), [AtReceiver(e, k.head)], c)
  {
    var e := R.UploadHeaders(c, x.ask(head), k.opens);
    HeadGenuine(g, x, w, c, e);
    PressThrough(g, w, e, k.head, c);
  }

  lemma HeadStep(g: Setting, x: Net, w: World, c: ConnId, before: H.Conn, after: H.Conn, k: Choice) returns (events: seq<Event>)
    requires Faithful(g, x) && Settled(g, w) && Carries(w, c)
    requires Announces(x, w, c, before, after)
    ensures Through(g, w, HeadRead(g, x, w, c, before, after, k), events, c)
  {
    var announced := Announced(Added(before, after));
    if before.mode.Heading? && announced.Some? {
      HeadThrough(g, x, w, c, announced.value, k);
      events := [AtReceiver(R.UploadHeaders(c, x.ask(announced.value), k.opens), k.head)];
    } else {
      StayThrough(g, w, c);
      events := [];
    }
  }

  lemma HeadAwaits(g: Setting, x: Net, w: World, c: ConnId, before: H.Conn, after: H.Conn, k: Choice)
    requires RI.UploadsOk(w.receiver) && InStep(w.receiver, c, before) && H.Live(before)
    ensures Awaits(HeadRead(g, x, w, c, before, after, k).receiver, c, |BodyOf(before)|)
  {
    var announced := Announced(Added(before, after));
    if before.mode.Heading? && announced.Some? {
      PressedHead(g, w, R.UploadHeaders(c, x.ask(announced.value), k.opens), k.head);
    } else {
      NothingPressed(w, c, before);
    }
  }

  lemma HeadGenuine(g: Setting, x: Net, w: World, c: ConnId, e: R.Event)
    requires Faithful(g, x) && Carries(w, c) && e.UploadHeaders? && e.c == c
    requires e.request == x.ask(x.write(Parcel(w, c)).head)
    ensures Genuine(g, w, e)
  {
    assert x.write(Parcel(w, c)).body == g.source(Parcel(w, c).path);
  }

  lemma PressedHead(g: Setting, w: World, e: R.Event, drops: set<ConnId>)
    requires e.UploadHeaders? && e.c in w.receiver.conns
    requires R.Expects(w.receiver, e.c) ==> w.receiver.conns[e.c].received == 0
    ensures Awaits(Press(g, w, e, drops).receiver, e.c, 0)
  {
    if R.Enabled(w.receiver, e) { RC.HeadLater(w.receiver, e.c, e.request, e.opens, drops); }
  }

  lemma NothingPressed(w: World, c: ConnId, before: H.Conn)
    requires RI.UploadsOk(w.receiver) && InStep(w.receiver, c, before) && H.Live(before)
    ensures Awaits(w.receiver, c, |BodyOf(before)|)
  {
    assert !w.receiver.conns[c].headSeen ==> RI.Untouched(w.receiver.conns[c]);
  }

  /** And after it it has counted them too, once the head has been seen. */
  predicate HasCounted(s: R.Service, c: ConnId, n: nat) {
    c in s.conns && (R.Expects(s, c) && s.conns[c].headSeen ==> s.conns[c].received == n)
  }

  lemma BlockGenuine(g: Setting, w: World, e: R.Event, n: nat)
    requires e.Block? && Carries(w, e.c) && Awaits(w.receiver, e.c, n)
    requires n + |e.data| <= |Body(g, w, e.c)| && e.data == Body(g, w, e.c)[n..n + |e.data|]
    ensures R.Enabled(w.receiver, e) ==> Genuine(g, w, e)
  {
  }

  lemma BlockStep(g: Setting, w: World, c: ConnId, data: seq<Byte>, n: nat, k: Choice) returns (events: seq<Event>)
    requires Settled(g, w) && Carries(w, c) && Awaits(w.receiver, c, n)
    requires n + |data| <= |Body(g, w, c)| && data == Body(g, w, c)[n..n + |data|]
    ensures Through(g, w, BlockRead(g, w, c, data, k), events, c)
    ensures HasCounted(BlockRead(g, w, c, data, k).receiver, c, n + |data|)
  {
    if data == [] {
      events := [];
      StayThrough(g, w, c);
    } else {
      var e := R.Block(c, data, H.Min(k.taken, |data|));
      BlockGenuine(g, w, e, n);
      PressThrough(g, w, e, k.block, c);
      PressedBlock(g, w, e, k.block, n);
      events := [AtReceiver(e, k.block)];
    }
  }

  lemma PressedBlock(g: Setting, w: World, e: R.Event, drops: set<ConnId>, n: nat)
    requires e.Block? && e.data != [] && e.taken <= |e.data| && Awaits(w.receiver, e.c, n) && RC.SinksKnown(w.receiver)
    ensures HasCounted(Press(g, w, e, drops).receiver, e.c, n + |e.data|)
  {
    if R.Enabled(w.receiver, e) { RC.BlockLater(w.receiver, e.c, e.data, e.taken, drops); }
  }

  /** Nothing more is expected of a body that has been handed over. */
  predicate Closes(s: R.Service, c: ConnId) {
    c in s.conns && (R.Expects(s, c) ==> !s.conns[c].headSeen)
  }

  lemma EndStep(g: Setting, w: World, c: ConnId, over: bool, n: nat, k: Choice) returns (events: seq<Event>)
    requires Settled(g, w) && Carries(w, c) && HasCounted(w.receiver, c, n) && (over ==> n == |Body(g, w, c)|)
    ensures Through(g, w, EndRead(g, w, c, over, k), events, c)
    ensures HasCounted(EndRead(g, w, c, over, k).receiver, c, n) && (over ==> Closes(EndRead(g, w, c, over, k).receiver, c))
  {
    if over {
      var e := R.BodyEnd(c, k.renames);
      PressThrough(g, w, e, k.end, c);
      PressedEnd(g, w, e, k.end, n);
      events := [AtReceiver(e, k.end)];
    } else {
      events := [];
      StayThrough(g, w, c);
    }
  }

  lemma PressedEnd(g: Setting, w: World, e: R.Event, drops: set<ConnId>, n: nat)
    requires e.BodyEnd? && HasCounted(w.receiver, e.c, n) && RI.UploadsOk(w.receiver)
    ensures var v := Press(g, w, e, drops); HasCounted(v.receiver, e.c, n) && Closes(v.receiver, e.c)
  {
    assert e.c in w.receiver.uploads ==> RI.UploadOk(w.receiver, e.c);
    if R.Enabled(w.receiver, e) { RC.EndLater(g.env, w.receiver, e.c, e.renames, drops); }
  }

  /** What a read adds, in numbers: from `n` bytes to `total`, and all of them if the body is over. */
  ghost predicate Hands(g: Setting, x: Net, w: World, c: ConnId, before: H.Conn, after: H.Conn, n: nat, total: nat)
    requires Carries(w, c)
  {
    var added, data := Added(before, after), Fresh(before, after);
    && Announces(x, w, c, before, after)
    && n == |BodyOf(before)| && total == n + |data| <= |Body(g, w, c)| && data == Body(g, w, c)[n..total]
    && total == |Handed(before, after)|
    && (HandedOver(added).Some? ==> total == |Body(g, w, c)|)
  }

  lemma ReadHands(g: Setting, x: Net, w: World, c: ConnId, r: Reader, piece: seq<Byte>, after: H.Conn)
    requires Faithful(g, x) && Carries(w, c) && Synced(x, w, c, r)
    requires r.read + piece <= D.Stream(x.write(Parcel(w, c))) && after == H.Feed(x.owner(c), r.conn, piece)
    ensures Hands(g, x, w, c, r.conn, after, |BodyOf(r.conn)|, |Handed(r.conn, after)|)
    ensures D.Follows(x.write(Parcel(w, c)), after, r.read + piece)
  {
    var m := x.write(Parcel(w, c));
    assert D.WellFormed(m) && m.body == Body(g, w, c);
    FreshIsNext(x.owner(c), m, r, piece, after);
    D.BetweenPrefixes(BodyOf(r.conn), Handed(r.conn, after), m.body);
    AddedOnly(m, r.conn, after);
    AnnouncedIs(m, Added(r.conn, after));
  }

  /** The same request is carried through one step. */
  lemma SameParcels(w: World, v: World, c: ConnId)
    requires OnlyOne(w, v, c)
    ensures forall d :: Carries(v, d) <==> Carries(w, d)
    ensures forall d :: Carries(w, d) ==> Parcel(v, d) == Parcel(w, d)
  {
  }

  lemma SameBody(g: Setting, w: World, v: World, c: ConnId)
    requires OnlyOne(w, v, c) && Carries(w, c)
    ensures Carries(v, c) && Body(g, v, c) == Body(g, w, c)
  {
  }

  lemma HeadThenBlock(g: Setting, w: World, w1: World, w2: World, c: ConnId, a: seq<Event>, data: seq<Byte>, n: nat, k: Choice)
    returns (events: seq<Event>)
    requires Carries(w, c) && Through(g, w, w1, a, c) && Awaits(w1.receiver, c, n) && w2 == BlockRead(g, w1, c, data, k)
    requires n + |data| <= |Body(g, w, c)| && data == Body(g, w, c)[n..n + |data|]
    ensures Through(g, w, w2, events, c) && HasCounted(w2.receiver, c, n + |data|)
  {
    SameBody(g, w, w1, c);
    var b := BlockStep(g, w1, c, data, n, k);
    ThroughTwice(g, w, w1, w2, a, b, c);
    events := a + b;
  }

  /** What the head in a read says is what the request says. */
  predicate Announces(x: Net, w: World, c: ConnId, before: H.Conn, after: H.Conn)
    requires Carries(w, c)
  {
    var announced := Announced(Added(before, after));
    announced.Some? ==> announced.value == x.write(Parcel(w, c)).head
  }

  lemma HeadReady(g: Setting, x: Net, w: World, c: ConnId, before: H.Conn, after: H.Conn, k: Choice, w1: World)
    returns (events: seq<Event>)
    requires Faithful(g, x) && Settled(g, w) && Carries(w, c) && InStep(w.receiver, c, before) && H.Live(before)
    requires Announces(x, w, c, before, after) && w1 == HeadRead(g, x, w, c, before, after, k)
    ensures Through(g, w, w1, events, c) && Awaits(w1.receiver, c, |BodyOf(before)|)
  {
    events := HeadStep(g, x, w, c, before, after, k);
    HeadAwaits(g, x, w, c, before, after, k);
  }

  lemma BlockThenEnd(g: Setting, w: World, w2: World, v: World, c: ConnId, a: seq<Event>, over: bool, total: nat, k: Choice)
    returns (events: seq<Event>)
    requires Carries(w, c) && Through(g, w, w2, a, c) && HasCounted(w2.receiver, c, total) && v == EndRead(g, w2, c, over, k)
    requires over ==> total == |Body(g, w, c)|
    ensures Through(g, w, v, events, c) && HasCounted(v.receiver, c, total) && (over ==> Closes(v.receiver, c))
  {
    SameBody(g, w, w2, c);
    var b := EndStep(g, w2, c, over, total, k);
    ThroughTwice(g, w, w2, v, a, b, c);
    events := a + b;
  }

  /** Three steps, one after another. */
  lemma ThreeSteps(g: Setting, w: World, w1: World, w2: World, v: World, c: ConnId, a: seq<Event>, data: seq<Byte>, over: bool,
                   n: nat, total: nat, k: Choice)
    returns (events: seq<Event>)
    requires Carries(w, c) && Through(g, w, w1, a, c) && Awaits(w1.receiver, c, n)
    requires w2 == BlockRead(g, w1, c, data, k) && v == EndRead(g, w2, c, over, k)
    requires n + |data| == total <= |Body(g, w, c)| && data == Body(g, w, c)[n..n + |data|] && (over ==> total == |Body(g, w, c)|)
    ensures Through(g, w, v, events, c) && HasCounted(v.receiver, c, total) && (over ==> Closes(v.receiver, c))
  {
    var b := HeadThenBlock(g, w, w1, w2, c, a, data, n, k);
    events := BlockThenEnd(g, w, w2, v, c, b, over, total, k);
  }

  lemma HandsParts(g: Setting, x: Net, w: World, c: ConnId, before: H.Conn, after: H.Conn, n: nat, total: nat, data: seq<Byte>, over: bool)
    requires Carries(w, c) && Hands(g, x, w, c, before, after, n, total)
    requires data == Fresh(before, after) && over == HandedOver(Added(before, after)).Some?
    ensures Announces(x, w, c, before, after) && n == |BodyOf(before)|
    ensures n + |data| == total <= |Body(g, w, c)| && data == Body(g, w, c)[n..n + |data|] && (over ==> total == |Body(g, w, c)|)
  {
  }

  /** A read of a live reader is up to three events, each of which may happen, and leaves the two in
      step. */
  lemma LiveRead(g: Setting, x: Net, w: World, c: ConnId, before: H.Conn, after: H.Conn, k: Choice, n: nat, total: nat, v: World)
    returns (events: seq<Event>)
    requires Faithful(g, x) && Settled(g, w) && Carries(w, c) && InStep(w.receiver, c, before) && H.Live(before)
    requires Hands(g, x, w, c, before, after, n, total) && v == AfterRead(g, x, w, c, before, after, k)
    ensures Through(g, w, v, events, c) && HasCounted(v.receiver, c, total)
    ensures HandedOver(Added(before, after)).Some? ==> Closes(v.receiver, c)
  {
    var data, over := Fresh(before, after), HandedOver(Added(before, after)).Some?;
    HandsParts(g, x, w, c, before, after, n, total, data, over);
    var w1 := HeadRead(g, x, w, c, before, after, k);
    var a := HeadReady(g, x, w, c, before, after, k, w1);
    var w2 := BlockRead(g, w1, c, data, k);
    events := ThreeSteps(g, w, w1, w2, v, c, a, data, over, n, total, k);
  }

  /** The reader that is left, and the service, are in step. */
  lemma StaysInStep(s: R.Service, c: ConnId, before: H.Conn, after: H.Conn, total: nat)
    requires !after.mode.Heading? && HasCounted(s, c, total) && total == |Handed(before, after)|
    requires HandedOver(Added(before, after)).Some? ==> Closes(s, c)
    ensures InStep(s, c, after)
  {
  }

  /** A read that brings nothing out of the reader changes nothing else. */
  lemma QuietRead(g: Setting, x: Net, w: World, c: ConnId, before: H.Conn, after: H.Conn, k: Choice)
    requires after.log == before.log && (before.mode.Body? <==> after.mode.Body?) && !after.mode.Body?
    ensures AfterRead(g, x, w, c, before, after, k) == w
  {
    assert Added(before, after) == [];
  }

  lemma ReadWorld(g: Setting, x: Net, w: World, c: ConnId, r: Reader, piece: seq<Byte>, k: Choice, after: H.Conn, v: World)
    returns (events: seq<Event>)
    requires Faithful(g, x) && Settled(g, w) && Carries(w, c) && Synced(x, w, c, r)
    requires r.read + piece <= D.Stream(x.write(Parcel(w, c))) && after == H.Feed(x.owner(c), r.conn, piece)
    requires v == AfterRead(g, x, w, c, r.conn, after, k)
    ensures Through(g, w, v, events, c) && InStep(v.receiver, c, after)
  {
    if !H.Live(r.conn) {
      NotLive(x.owner(c), r.conn, piece);
      QuietRead(g, x, w, c, r.conn, after, k);
      StayThrough(g, w, c);
      events := [];
    } else if after.mode.Heading? {
      StillHeading(x.owner(c), H.Ext(r.conn, piece));
      QuietRead(g, x, w, c, r.conn, after, k);
      StayThrough(g, w, c);
      events := [];
    } else {
      ReadHands(g, x, w, c, r, piece, after);
      events := LiveRead(g, x, w, c, r.conn, after, k, |BodyOf(r.conn)|, |Handed(r.conn, after)|, v);
      StaysInStep(v.receiver, c, r.conn, after, |Handed(r.conn, after)|);
    }
  }

  // --- the others ---------------------------------------------------------------------------------------

  lemma LaterInStep(s: R.Service, t: R.Service, d: ConnId, r: H.Conn)
    requires InStep(s, d, r) && d in t.conns && RC.Later(s.conns[d], t.conns[d])
    ensures InStep(t, d, r)
  {
  }

  lemma OthersSynced(x: Net, w: World, v: World, c: ConnId, d: ConnId, r: Reader)
    requires OnlyOne(w, v, c) && d != c && Carries(w, d) && Synced(x, w, d, r)
    ensures Carries(v, d) && Synced(x, v, d, r)
  {
    LaterInStep(w.receiver, v.receiver, d, r.conn);
  }

  lemma ReadSynced(g: Setting, x: Net, w: World, v: World, c: ConnId, r: Reader, piece: seq<Byte>, after: H.Conn)
    requires Faithful(g, x) && Carries(w, c) && Synced(x, w, c, r) && OnlyOne(w, v, c)
    requires r.read + piece <= D.Stream(x.write(Parcel(w, c))) && after == H.Feed(x.owner(c), r.conn, piece)
    requires InStep(v.receiver, c, after)
    ensures Carries(v, c) && Synced(x, v, c, Reader(after, r.read + piece))
  {
    ReadHands(g, x, w, c, r, piece, after);
  }

  lemma ReadReaders(x: Net, w: World, v: World, c: ConnId, readers: Readers, r: Reader)
    requires ReadersOk(x, w, readers) && OnlyOne(w, v, c) && Carries(v, c) && Synced(x, v, c, r)
    ensures ReadersOk(x, v, readers[c := r])
  {
    SameParcels(w, v, c);
    forall d | Carries(v, d)
      ensures Synced(x, v, d, ReaderOf(readers[c := r], d))
    {
      if d != c { OthersSynced(x, w, v, c, d, ReaderOf(readers, d)); }
    }
  }

  lemma ReadKeeps(g: Setting, x: Net, b: Wired, c: ConnId, piece: seq<Byte>, k: Choice, after: Wired) returns (events: seq<Event>)
    requires Faithful(g, x) && Settled(g, b.world) && ReadersOk(x, b.world, b.readers)
    requires CanWire(g, x, b, Reads(c, piece, k)) && after == WireAfter(g, x, b, Reads(c, piece, k))
    ensures Through(g, b.world, after.world, events, c) && ReadersOk(x, after.world, after.readers)
  {
    var r, read := ReaderOf(b.readers, c), H.Feed(x.owner(c), ReaderOf(b.readers, c).conn, piece);
    events := ReadWorld(g, x, b.world, c, r, piece, k, read, after.world);
    ReadSynced(g, x, b.world, after.world, c, r, piece, read);
    ReadReaders(x, b.world, after.world, c, b.readers, Reader(read, r.read + piece));
  }

  // --- events that do not come out of bytes ---------------------------------------------------------------

  /** Nothing has been read of a request that has just arrived. */
  lemma FreshSynced(g: Setting, x: Net, w: World, c: ConnId)
    requires Faithful(g, x) && Carries(w, c) && c in w.receiver.conns && w.receiver.conns[c].received == 0
    ensures Synced(x, w, c, Reader(H.FRESH, []))
  {
    assert x.write(Parcel(w, c)).body == g.source(Parcel(w, c).path);
  }

  lemma SenderReaders(x: Net, w: World, v: World, readers: Readers)
    requires WireOk(w) && Known(w) && AtOneEnd(w, v) && ReadersOk(x, w, readers)
    ensures ReadersOk(x, v, readers)
  {
    SameBodies(w, v);
    forall c | Carries(v, c)
      ensures Synced(x, v, c, ReaderOf(readers, c))
    {
      assert Synced(x, w, c, ReaderOf(readers, c));
    }
  }

  /** A connection has come, carrying `q`. */
  predicate CameIn(w: World, v: World, c: ConnId, q: ReplyId) {
    && v.mail == w.mail && v.wire == w.wire[c := q]
    && c in v.receiver.conns && v.receiver.conns[c].received == 0
    && v.receiver.conns == w.receiver.conns[c := v.receiver.conns[c]]
  }

  lemma OldSynced(x: Net, w: World, v: World, c: ConnId, q: ReplyId, d: ConnId, r: Reader)
    requires CameIn(w, v, c, q) && d != c && Carries(v, d) && Carries(w, d) && Synced(x, w, d, r)
    ensures Synced(x, v, d, r)
  {
  }

  lemma NotYetRead(x: Net, w: World, readers: Readers, c: ConnId)
    requires TablesOk(w) && ReadersOk(x, w, readers) && c !in w.receiver.conns
    ensures c !in w.wire && c !in readers
  {
    assert c in readers ==> Carries(w, c);
  }

  lemma CarriedBefore(w: World, v: World, c: ConnId, q: ReplyId, d: ConnId)
    requires CameIn(w, v, c, q) && d != c && Carries(v, d)
    ensures Carries(w, d)
  {
  }

  lemma StillCarried(w: World, v: World, c: ConnId, q: ReplyId, readers: Readers)
    requires CameIn(w, v, c, q) && c !in readers && forall d :: d in readers ==> Carries(w, d)
    ensures forall d :: d in readers ==> Carries(v, d)
  {
    forall d | d in readers
      ensures Carries(v, d)
    {
      assert Carries(w, d) && d != c;
    }
  }

  lemma ReachesReaders(g: Setting, x: Net, w: World, v: World, c: ConnId, q: ReplyId, readers: Readers)
    requires Faithful(g, x) && TablesOk(w) && ReadersOk(x, w, readers) && c !in w.receiver.conns && CameIn(w, v, c, q)
    ensures ReadersOk(x, v, readers)
  {
    NotYetRead(x, w, readers, c);
    StillCarried(w, v, c, q, readers);
    forall d | Carries(v, d)
      ensures Synced(x, v, d, ReaderOf(readers, d))
    {
      if d == c {
        FreshSynced(g, x, v, c);
      } else {
        CarriedBefore(w, v, c, q, d);
        OldSynced(x, w, v, c, q, d, ReaderOf(readers, d));
      }
    }
  }

  /** Whoever it is about does not carry an upload. */
  lemma NotItsOwn(g: Setting, w: World, e: R.Event, d: ConnId)
    requires Genuine(g, w, e) && !OutOfBytes(w, AtReceiver(e, {})) && Carries(w, d)
    ensures d !in RC.Actor(e)
  {
  }

  lemma ReceiverTurnSynced(g: Setting, x: Net, w: World, e: R.Event, drops: set<ConnId>, v: World, d: ConnId, r: Reader)
    requires R.Enabled(w.receiver, e) && Genuine(g, w, e) && !OutOfBytes(w, AtReceiver(e, drops)) && v == ToReceiver(g, w, e, drops)
    requires Carries(w, d) && d in w.receiver.conns && Synced(x, w, d, r)
    ensures Synced(x, v, d, r)
  {
    NotItsOwn(g, w, e, d);
    if !e.Connected? {
      RC.NextLater(g.env, w.receiver, e, drops);
      LaterInStep(w.receiver, v.receiver, d, r.conn);
    }
  }

  lemma ReceiverReaders(g: Setting, x: Net, w: World, e: R.Event, drops: set<ConnId>, v: World, readers: Readers)
    requires TablesOk(w) && ReadersOk(x, w, readers) && R.Enabled(w.receiver, e) && Genuine(g, w, e)
    requires !OutOfBytes(w, AtReceiver(e, drops)) && v == ToReceiver(g, w, e, drops)
    ensures ReadersOk(x, v, readers)
  {
    forall c | Carries(v, c)
      ensures Synced(x, v, c, ReaderOf(readers, c))
    {
      assert Carries(w, c);
      ReceiverTurnSynced(g, x, w, e, drops, v, c, ReaderOf(readers, c));
    }
  }

  lemma OtherSettles(g: Setting, w: World, e: Event)
    requires Settled(g, w) && Can(g, w, e)
    ensures Settled(g, EndToEnd.After(g, w, e))
  {
    TakeKeeps(g, w, e);
    match e
    case AtSender(_) =>
    case Reaches(_, c, address) => RC.NextSinks(g.env, w.receiver, R.Connected(c, address), {});
    case AtReceiver(step, drops) => RC.NextSinks(g.env, w.receiver, step, drops);
  }

  lemma SenderSends(g: Setting, w: World, e: S.Event, v: World)
    requires Inv(g, w) && S.Enabled(w.sender, e) && Plausible(g, w, e) && v == ToSender(w, e)
    ensures WireOk(w) && Known(w) && AtOneEnd(w, v)
  {
    SenderStep(g, w, e, v);
  }

  lemma OtherReaders(g: Setting, x: Net, w: World, e: Event, v: World, readers: Readers)
    requires Faithful(g, x) && Inv(g, w) && ReadersOk(x, w, readers)
    requires Can(g, w, e) && !OutOfBytes(w, e) && v == EndToEnd.After(g, w, e)
    ensures ReadersOk(x, v, readers)
  {
    match e
    case AtSender(action) =>
      SenderSends(g, w, action, v);
      SenderReaders(x, w, v, readers);
    case Reaches(q, c, address) => ReachesReaders(g, x, w, v, c, q, readers);
    case AtReceiver(step, drops) => ReceiverReaders(g, x, w, step, drops, v, readers);
  }

  // --- runs -----------------------------------------------------------------------------------------------

  function Start(disk: map<Text, seq<Byte>>): Wired {
    Wired(EndToEndSafety.Start(disk), map[])
  }

  ghost function WireTake(g: Setting, x: Net, b: Wired, e: WireEvent): Wired {
    if CanWire(g, x, b, e) then WireAfter(g, x, b, e) else b
  }

  ghost function WireRun(g: Setting, x: Net, b: Wired, events: seq<WireEvent>): Wired
    decreases |events|
  {
    if events == [] then b else WireRun(g, x, WireTake(g, x, b, events[0]), events[1..])
  }

  lemma WireTurn(g: Setting, x: Net, b: Wired, e: WireEvent) returns (events: seq<Event>)
    requires Faithful(g, x) && WiredOk(g, x, b)
    ensures WiredOk(g, x, WireTake(g, x, b, e)) && RunAll(g, b.world, events) == WireTake(g, x, b, e).world
  {
    events := [];
    if CanWire(g, x, b, e) {
      match e {
        case Other(event) =>
          OtherSettles(g, b.world, event);
          OtherReaders(g, x, b.world, event, EndToEnd.After(g, b.world, event), b.readers);
          OneEvent(g, b.world, event);
          events := [event];
        case Reads(c, piece, k) => events := ReadKeeps(g, x, b, c, piece, k, WireAfter(g, x, b, e));
      }
    }
  }

  /** Every run over bytes is, in what the two ends do, a run of the events that the end-to-end theorems
      are about. */
  lemma {:induction false} BytesAreEvents(g: Setting, x: Net, b: Wired, wires: seq<WireEvent>) returns (events: seq<Event>)
    requires Faithful(g, x) && WiredOk(g, x, b)
    ensures WiredOk(g, x, WireRun(g, x, b, wires)) && RunAll(g, b.world, events) == WireRun(g, x, b, wires).world
    decreases |wires|
  {
    if wires == [] {
      events := [];
    } else {
      var first := WireTurn(g, x, b, wires[0]);
      var next := WireTake(g, x, b, wires[0]);
      var rest := BytesAreEvents(g, x, next, wires[1..]);
      RunJoin(g, b.world, first, rest);
      events := first + rest;
    }
  }

  lemma StartsWired(g: Setting, x: Net, disk: map<Text, seq<Byte>>)
    ensures WiredOk(g, x, Start(disk))
  {
    StartInv(g, disk);
  }

  /** With bytes in between, cut into any fragments: a file the sender counts as done was delivered. */
  lemma DoneThroughBytes(g: Setting, x: Net, disk: map<Text, seq<Byte>>, wires: seq<WireEvent>, i: nat)
    requires Faithful(g, x)
    requires var w := WireRun(g, x, Start(disk), wires).world;
             i < |w.sender.files| && IsDone(w.sender.files[i])
    ensures var w := WireRun(g, x, Start(disk), wires).world;
            exists c :: Delivered(g, w, w.sender.files[i], c)
  {
    StartsWired(g, x, disk);
    var events := BytesAreEvents(g, x, Start(disk), wires);
    DoneIsDelivered(g, disk, events, i);
  }
}
